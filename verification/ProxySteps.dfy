/** The proxy's steps keep the invariant of smooth runs. */
module ProxySteps {
  import opened Protocol
  import opened S = System
  import opened Invariant
  import opened ActorSteps
  import opened ActorNodes
  import Accounting
  import Directory
  import Proxy
  import Registry

  // ----------------------------------------------------- bookkeeping

  lemma PcStep(env: Env, s: Sys, h: nat, pc: Pc)
    requires Inv(env, s) && h in s.net && !s.net[h].pc.Answering?
    requires !pc.Answering? && PcOK(s.px, h, pc) && Directory.PcResolved(s.px, pc)
    ensures Inv(env, SetPc(s, h, pc))
  {
    hide NodesOK, ChainsOK, HandlersOK, Directory.Listed, NodeOK, PcOK, Inv, Free;
    NodeAt(env, s, h);
    InvListed(env, s);
    Directory.PcKeeps(env.cfg, s, h, pc);
    SetPcOK(env, s.px, s.net, h, s.net[h], pc);
    ActorStep(env, s, h, s.net[h].(pc := pc));
  }

  lemma InvListed(env: Env, s: Sys)
    requires Inv(env, s)
    ensures Directory.Listed(env.cfg, s) && Registry.Sound(s.px)
  {
    hide NodesOK, ChainsOK, HandlersOK, Registry.Sound, Directory.NodeListed;
  }

  lemma SetPcOK(env: Env, px: Proxy.State, net: map<nat, Node>, p: nat, n: Node, pc: Pc)
    requires NodeOK(env, px, net, p, n)
    ensures NodeOK(env, px, net, p, n.(pc := pc))
  {
    hide UpOK, QueueOK, DownOK, JobOK, BacklogOK, AnswersOK, Accounting.Owed;
    assert Accounting.Owed(n.(pc := pc)) == Accounting.Owed(n) by {
      OwedIgnoresPc(n, pc);
    }
    OweLess(px, p, n, n.(pc := pc));
  }

  lemma OwedIgnoresPc(n: Node, pc: Pc)
    ensures Accounting.Owed(n.(pc := pc)) == Accounting.Owed(n)
  {
  }

  lemma SameTops(px: Proxy.State, py: Proxy.State)
    requires px.chains == py.chains
    ensures forall c, p :: IsTop(px, c, p) <==> IsTop(py, c, p)
    ensures forall c, p :: InBody(px, c, p) <==> InBody(py, c, p)
    ensures forall c, p :: Tops(px, c, p) <==> Tops(py, c, p)
    ensures forall p :: Free(px, p) <==> Free(py, p)
    ensures forall c, p :: Frames(px, c, p) == Frames(py, c, p)
    ensures forall c, p, net :: Wanted(px, net, c, p) == Wanted(py, net, c, p)
    ensures forall net, p :: Awaited(px, net, p) <==> Awaited(py, net, p)
  {
    forall c ensures Proxy.Chain(px, c) == Proxy.Chain(py, c) {}
  }

  lemma LowerNode(env: Env, px: Proxy.State, net: map<nat, Node>, q: nat, c: Text, p: nat, n: Node)
    requires NodeOK(env, px, net, p, n) && q in px.infos
    ensures NodeOK(env, Proxy.Update(px, q, c, false), net, p, n)
  {
    var py := Proxy.Update(px, q, c, false);
    SameTops(px, py);
    AvoidsNone(py, p, n);
    hide IsTop, Tops, Free, Frames, Wanted, Awaited, Responding, NoAnswer, UpOK;
    hide QueueOK, DownOK, JobOK, OweOK, AnswersOK, Generated, Avoids;
    NodeFrame(env, px, net, py, net, p, None, n);
  }

  lemma LowerChain(px: Proxy.State, net: map<nat, Node>, q: nat, c: Text, d: Text)
    requires d in px.chains && ChainOK(px, net, d, px.chains[d]) && q in px.infos
    ensures ChainOK(Proxy.Update(px, q, c, false), net, d, px.chains[d])
  {
    SameTops(px, Proxy.Update(px, q, c, false));
    hide NoAnswer, Serving, Generated;
  }

  lemma LowerNodes(env: Env, s: Sys, q: nat, c: Text)
    requires NodesOK(env, s) && q in s.px.infos
    ensures NodesOK(env, s.(px := Proxy.Update(s.px, q, c, false)))
  {
    hide NodeOK;
    forall p | p in s.net ensures NodeOK(env, Proxy.Update(s.px, q, c, false), s.net, p, s.net[p]) {
      LowerNode(env, s.px, s.net, q, c, p, s.net[p]);
    }
  }

  lemma LowerChains(s: Sys, q: nat, c: Text)
    requires ChainsOK(s) && q in s.px.infos
    ensures ChainsOK(s.(px := Proxy.Update(s.px, q, c, false)))
  {
    hide ChainOK;
    forall d | d in s.px.chains ensures ChainOK(Proxy.Update(s.px, q, c, false), s.net, d, s.px.chains[d]) {
      LowerChain(s.px, s.net, q, c, d);
    }
  }

  lemma LowerHandlers(s: Sys, q: nat, c: Text)
    requires HandlersOK(s) && q in s.px.infos
    ensures HandlersOK(s.(px := Proxy.Update(s.px, q, c, false)))
  {
    SameTops(s.px, Proxy.Update(s.px, q, c, false));
    hide Free;
  }

  /** A record gets another call id and does not count as waiting any more. The
      invariant does not depend on either. */
  lemma LowerStep(env: Env, s: Sys, q: nat, c: Text)
    requires Inv(env, s) && q in s.px.infos
    ensures Inv(env, s.(px := Proxy.Update(s.px, q, c, false)))
  {
    hide NodesOK, ChainsOK, HandlersOK, Directory.Listed, Registry.Sound;
    InvListed(env, s);
    Registry.UpdateKeeps(s.px, q, c, false);
    Directory.ProxyKeeps(env.cfg, s, Proxy.Update(s.px, q, c, false));
    LowerNodes(env, s, q, c);
    LowerChains(s, q, c);
    LowerHandlers(s, q, c);
  }
}
