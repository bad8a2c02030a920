/** The actor processes' steps keep the invariant of smooth runs. */
module ActorSteps {
  import opened Protocol
  import opened S = System
  import opened Invariant
  import Proxy
  import Accounting
  import Directory
  import Registry

  predicate SameAnswering(a: Pc, b: Pc) {
    a == b || (!a.Answering? && !b.Answering?)
  }

  /** A node change that does not show in the chains its process is on. */
  ghost predicate Unseen(px: Proxy.State, p: nat, m: Node, n: Node) {
    && SameAnswering(m.pc, n.pc) && m.proc.seq_ <= n.proc.seq_
    && (Free(px, p) ||
        (n.proc.wait == m.proc.wait && n.proc.job == m.proc.job && n.up == m.up &&
         (NoAnswer(m.down) ==> NoAnswer(n.down))))
  }

  lemma WantedUnseen(env: Env, s: Sys, p: nat, n: Node, c: Text, q: nat)
    requires Inv(env, s) && p in s.net && Unseen(s.px, p, s.net[p], n)
    ensures Wanted(s.px, s.net[p := n], c, q) == Wanted(s.px, s.net, c, q)
  {
    hide Directory.Listed, NodesOK, HandlersOK, Distinct;
    var ch := Proxy.Chain(s.px, c);
    if |ch| >= 2 && ch[|ch| - 2] == p {
      assert InBody(s.px, c, p);
    }
  }

  lemma AwaitedUnseen(px: Proxy.State, net: map<nat, Node>, p: nat, n: Node, q: nat)
    requires p in net && SameAnswering(net[p].pc, n.pc) && Awaited(px, net, q)
    ensures Awaited(px, net[p := n], q)
  {
    hide IsTop;
    var h :| h in net && net[h].pc.Answering? && IsTop(px, net[h].pc.callId, q);
    assert h in net[p := n] && net[p := n][h].pc == net[h].pc;
  }

  lemma InBodyAt(px: Proxy.State, c: Text, i: nat)
    requires c in px.chains && i < |px.chains[c]| - 1
    ensures InBody(px, c, px.chains[c][i])
  {
    assert Proxy.Chain(px, c)[i] == px.chains[c][i];
  }

  lemma SuspendedUnseen(px: Proxy.State, net: map<nat, Node>, p: nat, n: Node, c: Text, q: nat)
    requires p in net && Unseen(px, p, net[p], n) && InBody(px, c, q) && Suspended(px, net, c, q)
    ensures Suspended(px, net[p := n], c, q)
  {
    hide InBody;
  }

  lemma ServingUnseen(px: Proxy.State, net: map<nat, Node>, p: nat, n: Node, c: Text, q: nat, below: nat)
    requires p in net && Unseen(px, p, net[p], n) && InBody(px, c, q) && InBody(px, c, below)
    requires Serving(net, c, q, below)
    ensures Serving(net[p := n], c, q, below)
  {
    hide InBody, NoAnswer;
  }

  lemma ChainUnseen(px: Proxy.State, net: map<nat, Node>, p: nat, n: Node, c: Text)
    requires p in net && Unseen(px, p, net[p], n) && c in px.chains && ChainOK(px, net, c, px.chains[c])
    ensures ChainOK(px, net[p := n], c, px.chains[c])
  {
    assert net[p].proc.seq_ <= n.proc.seq_;
    hide Unseen, Suspended, Serving, Distinct, InBody;
    var ch := px.chains[c];
    forall i | 0 <= i < |ch| - 1 ensures Suspended(px, net[p := n], c, ch[i]) {
      InBodyAt(px, c, i);
      SuspendedUnseen(px, net, p, n, c, ch[i]);
    }
    forall i | 1 <= i < |ch| - 1 ensures Serving(net[p := n], c, ch[i], ch[i - 1]) {
      InBodyAt(px, c, i);
      InBodyAt(px, c, i - 1);
      ServingUnseen(px, net, p, n, c, ch[i], ch[i - 1]);
    }
  }

  lemma NodeUnseen(env: Env, s: Sys, p: nat, n: Node, q: nat)
    requires Inv(env, s) && p in s.net && Unseen(s.px, p, s.net[p], n) && q in s.net
    requires NodeOK(env, s.px, s.net, p, n)
    ensures NodeOK(env, s.px, s.net[p := n], q, s.net[p := n][q])
  {
    assert SameAnswering(s.net[p].pc, n.pc);
    var m := s.net[p := n][q];
    assert NodeOK(env, s.px, s.net, q, m);
    assert BacklogOK(s.px, s.net, q, m.proc.wait, m.up, m.down);
    hide *;
    forall c ensures Wanted(s.px, s.net[p := n], c, q) == Wanted(s.px, s.net, c, q) {
      WantedUnseen(env, s, p, n, c, q);
    }
    if Awaited(s.px, s.net, q) {
      AwaitedUnseen(s.px, s.net, p, n, q);
    }
    if Responding(s.net, q) {
      RespondingUnseen(s.net, p, n, q);
    }
    SameProxyFrame(env, s.px, s.net, s.net[p := n], q, m);
  }

  lemma RespondingUnseen(net: map<nat, Node>, p: nat, n: Node, q: nat)
    requires p in net && SameAnswering(net[p].pc, n.pc) && Responding(net, q)
    ensures Responding(net[p := n], q)
  {
  }

  lemma SameProxyFrame(env: Env, px: Proxy.State, net: map<nat, Node>, ny: map<nat, Node>, q: nat, m: Node)
    requires NodeOK(env, px, net, q, m)
    requires (Awaited(px, net, q) ==> Awaited(px, ny, q)) && (Responding(net, q) ==> Responding(ny, q))
    requires forall c :: Wanted(px, ny, c, q) == Wanted(px, net, c, q)
    ensures NodeOK(env, px, ny, q, m)
  {
    hide Wanted, Awaited, Responding, Tops, Free, IsTop, Frames, UpOK;
    hide DownOK, QueueOK, JobOK, OweOK, AnswersOK, NoAnswer, Generated;
    BacklogKept(px, net, px, ny, q, m);
    NodeFrame(env, px, net, px, ny, q, None, m);
  }

  lemma HandlersUnseen(s: Sys, p: nat, n: Node)
    requires HandlersOK(s) && p in s.net && SameAnswering(s.net[p].pc, n.pc) && PcOK(s.px, p, n.pc)
    ensures HandlersOK(s.(net := s.net[p := n]))
  {
    hide PcOK;
  }

  lemma NodesUnseen(env: Env, s: Sys, p: nat, n: Node)
    requires Inv(env, s) && p in s.net && Unseen(s.px, p, s.net[p], n) && NodeOK(env, s.px, s.net, p, n)
    ensures NodesOK(env, s.(net := s.net[p := n]))
  {
    hide Inv, NodeOK, Unseen;
    var t := s.(net := s.net[p := n]);
    forall q | q in t.net ensures NodeOK(env, t.px, t.net, q, t.net[q]) {
      NodeUnseen(env, s, p, n, q);
    }
  }

  lemma ChainsUnseen(s: Sys, p: nat, n: Node)
    requires ChainsOK(s) && p in s.net && Unseen(s.px, p, s.net[p], n)
    ensures ChainsOK(s.(net := s.net[p := n]))
  {
    hide ChainOK, Unseen;
    var t := s.(net := s.net[p := n]);
    forall c | c in t.px.chains ensures ChainOK(t.px, t.net, c, t.px.chains[c]) {
      ChainUnseen(s.px, s.net, p, n, c);
    }
  }

  /** Changing one actor's node, in a way its chains do not see. */
  lemma ActorStep(env: Env, s: Sys, p: nat, n: Node)
    requires Inv(env, s) && p in s.net && Unseen(s.px, p, s.net[p], n)
    requires NodeOK(env, s.px, s.net, p, n) && PcOK(s.px, p, n.pc)
    requires Directory.Listed(env.cfg, s.(net := s.net[p := n]))
    ensures Inv(env, s.(net := s.net[p := n]))
  {
    assert SameAnswering(s.net[p].pc, n.pc);
    hide Directory.Listed, NodesOK, ChainsOK, HandlersOK, NodeOK, PcOK, Unseen, SameAnswering;
    HandlersUnseen(s, p, n);
    NodesUnseen(env, s, p, n);
    ChainsUnseen(s, p, n);
  }

  lemma ListedHas(cfg: Config, s: Sys, q: nat)
    requires Directory.Listed(cfg, s) && q in s.net
    ensures q in s.px.infos && s.px.infos[q].name == s.net[q].proc.name && Directory.NodeListed(cfg, s.px, q, s.net[q])
  {
    hide Registry.Sound;
  }

  lemma OweLess(px: Proxy.State, p: nat, m: Node, n: Node)
    requires OweOK(px, p, m) && Accounting.Owed(n) <= Accounting.Owed(m)
    ensures OweOK(px, p, n)
  {
    hide Frames, Accounting.Owed;
    forall c ensures Accounting.Owed(n)[c] <= Frames(px, c, p) {
      assert Accounting.Owed(n)[c] <= Accounting.Owed(m)[c];
    }
  }
}
