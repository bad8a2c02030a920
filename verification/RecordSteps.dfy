/** The proxy's smaller moves: connecting, rooting a chain, queuing a request and
    letting an answered actor go on. */
module RecordSteps {
  import opened Protocol
  import opened CallIds
  import opened S = System
  import opened Invariant
  import opened ActorSteps
  import opened ActorNodes
  import opened ProxySteps
  import Accounting
  import Directory
  import Proxy
  import Registry

  // ----------------------------------------------------------- a new chain

  lemma RootedTop(px: Proxy.State, c: Text, p: nat, d: Text, q: nat)
    requires c !in px.chains
    ensures IsTop(Proxy.Root(px, c, p), d, q) <==> IsTop(px, d, q) || (d == c && q == p)
    ensures InBody(Proxy.Root(px, c, p), d, q) <==> InBody(px, d, q)
    ensures Frames(Proxy.Root(px, c, p), d, q) == Frames(px, d, q)
    ensures Frames(px, c, q) == 0 && !IsTop(px, c, q)
  {
    var ch, more := Proxy.Chain(px, d), Proxy.Chain(Proxy.Root(px, c, p), d);
    if d == c {
      assert more[1..] == [];
    } else {
      assert more == ch;
    }
  }

  lemma RootedWanted(px: Proxy.State, net: map<nat, Node>, c: Text, p: nat, d: Text, q: nat)
    requires c !in px.chains
    ensures Wanted(Proxy.Root(px, c, p), net, d, q) == Wanted(px, net, d, q)
  {
  }

  lemma RootedAwaited(px: Proxy.State, net: map<nat, Node>, c: Text, p: nat, q: nat)
    requires c !in px.chains && Awaited(px, net, q)
    ensures Awaited(Proxy.Root(px, c, p), net, q)
  {
    hide IsTop, InBody, Frames, Proxy.Root;
    var h :| h in net && net[h].pc.Answering? && IsTop(px, net[h].pc.callId, q);
    RootedTop(px, c, p, net[h].pc.callId, q);
  }

  lemma RootedUndisturbed(px: Proxy.State, net: map<nat, Node>, c: Text, p: nat, q: nat)
    requires c !in px.chains
    ensures Undisturbed(px, net, Proxy.Root(px, c, p), net, q, None)
    ensures forall d :: Frames(px, d, q) == Frames(Proxy.Root(px, c, p), d, q)
    ensures forall d :: IsTop(px, d, q) ==> IsTop(Proxy.Root(px, c, p), d, q)
    ensures Free(px, q) <==> Free(Proxy.Root(px, c, p), q)
  {
    var py := Proxy.Root(px, c, p);
    hide IsTop, InBody, Frames, Wanted, Proxy.Root;
    forall d ensures (IsTop(px, d, q) ==> IsTop(py, d, q)) && (InBody(px, d, q) <==> InBody(py, d, q))
                     && Frames(px, d, q) == Frames(py, d, q) && Wanted(py, net, d, q) == Wanted(px, net, d, q)
                     && (IsTop(py, d, q) && !IsTop(px, d, q) ==> Frames(px, d, q) == 0) {
      RootedTop(px, c, p, d, q);
      RootedWanted(px, net, c, p, d, q);
    }
  }

  lemma OnlyGenerator(c: Text, p: nat, m: nat, q: nat, n: nat)
    requires Generated(c, p, m) && Generated(c, q, n)
    ensures p == q
  {
    var i: nat :| 1 <= i <= m && c == MakeCallId(p, i);
    var j: nat :| 1 <= j <= n && c == MakeCallId(q, j);
    MakeCallIdInjective(p, i, q, j);
  }

  lemma RootedNode(env: Env, s: Sys, c: Text, p: nat, q: nat, n: Node)
    requires NodeOK(env, s.px, s.net, q, n) && c !in s.px.chains
    requires q == p ==> n.up == [] && n.proc.wait.Some?
    requires q != p ==> !Generated(c, q, n.proc.seq_)
    ensures NodeOK(env, Proxy.Root(s.px, c, p), s.net, q, n)
  {
    var py := Proxy.Root(s.px, c, p);
    assert NoNewIds(s.px, py, q, n);
    assert py.infos == s.px.infos;
    hide UpOK, QueueOK, DownOK, JobOK, OweOK, AnswersOK, IsTop, Free;
    hide Awaited, Responding, Wanted, Frames, Avoids, NoAnswer;
    hide Generated, Accounting.Owed, Proxy.Root, Undisturbed, NoNewIds;
    RootedUndisturbed(s.px, s.net, c, p, q);
    if Awaited(s.px, s.net, q) {
      RootedAwaited(s.px, s.net, c, p, q);
    }
    AvoidsNone(py, q, n);
    BacklogKept(s.px, s.net, py, s.net, q, n);
    hide BacklogOK;
    NodeFrame(env, s.px, s.net, py, s.net, q, None, n);
  }

  lemma RootedChain(s: Sys, c: Text, p: nat, d: Text, ch: seq<nat>)
    requires c !in s.px.chains && ChainOK(s.px, s.net, d, ch)
    ensures ChainOK(Proxy.Root(s.px, c, p), s.net, d, ch)
  {
    hide Serving, Generated, NoAnswer;
  }

  lemma RootedHandlers(s: Sys, c: Text, p: nat)
    requires HandlersOK(s) && c !in s.px.chains
    ensures HandlersOK(s.(px := Proxy.Root(s.px, c, p)))
  {
    var py := Proxy.Root(s.px, c, p);
    forall h | h in s.net ensures PcOK(py, h, s.net[h].pc) {
      assert PcOK(s.px, h, s.net[h].pc);
      RootedUndisturbed(s.px, s.net, c, p, h);
      hide Free, Undisturbed, IsTop, Frames;
    }
  }

  lemma RootNodes(env: Env, s: Sys, c: Text, p: nat)
    requires Inv(env, s) && c !in s.px.chains && p in s.net && s.net[p].up == [] && s.net[p].proc.wait.Some?
    requires Generated(c, p, s.net[p].proc.seq_)
    ensures NodesOK(env, s.(px := Proxy.Root(s.px, c, p)))
  {
    hide Directory.Listed, ChainsOK, HandlersOK, NodeOK, Generated, Proxy.Root;
    forall q | q in s.net ensures NodeOK(env, Proxy.Root(s.px, c, p), s.net, q, s.net[q]) {
      if q != p && Generated(c, q, s.net[q].proc.seq_) {
        OnlyGenerator(c, p, s.net[p].proc.seq_, q, s.net[q].proc.seq_);
      }
      RootedNode(env, s, c, p, q, s.net[q]);
    }
  }

  lemma RootChains(env: Env, s: Sys, c: Text, p: nat)
    requires Inv(env, s) && c !in s.px.chains && p in s.net && p in s.px.infos
    requires Generated(c, p, s.net[p].proc.seq_)
    ensures ChainsOK(s.(px := Proxy.Root(s.px, c, p)))
  {
    hide Directory.Listed, NodesOK, HandlersOK, Generated;
    var py := Proxy.Root(s.px, c, p);
    forall d | d in py.chains ensures ChainOK(py, s.net, d, py.chains[d]) {
      if d != c {
        RootedChain(s, c, p, d, s.px.chains[d]);
      }
    }
  }

  /** A request under a new id roots a chain at its sender. */
  lemma RootStep(env: Env, s: Sys, c: Text, p: nat)
    requires Inv(env, s) && c !in s.px.chains && p in s.net && p in s.px.infos
    requires s.net[p].up == [] && s.net[p].proc.wait.Some?
    requires Generated(c, p, s.net[p].proc.seq_)
    ensures Inv(env, s.(px := Proxy.Root(s.px, c, p)))
  {
    hide NodesOK, ChainsOK, HandlersOK, Directory.Listed, Generated, Registry.Sound, Registry.Extends;
    RootNodes(env, s, c, p);
    RootChains(env, s, c, p);
    RootedHandlers(s, c, p);
    InvListed(env, s);
    Registry.ChainKeeps(s.px, c, [p]);
    Directory.ProxyKeeps(env.cfg, s, Proxy.Root(s.px, c, p));
  }

  // ------------------------------------------------- a change of one record

  /** Only the record of `a` changes, and `a` is on no chain but as its top. */
  ghost predicate OneRecord(s: Sys, a: nat, info: Proxy.Info) {
    a in s.net && a in s.px.infos && info.name == s.px.infos[a].name && Free(s.px, a)
  }

  function Recorded(px: Proxy.State, a: nat, info: Proxy.Info): Proxy.State {
    px.(infos := px.infos[a := info])
  }

  lemma RecordNode(env: Env, s: Sys, a: nat, info: Proxy.Info, q: nat, n: Node)
    requires NodeOK(env, s.px, s.net, q, n) && a in s.px.infos
    requires q == a ==> (NoAnswer(n.down) || info.queue == []) &&
                        BacklogOK(Recorded(s.px, a, info), s.net, a, n.proc.wait, n.up, n.down)
    ensures NodeOK(env, Recorded(s.px, a, info), s.net, q, n)
  {
    var py := Recorded(s.px, a, info);
    SameTops(s.px, py);
    AvoidsNone(py, q, n);
    hide IsTop, Tops, Free, Frames, Wanted, Awaited, Responding, NoAnswer;
    hide UpOK, QueueOK, DownOK, JobOK, OweOK, AnswersOK, Generated, Avoids;
    assert py.chains == s.px.chains;
    NodeFrame(env, s.px, s.net, py, s.net, q, None, n);
  }

  lemma RecordChain(s: Sys, a: nat, info: Proxy.Info, d: Text)
    requires OneRecord(s, a, info) && d in s.px.chains && ChainOK(s.px, s.net, d, s.px.chains[d])
    ensures ChainOK(Recorded(s.px, a, info), s.net, d, s.px.chains[d])
  {
    var py, ch := Recorded(s.px, a, info), s.px.chains[d];
    SameTops(s.px, py);
    hide NoAnswer, Serving, Generated;
    forall i | 0 <= i < |ch| - 1 ensures Suspended(py, s.net, d, ch[i]) {
      InBodyAt(s.px, d, i);
      assert Suspended(s.px, s.net, d, ch[i]);
    }
  }

  lemma RecordParts(env: Env, s: Sys, a: nat, info: Proxy.Info)
    requires Inv(env, s) && OneRecord(s, a, info)
    requires Registry.QueueResolved(s.px, info.queue)
    requires NoAnswer(s.net[a].down) || info.queue == []
    requires BacklogOK(Recorded(s.px, a, info), s.net, a, s.net[a].proc.wait, s.net[a].up, s.net[a].down)
    ensures var t := s.(px := Recorded(s.px, a, info));
            Directory.Listed(env.cfg, t) && NodesOK(env, t) && ChainsOK(t)
  {
    hide NodeOK, ChainOK, HandlersOK, BacklogOK, Directory.Listed, Registry.Sound;
    hide Registry.Extends, NoAnswer, Free, Recorded;
    hide Registry.QueueResolved;
    var t := s.(px := Recorded(s.px, a, info));
    RecordedIs(s.px, a, info);
    InvListed(env, s);
    Registry.InfoKeeps(s.px, a, info);
    Directory.ProxyKeeps(env.cfg, s, t.px);
    forall q | q in t.net ensures NodeOK(env, t.px, t.net, q, t.net[q]) {
      NodeAt(env, s, q);
      RecordNode(env, s, a, info, q, s.net[q]);
    }
    forall d | d in t.px.chains ensures ChainOK(t.px, t.net, d, t.px.chains[d]) {
      RecordChain(s, a, info, d);
    }
  }

  lemma RecordedIs(px: Proxy.State, a: nat, info: Proxy.Info)
    ensures Recorded(px, a, info) == px.(infos := px.infos[a := info])
  {
  }

  // -------------------------------------------------------- into the backlog

  lemma EnqueuedIs(px: Proxy.State, a: nat, r: Request)
    requires a in px.infos && px.infos[a].queue == [] && r.pid in px.infos && IsTop(px, r.callId, a)
    ensures Proxy.Enqueue(px, a, r) == Recorded(px, a, px.infos[a].(queue := [r]))
    ensures Registry.QueueResolved(px, [r])
  {
    assert px.infos[a].queue + [r] == [r];
  }

  /** A request of an actor that still counts as waiting goes to its backlog. */
  lemma EnqueueStep(env: Env, s: Sys, a: nat, r: Request)
    requires Inv(env, s) && a in s.net && a in s.px.infos && s.px.infos[a].waiting && s.px.infos[a].queue == []
    requires s.net[a].proc.wait == Some(r) && s.net[a].up == [] && NoAnswer(s.net[a].down)
    requires IsTop(s.px, r.callId, a) && Free(s.px, a) && !s.net[a].pc.Answering? && r.pid in s.px.infos
    ensures Inv(env, s.(px := Proxy.Enqueue(s.px, a, r)))
  {
    hide Inv, NodeOK, BacklogOK, IsTop, Free, HandlersOK, NodesOK, ChainsOK, Directory.Listed, NoAnswer, Recorded;
    hide Proxy.Enqueue, Registry.QueueResolved;
    EnqueuedIs(s.px, a, r);
    NodeAt(env, s, a);
    EnqueuedBacklog(env, s, a, r);
    EnqueuedHandlers(env, s, a, r);
    RecordParts(env, s, a, s.px.infos[a].(queue := [r]));
    InvOf(env, s.(px := Recorded(s.px, a, s.px.infos[a].(queue := [r]))));
  }

  lemma InvOf(env: Env, s: Sys)
    requires Directory.Listed(env.cfg, s) && NodesOK(env, s) && ChainsOK(s) && HandlersOK(s)
    ensures Inv(env, s)
  {
  }

  lemma EnqueuedBacklog(env: Env, s: Sys, a: nat, r: Request)
    requires a in s.net && NodeOK(env, s.px, s.net, a, s.net[a]) && a in s.px.infos && s.px.infos[a].waiting
    requires s.net[a].proc.wait == Some(r) && s.net[a].up == [] && NoAnswer(s.net[a].down)
    requires IsTop(s.px, r.callId, a) && Free(s.px, a) && !s.net[a].pc.Answering?
    ensures BacklogOK(Recorded(s.px, a, s.px.infos[a].(queue := [r])), s.net, a,
                      s.net[a].proc.wait, s.net[a].up, s.net[a].down)
  {
    SameTops(s.px, Recorded(s.px, a, s.px.infos[a].(queue := [r])));
    hide UpOK, QueueOK, DownOK, JobOK, OweOK, AnswersOK, IsTop, Free, Awaited, Frames, Wanted, NoAnswer;
  }

  lemma EnqueuedHandlers(env: Env, s: Sys, a: nat, r: Request)
    requires Inv(env, s) && a in s.net && a in s.px.infos && !s.net[a].pc.Answering?
    ensures HandlersOK(s.(px := Recorded(s.px, a, s.px.infos[a].(queue := [r]))))
  {
    hide NodesOK, ChainsOK, Directory.Listed;
    SameTops(s.px, Recorded(s.px, a, s.px.infos[a].(queue := [r])));
    hide Free, Awaited, Frames, Wanted;
  }

  // ------------------------------------------------------- letting a caller go

  /** Handler `h` will let `a` go when it resumes: `a` is the top of the chain that
      `h` is suspended on, as it is now. */
  ghost predicate Answers(s: Sys, h: nat, a: nat) {
    && h in s.net && a in s.net && a in s.px.infos && s.net[h].pc.Answering? && IsTop(s.px, s.net[h].pc.callId, a)
  }

  lemma ReleasedAwaited(s: Sys, h: nat, a: nat, q: nat)
    requires Answers(s, h, a) && q != a && Awaited(s.px, s.net, q)
    ensures Awaited(s.px, SetPc(s, h, Reading).net, q)
  {
    var ny := SetPc(s, h, Reading).net;
    var g :| g in s.net && s.net[g].pc.Answering? && IsTop(s.px, s.net[g].pc.callId, q);
    assert g != h;
    assert g in ny && ny[g].pc.Answering? && IsTop(s.px, ny[g].pc.callId, q);
  }

  lemma ReleasedNode(env: Env, px: Proxy.State, net: map<nat, Node>, ny: map<nat, Node>, q: nat, n: Node)
    requires NodeOK(env, px, net, q, n)
    requires net.Keys == ny.Keys && forall p :: p in net ==> ny[p].proc == net[p].proc
    requires || (q in px.infos && !px.infos[q].waiting && px.infos[q].queue == [])
             || ((Awaited(px, net, q) ==> Awaited(px, ny, q)) && (Responding(net, q) ==> Responding(ny, q)))
    ensures NodeOK(env, px, ny, q, n)
  {
    assert forall c :: Wanted(px, ny, c, q) == Wanted(px, net, c, q);
    AvoidsNone(px, q, n);
    hide IsTop, Tops, Free, Frames, Wanted, Awaited, Responding, NoAnswer;
    hide UpOK, QueueOK, DownOK, JobOK, OweOK, AnswersOK, Generated, Avoids;
    NodeFrame(env, px, net, px, ny, q, None, n);
  }

  lemma ReleasedChain(s: Sys, h: nat, d: Text, ch: seq<nat>)
    requires ChainOK(s.px, s.net, d, ch) && h in s.net
    ensures ChainOK(s.px, SetPc(s, h, Reading).net, d, ch)
  {
    var ny := SetPc(s, h, Reading).net;
    hide NoAnswer, Generated;
    forall i | 0 <= i < |ch| - 1 ensures Suspended(s.px, ny, d, ch[i]) {
      assert Suspended(s.px, s.net, d, ch[i]);
    }
    forall i | 1 <= i < |ch| - 1 ensures Serving(ny, d, ch[i], ch[i - 1]) {
      assert Serving(s.net, d, ch[i], ch[i - 1]);
    }
  }

  lemma ReleasedHandlers(s: Sys, h: nat, a: nat, info: Proxy.Info)
    requires HandlersOK(s) && Answers(s, h, a) && info.queue == []
    ensures HandlersOK(SetPc(s.(px := Recorded(s.px, a, info)), h, Reading))
    ensures s.px.infos[a].queue != [] ==> !s.net[a].pc.Answering? && a != h
  {
    SameTops(s.px, Recorded(s.px, a, info));
    assert PcOK(s.px, h, s.net[h].pc) && PcOK(s.px, a, s.net[a].pc);
    var t := SetPc(s.(px := Recorded(s.px, a, info)), h, Reading);
    hide Free, IsTop, Awaited, Frames, Wanted;
    forall g | g in t.net ensures PcOK(t.px, g, t.net[g].pc) {
      if g != h {
        assert PcOK(s.px, g, s.net[g].pc);
      }
    }
  }

  /** The record of an actor whose answer has been written: free to be served. */
  function Freed(px: Proxy.State, a: nat, c: Text): Proxy.State
    requires a in px.infos
  {
    Recorded(px, a, px.infos[a].(callId := c, waiting := false, queue := []))
  }

  lemma FreedParts(env: Env, s: Sys, h: nat, a: nat, c: Text)
    requires Inv(env, s) && Answers(s, h, a)
    ensures var t := s.(px := Freed(s.px, a, c));
            Directory.Listed(env.cfg, t) && NodesOK(env, t) && ChainsOK(t)
  {
    hide NodesOK, ChainsOK, HandlersOK, Directory.Listed, NodeOK, NoAnswer, IsTop, Free;
    if s.px.infos[a].queue == [] {
      assert Proxy.Update(s.px, a, c, false) == Freed(s.px, a, c);
      LowerStep(env, s, a, c);
    } else {
      FreeUnlessSuspended(env, s, a);
      var info := s.px.infos[a].(callId := c, waiting := false, queue := []);
      hide Recorded, Awaited;
      FreedBacklog(s.px, s.net, a, info, s.net[a]);
      RecordParts(env, s, a, info);
    }
  }

  lemma FreedBacklog(px: Proxy.State, net: map<nat, Node>, a: nat, info: Proxy.Info, n: Node)
    requires info.queue == [] && !info.waiting
    ensures BacklogOK(Recorded(px, a, info), net, a, n.proc.wait, n.up, n.down)
  {
  }

  /** The handler goes back to reading; the actor it lets go does not count as
      waiting, and its backlog is empty. */
  lemma ReleaseStep(env: Env, s: Sys, h: nat, a: nat, c: Text)
    requires Inv(env, s) && Answers(s, h, a) && h in s.px.infos && !s.px.infos[h].waiting
    ensures Inv(env, SetPc(s.(px := Freed(s.px, a, c)), h, Reading))
  {
    var info := s.px.infos[a].(callId := c, waiting := false, queue := []);
    var u := s.(px := Freed(s.px, a, c));
    var t := SetPc(u, h, Reading);
    FreedParts(env, s, h, a, c);
    assert HandlersOK(s) by {
      hide NodesOK, ChainsOK, HandlersOK, Directory.Listed;
    }
    ReleasedHandlers(s, h, a, info);
    assert Freed(s.px, a, c) == Recorded(s.px, a, info);
    hide Inv, NodesOK, ChainsOK, HandlersOK, Directory.Listed, IsTop;
    Directory.PcKeeps(env.cfg, u, h, Reading);
    FreedRest(env, s, h, a, c);
    InvOf(env, t);
  }

  lemma FreedAwaited(s: Sys, h: nat, a: nat, c: Text, q: nat)
    requires Answers(s, h, a) && q != a
    ensures var u := s.(px := Freed(s.px, a, c));
            Awaited(u.px, u.net, q) ==> Awaited(u.px, SetPc(u, h, Reading).net, q)
  {
    SameTops(s.px, Freed(s.px, a, c));
    hide Awaited, IsTop, Free, Frames, Wanted, Freed;
    if Awaited(s.px, s.net, q) {
      ReleasedAwaited(s, h, a, q);
    }
  }

  lemma ReleasedResponding(s: Sys, h: nat, q: nat)
    requires h in s.net && q != h && Responding(s.net, q)
    ensures Responding(SetPc(s, h, Reading).net, q)
  {
  }

  lemma FreedNode(env: Env, s: Sys, h: nat, a: nat, c: Text, q: nat)
    requires Answers(s, h, a) && PcOK(s.px, h, s.net[h].pc) && h in s.px.infos && !s.px.infos[h].waiting
    requires q in s.net && NodeOK(env, Freed(s.px, a, c), s.net, q, s.net[q])
    ensures var t := SetPc(s.(px := Freed(s.px, a, c)), h, Reading); NodeOK(env, t.px, t.net, q, t.net[q])
  {
    var u := s.(px := Freed(s.px, a, c));
    var t := SetPc(u, h, Reading);
    assert q == a || q == h ==> q in u.px.infos && !u.px.infos[q].waiting && u.px.infos[q].queue == [];
    hide Answers, NodeOK, Freed, Awaited, Responding, PcOK;
    if q != a && q != h {
      FreedAwaited(s, h, a, c, q);
      if Responding(u.net, q) {
        ReleasedResponding(u, h, q);
      }
    }
    ReleasedNode(env, u.px, u.net, t.net, q, u.net[q]);
    if q == h {
      SetPcOK(env, t.px, t.net, h, u.net[h], Reading);
    }
  }

  lemma FreedRest(env: Env, s: Sys, h: nat, a: nat, c: Text)
    requires HandlersOK(s) && Answers(s, h, a) && h in s.px.infos && !s.px.infos[h].waiting
    requires NodesOK(env, s.(px := Freed(s.px, a, c))) && ChainsOK(s.(px := Freed(s.px, a, c)))
    ensures var t := SetPc(s.(px := Freed(s.px, a, c)), h, Reading); NodesOK(env, t) && ChainsOK(t)
  {
    var u := s.(px := Freed(s.px, a, c));
    var t := SetPc(u, h, Reading);
    assert h in s.net && PcOK(s.px, h, s.net[h].pc);
    hide HandlersOK, Answers, NodeOK, ChainOK, Freed, PcOK;
    forall q | q in t.net ensures NodeOK(env, t.px, t.net, q, t.net[q]) {
      FreedNode(env, s, h, a, c, q);
    }
    forall d | d in t.px.chains ensures ChainOK(t.px, t.net, d, t.px.chains[d]) {
      ReleasedChain(u, h, d, u.px.chains[d]);
    }
  }

  // ------------------------------------------------------------- connecting

  const IDLE: Proc := Proc([], 0, [], [], None, None, false, true, {}, [])

  function Newcomer(name: Text): Node {
    Node(Reading, [], [], IDLE.(name := name))
  }

  lemma ConnectedWanted(s: Sys, p: nat, n: Node, d: Text, q: nat)
    requires ChainsOK(s) && p !in s.px.infos
    ensures Wanted(s.px, s.net[p := n], d, q) == Wanted(s.px, s.net, d, q)
    ensures !IsTop(s.px, d, p) && !InBody(s.px, d, p)
  {
    hide LinksOK, Generated;
    if d in s.px.chains {
      assert ChainOK(s.px, s.net, d, s.px.chains[d]);
      assert Distinct(s.px, s.px.chains[d]);
    }
  }

  lemma ConnectedAwaited(s: Sys, p: nat, name: Text, q: nat)
    requires p !in s.net
    ensures Awaited(s.px, s.net, q) ==> Awaited(s.px, s.net[p := Newcomer(name)], q)
    ensures Responding(s.net, q) ==> Responding(s.net[p := Newcomer(name)], q)
  {
    var ny := s.net[p := Newcomer(name)];
    hide IsTop;
    if Awaited(s.px, s.net, q) {
      var h :| h in s.net && s.net[h].pc.Answering? && IsTop(s.px, s.net[h].pc.callId, q);
      assert h in ny && ny[h] == s.net[h];
    }
  }

  lemma OldNode(env: Env, s: Sys, p: nat, name: Text, q: nat, n: Node)
    requires ChainsOK(s) && p !in s.net && p !in s.px.infos && q != p && NodeOK(env, s.px, s.net, q, n)
    ensures NodeOK(env, Proxy.Connect(s.px, p, name), s.net[p := Newcomer(name)], q, n)
  {
    var py, ny := Proxy.Connect(s.px, p, name), s.net[p := Newcomer(name)];
    SameTops(s.px, py);
    AvoidsNone(py, q, n);
    ConnectedAwaited(s, p, name, q);
    forall d ensures Wanted(s.px, ny, d, q) == Wanted(s.px, s.net, d, q) {
      hide IsTop, InBody, Wanted, ChainsOK, Newcomer;
      ConnectedWanted(s, p, Newcomer(name), d, q);
    }
    hide ChainsOK, Newcomer, Proxy.Group, Avoids;
    hide IsTop, Tops, Free, Frames, Wanted, Awaited, Responding, NoAnswer;
    hide UpOK, QueueOK, DownOK, JobOK, OweOK, AnswersOK, Generated;
    NodeFrame(env, s.px, s.net, py, ny, q, None, n);
  }

  lemma NewNode(env: Env, px: Proxy.State, net: map<nat, Node>, p: nat, name: Text)
    ensures NodeOK(env, Proxy.Connect(px, p, name), net, p, Newcomer(name))
  {
    assert Accounting.Owed(Newcomer(name)) == multiset{};
    hide IsTop, InBody, Frames, Wanted, Awaited;
  }

  lemma ConnectedChain(s: Sys, p: nat, name: Text, d: Text, ch: seq<nat>)
    requires p !in s.net && p !in s.px.infos && ChainOK(s.px, s.net, d, ch)
    ensures ChainOK(Proxy.Connect(s.px, p, name), s.net[p := Newcomer(name)], d, ch)
  {
    var py, ny := Proxy.Connect(s.px, p, name), s.net[p := Newcomer(name)];
    SameTops(s.px, py);
    hide NoAnswer, Generated, Newcomer, Proxy.Group;
    forall i | 0 <= i < |ch| - 1 ensures Suspended(py, ny, d, ch[i]) {
      assert Suspended(s.px, s.net, d, ch[i]);
    }
    forall i | 1 <= i < |ch| - 1 ensures Serving(ny, d, ch[i], ch[i - 1]) {
      assert Serving(s.net, d, ch[i], ch[i - 1]);
    }
  }

  lemma ConnectedHandlers(s: Sys, p: nat, name: Text)
    requires HandlersOK(s) && p !in s.net && p !in s.px.infos
    ensures HandlersOK(s.(px := Proxy.Connect(s.px, p, name), net := s.net[p := Newcomer(name)]))
  {
    SameTops(s.px, Proxy.Connect(s.px, p, name));
    hide Free, Frames, Wanted, Awaited, Proxy.Group;
  }

  /** A process connects under a new pid. */
  lemma ConnectStep(env: Env, s: Sys, p: nat, name: Text)
    requires Inv(env, s) && Enabled(env, s, Connect(p, name))
    requires Directory.Listed(env.cfg, Apply(env, s, Connect(p, name)))
    ensures Inv(env, Apply(env, s, Connect(p, name)))
  {
    var t := Apply(env, s, Connect(p, name));
    assert t == s.(px := Proxy.Connect(s.px, p, name), net := s.net[p := Newcomer(name)]);
    NotListed(env, s, p);
    hide Directory.Listed, NodeOK, ChainOK, HandlersOK, Proxy.Connect, Newcomer, Apply;
    forall q | q in t.net ensures NodeOK(env, t.px, t.net, q, t.net[q]) {
      if q == p {
        NewNode(env, s.px, t.net, p, name);
      } else {
        OldNode(env, s, p, name, q, s.net[q]);
      }
    }
    SameChains(s.px, p, name);
    forall d | d in t.px.chains ensures ChainOK(t.px, t.net, d, t.px.chains[d]) {
      ConnectedChain(s, p, name, d, s.px.chains[d]);
    }
    ConnectedHandlers(s, p, name);
  }

  lemma SameChains(px: Proxy.State, p: nat, name: Text)
    ensures Proxy.Connect(px, p, name).chains == px.chains
  {
  }

  lemma NotListed(env: Env, s: Sys, p: nat)
    requires Inv(env, s) && p !in s.net
    ensures p !in s.px.infos
  {
    hide NodesOK, ChainsOK, HandlersOK, Registry.Sound, Directory.NodeListed;
  }
}
