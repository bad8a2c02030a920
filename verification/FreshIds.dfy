/** Call ids over any run without a sequence wrap-around: a newly generated id is
    never the key of a chain, and every chain is rooted at the process that
    generated its id (src/coro_actor_ctx.cpp:53-56, src/coro_actor.cpp:569-572). */
module FreshIds {
  import opened Protocol
  import opened CallIds
  import opened S = System
  import opened SmoothRuns
  import opened Foreign
  import Accounting
  import Directory
  import Proxy
  import Registry

  ghost predicate Made(c: Text, p: nat, seq_: nat) {
    exists n: nat :: 1 <= n <= seq_ && c == MakeCallId(p, n)
  }

  /** `p` may use id `c`: the proxy knows it, or `p` made it. */
  ghost predicate Usable(px: Proxy.State, p: nat, seq_: nat, c: Text) {
    c in px.chains || Made(c, p, seq_)
  }

  ghost predicate FrameKnown(px: Proxy.State, f: Frame) {
    f.Req? ==> f.req.callId in px.chains
  }

  ghost predicate MsgKnown(px: Proxy.State, m: Msg) {
    m.origin.Unix? ==> m.callId in px.chains
  }

  ghost predicate NodeIds(px: Proxy.State, p: nat, n: Node) {
    && (forall i :: 0 <= i < |n.up| && n.up[i].Req? ==> Usable(px, p, n.proc.seq_, n.up[i].req.callId))
    && (forall i :: 0 <= i < |n.down| ==> FrameKnown(px, n.down[i]))
    && (forall i :: 0 <= i < |n.proc.queue| ==> MsgKnown(px, n.proc.queue[i]))
    && (forall i :: 0 <= i < |n.proc.queue| && n.proc.queue[i].origin.Tcp? ==> n.proc.queue[i].callId == [])
    && (n.proc.callId == [] || Usable(px, p, n.proc.seq_, n.proc.callId))
  }

  ghost predicate RootMade(net: map<nat, Node>, c: Text, ch: seq<nat>) {
    ch != [] && ch[0] in net && Made(c, ch[0], net[ch[0]].proc.seq_)
  }

  /** Every id in use was made by the root of its chain, or is still on its way
      from the process that made it. */
  ghost predicate Rooted(s: Sys) {
    && (forall c :: c in s.px.chains ==> RootMade(s.net, c, s.px.chains[c]))
    && forall p :: p in s.net ==> NodeIds(s.px, p, s.net[p])
  }

  // -------------------------------------------------------- the actors' steps

  lemma MadeMore(c: Text, p: nat, m: nat, n: nat)
    requires Made(c, p, m) && m <= n
    ensures Made(c, p, n)
  {
    hide MakeCallId;
  }

  lemma UsableMore(px: Proxy.State, p: nat, m: nat, n: nat)
    requires m <= n
    ensures forall c :: Usable(px, p, m, c) ==> Usable(px, p, n, c)
  {
    hide MakeCallId;
  }

  lemma SentUsable(px: Proxy.State, p: nat, proc: Proc)
    requires proc.callId == [] || Usable(px, p, proc.seq_, proc.callId)
    requires proc.seq_ + 1 < SEQ_LIMIT
    ensures var q := if proc.callId == [] then (proc.seq_ + 1) % SEQ_LIMIT else proc.seq_;
            proc.seq_ <= q && Usable(px, p, q, Sent(proc, p))
  {
    hide MakeCallId;
  }

  lemma StartSendIds(px: Proxy.State, p: nat, n: Node, job: Job, service: Text, arg: Pack, ok: bool)
    requires NodeIds(px, p, n) && n.proc.seq_ + 1 < SEQ_LIMIT
    ensures var m := StartSend(p, n, job, service, arg, ok); NodeIds(px, p, m) && n.proc.seq_ <= m.proc.seq_
  {
    SentUsable(px, p, n.proc);
    UsableMore(px, p, n.proc.seq_, StartSend(p, n, job, service, arg, ok).proc.seq_);
    hide MsgKnown, FrameKnown, Usable, Sent;
  }

  lemma CompleteIds(px: Proxy.State, p: nat, n: Node, job: Job, reply: Pack, ok: bool)
    requires NodeIds(px, p, n)
    ensures var m := Complete(p, n, job, reply, ok); NodeIds(px, p, m) && n.proc.seq_ == m.proc.seq_
  {
    hide MsgKnown, FrameKnown, Usable, IsOpen;
  }

  lemma ActIds(env: Env, px: Proxy.State, p: nat, n: Node, ok: bool)
    requires NodeIds(px, p, n) && n.proc.job.Some? && n.proc.seq_ + 1 < SEQ_LIMIT
    ensures var m := ActNode(env, p, n, ok); NodeIds(px, p, m) && n.proc.seq_ <= m.proc.seq_
  {
    var job := n.proc.job.value;
    hide MsgKnown, FrameKnown, Usable, StartSend, Complete, Offers;
    match env.body(job.msg.service, job.msg.pack, job.replies)
    case Return(reply) => CompleteIds(px, p, n, job, reply, ok);
    case Call(service, arg) => StartSendIds(px, p, n, job, service, arg, ok && n.proc.linked);
  }

  lemma TakeIds(env: Env, px: Proxy.State, p: nat, n: Node)
    requires NodeIds(px, p, n) && n.proc.queue != []
    ensures var m := TakeNode(env, n); NodeIds(px, p, m) && n.proc.seq_ == m.proc.seq_
  {
    assert forall i :: 0 <= i < |n.proc.queue[1..]| ==> n.proc.queue[1..][i] == n.proc.queue[i + 1];
    assert MsgKnown(px, n.proc.queue[0]);
    hide FrameKnown, Made, IsOpen, Offers;
  }

  lemma ReceiveIds(px: Proxy.State, p: nat, n: Node)
    requires NodeIds(px, p, n) && n.down != []
    ensures var m := ReceiveNode(n); NodeIds(px, p, m) && n.proc.seq_ == m.proc.seq_
  {
    assert FrameKnown(px, n.down[0]);
    assert forall i :: 0 <= i < |n.down[1..]| ==> n.down[1..][i] == n.down[i + 1];
    hide Usable;
  }

  lemma ArriveIds(px: Proxy.State, p: nat, n: Node, msg: Msg)
    requires NodeIds(px, p, n) && msg.origin.Tcp? && msg.callId == []
    ensures NodeIds(px, p, n.(proc := n.proc.(queue := n.proc.queue + [msg])))
  {
    hide Usable, FrameKnown;
  }

  /** One process changes, and only makes ids. */
  lemma NodeRooted(s: Sys, p: nat, m: Node)
    requires Rooted(s) && p in s.net && NodeIds(s.px, p, m) && s.net[p].proc.seq_ <= m.proc.seq_
    ensures Rooted(s.(net := s.net[p := m]))
  {
    hide NodeIds, Made;
    var t := s.(net := s.net[p := m]);
    forall c | c in t.px.chains ensures RootMade(t.net, c, t.px.chains[c]) {
      var root := s.px.chains[c][0];
      assert RootMade(s.net, c, s.px.chains[c]);
      MadeMore(c, root, s.net[root].proc.seq_, t.net[root].proc.seq_);
    }
  }

  lemma HangUpIds(px: Proxy.State, p: nat, n: Node, conn: nat)
    requires NodeIds(px, p, n)
    ensures NodeIds(px, p, n.(proc := Close(n.proc, Tcp(conn))))
  {
  }

  lemma ActorNodeIds(env: Env, s: Sys, e: Event)
    requires Enabled(env, s, e) && (e.Arrive? || e.HangUp? || e.Receive? || e.Take? || e.Act?) && NoWrap(s, e)
    requires NodeIds(s.px, e.p, s.net[e.p])
    ensures var t := Apply(env, s, e);
            && e.p in t.net && t == s.(net := s.net[e.p := t.net[e.p]])
            && NodeIds(s.px, e.p, t.net[e.p]) && s.net[e.p].proc.seq_ <= t.net[e.p].proc.seq_
  {
    hide NodeIds, ActNode, TakeNode, ReceiveNode;
    match e
    case Arrive(p, msg) => ArriveIds(s.px, p, s.net[p], msg);
    case HangUp(p, conn) => HangUpIds(s.px, p, s.net[p], conn);
    case Receive(p) => ReceiveIds(s.px, p, s.net[p]);
    case Take(p) => TakeIds(env, s.px, p, s.net[p]);
    case Act(p, ok) => ActIds(env, s.px, p, s.net[p], ok);
  }

  lemma ActorRooted(env: Env, s: Sys, e: Event)
    requires Rooted(s) && Enabled(env, s, e) && NoWrap(s, e)
    requires e.Arrive? || e.HangUp? || e.Receive? || e.Take? || e.Act?
    ensures Rooted(Apply(env, s, e))
  {
    assert e.p in s.net && NodeIds(s.px, e.p, s.net[e.p]);
    hide Rooted, NodeIds, Apply, Enabled;
    ActorNodeIds(env, s, e);
    NodeRooted(s, e.p, Apply(env, s, e).net[e.p]);
  }

  // -------------------------------------------------------- the proxy's steps

  /** Chains keep their roots, and none is forgotten. */
  ghost predicate SameRoots(px: Proxy.State, py: Proxy.State) {
    forall c :: c in px.chains && px.chains[c] != [] ==>
      c in py.chains && py.chains[c] != [] && py.chains[c][0] == px.chains[c][0]
  }

  ghost predicate NoNewChains(px: Proxy.State, py: Proxy.State) {
    px.chains.Keys == py.chains.Keys && SameRoots(px, py)
  }

  /** What the proxy's handlers change, as far as ids are concerned. */
  ghost predicate Steady(s: Sys, t: Sys) {
    && NoNewChains(s.px, t.px) && Untouched(s, t)
    && forall p :: p in s.net ==>
         t.net[p].down == s.net[p].down ||
         (exists f :: t.net[p].down == s.net[p].down + [f] && FrameKnown(t.px, f))
  }

  lemma SteadyNode(s: Sys, t: Sys, p: nat)
    requires Steady(s, t) && p in s.net && NodeIds(s.px, p, s.net[p])
    ensures NodeIds(t.px, p, t.net[p])
  {
    hide Made;
    assert t.net[p].proc == s.net[p].proc && t.net[p].up == s.net[p].up;
    forall i | 0 <= i < |t.net[p].down| ensures FrameKnown(t.px, t.net[p].down[i]) {
      if i < |s.net[p].down| {
        assert FrameKnown(s.px, s.net[p].down[i]);
      }
    }
    forall i | 0 <= i < |t.net[p].proc.queue| ensures MsgKnown(t.px, t.net[p].proc.queue[i]) {
      assert MsgKnown(s.px, s.net[p].proc.queue[i]);
    }
  }

  lemma SteadyRooted(s: Sys, t: Sys)
    requires Rooted(s) && Steady(s, t)
    ensures Rooted(t)
  {
    hide NodeIds, Made;
    forall p | p in t.net ensures NodeIds(t.px, p, t.net[p]) {
      SteadyNode(s, t, p);
    }
    forall c | c in t.px.chains ensures RootMade(t.net, c, t.px.chains[c]) {
      assert RootMade(s.net, c, s.px.chains[c]);
    }
  }

  lemma SteadyTwice(s: Sys, t: Sys, u: Sys)
    requires s.net == t.net && s.hist.read == t.hist.read && NoNewChains(s.px, t.px) && Steady(t, u)
    requires Registry.Resolved(s.px)
    ensures Steady(s, u)
  {
    hide FrameKnown;
  }

  lemma DispatchedSteady(s: Sys, h: nat, r: (Proxy.State, Proxy.Outcome), ok: bool, after: After)
    requires h in s.net && NoNewChains(s.px, r.0) && (r.1.Sent? ==> r.1.req.callId in r.0.chains)
    ensures Steady(s, Dispatched(s, h, r, ok, after))
  {
    hide SameRoots, Recorded;
    DispatchedUntouched(s, h, r, ok, after);
    var t := Dispatched(s, h, r, ok, after);
    hide Untouched;
    forall p | p in s.net
      ensures t.net[p].down == s.net[p].down ||
              (exists f :: t.net[p].down == s.net[p].down + [f] && FrameKnown(t.px, f)) {
      if r.1.Sent? && ok && p == r.1.callee {
        assert t.net[p].down == s.net[p].down + [Req(r.1.req)] && FrameKnown(t.px, Req(r.1.req));
      }
    }
  }

  lemma DispatchRoots(owner: map<Text, Text>, px: Proxy.State, p: nat)
    requires Registry.Sound(px)
    ensures var (py, out) := Proxy.Dispatch(owner, px, p);
            NoNewChains(px, py) && (!out.Quiet? ==> out.req.callId in px.chains)
  {
    hide Registry.Registered;
    if p in px.infos && px.infos[p].queue != [] && !px.infos[p].waiting {
      assert Registry.QueueResolved(px, px.infos[p].queue);
      var req, px1 := px.infos[p].queue[0], Proxy.Dequeue(px, p);
      assert req == px.infos[p].queue[0];
      Registry.DequeueKeeps(px, p);
      Registry.RouteOutcome(owner, px1, req);
      assert px1.chains == px.chains;
      hide Registry.Resolved, Proxy.Route, Proxy.Dequeue, Registry.Engaged;
    }
  }

  lemma UpdateRoots(px: Proxy.State, q: nat, c: Text, w: bool)
    ensures Proxy.Update(px, q, c, w).chains == px.chains
  {
  }

  /** Letting a record go and looking at its backlog. */
  lemma WokenRoots(owner: map<Text, Text>, px: Proxy.State, q: nat, c: Text)
    requires Registry.Sound(px)
    ensures var (py, out) := Proxy.Dispatch(owner, Proxy.Update(px, q, c, false), q);
            NoNewChains(px, py) && Registry.Sound(py) && (out.Sent? ==> out.req.callId in py.chains)
  {
    var px1 := Proxy.Update(px, q, c, false);
    hide Registry.Sound, Proxy.Dispatch, Proxy.Update;
    UpdateRoots(px, q, c, false);
    Registry.UpdateKeeps(px, q, c, false);
    DispatchRoots(owner, px1, q);
    Registry.DispatchKeeps(owner, px1, q);
  }

  lemma WakeCallerSteady(env: Env, s: Sys, h: nat, c: Text, ok: bool)
    requires Registry.Sound(s.px) && h in s.net
    ensures Steady(s, WakeCaller(env, s, h, c, ok))
  {
    var chain := Proxy.Chain(s.px, c);
    hide Registry.Sound, Proxy.Dispatch, Proxy.Update, Dispatched, Steady, NoNewChains;
    if chain == [] {
      PcSteady(s, h, Reading);
    } else {
      var q := chain[|chain| - 1];
      WokenRoots(env.cfg.owner, s.px, q, c);
      DispatchedSteady(s, h, Proxy.Dispatch(env.cfg.owner, Proxy.Update(s.px, q, c, false), q), ok, Done);
    }
  }

  lemma PcSteady(s: Sys, h: nat, pc: Pc)
    requires h in s.net
    ensures Steady(s, SetPc(s, h, pc))
  {
    hide FrameKnown;
  }

  lemma SoundIsResolved(px: Proxy.State)
    requires Registry.Sound(px)
    ensures Registry.Resolved(px)
  {
  }

  lemma WakeSelfSteady(env: Env, s: Sys, h: nat, self: nat, c: Text, ok: bool)
    requires Registry.Sound(s.px) && h in s.net
    ensures Steady(s, WakeSelf(env, s, h, self, c, ok))
  {
    var r := Proxy.Dispatch(env.cfg.owner, Proxy.Update(s.px, self, [], false), self);
    hide Registry.Sound, Registry.Resolved, Proxy.Dispatch, Proxy.Update, Dispatched;
    hide WakeCaller, Steady, NoNewChains, Recorded;
    SoundIsResolved(s.px);
    WokenRoots(env.cfg.owner, s.px, self, []);
    if r.1.Sent? {
      DispatchedSteady(s, h, r, ok, Caller(c));
    } else {
      var s1 := s.(px := r.0, hist := Recorded(s.hist, r.1, ok));
      assert s1.hist.read == s.hist.read by {
        RecordedReads(s.hist, r.1, ok);
      }
      WakeCallerSteady(env, s1, h, c, ok);
      SteadyTwice(s, s1, WakeCaller(env, s1, h, c, ok));
    }
  }

  lemma RecordedReads(h: History, out: Proxy.Outcome, ok: bool)
    ensures Recorded(h, out, ok).read == h.read
  {
  }

  lemma FailedRoots(px: Proxy.State, req: Request, callee: nat)
    ensures NoNewChains(px, Proxy.WriteFailed(px, req, callee))
  {
  }

  lemma ResumeSteady(env: Env, s: Sys, h: nat, ok: bool)
    requires Registry.Sound(s.px) && h in s.net
    ensures Steady(s, ResumeStep(env, s, h, ok))
  {
    hide Registry.Sound, Registry.Resolved, Proxy.WriteFailed, WakeSelf, WakeCaller, Steady, NoNewChains;
    match s.net[h].pc
    case Reading =>
      assert SetPc(s, h, Reading).net == s.net;
      PcSteady(s, h, Reading);
    case Answering(self, c) => WakeSelfSteady(env, s, h, self, c, ok);
    case Sending(req, callee, sent, after) =>
      var px1 := if sent then s.px else Proxy.WriteFailed(s.px, req, callee);
      SoundIsResolved(s.px);
      Registry.WriteFailedKeeps(s.px, req, callee);
      FailedRoots(s.px, req, callee);
      SameRootsSelf(s.px);
      match after {
        case Done =>
          PcSteady(s.(px := px1), h, Reading);
          SteadyTwice(s, s.(px := px1), SetPc(s.(px := px1), h, Reading));
        case Caller(c) =>
          WakeCallerSteady(env, s.(px := px1), h, c, ok);
          SteadyTwice(s, s.(px := px1), WakeCaller(env, s.(px := px1), h, c, ok));
      }
  }

  lemma SameRootsSelf(px: Proxy.State)
    ensures NoNewChains(px, px)
  {
  }

  // ------------------------------------------------------ what is read

  lemma ReadResponseSteady(s: Sys, h: nat, resp: Response, ok: bool)
    requires h in s.net
    ensures Steady(s, ReadResponse(s, h, resp, ok))
  {
    ReadResponseUntouched(s, h, resp, ok);
    hide Untouched;
    var t := ReadResponse(s, h, resp, ok);
    assert FrameKnown(t.px, Resp(resp));
  }

  lemma PopRooted(s: Sys, p: nat)
    requires Rooted(s) && p in s.net && s.net[p].up != []
    ensures Rooted(PopUp(s, p))
    ensures s.net[p].up[0].Req? ==> Usable(s.px, p, s.net[p].proc.seq_, s.net[p].up[0].req.callId)
  {
    var n := s.net[p];
    var m := n.(up := n.up[1..]);
    assert NodeIds(s.px, p, n);
    assert forall i :: 0 <= i < |m.up| ==> m.up[i] == n.up[i + 1];
    assert NodeIds(s.px, p, m) by {
      hide Usable, FrameKnown, MsgKnown;
    }
    hide Rooted, NodeIds, Usable;
    NodeRooted(s, p, m);
  }

  lemma MoreChains(px: Proxy.State, py: Proxy.State, p: nat, n: Node)
    requires NodeIds(px, p, n) && px.chains.Keys <= py.chains.Keys
    ensures NodeIds(py, p, n)
  {
    hide Made;
    forall i | 0 <= i < |n.down| ensures FrameKnown(py, n.down[i]) {
      assert FrameKnown(px, n.down[i]);
    }
    forall i | 0 <= i < |n.proc.queue| ensures MsgKnown(py, n.proc.queue[i]) {
      assert MsgKnown(px, n.proc.queue[i]);
    }
  }

  /** An id becomes known with the first request of the process that made it. */
  lemma RootRooted(s: Sys, c: Text, p: nat)
    requires Rooted(s) && p in s.net && Usable(s.px, p, s.net[p].proc.seq_, c)
    ensures var t := s.(px := Proxy.Root(s.px, c, p)); Rooted(t) && c in t.px.chains
  {
    hide NodeIds, Made;
    var t := s.(px := Proxy.Root(s.px, c, p));
    forall q | q in t.net ensures NodeIds(t.px, q, t.net[q]) {
      MoreChains(s.px, t.px, q, s.net[q]);
    }
  }

  lemma ReadIs(owner: map<Text, Text>, px: Proxy.State, req: Request)
    ensures var px1 := Proxy.Root(px, req.callId, req.pid);
            var px2 := Proxy.Enqueue(px1, req.pid, req);
            px2.chains == px1.chains && Proxy.ReadRequest(owner, px, req) == Proxy.Dispatch(owner, px2, req.pid)
  {
    hide Proxy.Dispatch, Proxy.Root;
  }

  lemma SameChainsRoots(px1: Proxy.State, px2: Proxy.State, py: Proxy.State)
    requires px1.chains == px2.chains && NoNewChains(px2, py)
    ensures NoNewChains(px1, py)
  {
  }

  lemma ReadRoots(owner: map<Text, Text>, px: Proxy.State, req: Request)
    requires Registry.Sound(px) && req.pid in px.infos
    ensures var (py, out) := Proxy.ReadRequest(owner, px, req);
            NoNewChains(Proxy.Root(px, req.callId, req.pid), py) && (out.Sent? ==> out.req.callId in py.chains)
  {
    var px1 := Proxy.Root(px, req.callId, req.pid);
    var px2 := Proxy.Enqueue(px1, req.pid, req);
    hide Registry.Sound, Proxy.Dispatch, Proxy.Enqueue, Proxy.Root, Proxy.ReadRequest, SameRoots;
    ReadIs(owner, px, req);
    Registry.RootKeeps(px, req.callId, req.pid);
    Registry.EnqueueKeeps(px1, req.pid, req);
    DispatchRoots(owner, px2, req.pid);
    SameChainsRoots(px1, px2, Proxy.ReadRequest(owner, px, req).0);
  }

  lemma HistoryRooted(s: Sys, h: History)
    requires Rooted(s)
    ensures Rooted(s.(hist := h))
  {
    hide NodeIds, RootMade;
  }

  lemma ReadRequestRooted(env: Env, s: Sys, p: nat, req: Request, ok: bool)
    requires Rooted(s) && Registry.Sound(s.px) && p in s.net && p in s.px.infos && req.pid == p
    requires Usable(s.px, p, s.net[p].proc.seq_, req.callId)
    ensures Rooted(S.ReadRequest(env, s, p, req, ok))
  {
    var h := s.hist.(read := s.hist.read + multiset{req});
    var u := s.(px := Proxy.Root(s.px, req.callId, p), hist := h);
    var x := Proxy.ReadRequest(env.cfg.owner, s.px, req);
    RootRooted(s, req.callId, p);
    HistoryRooted(s.(px := u.px), h);
    hide Rooted, Registry.Sound, Usable, Proxy.ReadRequest, Proxy.Root, Dispatched, Steady, NoNewChains;
    ReadRoots(env.cfg.owner, s.px, req);
    DispatchedSteady(u, p, x, ok, Done);
    Accounting.DispatchedReplaces(s.(hist := h), u.px, p, x, ok);
    SteadyRooted(u, Dispatched(u, p, x, ok, Done));
  }

  lemma ReadRooted(env: Env, s: Sys, p: nat, ok: bool)
    requires Rooted(s) && Directory.Listed(env.cfg, s) && p in s.net && s.net[p].up != []
    ensures Rooted(ReadUpStep(env, s, p, ok))
  {
    var s1 := PopUp(s, p);
    assert s1.px == s.px && s1.net[p].proc == s.net[p].proc && p in s1.net;
    assert Registry.Sound(s.px) && p in s.px.infos by {
      hide Registry.Sound, Directory.NodeListed;
    }
    hide Rooted, Directory.Listed, Registry.Sound, S.ReadRequest, ReadResponse, PopUp, Usable, Steady;
    Directory.PoppedListed(env.cfg, s, p);
    PopRooted(s, p);
    match s.net[p].up[0]
    case Req(req) => ReadRequestRooted(env, s1, p, req, ok);
    case Resp(resp) =>
      ReadResponseSteady(s1, p, resp, ok);
      SteadyRooted(s1, ReadResponse(s1, p, resp, ok));
  }

  lemma ConnectRooted(env: Env, s: Sys, p: nat, name: Text)
    requires Rooted(s) && Enabled(env, s, Connect(p, name))
    ensures Rooted(Apply(env, s, Connect(p, name)))
  {
    var t := Apply(env, s, Connect(p, name));
    assert t.px.chains == s.px.chains;
    hide Made, Proxy.Connect;
    forall q | q in t.net ensures NodeIds(t.px, q, t.net[q]) {
      if q != p {
        MoreChains(s.px, t.px, q, s.net[q]);
      }
    }
    forall c | c in t.px.chains ensures RootMade(t.net, c, t.px.chains[c]) {
      assert RootMade(s.net, c, s.px.chains[c]);
    }
  }

  lemma RootedKept(env: Env, s: Sys, e: Event)
    requires Rooted(s) && Directory.Listed(env.cfg, s) && Enabled(env, s, e) && NoWrap(s, e)
    ensures Rooted(Apply(env, s, e))
  {
    hide Rooted, Directory.NodeListed, Registry.Sound, ReadUpStep, ResumeStep, Steady;
    match e
    case Connect(p, name) => ConnectRooted(env, s, p, name);
    case ReadUp(p, ok) => ReadRooted(env, s, p, ok);
    case Resume(p, ok) =>
      ResumeSteady(env, s, p, ok);
      SteadyRooted(s, ResumeStep(env, s, p, ok));
    case _ => ActorRooted(env, s, e);
  }

  /** No process makes 2^32 ids. */
  ghost predicate NeverWraps(states: seq<Sys>, events: seq<Event>) {
    |states| == |events| + 1 && forall i :: 0 <= i < |events| ==> NoWrap(states[i], events[i])
  }

  lemma RunAt(env: Env, states: seq<Sys>, events: seq<Event>, i: nat)
    requires IndexAgrees(env.cfg) && Run(env, states, events) && NeverWraps(states, events) && i < |events|
    ensures Enabled(env, states[i], events[i]) && NoWrap(states[i], events[i])
    ensures states[i + 1] == Apply(env, states[i], events[i]) && Directory.Listed(env.cfg, states[i])
  {
    Directory.ListedAlways(env, states, events);
    hide Directory.Listed, Enabled, Apply, IndexAgrees, NoWrap;
  }

  lemma InitRooted(env: Env, states: seq<Sys>, events: seq<Event>)
    requires Run(env, states, events)
    ensures |states| == |events| + 1 && Rooted(states[0])
  {
    hide Enabled, Apply;
  }

  lemma {:induction false} RootedAlways(env: Env, states: seq<Sys>, events: seq<Event>, i: nat)
    requires IndexAgrees(env.cfg) && Run(env, states, events) && NeverWraps(states, events) && i < |states|
    ensures Rooted(states[i])
  {
    hide Rooted, Directory.Listed, Enabled, Apply, IndexAgrees, Run, NeverWraps, NoWrap;
    InitRooted(env, states, events);
    if i > 0 {
      RootedAlways(env, states, events, i - 1);
      RunAt(env, states, events, i - 1);
      RootedKept(env, states[i - 1], events[i - 1]);
    }
  }

  lemma NotYetMade(p: nat, seq_: nat, root: nat, n: nat)
    requires Made(MakeCallId(p, seq_ + 1), root, n)
    ensures p == root && seq_ < n
  {
    var c := MakeCallId(p, seq_ + 1);
    var k: nat :| 1 <= k <= n && c == MakeCallId(root, k);
    MakeCallIdInjective(root, k, p, seq_ + 1);
  }

  /** In every state of any run: the next id a process makes is no key of the chain
      map, and each chain is rooted at the process that made its id. */
  lemma CallIdsAreFresh(env: Env, states: seq<Sys>, events: seq<Event>, i: nat)
    requires IndexAgrees(env.cfg) && Run(env, states, events) && NeverWraps(states, events) && i < |states|
    ensures forall p :: p in states[i].net ==> MakeCallId(p, states[i].net[p].proc.seq_ + 1) !in states[i].px.chains
    ensures forall p, n :: MakeCallId(p, n) in states[i].px.chains ==>
              states[i].px.chains[MakeCallId(p, n)] != [] && states[i].px.chains[MakeCallId(p, n)][0] == p
  {
    RootedAlways(env, states, events, i);
    var s := states[i];
    hide Run, NeverWraps, NodeIds, MakeCallId;
    forall p | p in s.net ensures MakeCallId(p, s.net[p].proc.seq_ + 1) !in s.px.chains {
      var c := MakeCallId(p, s.net[p].proc.seq_ + 1);
      if c in s.px.chains {
        assert RootMade(s.net, c, s.px.chains[c]);
        NotYetMade(p, s.net[p].proc.seq_, s.px.chains[c][0], s.net[s.px.chains[c][0]].proc.seq_);
      }
    }
    forall p, n | MakeCallId(p, n) in s.px.chains
      ensures s.px.chains[MakeCallId(p, n)] != [] && s.px.chains[MakeCallId(p, n)][0] == p {
      var c := MakeCallId(p, n);
      assert RootMade(s.net, c, s.px.chains[c]);
      MadeBy(c, p, n, s.px.chains[c][0], s.net[s.px.chains[c][0]].proc.seq_);
    }
  }

  lemma MadeBy(c: Text, p: nat, n: nat, root: nat, m: nat)
    requires Made(c, root, m) && c == MakeCallId(p, n)
    ensures p == root
  {
    var k: nat :| 1 <= k <= m && c == MakeCallId(root, k);
    MakeCallIdInjective(root, k, p, n);
  }
}
