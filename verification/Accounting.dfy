/** Stack accounting and request conservation, in every run: with caching,
    failed writes and handlers that race. */
module Accounting {
  import opened Protocol
  import opened S = System
  import opened Bags
  import opened Registry
  import opened Directory
  import Proxy

  // ------------------------------------------------------------- the ledgers

  ghost function Backlogs(infos: map<nat, Proxy.Info>): map<nat, multiset<Request>> {
    map p | p in infos :: multiset(infos[p].queue)
  }

  /** All requests in all backlog queues. */
  ghost function Queued(infos: map<nat, Proxy.Info>): multiset<Request> {
    Total(Backlogs(infos))
  }

  /** Chain length is one plus selections minus responses handled. */
  ghost predicate ChainsCounted(px: Proxy.State, h: History) {
    forall c {:trigger h.selected[c]} {:trigger h.answered[c]} ::
      if c in px.chains then |px.chains[c]| + h.answered[c] == 1 + h.selected[c]
      else h.selected[c] == 0 && h.answered[c] == 0
  }

  /** Requests read are queued, sent, failed or dropped, each exactly once. */
  ghost predicate Conserved(px: Proxy.State, h: History) {
    h.read == Queued(px.infos) + h.sent + h.failed + h.dropped
  }

  ghost predicate Ledger(px: Proxy.State, h: History) {
    ChainsCounted(px, h) && Conserved(px, h)
  }

  lemma BacklogsUpdate(infos: map<nat, Proxy.Info>, p: nat, info: Proxy.Info)
    ensures Backlogs(infos[p := info]) == Backlogs(infos)[p := multiset(info.queue)]
    ensures p in Backlogs(infos) <==> p in infos
    ensures p in infos ==> Backlogs(infos)[p] == multiset(infos[p].queue)
  {
  }

  /** Replacing a record moves the total by what its backlog gains or loses. */
  lemma BacklogUpdate(infos: map<nat, Proxy.Info>, p: nat, info: Proxy.Info)
    ensures Queued(infos[p := info]) + (if p in infos then multiset(infos[p].queue) else multiset{})
            == Queued(infos) + multiset(info.queue)
    ensures (if p in infos then info.queue == infos[p].queue else info.queue == []) ==>
              Queued(infos[p := info]) == Queued(infos)
  {
    hide Total, Backlogs;
    BacklogsUpdate(infos, p, info);
    TotalUpdate(Backlogs(infos), p, multiset(info.queue));
    if if p in infos then info.queue == infos[p].queue else info.queue == [] {
      Cancel(Queued(infos[p := info]), Queued(infos), multiset(info.queue));
    }
  }

  lemma Cancel<T>(a: multiset<T>, b: multiset<T>, c: multiset<T>)
    requires a + c == b + c
    ensures a == b
  {
    assert a == (a + c) - c;
    assert b == (b + c) - c;
  }

  lemma UpdateQueued(px: Proxy.State, p: nat, c: Text, w: bool)
    ensures Queued(Proxy.Update(px, p, c, w).infos) == Queued(px.infos)
  {
    hide Queued;
    if p in px.infos {
      BacklogUpdate(px.infos, p, px.infos[p].(callId := c, waiting := w));
    }
  }

  lemma EnqueueQueued(px: Proxy.State, p: nat, req: Request)
    requires p in px.infos
    ensures Queued(Proxy.Enqueue(px, p, req).infos) == Queued(px.infos) + multiset{req}
  {
    hide Queued;
    BacklogUpdate(px.infos, p, px.infos[p].(queue := px.infos[p].queue + [req]));
    Cancel(Queued(Proxy.Enqueue(px, p, req).infos), Queued(px.infos) + multiset{req}, multiset(px.infos[p].queue));
  }

  lemma DequeueQueued(px: Proxy.State, p: nat)
    requires p in px.infos && px.infos[p].queue != []
    ensures Queued(Proxy.Dequeue(px, p).infos) + multiset{px.infos[p].queue[0]} == Queued(px.infos)
  {
    hide Queued;
    var queue := px.infos[p].queue;
    assert queue == [queue[0]] + queue[1..];
    BacklogUpdate(px.infos, p, px.infos[p].(queue := queue[1..]));
    Cancel(Queued(Proxy.Dequeue(px, p).infos) + multiset{queue[0]}, Queued(px.infos), multiset(queue[1..]));
  }

  /** What routing a request does to the chains and the backlogs. */
  ghost predicate Routed(px: Proxy.State, req: Request, py: Proxy.State, out: Proxy.Outcome) {
    && !out.Quiet? && out.req == req
    && py.chains == (if out.Dropped? then px.chains
                     else px.chains[req.callId := Proxy.Chain(px, req.callId) + [out.callee]])
    && Queued(py.infos) == Queued(px.infos) + (if out.Cached? then multiset{req} else multiset{})
  }

  lemma ForwardRouted(px: Proxy.State, req: Request, callee: nat)
    ensures Routed(px, req, Proxy.Forward(px, req, callee).0, Proxy.Forward(px, req, callee).1)
  {
    hide Queued;
    var px0 := Proxy.Update(px, req.pid, req.callId, true);
    UpdateQueued(px, req.pid, req.callId, true);
    var px1 := Proxy.Push(px0, req.callId, callee);
    if callee in px1.infos && px1.infos[callee].waiting {
      EnqueueQueued(px1, callee, req);
    } else {
      UpdateQueued(px1, callee, req.callId, false);
    }
  }

  lemma RouteRouted(owner: map<Text, Text>, px: Proxy.State, req: Request)
    ensures Routed(px, req, Proxy.Route(owner, px, req).0, Proxy.Route(owner, px, req).1)
  {
    hide Queued, Proxy.Forward, Proxy.Loops, Proxy.Least;
    if req.service in owner {
      var group := Proxy.Group(px, owner[req.service]);
      if group != [] && !Proxy.Loops(px, group, req.callId) {
        ForwardRouted(px, req, Proxy.Least(px, group));
      }
    }
  }

  /** Whatever becomes of a request is entered in both ledgers. */
  lemma RoutedLedger(px: Proxy.State, h: History, req: Request, py: Proxy.State, out: Proxy.Outcome, ok: bool)
    requires Routed(px, req, py, out) && req.callId in px.chains && px.chains[req.callId] != []
    requires ChainsCounted(px, h) && h.read == Queued(px.infos) + multiset{req} + h.sent + h.failed + h.dropped
    ensures Ledger(py, Recorded(h, out, ok))
  {
    hide Queued;
  }

  lemma RouteLedger(owner: map<Text, Text>, px: Proxy.State, h: History, req: Request, ok: bool)
    requires Registered(px) && req.callId in px.chains && px.chains[req.callId] != []
    requires ChainsCounted(px, h) && h.read == Queued(px.infos) + multiset{req} + h.sent + h.failed + h.dropped
    ensures var (py, out) := Proxy.Route(owner, px, req);
            Ledger(py, Recorded(h, out, ok)) && Routed(px, req, py, out)
  {
    hide *;
    RouteRouted(owner, px, req);
    RoutedLedger(px, h, req, Proxy.Route(owner, px, req).0, Proxy.Route(owner, px, req).1, ok);
  }

  lemma DispatchLedger(owner: map<Text, Text>, px: Proxy.State, h: History, p: nat, ok: bool)
    requires Sound(px) && Ledger(px, h)
    ensures var (py, out) := Proxy.Dispatch(owner, px, p); Ledger(py, Recorded(h, out, ok))
    ensures var (py, out) := Proxy.Dispatch(owner, px, p);
            py.chains == (if out.Quiet? || out.Dropped? then px.chains
                          else px.chains[out.req.callId := Proxy.Chain(px, out.req.callId) + [out.callee]])
  {
    hide Queued, Registered, Proxy.Route;
    if p in px.infos && px.infos[p].queue != [] && !px.infos[p].waiting {
      assert QueueResolved(px, px.infos[p].queue);
      var req := px.infos[p].queue[0];
      assert req == px.infos[p].queue[0];
      DequeueQueued(px, p);
      DequeueKeeps(px, p);
      RouteLedger(owner, Proxy.Dequeue(px, p), h, req, ok);
    }
  }

  // ---------------------------------------------------- responses still due

  function UpToken(f: Frame): multiset<Text> {
    if f.Resp? then multiset{f.resp.callId} else multiset{}
  }

  function DownToken(f: Frame): multiset<Text> {
    if f.Req? then multiset{f.req.callId} else multiset{}
  }

  function MsgToken(m: Msg): multiset<Text> {
    if m.origin.Unix? then multiset{m.callId} else multiset{}
  }

  function JobToken(job: Option<Job>): multiset<Text> {
    match job
    case None => multiset{}
    case Some(j) => MsgToken(j.msg)
  }

  /** The calls an actor process still owes the proxy a response for: written to
      its link, queued, being served, or answered but not yet read. */
  ghost function Owed(n: Node): multiset<Text> {
    Gather(n.up, UpToken) + JobToken(n.proc.job) + Gather(n.proc.queue, MsgToken) + Gather(n.down, DownToken)
  }

  lemma UpTokenIn(up: seq<Frame>, i: nat, c: Text)
    requires i < |up|
    ensures up[i].Resp? && up[i].resp.callId == c ==> Gather(up, UpToken)[c] >= 1
  {
    GatherCovers(up, i, UpToken);
    assert up[i].Resp? && up[i].resp.callId == c ==> UpToken(up[i])[c] >= 1;
  }

  lemma DownTokenIn(down: seq<Frame>, i: nat, c: Text)
    requires i < |down|
    ensures down[i].Req? && down[i].req.callId == c ==> Gather(down, DownToken)[c] >= 1
  {
    GatherCovers(down, i, DownToken);
    assert down[i].Req? && down[i].req.callId == c ==> DownToken(down[i])[c] >= 1;
  }

  lemma MsgTokenIn(queue: seq<Msg>, i: nat, c: Text)
    requires i < |queue|
    ensures queue[i].origin.Unix? && queue[i].callId == c ==> Gather(queue, MsgToken)[c] >= 1
  {
    GatherCovers(queue, i, MsgToken);
    assert queue[i].origin.Unix? && queue[i].callId == c ==> MsgToken(queue[i])[c] >= 1;
  }

  ghost function OwedByAll(net: map<nat, Node>): map<nat, multiset<Text>> {
    map p | p in net :: Owed(net[p])
  }

  ghost function Due(net: map<nat, Node>): multiset<Text> {
    Total(OwedByAll(net))
  }

  /** The frames pushed over the root of chain `c`. */
  ghost function Frames(px: Proxy.State, c: Text): nat {
    if |Proxy.Chain(px, c)| == 0 then 0 else |Proxy.Chain(px, c)| - 1
  }

  ghost predicate Covered(px: Proxy.State, due: multiset<Text>) {
    forall c :: due[c] <= Frames(px, c)
  }

  ghost predicate Accounted(s: Sys) {
    Ledger(s.px, s.hist) && Covered(s.px, Due(s.net))
  }

  lemma DueUpdate(net: map<nat, Node>, p: nat, n: Node)
    ensures Due(net[p := n]) + (if p in net then Owed(net[p]) else multiset{}) == Due(net) + Owed(n)
    ensures p in net && Owed(n) <= Owed(net[p]) ==> Due(net[p := n]) <= Due(net)
  {
    hide Owed;
    assert OwedByAll(net[p := n]) == OwedByAll(net)[p := Owed(n)];
    TotalUpdate(OwedByAll(net), p, Owed(n));
    if p in net && Owed(n) <= Owed(net[p]) {
      var a, b, c, d := Due(net[p := n]), Owed(net[p]), Due(net), Owed(n);
      forall x ensures a[x] <= c[x] {
        assert (a + b)[x] == (c + d)[x];
        assert d[x] <= b[x];
      }
    }
  }

  lemma SetPcDue(s: Sys, p: nat, pc: Pc)
    requires p in s.net
    ensures Due(SetPc(s, p, pc).net) == Due(s.net)
  {
    hide Due;
    DueUpdate(s.net, p, s.net[p].(pc := pc));
    Cancel(Due(SetPc(s, p, pc).net), Due(s.net), Owed(s.net[p]));
  }

  lemma DeliverDue(s: Sys, p: nat, f: Frame)
    ensures Due(Deliver(s, p, f).net) <= Due(s.net) + DownToken(f)
  {
    hide Due;
    if p in s.net {
      var n := s.net[p].(down := s.net[p].down + [f]);
      GatherAppend(s.net[p].down, f, DownToken);
      assert Owed(n) == Owed(s.net[p]) + DownToken(f);
      DueUpdate(s.net, p, n);
      var old_ := Owed(s.net[p]);
      assert Due(Deliver(s, p, f).net) + old_ == (Due(s.net) + DownToken(f)) + old_;
      Cancel(Due(Deliver(s, p, f).net), Due(s.net) + DownToken(f), old_);
    }
  }

  lemma ReqOwed(n: Node, r: Request)
    ensures Owed(n.(down := n.down + [Req(r)])) == Owed(n) + multiset{r.callId}
  {
    GatherAppend(n.down, Req(r), DownToken);
  }

  lemma RespOwed(n: Node, r: Response)
    ensures Owed(n.(down := n.down + [Resp(r)])) == Owed(n)
  {
    GatherAppend(n.down, Resp(r), DownToken);
  }

  lemma UpPopOwed(n: Node)
    requires n.up != []
    ensures Owed(n) == Owed(n.(up := n.up[1..])) + UpToken(n.up[0])
  {
    GatherHead(n.up, UpToken);
  }

  lemma PopUpDue(s: Sys, p: nat)
    requires p in s.net && s.net[p].up != []
    ensures Due(PopUp(s, p).net) + UpToken(s.net[p].up[0]) == Due(s.net)
  {
    hide Due;
    var n := s.net[p].(up := s.net[p].up[1..]);
    UpPopOwed(s.net[p]);
    DueUpdate(s.net, p, n);
    Cancel(Due(PopUp(s, p).net) + UpToken(s.net[p].up[0]), Due(s.net), Owed(n));
  }

  // --------------------------------------------------- actor-side steps

  lemma CompleteProc(p: nat, n: Node, job: Job, reply: Pack, ok: bool)
    ensures var m := Complete(p, n, job, reply, ok);
            m.proc.queue == n.proc.queue && m.proc.job == None && m.down == n.down
  {
  }

  lemma CompleteOwed(p: nat, n: Node, job: Job, reply: Pack, ok: bool)
    requires n.proc.job == Some(job)
    ensures Owed(Complete(p, n, job, reply, ok)) <= Owed(n)
  {
    var answer := Resp(Response(p, job.msg.callId, job.msg.service, reply));
    GatherAppend(n.up, answer, UpToken);
    hide IsOpen, Gather, Close;
    var m := Complete(p, n, job, reply, ok);
    assert m.up == n.up || (m.up == n.up + [answer] && UpToken(answer) == JobToken(n.proc.job));
    assert m.proc.queue == n.proc.queue && m.proc.job == None by {
      CompleteProc(p, n, job, reply, ok);
    }
  }

  lemma StartSendOwed(p: nat, n: Node, job: Job, service: Text, arg: Pack, ok: bool)
    requires n.proc.job == Some(job)
    ensures Owed(StartSend(p, n, job, service, arg, ok)) == Owed(n)
  {
    hide Sent;
    if ok {
      GatherAppend(n.up, StartSend(p, n, job, service, arg, ok).up[|n.up|], UpToken);
    }
  }

  lemma RefuseSendOwed(n: Node, job: Job)
    requires n.proc.job == Some(job)
    ensures Owed(RefuseSend(n, job)) == Owed(n)
  {
    hide Gather;
  }

  lemma ActOwed(env: Env, p: nat, n: Node, ok: bool)
    requires n.proc.job.Some?
    ensures Owed(ActNode(env, p, n, ok)) <= Owed(n)
  {
    hide Offers, StartSend, Complete, Owed;
    var job := n.proc.job.value;
    match env.body(job.msg.service, job.msg.pack, job.replies)
    case Return(reply) => CompleteOwed(p, n, job, reply, ok);
    case Call(service, arg) =>
      RefuseSendOwed(n, job);
      StartSendOwed(p, n, job, service, arg, ok && n.proc.linked);
  }

  lemma TakeOwed(env: Env, n: Node)
    requires n.proc.queue != [] && n.proc.job.None?
    ensures Owed(TakeNode(env, n)) <= Owed(n)
  {
    var m := TakeNode(env, n);
    GatherHead(n.proc.queue, MsgToken);
    TakeParts(env, n);
    hide TakeNode, Gather, MsgToken, JobToken;
  }

  lemma TakeParts(env: Env, n: Node)
    requires n.proc.queue != [] && n.proc.job.None?
    ensures var m := TakeNode(env, n);
            && m.up == n.up && m.down == n.down && m.proc.queue == n.proc.queue[1..]
            && JobToken(m.proc.job) <= MsgToken(n.proc.queue[0]) && JobToken(n.proc.job) == multiset{}
  {
    hide Offers, IsOpen;
  }

  lemma ReceiveOwed(n: Node)
    requires n.down != []
    ensures Owed(ReceiveNode(n)) <= Owed(n)
  {
    if n.down[0].Req? {
      var r := n.down[0].req;
      GatherAppend(n.proc.queue, Msg(r.service, r.callId, r.pack, Unix), MsgToken);
    }
  }

  lemma ArriveOwed(n: Node, msg: Msg)
    requires msg.origin.Tcp?
    ensures Owed(n.(proc := n.proc.(queue := n.proc.queue + [msg]))) == Owed(n)
  {
    GatherAppend(n.proc.queue, msg, MsgToken);
  }

  lemma CloseOwed(n: Node, o: Origin)
    ensures Owed(n.(proc := Close(n.proc, o))) == Owed(n)
  {
  }

  lemma FewerDue(px: Proxy.State, a: multiset<Text>, b: multiset<Text>)
    requires Covered(px, b) && a <= b
    ensures Covered(px, a)
  {
    forall c ensures a[c] <= Frames(px, c) {
      assert a[c] <= b[c];
    }
  }

  lemma ActorAccounts(env: Env, s: Sys, e: Event)
    requires Accounted(s) && Enabled(env, s, e) && (e.Arrive? || e.HangUp? || e.Receive? || e.Take? || e.Act?)
    ensures Accounted(Apply(env, s, e))
  {
    hide Owed, Due, Covered, Ledger, ActNode, TakeNode, ReceiveNode;
    var n := s.net[e.p];
    match e {
      case Receive(p) => ReceiveOwed(n);
      case Take(p) => TakeOwed(env, n);
      case Act(p, ok) => ActOwed(env, p, n, ok);
      case Arrive(p, msg) => ArriveOwed(n, msg);
      case HangUp(p, conn) => CloseOwed(n, Tcp(conn));
    }
    var t := Apply(env, s, e);
    DueUpdate(s.net, e.p, t.net[e.p]);
    FewerDue(s.px, Due(t.net), Due(s.net));
  }

  // --------------------------------------------------- proxy-side steps

  ghost function Afterwards(px: Proxy.State, out: Proxy.Outcome): map<Text, seq<nat>> {
    if out.Quiet? || out.Dropped? then px.chains
    else px.chains[out.req.callId := Proxy.Chain(px, out.req.callId) + [out.callee]]
  }

  lemma PushCovers(px: Proxy.State, c: Text, callee: nat, due: multiset<Text>, more: multiset<Text>)
    requires Covered(px, due) && Proxy.Chain(px, c) != [] && more <= due + multiset{c}
    ensures Covered(px.(chains := px.chains[c := Proxy.Chain(px, c) + [callee]]), more)
  {
    var py := px.(chains := px.chains[c := Proxy.Chain(px, c) + [callee]]);
    forall d ensures more[d] <= Frames(py, d) {
      assert more[d] <= (due + multiset{c})[d];
    }
  }

  lemma CoveredBy(px: Proxy.State, py: Proxy.State, due: multiset<Text>)
    requires Covered(px, due) && px.chains == py.chains
    ensures Covered(py, due)
  {
    assert forall c :: Frames(px, c) == Frames(py, c);
  }

  lemma DispatchedAccounts(s: Sys, h: nat, r: (Proxy.State, Proxy.Outcome), ok: bool, after: After)
    requires h in s.net && Covered(s.px, Due(s.net)) && Ledger(r.0, Recorded(s.hist, r.1, ok))
    requires r.0.chains == Afterwards(s.px, r.1)
    requires !r.1.Quiet? ==> Proxy.Chain(s.px, r.1.req.callId) != []
    ensures Accounted(Dispatched(s, h, r, ok, after))
  {
    hide Due, Covered, Ledger, Recorded;
    var s1 := s.(px := r.0, hist := Recorded(s.hist, r.1, ok));
    if r.1.Sent? || r.1.Cached? {
      var s2 := if r.1.Sent? && ok then Deliver(s1, r.1.callee, Req(r.1.req)) else s1;
      DeliverDue(s1, r.1.callee, Req(r.1.req));
      PushCovers(s.px, r.1.req.callId, r.1.callee, Due(s.net), Due(s2.net));
      CoveredBy(s.px.(chains := Afterwards(s.px, r.1)), r.0, Due(s2.net));
      SetPcDue(s2, h, Dispatched(s, h, r, ok, after).net[h].pc);
    } else {
      CoveredBy(s.px, r.0, Due(s.net));
      SetPcDue(s1, h, Reading);
    }
  }

  lemma DispatchRooted(owner: map<Text, Text>, px: Proxy.State, p: nat)
    requires Sound(px)
    ensures var out := Proxy.Dispatch(owner, px, p).1;
            !out.Quiet? ==> out.req.callId in px.chains && px.chains[out.req.callId] != []
  {
    hide Registered;
    if p in px.infos && px.infos[p].queue != [] && !px.infos[p].waiting {
      assert QueueResolved(px, px.infos[p].queue);
      var req := px.infos[p].queue[0];
      assert req == px.infos[p].queue[0];
      DequeueKeeps(px, p);
      hide Resolved;
      RouteOutcome(owner, Proxy.Dequeue(px, p), req);
    }
  }

  lemma UpdateLedger(px: Proxy.State, h: History, p: nat, c: Text, w: bool)
    requires Ledger(px, h)
    ensures Ledger(Proxy.Update(px, p, c, w), h)
  {
    hide Queued;
    UpdateQueued(px, p, c, w);
  }

  lemma WakeCallerAccounts(env: Env, s: Sys, h: nat, c: Text, ok: bool)
    requires Accounted(s) && Sound(s.px) && h in s.net
    ensures Accounted(WakeCaller(env, s, h, c, ok))
  {
    hide Due, Covered, Ledger, Sound, Dispatched, Recorded, Proxy.Dispatch;
    var chain := Proxy.Chain(s.px, c);
    if chain == [] {
      SetPcDue(s, h, Reading);
    } else {
      var q := chain[|chain| - 1];
      var px1 := Proxy.Update(s.px, q, c, false);
      UpdateLedger(s.px, s.hist, q, c, false);
      UpdateKeeps(s.px, q, c, false);
      DispatchLedger(env.cfg.owner, px1, s.hist, q, ok);
      DispatchRooted(env.cfg.owner, px1, q);
      DispatchedAccounts(s, h, Proxy.Dispatch(env.cfg.owner, px1, q), ok, Done);
    }
  }

  lemma WakeSelfAccounts(env: Env, s: Sys, h: nat, self: nat, c: Text, ok: bool)
    requires Accounted(s) && Sound(s.px) && h in s.net
    ensures Accounted(WakeSelf(env, s, h, self, c, ok))
  {
    hide Due, Covered, Ledger, Sound, Dispatched, Recorded, Proxy.Dispatch, WakeCaller;
    var px1 := Proxy.Update(s.px, self, [], false);
    UpdateLedger(s.px, s.hist, self, [], false);
    UpdateKeeps(s.px, self, [], false);
    DispatchLedger(env.cfg.owner, px1, s.hist, self, ok);
    DispatchRooted(env.cfg.owner, px1, self);
    DispatchKeeps(env.cfg.owner, px1, self);
    var r := Proxy.Dispatch(env.cfg.owner, px1, self);
    if r.1.Sent? {
      DispatchedAccounts(s, h, r, ok, Caller(c));
    } else {
      if r.1.Cached? {
        PushCovers(s.px, r.1.req.callId, r.1.callee, Due(s.net), Due(s.net));
      }
      CoveredBy(s.px.(chains := Afterwards(s.px, r.1)), r.0, Due(s.net));
      WakeCallerAccounts(env, s.(px := r.0, hist := Recorded(s.hist, r.1, ok)), h, c, ok);
    }
  }

  lemma RootLedger(px: Proxy.State, h: History, c: Text, p: nat, due: multiset<Text>)
    requires Ledger(px, h) && Covered(px, due)
    ensures Ledger(Proxy.Root(px, c, p), h) && Covered(Proxy.Root(px, c, p), due)
  {
    hide Queued;
    var py := Proxy.Root(px, c, p);
    assert py.infos == px.infos;
    assert forall d :: Frames(py, d) == Frames(px, d);
  }

  lemma ReadLedger(px: Proxy.State, h: History, p: nat, req: Request)
    requires Ledger(px, h) && p in px.infos
    ensures Ledger(Proxy.Enqueue(px, p, req), h.(read := h.read + multiset{req}))
  {
    hide Queued;
    EnqueueQueued(px, p, req);
  }

  lemma ReadRequestAccounts(env: Env, s: Sys, h: nat, req: Request, ok: bool)
    requires Accounted(s) && Sound(s.px) && h in s.net && req.pid in s.px.infos
    ensures Accounted(S.ReadRequest(env, s, h, req, ok))
  {
    hide Due, Covered, Ledger, Registered, Resolved, Dispatched, Recorded, Proxy.Dispatch, QueueResolved, Frames;
    RootKeeps(s.px, req.callId, req.pid);
    var px1 := Proxy.Root(s.px, req.callId, req.pid);
    RootLedger(s.px, s.hist, req.callId, req.pid, Due(s.net));
    var px2 := Proxy.Enqueue(px1, req.pid, req);
    var hist := s.hist.(read := s.hist.read + multiset{req});
    ReadLedger(px1, s.hist, req.pid, req);
    CoveredBy(px1, px2, Due(s.net));
    EnqueueKeeps(px1, req.pid, req);
    DispatchLedger(env.cfg.owner, px2, hist, req.pid, ok);
    DispatchRooted(env.cfg.owner, px2, req.pid);
    var r := Proxy.Dispatch(env.cfg.owner, px2, req.pid);
    var s2 := s.(px := px2, hist := hist);
    DispatchedAccounts(s2, h, r, ok, Done);
    assert Dispatched(s.(hist := hist), h, r, ok, Done) == Dispatched(s2, h, r, ok, Done) by {
      DispatchedReplaces(s.(hist := hist), px2, h, r, ok);
    }
  }

  lemma DispatchedReplaces(s: Sys, px: Proxy.State, h: nat, r: (Proxy.State, Proxy.Outcome), ok: bool)
    requires h in s.net
    ensures Dispatched(s, h, r, ok, Done) == Dispatched(s.(px := px), h, r, ok, Done)
  {
    hide Recorded;
  }

  lemma PopLedger(px: Proxy.State, h: History, c: Text)
    requires Ledger(px, h) && |Proxy.Chain(px, c)| >= 2
    ensures Ledger(Proxy.PopChain(px, c), h.(answered := h.answered + multiset{c}))
  {
    hide Queued;
    assert Proxy.PopChain(px, c).infos == px.infos;
  }

  lemma PopCovers(px: Proxy.State, c: Text, due: multiset<Text>, less: multiset<Text>)
    requires Covered(px, due) && less + multiset{c} <= due
    ensures |Proxy.Chain(px, c)| >= 2 && Covered(Proxy.PopChain(px, c), less)
  {
    assert due[c] >= (less + multiset{c})[c] >= 1;
    assert due[c] <= Frames(px, c);
    var py := Proxy.PopChain(px, c);
    forall d ensures less[d] <= Frames(py, d) {
      assert (less + multiset{c})[d] <= due[d];
      assert due[d] <= Frames(px, d);
    }
  }

  /** Popping the chain of a response that was read from a link never removes
      the root (line 605). */
  lemma PopLeavesRoot(s: Sys, p: nat)
    requires Accounted(s) && p in s.net && s.net[p].up != [] && s.net[p].up[0].Resp?
    ensures |Proxy.Chain(s.px, s.net[p].up[0].resp.callId)| >= 2
  {
    hide Due, Ledger;
    PopUpDue(s, p);
    PopCovers(s.px, s.net[p].up[0].resp.callId, Due(s.net), Due(PopUp(s, p).net));
  }

  lemma ReadResponseAccounts(s: Sys, p: nat, ok: bool)
    requires Accounted(s) && p in s.net && s.net[p].up != [] && s.net[p].up[0].Resp?
    ensures Accounted(ReadResponse(PopUp(s, p), p, s.net[p].up[0].resp, ok))
  {
    hide Due, Ledger, Covered, Frames;
    var resp := s.net[p].up[0].resp;
    var c := resp.callId;
    var s1 := PopUp(s, p);
    PopUpDue(s, p);
    PopCovers(s.px, c, Due(s.net), Due(s1.net));
    PopLedger(s.px, s.hist, c);
    var chain := Proxy.Chain(s.px, c);
    var caller := chain[|chain| - 2];
    var s2 := s1.(px := Proxy.PopChain(s.px, c), hist := s.hist.(answered := s.hist.answered + multiset{c}));
    var s3 := if ok then Deliver(s2, caller, Resp(resp)) else s2;
    DeliverDue(s2, caller, Resp(resp));
    assert Due(s3.net) <= Due(s2.net);
    FewerDue(s2.px, Due(s3.net), Due(s1.net));
    SetPcDue(s3, p, Answering(chain[|chain| - 1], c));
  }

  lemma ReadUpAccounts(env: Env, s: Sys, p: nat, ok: bool)
    requires Accounted(s) && Listed(env.cfg, s) && p in s.net && s.net[p].up != []
    ensures Accounted(ReadUpStep(env, s, p, ok))
  {
    hide Due, Ledger, Covered, Sound, S.ReadRequest, ReadResponse, Supported, PcResolved;
    match s.net[p].up[0]
    case Resp(resp) => ReadResponseAccounts(s, p, ok);
    case Req(req) =>
      assert NodeListed(env.cfg, s.px, p, s.net[p]);
      assert s.net[p].up[0].req.pid == p;
      PopUpDue(s, p);
      assert Due(PopUp(s, p).net) == Due(s.net);
      ReadRequestAccounts(env, PopUp(s, p), p, req, ok);
  }

  lemma ResumeAccounts(env: Env, s: Sys, p: nat, ok: bool)
    requires Accounted(s) && Sound(s.px) && p in s.net
    ensures Accounted(ResumeStep(env, s, p, ok))
  {
    hide Due, Ledger, Covered, Sound, WakeSelf, WakeCaller;
    match s.net[p].pc
    case Reading =>
    case Answering(self, c) => WakeSelfAccounts(env, s, p, self, c, ok);
    case Sending(req, callee, sent, after) =>
      var px1 := Proxy.Update(s.px, req.pid, [], false);
      var px2 := Proxy.Update(px1, callee, [], false);
      UpdateLedger(s.px, s.hist, req.pid, [], false);
      UpdateLedger(px1, s.hist, callee, [], false);
      WriteFailedKeeps(s.px, req, callee);
      CoveredBy(s.px, px2, Due(s.net));
      var s1 := if sent then s else s.(px := px2);
      match after {
        case Done => SetPcDue(s1, p, Reading);
        case Caller(c) => WakeCallerAccounts(env, s1, p, c, ok);
      }
  }

  lemma ConnectAccounts(env: Env, s: Sys, p: nat, name: Text)
    requires Accounted(s) && p !in s.net && p !in s.px.infos
    requires Enabled(env, s, Connect(p, name))
    ensures Accounted(Apply(env, s, Connect(p, name)))
  {
    hide Due, Covered;
    var t := Apply(env, s, Connect(p, name));
    BacklogUpdate(s.px.infos, p, t.px.infos[p]);
    hide Queued;
    assert Owed(t.net[p]) == multiset{};
    DueUpdate(s.net, p, t.net[p]);
    Cancel(Due(t.net), Due(s.net), multiset{});
    hide Owed;
    CoveredBy(s.px, t.px, Due(s.net));
  }

  /** Stack accounting and request conservation, one step of any kind. */
  lemma AccountedKept(env: Env, s: Sys, e: Event)
    requires Accounted(s) && Listed(env.cfg, s) && Enabled(env, s, e)
    ensures Accounted(Apply(env, s, e))
  {
    hide Accounted, Sound, NodeListed;
    match e
    case Connect(p, name) => ConnectAccounts(env, s, p, name);
    case ReadUp(p, ok) => ReadUpAccounts(env, s, p, ok);
    case Resume(p, ok) => ResumeAccounts(env, s, p, ok);
    case _ => ActorAccounts(env, s, e);
  }

  lemma DueWithinSelections(s: Sys, c: Text)
    requires Accounted(s) && Resolved(s.px)
    ensures s.hist.answered[c] + Due(s.net)[c] <= s.hist.selected[c]
  {
    hide Due, Queued;
    assert Due(s.net)[c] <= Frames(s.px, c);
  }

  lemma InitAccounted()
    ensures Accounted(Init)
  {
    assert Due(Init.net) == multiset{};
    assert Queued(Init.px.infos) == multiset{};
  }

  /** In every state of every run each chain is one plus the selections minus
      the responses handled for its id, no chain holds fewer frames over its
      root than responses are due on it, and the requests read are exactly those
      queued, sent, failed or dropped. */
  lemma {:induction false} AccountedAlways(env: Env, states: seq<Sys>, events: seq<Event>)
    requires IndexAgrees(env.cfg) && Run(env, states, events)
    ensures forall i :: 0 <= i < |states| ==> Accounted(states[i])
  {
    hide Accounted, IndexAgrees, Apply, Enabled;
    if events == [] {
      InitAccounted();
    } else {
      var k := |events| - 1;
      AccountedAlways(env, states[..k + 1], events[..k]);
      ListedAlways(env, states, events);
      assert states[..k + 1][k] == states[k];
      AccountedKept(env, states[k], events[k]);
      forall i | 0 <= i < |states| ensures Accounted(states[i]) {
        assert i <= k ==> states[..k + 1][i] == states[i];
      }
    }
  }

  /** In every state of every run, responses handled or still due never exceed
      selections. */
  lemma ResponsesWithinSelections(env: Env, states: seq<Sys>, events: seq<Event>, i: nat, c: Text)
    requires IndexAgrees(env.cfg) && Run(env, states, events) && i < |states|
    ensures states[i].hist.answered[c] + Due(states[i].net)[c] <= states[i].hist.selected[c]
  {
    hide Run, Accounted, IndexAgrees;
    ListedAlways(env, states, events);
    AccountedAlways(env, states, events);
    assert Listed(env.cfg, states[i]);
    DueWithinSelections(states[i], c);
  }
}
