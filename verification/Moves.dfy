/** How one smooth step changes the call chains: not at all, by rooting a chain,
    by pushing the callee of a request, or by popping the sender of a response. */
module Moves {
  import opened Protocol
  import opened S = System
  import opened Invariant
  import opened ActorNodes
  import opened ProxySteps
  import opened ForwardSteps
  import opened ReplySteps
  import opened RecordSteps
  import opened SmoothSteps
  import opened SmoothRuns
  import opened ResumeSteps
  import Directory
  import Proxy
  import Registry

  /** No handler starts to be suspended in a response. */
  ghost predicate FewerAnswering(s: Sys, t: Sys) {
    forall h :: h in t.net && t.net[h].pc.Answering? ==> h in s.net && s.net[h].pc == t.net[h].pc
  }

  /** The chains stay as they are, but perhaps for a new chain of one process. */
  ghost predicate StillMove(s: Sys, t: Sys) {
    && FewerAnswering(s, t) && t.hist.sent == s.hist.sent
    && (t.px.chains == s.px.chains ||
        exists c, p :: c !in s.px.chains && t.px.chains == s.px.chains[c := [p]])
  }

  /** Request `r` is sent to `callee`, which joins the chain above the requester. */
  ghost predicate PushMove(s: Sys, t: Sys, r: Request, callee: nat) {
    var base := Proxy.Root(s.px, r.callId, r.pid);
    && FewerAnswering(s, t)
    && r.pid in s.net && s.net[r.pid].proc.wait == Some(r) && callee in s.net && callee != r.pid
    && callee in t.net && IsTop(base, r.callId, r.pid)
    && t.px.chains == base.chains[r.callId := Proxy.Chain(base, r.callId) + [callee]]
    && t.hist.sent == s.hist.sent + multiset{r}
    && t.net[callee].down == s.net[callee].down + [Req(r)]
  }

  /** The response `r` of `b`, the end of its chain, is sent to `a`, just below. */
  ghost predicate PopMove(s: Sys, t: Sys, r: Response, a: nat, b: nat) {
    && EndsIn(s.px, r.callId, a, b) && a in s.net && b in s.net && a != b
    && t.px == Proxy.PopChain(s.px, r.callId) && t.net.Keys == s.net.Keys && t.hist.sent == s.hist.sent
    && (forall h :: h in s.net ==>
          && t.net[h].down == (if h == a then s.net[h].down + [Resp(r)] else s.net[h].down)
          && t.net[h].proc == s.net[h].proc)
    && (forall h :: h in s.net ==> t.net[h].pc == if h == b then Answering(b, r.callId) else s.net[h].pc)
  }

  // --------------------------------------------------- the flags of the records

  /** Whom a step lets go, whatever comes of it: lines 611 and 614. */
  ghost function Woken(s: Sys, e: Event): set<nat> {
    if e.Resume? && e.p in s.net && s.net[e.p].pc.Answering? then
      var chain := Proxy.Chain(s.px, s.net[e.p].pc.callId);
      {s.net[e.p].pc.self} + if chain == [] then {} else {chain[|chain| - 1]}
    else {}
  }

  /** The record of `p` keeps its name and, unless `p` is let go, its flags. */
  ghost predicate RecordStays(px: Proxy.State, py: Proxy.State, woken: set<nat>, p: nat) {
    && p in px.infos && p in py.infos && py.infos[p].name == px.infos[p].name
    && if p in woken then !py.infos[p].waiting
       else py.infos[p].waiting == px.infos[p].waiting && py.infos[p].callId == px.infos[p].callId
  }

  /** Only a handler that lets its own actor go stops being suspended in a response. */
  ghost predicate Unsuspends(s: Sys, t: Sys, woken: set<nat>) {
    forall h :: Responding(s.net, h) && !Responding(t.net, h) ==> h in woken
  }

  ghost predicate FlagsStay(s: Sys, t: Sys, woken: set<nat>) {
    && (forall p :: p in s.px.infos ==> RecordStays(s.px, t.px, woken, p))
    && (forall p :: p in t.px.infos && p !in s.px.infos ==> !t.px.infos[p].waiting)
    && Unsuspends(s, t, woken)
  }

  /** The requester of `r`, which no chain waited for, counts as waiting on its call;
      the callee does not wait, and nobody of its name was known to work on the call. */
  ghost predicate FlagsPush(s: Sys, t: Sys, woken: set<nat>, r: Request, callee: nat) {
    && r.pid in s.px.infos && callee in s.px.infos && Free(s.px, r.pid)
    && t.px.infos.Keys == s.px.infos.Keys
    && (forall p :: p in s.px.infos && p != r.pid && p != callee ==> RecordStays(s.px, t.px, woken, p))
    && (forall p :: p in s.px.infos ==> t.px.infos[p].name == s.px.infos[p].name)
    && t.px.infos[r.pid].waiting && t.px.infos[r.pid].callId == r.callId && !t.px.infos[callee].waiting
    && (callee in woken || !s.px.infos[callee].waiting)
    && s.px.infos[r.pid].name != s.px.infos[callee].name
    && (forall p :: p in s.px.infos && p !in woken && s.px.infos[p].callId == r.callId ==>
          s.px.infos[p].name != s.px.infos[callee].name)
    && Unsuspends(s, t, woken)
  }

  /** The step sends the request that its last dispatch lets out, if any. */
  ghost predicate Ahead(s: Sys, t: Sys, woken: set<nat>, out: Proxy.Outcome) {
    if out.Sent? then PushMove(s, t, out.req, out.callee) && FlagsPush(s, t, woken, out.req, out.callee)
    else StillMove(s, t) && FlagsStay(s, t, woken)
  }

  ghost predicate Moved(s: Sys, t: Sys, woken: set<nat>, out: Proxy.Outcome) {
    Ahead(s, t, woken, out) || (!out.Sent? && exists r, a, b :: PopMove(s, t, r, a, b))
  }

  lemma StayStay(s: Sys, u: Sys, t: Sys, early: set<nat>, late: set<nat>)
    requires FlagsStay(s, u, early) && FlagsStay(u, t, late)
    ensures FlagsStay(s, t, early + late)
  {
    forall p | p in s.px.infos ensures RecordStays(s.px, t.px, early + late, p) {
      assert RecordStays(s.px, u.px, early, p) && RecordStays(u.px, t.px, late, p);
    }
    forall p | p in t.px.infos && p !in s.px.infos ensures !t.px.infos[p].waiting {
      if p in u.px.infos {
        assert RecordStays(u.px, t.px, late, p);
      }
    }
    hide RecordStays, Responding;
  }

  lemma StayPush(s: Sys, u: Sys, t: Sys, early: set<nat>, late: set<nat>, r: Request, callee: nat)
    requires FlagsStay(s, u, early) && FlagsPush(u, t, late, r, callee)
    requires Free(s.px, r.pid) && u.px.infos.Keys == s.px.infos.Keys
    ensures FlagsPush(s, t, early + late, r, callee)
  {
    hide Responding, Free;
    assert RecordStays(s.px, u.px, early, r.pid) && RecordStays(s.px, u.px, early, callee);
    forall p | p in s.px.infos
      ensures t.px.infos[p].name == s.px.infos[p].name
      ensures p != r.pid && p != callee ==> RecordStays(s.px, t.px, early + late, p)
      ensures p !in early + late && s.px.infos[p].callId == r.callId ==> s.px.infos[p].name != s.px.infos[callee].name {
      assert RecordStays(s.px, u.px, early, p);
      assert p != r.pid && p != callee ==> RecordStays(u.px, t.px, late, p);
    }
  }

  /** The request `r` in the proxy's hands is dealt with as `out` says: it pushes its
      callee, or is dropped or queued. */
  ghost predicate Dealt(s: Sys, t: Sys, r: Request, out: Proxy.Outcome) {
    if out.Sent? then out.req == r && PushMove(s, t, r, out.callee) && FlagsPush(s, t, {}, r, out.callee)
    else FewerAnswering(s, t) && t.px.chains == s.px.chains && t.hist.sent == s.hist.sent && FlagsStay(s, t, {})
  }

  lemma DealtAhead(s: Sys, t: Sys, r: Request, out: Proxy.Outcome)
    requires Dealt(s, t, r, out)
    ensures Ahead(s, t, {}, out)
  {
    hide FewerAnswering, FlagsStay, PushMove, FlagsPush;
  }

  // ---------------------------------------------------------------- routing

  lemma RoutePushes(env: Env, s: Sys, a: nat, r: Request, h: nat, callee: nat)
    requires Inv(env, s) && Ready(s, a, r) && IndexAgrees(env.cfg) && r.pid == a
    requires h in s.net && !s.net[h].pc.Answering?
    requires Proxy.Route(env.cfg.owner, s.px, r).1 == Proxy.Sent(r, callee)
    ensures var t := Dispatched(s, h, Proxy.Route(env.cfg.owner, s.px, r), true, Done);
            PushMove(s, t, r, callee) && FlagsPush(s, t, {}, r, callee)
  {
    hide *;
    var x := Proxy.Route(env.cfg.owner, s.px, r);
    SentTakes(env, s, a, r, callee);
    TakesDiffer(s, a, r.callId, callee);
    ReadyFacts(s, a, r);
    ReadyFree(s, a, r);
    RootKnown(s.px, r.callId, a);
    ForwardIs(env, s, a, r, callee);
    DispatchedSent(s, h, x, r, callee);
    PushFlags(s, x.0, a, r.callId, callee);
    PushIs(s, Dispatched(s, h, x, true, Done), r, callee);
    FlagsPushIs(s, Dispatched(s, h, x, true, Done), r, callee);
  }

  lemma PushIs(s: Sys, t: Sys, r: Request, callee: nat)
    requires FewerAnswering(s, t) && Proxy.Root(s.px, r.callId, r.pid) == s.px && IsTop(s.px, r.callId, r.pid)
    requires r.pid in s.net && s.net[r.pid].proc.wait == Some(r) && callee in s.net && callee != r.pid
    requires callee in t.net
    requires r.callId in s.px.chains && t.px.chains == s.px.chains[r.callId := s.px.chains[r.callId] + [callee]]
    requires t.hist.sent == s.hist.sent + multiset{r} && t.net[callee].down == s.net[callee].down + [Req(r)]
    ensures PushMove(s, t, r, callee)
  {
    hide FewerAnswering, Proxy.Root, IsTop;
  }

  lemma FlagsPushIs(s: Sys, t: Sys, r: Request, callee: nat)
    requires r.pid in s.px.infos && callee in s.px.infos && Free(s.px, r.pid) && t.px.infos.Keys == s.px.infos.Keys
    requires forall p :: p in s.px.infos && p != r.pid && p != callee ==> RecordStays(s.px, t.px, {}, p)
    requires forall p :: p in s.px.infos ==> t.px.infos[p].name == s.px.infos[p].name
    requires t.px.infos[r.pid].waiting && t.px.infos[r.pid].callId == r.callId
    requires !t.px.infos[callee].waiting && !s.px.infos[callee].waiting
    requires s.px.infos[r.pid].name != s.px.infos[callee].name
    requires forall p :: p in s.px.infos && s.px.infos[p].callId == r.callId ==>
               s.px.infos[p].name != s.px.infos[callee].name
    requires Unsuspends(s, t, {})
    ensures FlagsPush(s, t, {}, r, callee)
  {
    hide Free, RecordStays, Unsuspends;
  }

  lemma ReadyFree(s: Sys, a: nat, r: Request)
    requires Ready(s, a, r)
    ensures Free(s.px, a)
  {
  }

  lemma PushFlags(s: Sys, py: Proxy.State, a: nat, c: Text, callee: nat)
    requires Takes(s, a, c, callee) && c in s.px.chains
    requires py == Proxy.Update(Pushed(s.px, a, c, callee), callee, c, false)
    ensures a in s.px.infos && callee in s.px.infos && py.infos.Keys == s.px.infos.Keys
    ensures py.chains == s.px.chains[c := s.px.chains[c] + [callee]]
    ensures forall p :: p in s.px.infos && p != a && p != callee ==> RecordStays(s.px, py, {}, p)
    ensures forall p :: p in s.px.infos ==> py.infos[p].name == s.px.infos[p].name
    ensures py.infos[a].waiting && py.infos[a].callId == c && !py.infos[callee].waiting
    ensures s.px.infos[a].name != s.px.infos[callee].name
    ensures forall p :: p in s.px.infos && s.px.infos[p].callId == c ==> s.px.infos[p].name != s.px.infos[callee].name
  {
    PushedRecords(s.px, a, c, callee);
    PushedChain(s.px, a, c, callee, c);
  }

  lemma TakesDiffer(s: Sys, a: nat, c: Text, callee: nat)
    requires Takes(s, a, c, callee)
    ensures callee != a && callee in s.net && callee in s.px.infos && !s.px.infos[callee].waiting
  {
    hide Registry.Engaged;
  }

  lemma DispatchedSent(s: Sys, h: nat, x: (Proxy.State, Proxy.Outcome), r: Request, callee: nat)
    requires h in s.net && !s.net[h].pc.Answering? && callee in s.net && x.1 == Proxy.Sent(r, callee)
    ensures var t := Dispatched(s, h, x, true, Done);
            && FewerAnswering(s, t) && t.px == x.0 && t.hist.sent == s.hist.sent + multiset{r}
            && callee in t.net && t.net[callee].down == s.net[callee].down + [Req(r)] && Unsuspends(s, t, {})
  {
  }

  lemma DispatchedElse(s: Sys, h: nat, x: (Proxy.State, Proxy.Outcome))
    requires h in s.net && !s.net[h].pc.Answering? && (x.1.Dropped? || x.1.Quiet?)
    requires forall p :: p in s.px.infos ==> RecordStays(s.px, x.0, {}, p)
    requires x.0.infos.Keys == s.px.infos.Keys
    ensures var t := Dispatched(s, h, x, true, Done);
            FewerAnswering(s, t) && t.px == x.0 && t.hist.sent == s.hist.sent && FlagsStay(s, t, {})
  {
    hide RecordStays;
  }

  /** A request in the proxy's hands is dropped, or pushes its callee. */
  lemma RouteMoves(env: Env, s: Sys, a: nat, r: Request, h: nat)
    requires Inv(env, s) && Ready(s, a, r) && IndexAgrees(env.cfg) && r.pid == a
    requires h in s.net && !s.net[h].pc.Answering?
    requires !Proxy.Route(env.cfg.owner, s.px, r).1.Cached?
    ensures var x := Proxy.Route(env.cfg.owner, s.px, r); Dealt(s, Dispatched(s, h, x, true, Done), r, x.1)
  {
    var x := Proxy.Route(env.cfg.owner, s.px, r);
    ReadyFacts(s, a, r);
    InvListed(env, s);
    Registry.RouteOutcome(env.cfg.owner, s.px, r);
    hide Inv, Ready, Directory.Listed, Registry.Registered, Registry.Resolved;
    hide Registry.Engaged, IndexAgrees, Proxy.Route;
    hide Dispatched, PushMove, FlagsPush, FlagsStay;
    if x.1.Sent? {
      RoutePushes(env, s, a, r, h, x.1.callee);
    } else {
      assert x.0 == s.px;
      DispatchedElse(s, h, x);
    }
  }

  // ------------------------------------------------------------- each event

  lemma ActorMoves(env: Env, s: Sys, e: Event)
    requires Enabled(env, s, e) && (e.Connect? || e.Arrive? || e.HangUp? || e.Receive? || e.Take? || e.Act?)
    requires s.px.infos.Keys == s.net.Keys
    ensures StillMove(s, Apply(env, s, e)) && FlagsStay(s, Apply(env, s, e), {})
  {
    hide ActNode, TakeNode, ReceiveNode, FlagsStay, StillMove;
    match e
    case Connect(p, name) => ConnectMoves(s, p, name);
    case Arrive(p, msg) => NodeMoves(s, p, s.net[p].(proc := s.net[p].proc.(queue := s.net[p].proc.queue + [msg])));
    case HangUp(p, conn) => NodeMoves(s, p, s.net[p].(proc := Close(s.net[p].proc, Tcp(conn))));
    case Receive(p) =>
      ReceivePc(s.net[p]);
      NodeMoves(s, p, ReceiveNode(s.net[p]));
    case Take(p) =>
      TakeFields(env, s.net[p]);
      NodeMoves(s, p, TakeNode(env, s.net[p]));
    case Act(p, ok) =>
      ActPc(env, p, s.net[p], ok);
      NodeMoves(s, p, ActNode(env, p, s.net[p], ok));
  }

  lemma ConnectMoves(s: Sys, p: nat, name: Text)
    requires p !in s.net && s.px.infos.Keys == s.net.Keys
    ensures var n := Node(Reading, [], [], Proc(name, 0, [], [], None, None, false, true, {}, []));
            var t := s.(px := Proxy.Connect(s.px, p, name), net := s.net[p := n]);
            StillMove(s, t) && FlagsStay(s, t, {})
  {
  }

  lemma NodeMoves(s: Sys, p: nat, n: Node)
    requires p in s.net && n.pc == s.net[p].pc
    ensures StillMove(s, s.(net := s.net[p := n])) && FlagsStay(s, s.(net := s.net[p := n]), {})
  {
  }

  lemma ActPc(env: Env, p: nat, n: Node, ok: bool)
    requires n.proc.job.Some?
    ensures ActNode(env, p, n, ok).pc == n.pc
  {
    hide Offers, IsOpen;
  }

  lemma ReceivePc(n: Node)
    requires n.down != []
    ensures ReceiveNode(n).pc == n.pc
  {
  }

  /** A move from the state in which the proxy holds the request it has read. */
  lemma HeldMoves(s: Sys, u: Sys, t: Sys, p: nat, r: Request, out: Proxy.Outcome)
    requires p in s.net && r.pid == p && u.px == Proxy.Root(s.px, r.callId, p) && u.hist.sent == s.hist.sent
    requires u.net.Keys == s.net.Keys && Free(s.px, p) && u.px.infos == s.px.infos
    requires forall q :: q in s.net ==>
               u.net[q].pc == s.net[q].pc && u.net[q].proc == s.net[q].proc && u.net[q].down == s.net[q].down
    requires Dealt(u, t, r, out)
    ensures Ahead(s, t, {}, out)
  {
    HeldStays(s, u);
    hide FlagsStay, FlagsPush, PushMove, StillMove, FewerAnswering, Free;
    if out.Sent? {
      HeldPush(s, u, t, p, r, out.callee);
      StayPush(s, u, t, {}, {}, r, out.callee);
    } else {
      StayStay(s, u, t, {}, {});
      HeldStill(s, u, t, p, r);
    }
  }

  lemma HeldStill(s: Sys, u: Sys, t: Sys, p: nat, r: Request)
    requires u.px == Proxy.Root(s.px, r.callId, p) && u.hist.sent == s.hist.sent && u.net.Keys == s.net.Keys
    requires forall q :: q in s.net ==> u.net[q].pc == s.net[q].pc
    requires FewerAnswering(u, t) && t.px.chains == u.px.chains && t.hist.sent == u.hist.sent
    ensures StillMove(s, t)
  {
    assert r.callId !in s.px.chains ==> t.px.chains == u.px.chains == s.px.chains[r.callId := [p]];
  }

  lemma HeldStays(s: Sys, u: Sys)
    requires u.net.Keys == s.net.Keys && u.px.infos == s.px.infos
    requires forall q :: q in s.net ==> u.net[q].pc == s.net[q].pc
    ensures FlagsStay(s, u, {})
  {
  }

  lemma HeldPush(s: Sys, u: Sys, t: Sys, p: nat, r: Request, callee: nat)
    requires p in s.net && r.pid == p && u.px == Proxy.Root(s.px, r.callId, p) && u.hist.sent == s.hist.sent
    requires u.net.Keys == s.net.Keys
    requires forall q :: q in s.net ==>
               u.net[q].pc == s.net[q].pc && u.net[q].proc == s.net[q].proc && u.net[q].down == s.net[q].down
    requires PushMove(u, t, r, callee)
    ensures PushMove(s, t, r, callee)
  {
    assert Proxy.Root(u.px, r.callId, p) == u.px;
    hide IsTop, Proxy.Root;
  }

  lemma EnqueuedChains(px: Proxy.State, p: nat, r: Request)
    ensures var py := Proxy.Enqueue(px, p, r);
            && py.chains == px.chains && py.infos.Keys == px.infos.Keys
            && forall q :: q in px.infos ==> RecordStays(px, py, {}, q)
  {
  }

  lemma HeldReady(env: Env, s: Sys, p: nat, r: Request, h: History)
    requires Inv(env, s) && p in s.net && s.net[p].up != [] && s.net[p].up[0] == Req(r) && s.net[p].pc.Reading?
    ensures p in Held(s, p, r).px.infos && Ready(Held(s, p, r).(hist := h), p, r) && r.pid == p
  {
    hide Inv, NoAnswer, IdReady, IsTop, Held, Free;
    RequestHead(env, s, p);
    HeldFields(s, p, r);
    HeldInv(env, s, p);
  }

  lemma HeldSame(s: Sys, p: nat, r: Request, h: History)
    requires p in s.net && s.net[p].up != []
    ensures var u := Held(s, p, r).(hist := h);
            && u.px == Proxy.Root(s.px, r.callId, p) && u.net.Keys == s.net.Keys && u.px.infos == s.px.infos
            && forall q :: q in s.net ==>
                 u.net[q].pc == s.net[q].pc && u.net[q].proc == s.net[q].proc && u.net[q].down == s.net[q].down
  {
  }

  /** How the request read is dealt with, from where the proxy holds it. */
  lemma HeldDealt(env: Env, s: Sys, p: nat, r: Request, u: Sys)
    requires Inv(env, s) && IndexAgrees(env.cfg) && p in s.net && s.net[p].pc.Reading?
    requires s.net[p].up != [] && s.net[p].up[0] == Req(r) && u == Held(s, p, r).(hist := u.hist)
    requires !Proxy.ReadRequest(env.cfg.owner, s.px, r).1.Cached? && p in u.net && !u.net[p].pc.Answering?
    ensures var x := Proxy.ReadRequest(env.cfg.owner, s.px, r); Dealt(u, Dispatched(u, p, x, true, Done), r, x.1)
  {
    hide Inv, IndexAgrees, IsTop, NoAnswer, Proxy.ReadRequest, Proxy.Route, Proxy.Root, Held, IdReady, Proxy.Enqueue;
    hide Dispatched, PushMove, Ready, FlagsStay, FlagsPush, Free;
    RequestHead(env, s, p);
    HeldSame(s, p, r, u.hist);
    ReadIs(env, s, p, r);
    if s.px.infos[p].waiting {
      EnqueuedChains(u.px, p, r);
      DispatchedElse(u, p, (Proxy.Enqueue(u.px, p, r), Proxy.Quiet));
    } else {
      HeldReady(env, s, p, r, u.hist);
      HeldInv(env, s, p);
      HistoryFree(env, Held(s, p, r), u.hist);
      RouteMoves(env, u, p, r, p);
    }
  }

  lemma ReadRequestMoves(env: Env, s: Sys, p: nat)
    requires Inv(env, s) && IndexAgrees(env.cfg) && p in s.net && s.net[p].pc.Reading?
    requires s.net[p].up != [] && s.net[p].up[0].Req?
    requires !Proxy.ReadRequest(env.cfg.owner, s.px, s.net[p].up[0].req).1.Cached?
    ensures Ahead(s, S.ReadRequest(env, PopUp(s, p), p, s.net[p].up[0].req, true), {},
                  Proxy.ReadRequest(env.cfg.owner, s.px, s.net[p].up[0].req).1)
  {
    var r := s.net[p].up[0].req;
    var h := s.hist.(read := s.hist.read + multiset{r});
    var u := Held(s, p, r).(hist := h);
    var t := S.ReadRequest(env, PopUp(s, p), p, r, true);
    hide *;
    RequestHead(env, s, p);
    HeldSame(s, p, r, h);
    ResponderIdle(env, s, p);
    ReadShape(env, s, p, r);
    HeldDealt(env, s, p, r, u);
    HeldMoves(s, u, t, p, r, Proxy.ReadRequest(env.cfg.owner, s.px, r).1);
  }

  lemma AnsweredMoves(s: Sys, a: nat, b: nat, r: Response)
    requires EndsIn(s.px, r.callId, a, b) && a in s.net && b in s.net && a != b && s.net[b].up != []
    ensures PopMove(s, ReadResponse(PopUp(s, b), b, r, true), r, a, b)
  {
    hide Proxy.PopChain;
    ReadResponseIs(PopUp(s, b), a, b, r);
    hide ReadResponse;
  }

  lemma ReadResponseMoves(env: Env, s: Sys, b: nat)
    requires Inv(env, s) && b in s.net && s.net[b].up != [] && s.net[b].up[0].Resp?
    ensures var r := s.net[b].up[0].resp;
            && r.callId in s.px.chains && |s.px.chains[r.callId]| >= 2
            && PopMove(s, ReadResponse(PopUp(s, b), b, r, true), r, Below(s.px, r.callId), b)
  {
    var r := s.net[b].up[0].resp;
    hide Inv, Suspended, Answered, PopMove, EndsIn, ReadResponse, Free, NoAnswer;
    ResponseHead(env, s, b);
    ResponderIdle(env, s, b);
    CallerSuspended(env, s, Below(s.px, r.callId), b, r.callId);
    AnsweredMoves(s, Below(s.px, r.callId), b, r);
  }

  /** What is left of a step once some actors have been let go. */
  lemma MovesFrom(s: Sys, u: Sys, t: Sys, early: set<nat>, late: set<nat>, out: Proxy.Outcome)
    requires u.px.chains == s.px.chains && u.net.Keys == s.net.Keys && u.hist.sent == s.hist.sent
    requires forall q :: q in s.net ==> u.net[q].proc == s.net[q].proc && u.net[q].down == s.net[q].down
    requires FewerAnswering(s, u) && FlagsStay(s, u, early) && u.px.infos.Keys == s.px.infos.Keys
    requires Ahead(u, t, late, out)
    ensures Ahead(s, t, early + late, out)
  {
    assert FewerAnswering(u, t) ==> FewerAnswering(s, t);
    SameTops(s.px, u.px);
    if out.Sent? {
      SameBase(s.px, u.px, out.req.callId, out.req.pid);
      FlagsPushFree(u, t, late, out.req, out.callee);
      hide IsTop, Proxy.Root, FlagsStay, FlagsPush, Free;
      StayPush(s, u, t, early, late, out.req, out.callee);
      assert PushMove(s, t, out.req, out.callee);
    } else {
      hide FlagsStay, FlagsPush, PushMove;
      StayStay(s, u, t, early, late);
      assert StillMove(s, t);
    }
  }

  lemma FlagsPushFree(s: Sys, t: Sys, woken: set<nat>, r: Request, callee: nat)
    requires FlagsPush(s, t, woken, r, callee)
    ensures Free(s.px, r.pid)
  {
  }

  lemma FreedSame(s: Sys, h: nat, a: nat, c: Text)
    requires h in s.net && a in s.px.infos && h in s.px.infos && !s.px.infos[h].waiting
    ensures var u := SetPc(s.(px := Freed(s.px, a, c)), h, Reading);
            && u.px.chains == s.px.chains && u.net.Keys == s.net.Keys && u.hist.sent == s.hist.sent
            && (forall q :: q in s.net ==> u.net[q].proc == s.net[q].proc && u.net[q].down == s.net[q].down)
            && FewerAnswering(s, u) && FlagsStay(s, u, {h, a}) && u.px.infos.Keys == s.px.infos.Keys
  {
  }

  lemma StillAhead(s: Sys, t: Sys, woken: set<nat>, out: Proxy.Outcome)
    requires StillMove(s, t) && FlagsStay(s, t, woken) && !out.Sent?
    ensures Ahead(s, t, woken, out)
  {
    hide PushMove, StillMove, FlagsStay;
  }

  lemma WakeMoves(env: Env, s: Sys, h: nat, a: nat)
    requires Inv(env, s) && IndexAgrees(env.cfg) && Answers(s, h, a) && h in s.px.infos && !s.px.infos[h].waiting
    requires !WakeOutcome(env, s.px, s.net[h].pc.callId).Cached?
    ensures Ahead(s, WakeCaller(env, s, h, s.net[h].pc.callId, true), {h, a},
                  WakeOutcome(env, s.px, s.net[h].pc.callId))
  {
    hide *;
    AnswersParts(s, h, a);
    if s.px.infos[a].queue == [] {
      var c := s.net[h].pc.callId;
      WakeQuietIs(env, s, h, a, c);
      FreedSame(s, h, a, c);
      FreedStill(s, h, a, c);
      WakeNothing(env, s.px, a, c);
      StillAhead(s, SetPc(s.(px := Freed(s.px, a, c)), h, Reading), {h, a}, WakeOutcome(env, s.px, c));
    } else {
      WakeBusyMoves(env, s, h, a, s.net[h].pc.callId, s.px.infos[a].queue[0]);
    }
  }

  lemma WakeBusyMoves(env: Env, s: Sys, h: nat, a: nat, c: Text, r: Request)
    requires Inv(env, s) && IndexAgrees(env.cfg) && Answers(s, h, a) && h in s.px.infos && !s.px.infos[h].waiting
    requires h in s.net && s.net[h].pc.Answering? && c == s.net[h].pc.callId && !WakeOutcome(env, s.px, c).Cached?
    requires a in s.px.infos && s.px.infos[a].queue != [] && r == s.px.infos[a].queue[0] && IsTop(s.px, c, a)
    ensures Ahead(s, WakeCaller(env, s, h, c, true), {h, a}, WakeOutcome(env, s.px, c))
  {
    hide *;
    var v := s.(px := Freed(s.px, a, c));
    var u := SetPc(v, h, Reading);
    ReleaseStep(env, s, h, a, c);
    FreedReady(env, s, h, a, c);
    WakeBusyIs(env, s, h, a, c, r);
    NowReading(v, h);
    RouteMoves(env, u, a, r, h);
    DispatchedOverPc(s, Freed(s.px, a, c), h, Reading, Proxy.Route(env.cfg.owner, Freed(s.px, a, c), r));
    var t := WakeCaller(env, s, h, c, true);
    FreedSame(s, h, a, c);
    DealtAhead(u, t, r, WakeOutcome(env, s.px, c));
    MovesFrom(s, u, t, {h, a}, {}, WakeOutcome(env, s.px, c));
    assert {h, a} + {} == {h, a};
  }

  lemma AnswersParts(s: Sys, h: nat, a: nat)
    requires Answers(s, h, a)
    ensures h in s.net && s.net[h].pc.Answering? && a in s.net && a in s.px.infos && IsTop(s.px, s.net[h].pc.callId, a)
  {
    hide IsTop;
  }

  lemma NowReading(s: Sys, h: nat)
    requires h in s.net
    ensures var u := SetPc(s, h, Reading); h in u.net && u.net[h].pc == Reading && u.px == s.px
  {
  }

  lemma FreedStill(s: Sys, h: nat, a: nat, c: Text)
    requires h in s.net && a in s.px.infos
    ensures StillMove(s, SetPc(s.(px := Freed(s.px, a, c)), h, Reading))
  {
  }

  /** A record that gets another call id and stops counting as waiting. */
  lemma LowerFlags(s: Sys, h: nat)
    requires h in s.px.infos
    ensures var u := s.(px := Proxy.Update(s.px, h, [], false));
            && u.px.chains == s.px.chains && u.px.infos.Keys == s.px.infos.Keys
            && FlagsStay(s, u, {h}) && FewerAnswering(s, u)
  {
  }

  lemma SameBase(px: Proxy.State, py: Proxy.State, c: Text, p: nat)
    requires px.chains == py.chains
    ensures Proxy.Root(px, c, p).chains == Proxy.Root(py, c, p).chains
    ensures Proxy.Chain(Proxy.Root(px, c, p), c) == Proxy.Chain(Proxy.Root(py, c, p), c)
    ensures forall q :: IsTop(Proxy.Root(px, c, p), c, q) <==> IsTop(Proxy.Root(py, c, p), c, q)
  {
  }

  lemma SentStill(env: Env, s: Sys, h: nat)
    requires Inv(env, s) && h in s.net && s.net[h].pc.Sending?
    ensures StillMove(s, ResumeStep(env, s, h, true)) && FlagsStay(s, ResumeStep(env, s, h, true), {})
  {
    hide Inv, NodeOK;
    NodeAt(env, s, h);
  }

  lemma AnsweredResumes(env: Env, s: Sys, h: nat)
    requires Inv(env, s) && IndexAgrees(env.cfg) && Enabled(env, s, Resume(h, true)) && Direct(env, s, Resume(h, true))
    requires h in s.net && s.net[h].pc.Answering?
    ensures Ahead(s, ResumeStep(env, s, h, true), Woken(s, Resume(h, true)), LastOutcome(env, s, Resume(h, true)))
  {
    hide *;
    DirectWake(env, s, h);
    UpdatedHandler(s, h);
    AnsweringAt(env, s, h);
    var c := s.net[h].pc.callId;
    var a := s.px.chains[c][|s.px.chains[c]| - 1];
    var u := s.(px := Proxy.Update(s.px, h, [], false));
    LowerFlags(s, h);
    LowerStep(env, s, h, []);
    AnswersTop(env, u, h);
    WakeMoves(env, u, h, a);
    MovesFrom(s, u, WakeCaller(env, u, h, c, true), {h}, {h, a}, WakeOutcome(env, u.px, c));
    WokenIs(s, h);
    LastIsWake(env, s, h);
  }

  lemma WokenIs(s: Sys, h: nat)
    requires h in s.net && s.net[h].pc.Answering? && s.net[h].pc.self == h
    requires s.net[h].pc.callId in s.px.chains && s.px.chains[s.net[h].pc.callId] != []
    ensures var ch := s.px.chains[s.net[h].pc.callId]; Woken(s, Resume(h, true)) == {h} + {h, ch[|ch| - 1]}
  {
  }

  lemma LastIsWake(env: Env, s: Sys, h: nat)
    requires h in s.net && s.net[h].pc.Answering? && s.net[h].pc.self == h && Enabled(env, s, Resume(h, true))
    requires h in s.px.infos && s.px.infos[h].queue == []
    ensures LastOutcome(env, s, Resume(h, true)) ==
            WakeOutcome(env, Proxy.Update(s.px, h, [], false), s.net[h].pc.callId)
  {
    AnsweringOutcomes(env, s, h);
    hide WakeOutcome, Outcomes, Proxy.Update;
  }

  lemma ResumeMoves(env: Env, s: Sys, h: nat)
    requires Inv(env, s) && IndexAgrees(env.cfg) && Enabled(env, s, Resume(h, true)) && Direct(env, s, Resume(h, true))
    ensures Ahead(s, ResumeStep(env, s, h, true), Woken(s, Resume(h, true)), LastOutcome(env, s, Resume(h, true)))
  {
    hide Inv, IndexAgrees, ResumeStep, Direct, Ahead, FlagsStay, StillMove, Outcomes, LastOutcome;
    if s.net[h].pc.Sending? {
      SentStill(env, s, h);
      SendingLast(env, s, h);
      StillAhead(s, ResumeStep(env, s, h, true), {}, LastOutcome(env, s, Resume(h, true)));
    } else {
      AnsweredResumes(env, s, h);
    }
  }

  lemma SendingLast(env: Env, s: Sys, h: nat)
    requires Inv(env, s) && h in s.net && s.net[h].pc.Sending? && Enabled(env, s, Resume(h, true))
    ensures LastOutcome(env, s, Resume(h, true)).Quiet?
  {
    hide Inv, NodeOK;
    NodeAt(env, s, h);
  }

  lemma ReadMoves(env: Env, s: Sys, p: nat, out: Proxy.Outcome)
    requires Inv(env, s) && IndexAgrees(env.cfg) && p in s.net && s.net[p].up != [] && s.net[p].pc.Reading?
    requires match s.net[p].up[0]
             case Req(r) => !out.Cached? && out == Proxy.ReadRequest(env.cfg.owner, s.px, r).1
             case Resp(_) => out.Quiet?
    ensures Moved(s, ReadUpStep(env, s, p, true), {}, out)
  {
    hide Inv, IndexAgrees, Ahead, PopMove, ReadResponse, S.ReadRequest, PopUp, Proxy.ReadRequest;
    if s.net[p].up[0].Req? {
      ReadRequestMoves(env, s, p);
    } else {
      ReadResponseMoves(env, s, p);
    }
  }

  /** Every smooth step is one of these moves: it pushes the callee of the request that
      its last dispatch lets out, and pops only on a response. */
  lemma SmoothMoves(env: Env, s: Sys, e: Event)
    requires Inv(env, s) && IndexAgrees(env.cfg) && Enabled(env, s, e) && Smooth(env, s, e)
    ensures Moved(s, Apply(env, s, e), Woken(s, e), LastOutcome(env, s, e))
  {
    InvKeys(env, s);
    assert !e.Resume? ==> Woken(s, e) == {};
    assert !e.Resume? && !e.ReadUp? ==> LastOutcome(env, s, e).Quiet?;
    hide Inv, IndexAgrees, NoWrap, Direct, Ahead, StillMove, FlagsStay, PopMove, ReadUpStep, ResumeStep;
    hide Woken, LastOutcome;
    match e
    case ReadUp(p, ok) =>
      DirectRead(env, s, p);
      ReadMoves(env, s, p, LastOutcome(env, s, e));
    case Resume(p, ok) => ResumeMoves(env, s, p);
    case _ =>
      ActorMoves(env, s, e);
      StillAhead(s, Apply(env, s, e), {}, LastOutcome(env, s, e));
  }

  lemma InvKeys(env: Env, s: Sys)
    requires Inv(env, s)
    ensures s.px.infos.Keys == s.net.Keys
  {
    hide NodesOK, ChainsOK, HandlersOK, Registry.Sound, Directory.NodeListed;
  }
}
