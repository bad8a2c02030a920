/** What the proxy's maps hold, told from what has happened: which requests were put
    into a backlog and taken from it, what was noted of a process, who joined a node, and
    who was put on and taken off a chain (src/coro_actor.cpp:519-705). Each step makes its
    entries, and in every run the maps are what the entries say. */
module Journal {
  import opened Protocol
  import opened S = System
  import opened SmoothRuns
  import Directory
  import Proxy
  import Registry

  datatype Entry =
    | Joined(p: nat, name: Text)
    | Rooted(c: Text, p: nat)
    | Pushed(c: Text, p: nat)
    | Popped(c: Text)
    | Queued(p: nat, req: Request)
    | Taken(p: nat, req: Request)
    | Noted(p: nat, callId: Text, waiting: bool)

  // ------------------------------------------------------------ reading entries

  /** The requests put into the backlog of `p`, in order. */
  function PutInto(entries: seq<Entry>, p: nat): seq<Request> {
    if entries == [] then [] else
      var e := entries[|entries| - 1];
      PutInto(entries[..|entries| - 1], p) + if e.Queued? && e.p == p then [e.req] else []
  }

  /** Those taken from it. */
  function TakenFrom(entries: seq<Entry>, p: nat): seq<Request> {
    if entries == [] then [] else
      var e := entries[|entries| - 1];
      TakenFrom(entries[..|entries| - 1], p) + if e.Taken? && e.p == p then [e.req] else []
  }

  /** Who joined actor node `name`, in order. */
  function Members(entries: seq<Entry>, name: Text): seq<nat> {
    if entries == [] then [] else
      var e := entries[|entries| - 1];
      Members(entries[..|entries| - 1], name) + if e.Joined? && e.name == name then [e.p] else []
  }

  /** The last that was noted of `p`, or else `before`: a call id, and whether it waits. */
  function LastNote(entries: seq<Entry>, p: nat, before: (Text, bool)): (Text, bool) {
    if entries == [] then before else
      var e := entries[|entries| - 1];
      if e.Noted? && e.p == p then (e.callId, e.waiting) else LastNote(entries[..|entries| - 1], p, before)
  }

  /** Who is on call `c`, the last one at the end. */
  function Stack(entries: seq<Entry>, c: Text, before: seq<nat>): seq<nat> {
    if entries == [] then before else
      var e := entries[|entries| - 1];
      var fewer := Stack(entries[..|entries| - 1], c, before);
      match e
      case Rooted(d, p) => if d == c then [p] else fewer
      case Pushed(d, p) => if d == c then fewer + [p] else fewer
      case Popped(d) => if d == c && fewer != [] then fewer[..|fewer| - 1] else fewer
      case _ => fewer
  }

  // --------------------------------------------------------- reading the records

  function Backlog(px: Proxy.State, p: nat): seq<Request> {
    if p in px.infos then px.infos[p].queue else []
  }

  function Flags(px: Proxy.State, p: nat): (Text, bool) {
    if p in px.infos then (px.infos[p].callId, px.infos[p].waiting) else ([], false)
  }

  ghost predicate BacklogsTurn(px: Proxy.State, py: Proxy.State, entries: seq<Entry>) {
    forall p :: Backlog(px, p) + PutInto(entries, p) == TakenFrom(entries, p) + Backlog(py, p)
  }

  ghost predicate FlagsTurn(px: Proxy.State, py: Proxy.State, entries: seq<Entry>) {
    forall p :: Flags(py, p) == LastNote(entries, p, Flags(px, p))
  }

  ghost predicate ChainsTurn(px: Proxy.State, py: Proxy.State, entries: seq<Entry>) {
    forall c :: Proxy.Chain(py, c) == Stack(entries, c, Proxy.Chain(px, c))
  }

  ghost predicate GroupsTurn(px: Proxy.State, py: Proxy.State, entries: seq<Entry>) {
    forall n :: Proxy.Group(py, n) == Proxy.Group(px, n) + Members(entries, n)
  }

  /** The entries lead from one state of the maps to the other. */
  ghost predicate Turns(px: Proxy.State, py: Proxy.State, entries: seq<Entry>) {
    BacklogsTurn(px, py, entries) && FlagsTurn(px, py, entries) && ChainsTurn(px, py, entries)
    && GroupsTurn(px, py, entries)
  }

  // ------------------------------------------------------------ entries in a row

  lemma {:induction false} RowQueues(xs: seq<Entry>, ys: seq<Entry>, p: nat)
    ensures PutInto(xs + ys, p) == PutInto(xs, p) + PutInto(ys, p)
    ensures TakenFrom(xs + ys, p) == TakenFrom(xs, p) + TakenFrom(ys, p)
  {
    if ys == [] {
      assert xs + ys == xs;
    } else {
      LastOfRow(xs, ys);
      RowQueues(xs, ys[..|ys| - 1], p);
    }
  }

  lemma {:induction false} RowMembers(xs: seq<Entry>, ys: seq<Entry>, n: Text)
    ensures Members(xs + ys, n) == Members(xs, n) + Members(ys, n)
  {
    if ys == [] {
      assert xs + ys == xs;
    } else {
      LastOfRow(xs, ys);
      RowMembers(xs, ys[..|ys| - 1], n);
    }
  }

  lemma {:induction false} RowNotes(xs: seq<Entry>, ys: seq<Entry>, p: nat, before: (Text, bool))
    ensures LastNote(xs + ys, p, before) == LastNote(ys, p, LastNote(xs, p, before))
  {
    if ys == [] {
      assert xs + ys == xs;
    } else {
      LastOfRow(xs, ys);
      RowNotes(xs, ys[..|ys| - 1], p, before);
    }
  }

  lemma {:induction false} RowStack(xs: seq<Entry>, ys: seq<Entry>, c: Text, before: seq<nat>)
    ensures Stack(xs + ys, c, before) == Stack(ys, c, Stack(xs, c, before))
  {
    if ys == [] {
      assert xs + ys == xs;
    } else {
      LastOfRow(xs, ys);
      RowStack(xs, ys[..|ys| - 1], c, before);
    }
  }

  lemma LastOfRow(xs: seq<Entry>, ys: seq<Entry>)
    requires ys != []
    ensures (xs + ys)[..|xs + ys| - 1] == xs + ys[..|ys| - 1] && (xs + ys)[|xs + ys| - 1] == ys[|ys| - 1]
  {
  }

  lemma TurnOn(px: Proxy.State, py: Proxy.State, pz: Proxy.State, xs: seq<Entry>, ys: seq<Entry>)
    requires Turns(px, py, xs) && Turns(py, pz, ys)
    ensures Turns(px, pz, xs + ys)
  {
    hide PutInto, TakenFrom, Members, LastNote, Stack, Backlog, Flags, Proxy.Chain, Proxy.Group;
    forall p ensures Backlog(px, p) + PutInto(xs + ys, p) == TakenFrom(xs + ys, p) + Backlog(pz, p) {
      RowQueues(xs, ys, p);
      Queue(Backlog(px, p), PutInto(xs, p), PutInto(ys, p), TakenFrom(xs, p), TakenFrom(ys, p), Backlog(py, p),
            Backlog(pz, p));
    }
    forall p ensures Flags(pz, p) == LastNote(xs + ys, p, Flags(px, p)) {
      RowNotes(xs, ys, p, Flags(px, p));
    }
    forall c ensures Proxy.Chain(pz, c) == Stack(xs + ys, c, Proxy.Chain(px, c)) {
      RowStack(xs, ys, c, Proxy.Chain(px, c));
    }
    forall n ensures Proxy.Group(pz, n) == Proxy.Group(px, n) + Members(xs + ys, n) {
      RowMembers(xs, ys, n);
      assert Proxy.Group(px, n) + (Members(xs, n) + Members(ys, n)) == Proxy.Group(py, n) + Members(ys, n);
    }
  }

  lemma Queue<T>(a: seq<T>, put1: seq<T>, put2: seq<T>, took1: seq<T>, took2: seq<T>, b: seq<T>, c: seq<T>)
    requires a + put1 == took1 + b && b + put2 == took2 + c
    ensures a + (put1 + put2) == (took1 + took2) + c
  {
    assert a + (put1 + put2) == (a + put1) + put2 == took1 + (b + put2);
  }

  lemma NothingTurns(px: Proxy.State)
    ensures Turns(px, px, [])
  {
  }

  // --------------------------------------------------------------- single entries

  lemma OneEntry(e: Entry)
    ensures forall p :: PutInto([e], p) == if e.Queued? && e.p == p then [e.req] else []
    ensures forall p :: TakenFrom([e], p) == if e.Taken? && e.p == p then [e.req] else []
    ensures forall n :: Members([e], n) == if e.Joined? && e.name == n then [e.p] else []
    ensures forall p, flags :: LastNote([e], p, flags) ==
              if e.Noted? && e.p == p then (e.callId, e.waiting) else flags
    ensures forall c, chain :: Stack([e], c, chain) ==
              match e
              case Rooted(d, p) => if d == c then [p] else chain
              case Pushed(d, p) => if d == c then chain + [p] else chain
              case Popped(d) => if d == c && chain != [] then chain[..|chain| - 1] else chain
              case _ => chain
  {
    assert [e][..0] == [];
  }

  lemma NotedTurns(px: Proxy.State, p: nat, c: Text, waiting: bool)
    requires p in px.infos
    ensures Turns(px, Proxy.Update(px, p, c, waiting), [Noted(p, c, waiting)])
  {
    OneEntry(Noted(p, c, waiting));
    hide PutInto, TakenFrom, Members, LastNote, Stack;
  }

  lemma QueuedTurns(px: Proxy.State, p: nat, r: Request)
    requires p in px.infos
    ensures Turns(px, Proxy.Enqueue(px, p, r), [Queued(p, r)])
  {
    OneEntry(Queued(p, r));
    hide PutInto, TakenFrom, Members, LastNote, Stack;
  }

  lemma TakenTurns(px: Proxy.State, p: nat)
    requires p in px.infos && px.infos[p].queue != []
    ensures Turns(px, Proxy.Dequeue(px, p), [Taken(p, px.infos[p].queue[0])])
  {
    OneEntry(Taken(p, px.infos[p].queue[0]));
    hide PutInto, TakenFrom, Members, LastNote, Stack;
  }

  lemma PushedTurns(px: Proxy.State, c: Text, p: nat)
    ensures Turns(px, Proxy.Push(px, c, p), [Pushed(c, p)])
  {
    OneEntry(Pushed(c, p));
    hide PutInto, TakenFrom, Members, LastNote, Stack;
  }

  lemma PoppedTurns(px: Proxy.State, c: Text)
    ensures Turns(px, Proxy.PopChain(px, c), [Popped(c)])
  {
    OneEntry(Popped(c));
    hide PutInto, TakenFrom, Members, LastNote, Stack;
  }

  lemma RootedTurns(px: Proxy.State, c: Text, p: nat)
    requires c !in px.chains
    ensures Turns(px, Proxy.Root(px, c, p), [Rooted(c, p)])
  {
    OneEntry(Rooted(c, p));
    hide PutInto, TakenFrom, Members, LastNote, Stack;
  }

  lemma JoinedTurns(px: Proxy.State, p: nat, name: Text)
    requires p !in px.infos
    ensures Turns(px, Proxy.Connect(px, p, name), [Joined(p, name)])
  {
    OneEntry(Joined(p, name));
    hide PutInto, TakenFrom, Members, LastNote, Stack;
  }

  // ------------------------------------------------------------ what a step enters

  /** What becomes of a request that has been taken (lines 634-682). */
  function Routed(out: Proxy.Outcome): seq<Entry> {
    match out
    case Cached(r, q) => [Noted(r.pid, r.callId, true), Pushed(r.callId, q), Queued(q, r)]
    case Sent(r, q) => [Noted(r.pid, r.callId, true), Pushed(r.callId, q), Noted(q, r.callId, false)]
    case _ => []
  }

  /** How looking into the backlog of `p` ends. */
  function Dealt(p: nat, out: Proxy.Outcome): seq<Entry> {
    if out.Quiet? then [] else [Taken(p, out.req)] + Routed(out)
  }

  lemma ForwardTurns(px: Proxy.State, r: Request, q: nat)
    requires r.pid in px.infos && q in px.infos
    ensures Turns(px, Proxy.Forward(px, r, q).0, Routed(Proxy.Forward(px, r, q).1))
  {
    var px1 := Proxy.Update(px, r.pid, r.callId, true);
    var px2 := Proxy.Push(px1, r.callId, q);
    var xs := [Noted(r.pid, r.callId, true)] + [Pushed(r.callId, q)];
    assert q in px2.infos;
    hide Turns, Proxy.Update, Proxy.Push, Proxy.Enqueue;
    NotedTurns(px, r.pid, r.callId, true);
    PushedTurns(px1, r.callId, q);
    TurnOn(px, px1, px2, [Noted(r.pid, r.callId, true)], [Pushed(r.callId, q)]);
    if px2.infos[q].waiting {
      QueuedTurns(px2, q, r);
      TurnOn(px, px2, Proxy.Enqueue(px2, q, r), xs, [Queued(q, r)]);
      assert xs + [Queued(q, r)] == Routed(Proxy.Cached(r, q));
    } else {
      NotedTurns(px2, q, r.callId, false);
      TurnOn(px, px2, Proxy.Update(px2, q, r.callId, false), xs, [Noted(q, r.callId, false)]);
      assert xs + [Noted(q, r.callId, false)] == Routed(Proxy.Sent(r, q));
    }
  }

  /** Routing drops the request, or forwards it to a registered process. */
  lemma RouteForwards(owner: map<Text, Text>, px: Proxy.State, r: Request) returns (q: nat)
    requires Registry.Sound(px) && r.pid in px.infos
    ensures var (py, out) := Proxy.Route(owner, px, r);
            && !out.Quiet? && out.req == r
            && if out.Dropped? then py == px else q in px.infos && (py, out) == Proxy.Forward(px, r, q)
  {
    Registry.RouteOutcome(owner, px, r);
    hide Registry.Sound, Proxy.Forward, Proxy.Loops, Proxy.Least, Registry.Engaged;
    q := r.pid;
    if r.service in owner && Proxy.Group(px, owner[r.service]) != [] {
      q := Proxy.Least(px, Proxy.Group(px, owner[r.service]));
    }
  }

  lemma DroppedIs(out: Proxy.Outcome)
    ensures out.Dropped? ==> Routed(out) == []
  {
  }

  lemma RouteTurns(owner: map<Text, Text>, px: Proxy.State, r: Request)
    requires Registry.Sound(px) && r.pid in px.infos
    ensures Turns(px, Proxy.Route(owner, px, r).0, Routed(Proxy.Route(owner, px, r).1))
  {
    hide *;
    var q := RouteForwards(owner, px, r);
    var out := Proxy.Route(owner, px, r).1;
    if out.Dropped? {
      DroppedIs(out);
      NothingTurns(px);
    } else {
      ForwardTurns(px, r, q);
    }
  }

  /** One look into the backlog of `p`: it takes the first request, if there is one and
      `p` does not wait, and enters what becomes of it. */
  lemma DispatchTurns(owner: map<Text, Text>, px: Proxy.State, p: nat)
    requires Registry.Sound(px)
    ensures var (py, out) := Proxy.Dispatch(owner, px, p);
            && Turns(px, py, Dealt(p, out))
            && (out.Quiet? <==> Backlog(px, p) == [] || Flags(px, p).1)
            && (!out.Quiet? ==> out.req == Backlog(px, p)[0])
  {
    if Backlog(px, p) == [] || Flags(px, p).1 {
      NothingTurns(px);
    } else {
      var r, px1 := px.infos[p].queue[0], Proxy.Dequeue(px, p);
      var out := Proxy.Route(owner, px1, r).1;
      assert r.pid in px.infos by {
        assert Registry.QueueResolved(px, px.infos[p].queue);
      }
      Registry.DequeueKeeps(px, p);
      Registry.RouteOutcome(owner, px1, r);
      TakenTurns(px, p);
      RouteTurns(owner, px1, r);
      hide Turns, Registry.Sound, Registry.RoutedAs, Proxy.Route;
      TurnOn(px, px1, Proxy.Route(owner, px1, r).0, [Taken(p, r)], Routed(out));
    }
  }

  /** The end of chain `c` once the outcome `out` has been dealt with. */
  function EndAfter(px: Proxy.State, out: Proxy.Outcome, c: Text): seq<nat> {
    if (out.Cached? || out.Sent?) && out.req.callId == c then [out.callee] else
      var chain := Proxy.Chain(px, c);
      if chain == [] then [] else [chain[|chain| - 1]]
  }

  /** Lines 614-615, for whoever ends the chain: it is noted not to wait, and its backlog
      looked into. */
  function Woken(end: seq<nat>, c: Text, out: Proxy.Outcome): seq<Entry> {
    if end == [] then [] else [Noted(end[0], c, false)] + Dealt(end[0], out)
  }

  /** What each step of the system enters. */
  function Entries(env: Env, s: Sys, e: Event): seq<Entry>
    requires Enabled(env, s, e)
  {
    var outs := Outcomes(env, s, e);
    match e
    case Connect(p, name) => [Joined(p, name)]
    case ReadUp(p, _) =>
      (match s.net[p].up[0]
       case Req(r) => (if r.callId in s.px.chains then [] else [Rooted(r.callId, r.pid)])
                      + [Queued(r.pid, r)] + Dealt(r.pid, outs[0])
       case Resp(r) => if |Proxy.Chain(s.px, r.callId)| < 2 then [] else [Popped(r.callId)])
    case Resume(p, _) =>
      (match s.net[p].pc
       case Reading => []
       case Answering(self, c) =>
         [Noted(self, [], false)] + Dealt(self, outs[0])
         + (if |outs| == 1 then [] else Woken(EndAfter(s.px, outs[0], c), c, outs[1]))
       case Sending(r, q, sent, after) =>
         (if sent then [] else [Noted(r.pid, [], false)] + [Noted(q, [], false)])
         + (if after.Done? then [] else Woken(EndAfter(s.px, Proxy.Quiet, after.callId), after.callId, outs[0])))
    case _ => []
  }

  // ------------------------------------------------------------------- one step

  lemma StackSnoc(xs: seq<Entry>, e: Entry, c: Text, before: seq<nat>)
    ensures e.Taken? || e.Noted? || e.Queued? ==> Stack(xs + [e], c, before) == Stack(xs, c, before)
    ensures e.Pushed? ==> Stack(xs + [e], c, before) == Stack(xs, c, before) + if e.c == c then [e.p] else []
  {
    assert (xs + [e])[..|xs|] == xs;
  }

  lemma StackDealt(p: nat, out: Proxy.Outcome, c: Text, before: seq<nat>)
    ensures Stack(Dealt(p, out), c, before) ==
            before + if (out.Cached? || out.Sent?) && out.req.callId == c then [out.callee] else []
  {
    if !out.Quiet? {
      var one := [] + [Taken(p, out.req)];
      StackSnoc([], Taken(p, out.req), c, before);
      if out.Cached? || out.Sent? {
        var r, q := out.req, out.callee;
        var two := one + [Noted(r.pid, r.callId, true)];
        var three, last := two + [Pushed(r.callId, q)], if out.Cached? then Queued(q, r) else Noted(q, r.callId, false);
        StackSnoc(one, Noted(r.pid, r.callId, true), c, before);
        StackSnoc(two, Pushed(r.callId, q), c, before);
        StackSnoc(three, last, c, before);
        assert Dealt(p, out) == three + [last];
      }
    }
  }

  lemma EndIs(px: Proxy.State, py: Proxy.State, xs: seq<Entry>, p: nat, out: Proxy.Outcome, c: Text)
    requires Turns(px, py, xs) && xs == Dealt(p, out)
    ensures EndAfter(py, Proxy.Quiet, c) == EndAfter(px, out, c)
  {
    hide BacklogsTurn, FlagsTurn, GroupsTurn, Dealt, Stack, Proxy.Chain;
    StackDealt(p, out, c, Proxy.Chain(px, c));
  }

  lemma EndDealt(owner: map<Text, Text>, px: Proxy.State, p: nat, c: Text)
    requires Registry.Sound(px)
    ensures var (py, out) := Proxy.Dispatch(owner, px, p);
            EndAfter(py, Proxy.Quiet, c) == EndAfter(px, out, c)
  {
    hide *;
    var (py, out) := Proxy.Dispatch(owner, px, p);
    DispatchTurns(owner, px, p);
    EndIs(px, py, Dealt(p, out), p, out, c);
  }

  lemma EndKept(px: Proxy.State, py: Proxy.State, out: Proxy.Outcome, c: Text)
    requires px.chains == py.chains
    ensures EndAfter(px, out, c) == EndAfter(py, out, c)
  {
  }

  /** The maps after lines 614-615. */
  function WakeLeaves(env: Env, px: Proxy.State, c: Text): Proxy.State {
    var chain := Proxy.Chain(px, c);
    if chain == [] then px else
      var q := chain[|chain| - 1];
      Proxy.Dispatch(env.cfg.owner, Proxy.Update(px, q, c, false), q).0
  }

  lemma WakeIs(env: Env, px: Proxy.State, c: Text, end: seq<nat>)
    requires Registry.Sound(px) && end == EndAfter(px, Proxy.Quiet, c)
    ensures end == [] ==> WakeLeaves(env, px, c) == px
    ensures end != [] ==>
              && end[0] in px.infos
              && Proxy.Dispatch(env.cfg.owner, Proxy.Update(px, end[0], c, false), end[0])
                 == (WakeLeaves(env, px, c), WakeOutcome(env, px, c))
  {
    hide Proxy.Dispatch, Proxy.Update, Registry.Registered;
  }

  lemma WokenIs(end: seq<nat>, c: Text, out: Proxy.Outcome)
    ensures Woken(end, c, out) == if end == [] then [] else [Noted(end[0], c, false)] + Dealt(end[0], out)
  {
  }

  lemma WakeTurns(env: Env, px: Proxy.State, c: Text)
    requires Registry.Sound(px)
    ensures Turns(px, WakeLeaves(env, px, c), Woken(EndAfter(px, Proxy.Quiet, c), c, WakeOutcome(env, px, c)))
  {
    hide *;
    var end, out := EndAfter(px, Proxy.Quiet, c), WakeOutcome(env, px, c);
    WakeIs(env, px, c, end);
    WokenIs(end, c, out);
    if end == [] {
      NothingTurns(px);
    } else {
      var px1 := Proxy.Update(px, end[0], c, false);
      Registry.UpdateKeeps(px, end[0], c, false);
      NotedTurns(px, end[0], c, false);
      DispatchTurns(env.cfg.owner, px1, end[0]);
      TurnOn(px, px1, WakeLeaves(env, px, c), [Noted(end[0], c, false)], Dealt(end[0], out));
    }
  }

  lemma DispatchedLeaves(s: Sys, h: nat, r: (Proxy.State, Proxy.Outcome), ok: bool, after: After)
    requires h in s.net
    ensures Dispatched(s, h, r, ok, after).px == r.0
  {
  }

  lemma WakeCallerLeaves(env: Env, s: Sys, h: nat, c: Text, ok: bool)
    requires h in s.net
    ensures WakeCaller(env, s, h, c, ok).px == WakeLeaves(env, s.px, c)
  {
    hide Dispatched, Proxy.Dispatch, Proxy.Update;
    var chain := Proxy.Chain(s.px, c);
    if chain != [] {
      var q := chain[|chain| - 1];
      DispatchedLeaves(s, h, Proxy.Dispatch(env.cfg.owner, Proxy.Update(s.px, q, c, false), q), ok, Done);
    }
  }

  lemma WakeSelfLeaves(env: Env, s: Sys, h: nat, self: nat, c: Text, ok: bool)
    requires h in s.net
    ensures var r := Proxy.Dispatch(env.cfg.owner, Proxy.Update(s.px, self, [], false), self);
            WakeSelf(env, s, h, self, c, ok).px == if r.1.Sent? then r.0 else WakeLeaves(env, r.0, c)
  {
    hide Dispatched, Proxy.Dispatch, Proxy.Update, WakeCaller, WakeLeaves, Recorded;
    var r := Proxy.Dispatch(env.cfg.owner, Proxy.Update(s.px, self, [], false), self);
    DispatchedLeaves(s, h, r, ok, Caller(c));
    WakeCallerLeaves(env, s.(px := r.0, hist := Recorded(s.hist, r.1, ok)), h, c, ok);
  }

  /** Lines 611-615, while nothing is sent out in between. */
  lemma AnsweringTurns(env: Env, px: Proxy.State, self: nat, c: Text)
    requires Registry.Sound(px) && self in px.infos
    ensures var (py, out) := Proxy.Dispatch(env.cfg.owner, Proxy.Update(px, self, [], false), self);
            && Turns(px, py, [Noted(self, [], false)] + Dealt(self, out))
            && Turns(px, WakeLeaves(env, py, c),
                     [Noted(self, [], false)] + Dealt(self, out)
                     + Woken(EndAfter(px, out, c), c, WakeOutcome(env, py, c)))
  {
    var px1 := Proxy.Update(px, self, [], false);
    var (py, out) := Proxy.Dispatch(env.cfg.owner, px1, self);
    var xs := [Noted(self, [], false)];
    assert px1.chains == px.chains;
    hide *;
    NotedTurns(px, self, [], false);
    Registry.UpdateKeeps(px, self, [], false);
    DispatchTurns(env.cfg.owner, px1, self);
    TurnOn(px, px1, py, xs, Dealt(self, out));
    Registry.DispatchKeeps(env.cfg.owner, px1, self);
    EndDealt(env.cfg.owner, px1, self, c);
    EndKept(px, px1, out, c);
    WakeTurns(env, py, c);
    TurnOn(px, py, WakeLeaves(env, py, c), xs + Dealt(self, out),
           Woken(EndAfter(px, out, c), c, WakeOutcome(env, py, c)));
  }

  /** Lines 699-704. */
  lemma FailedTurns(px: Proxy.State, r: Request, q: nat)
    requires r.pid in px.infos && q in px.infos
    ensures Turns(px, Proxy.WriteFailed(px, r, q), [Noted(r.pid, [], false)] + [Noted(q, [], false)])
    ensures Proxy.WriteFailed(px, r, q).chains == px.chains
  {
    var px1 := Proxy.Update(px, r.pid, [], false);
    assert q in px1.infos;
    hide Turns;
    NotedTurns(px, r.pid, [], false);
    NotedTurns(px1, q, [], false);
    TurnOn(px, px1, Proxy.WriteFailed(px, r, q), [Noted(r.pid, [], false)], [Noted(q, [], false)]);
  }

  /** Lines 567-576. */
  lemma ReadTurns(env: Env, px: Proxy.State, r: Request)
    requires Registry.Sound(px) && r.pid in px.infos
    ensures var (py, out) := Proxy.ReadRequest(env.cfg.owner, px, r);
            Turns(px, py, (if r.callId in px.chains then [] else [Rooted(r.callId, r.pid)])
                          + [Queued(r.pid, r)] + Dealt(r.pid, out))
  {
    var px1 := Proxy.Root(px, r.callId, r.pid);
    var px2 := Proxy.Enqueue(px1, r.pid, r);
    var root := if r.callId in px.chains then [] else [Rooted(r.callId, r.pid)];
    var (py, out) := Proxy.ReadRequest(env.cfg.owner, px, r);
    assert r.callId in px.chains ==> px1 == px;
    assert (py, out) == Proxy.Dispatch(env.cfg.owner, px2, r.pid);
    hide *;
    if r.callId in px.chains {
      NothingTurns(px);
    } else {
      RootedTurns(px, r.callId, r.pid);
    }
    Registry.RootKeeps(px, r.callId, r.pid);
    QueuedTurns(px1, r.pid, r);
    TurnOn(px, px1, px2, root, [Queued(r.pid, r)]);
    Registry.EnqueueKeeps(px1, r.pid, r);
    DispatchTurns(env.cfg.owner, px2, r.pid);
    TurnOn(px, px2, py, root + [Queued(r.pid, r)], Dealt(r.pid, out));
  }

  lemma ReadUpEntries(env: Env, s: Sys, p: nat, ok: bool)
    requires Enabled(env, s, ReadUp(p, ok))
    ensures p in s.net && s.net[p].up != []
    ensures var t, xs := Apply(env, s, ReadUp(p, ok)), Entries(env, s, ReadUp(p, ok));
            match s.net[p].up[0]
            case Req(r) =>
              var (py, out) := Proxy.ReadRequest(env.cfg.owner, s.px, r);
              && t.px == py
              && xs == (if r.callId in s.px.chains then [] else [Rooted(r.callId, r.pid)])
                       + [Queued(r.pid, r)] + Dealt(r.pid, out)
            case Resp(r) =>
              if |Proxy.Chain(s.px, r.callId)| < 2 then t.px == s.px && xs == []
              else t.px == Proxy.PopChain(s.px, r.callId) && xs == [Popped(r.callId)]
  {
    hide Proxy.ReadRequest, Proxy.PopChain, Dealt, Proxy.Chain;
    if s.net[p].up[0].Req? {
      var s1, r := PopUp(s, p), s.net[p].up[0].req;
      hide Dispatched;
      DispatchedLeaves(s1.(hist := s1.hist.(read := s1.hist.read + multiset{r})), p,
                       Proxy.ReadRequest(env.cfg.owner, s.px, r), ok, Done);
    }
  }

  lemma ListedParts(cfg: Config, s: Sys, p: nat)
    requires Directory.Listed(cfg, s) && p in s.net
    ensures Registry.Sound(s.px) && p in s.px.infos && Directory.PcResolved(s.px, s.net[p].pc)
    ensures s.net[p].up != [] && s.net[p].up[0].Req? ==> s.net[p].up[0].req.pid == p
  {
    assert Directory.NodeListed(cfg, s.px, p, s.net[p]);
    hide Registry.Sound, Directory.PcResolved;
  }

  lemma ReadUpTurns(env: Env, s: Sys, p: nat, ok: bool)
    requires Directory.Listed(env.cfg, s) && Enabled(env, s, ReadUp(p, ok))
    ensures Turns(s.px, Apply(env, s, ReadUp(p, ok)).px, Entries(env, s, ReadUp(p, ok)))
  {
    hide *;
    ReadUpEntries(env, s, p, ok);
    ListedParts(env.cfg, s, p);
    match s.net[p].up[0]
    case Req(r) => ReadTurns(env, s.px, r);
    case Resp(r) =>
      NothingTurns(s.px);
      PoppedTurns(s.px, r.callId);
  }

  lemma AnsweringEntries(env: Env, s: Sys, p: nat, ok: bool)
    requires Enabled(env, s, Resume(p, ok)) && s.net[p].pc.Answering?
    ensures var self, c := s.net[p].pc.self, s.net[p].pc.callId;
            var (py, out) := Proxy.Dispatch(env.cfg.owner, Proxy.Update(s.px, self, [], false), self);
            var t, xs := Apply(env, s, Resume(p, ok)), Entries(env, s, Resume(p, ok));
            if out.Sent? then t.px == py && xs == [Noted(self, [], false)] + Dealt(self, out)
            else
              && t.px == WakeLeaves(env, py, c)
              && xs == [Noted(self, [], false)] + Dealt(self, out)
                       + Woken(EndAfter(s.px, out, c), c, WakeOutcome(env, py, c))
  {
    var self, c := s.net[p].pc.self, s.net[p].pc.callId;
    hide WakeSelf, Proxy.Dispatch, Proxy.Update, Dealt, Woken, WakeOutcome, WakeLeaves;
    WakeSelfLeaves(env, s, p, self, c, ok);
    var out := Proxy.Dispatch(env.cfg.owner, Proxy.Update(s.px, self, [], false), self).1;
    assert [Noted(self, [], false)] + Dealt(self, out) + [] == [Noted(self, [], false)] + Dealt(self, out);
  }

  lemma SendingEntries(env: Env, s: Sys, p: nat, ok: bool)
    requires Enabled(env, s, Resume(p, ok)) && s.net[p].pc.Sending?
    ensures var pc, t, xs := s.net[p].pc, Apply(env, s, Resume(p, ok)), Entries(env, s, Resume(p, ok));
            var px1 := if pc.ok then s.px else Proxy.WriteFailed(s.px, pc.req, pc.callee);
            var failed := if pc.ok then [] else [Noted(pc.req.pid, [], false)] + [Noted(pc.callee, [], false)];
            match pc.after
            case Done => t.px == px1 && xs == failed
            case Caller(c) =>
              && t.px == WakeLeaves(env, px1, c)
              && xs == failed + Woken(EndAfter(s.px, Proxy.Quiet, c), c, WakeOutcome(env, px1, c))
  {
    hide WakeCaller, Proxy.WriteFailed, Woken, WakeOutcome, WakeLeaves;
    var pc := s.net[p].pc;
    var px1 := if pc.ok then s.px else Proxy.WriteFailed(s.px, pc.req, pc.callee);
    var failed := if pc.ok then [] else [Noted(pc.req.pid, [], false)] + [Noted(pc.callee, [], false)];
    match pc.after
    case Done => assert failed + [] == failed;
    case Caller(c) => WakeCallerLeaves(env, s.(px := px1), p, c, ok);
  }

  lemma PcParts(cfg: Config, s: Sys, p: nat)
    requires Directory.Listed(cfg, s) && p in s.net
    ensures s.net[p].pc.Answering? ==> s.net[p].pc.self in s.px.infos
    ensures s.net[p].pc.Sending? ==> s.net[p].pc.req.pid in s.px.infos && s.net[p].pc.callee in s.px.infos
  {
    ListedParts(cfg, s, p);
    hide Directory.Listed;
  }

  lemma AnsweringStepTurns(env: Env, s: Sys, p: nat, ok: bool)
    requires Directory.Listed(env.cfg, s) && Enabled(env, s, Resume(p, ok)) && s.net[p].pc.Answering?
    ensures Turns(s.px, Apply(env, s, Resume(p, ok)).px, Entries(env, s, Resume(p, ok)))
  {
    assert p in s.net;
    hide *;
    ListedParts(env.cfg, s, p);
    PcParts(env.cfg, s, p);
    AnsweringEntries(env, s, p, ok);
    AnsweringTurns(env, s.px, s.net[p].pc.self, s.net[p].pc.callId);
  }

  lemma SendingStepTurns(env: Env, s: Sys, p: nat, ok: bool)
    requires Directory.Listed(env.cfg, s) && Enabled(env, s, Resume(p, ok)) && s.net[p].pc.Sending?
    ensures Turns(s.px, Apply(env, s, Resume(p, ok)).px, Entries(env, s, Resume(p, ok)))
  {
    assert p in s.net;
    hide *;
    var pc := s.net[p].pc;
    ListedParts(env.cfg, s, p);
    PcParts(env.cfg, s, p);
    SendingEntries(env, s, p, ok);
    SendingTurns(env, s.px, pc.req, pc.callee, pc.ok, pc.after);
  }

  /** Lines 699-704, and 614-615 if the handler has come from there. */
  lemma SendingTurns(env: Env, px: Proxy.State, r: Request, q: nat, sent: bool, after: After)
    requires Registry.Sound(px) && r.pid in px.infos && q in px.infos
    ensures var px1 := if sent then px else Proxy.WriteFailed(px, r, q);
            var failed := if sent then [] else [Noted(r.pid, [], false)] + [Noted(q, [], false)];
            match after
            case Done => Turns(px, px1, failed)
            case Caller(c) =>
              Turns(px, WakeLeaves(env, px1, c),
                    failed + Woken(EndAfter(px, Proxy.Quiet, c), c, WakeOutcome(env, px1, c)))
  {
    hide *;
    var px1 := if sent then px else Proxy.WriteFailed(px, r, q);
    var failed := if sent then [] else [Noted(r.pid, [], false)] + [Noted(q, [], false)];
    NothingTurns(px);
    FailedTurns(px, r, q);
    Registry.WriteFailedKeeps(px, r, q);
    if after.Caller? {
      var c := after.callId;
      EndKept(px, px1, Proxy.Quiet, c);
      WakeTurns(env, px1, c);
      var woken := Woken(EndAfter(px1, Proxy.Quiet, c), c, WakeOutcome(env, px1, c));
      TurnOn(px, px1, WakeLeaves(env, px1, c), failed, woken);
    }
  }

  lemma StepTurns(env: Env, s: Sys, e: Event)
    requires Directory.Listed(env.cfg, s) && Enabled(env, s, e)
    ensures Turns(s.px, Apply(env, s, e).px, Entries(env, s, e))
  {
    hide Turns, ReadUpStep, ResumeStep, Proxy.Connect;
    match e
    case ReadUp(p, ok) => ReadUpTurns(env, s, p, ok);
    case Resume(p, ok) =>
      if s.net[p].pc.Answering? {
        AnsweringStepTurns(env, s, p, ok);
      } else {
        SendingStepTurns(env, s, p, ok);
      }
    case Connect(p, name) =>
      assert p !in s.px.infos;
      JoinedTurns(s.px, p, name);
    case _ => NothingTurns(s.px);
  }

  // ---------------------------------------------------------------- whole runs

  /** The entries of the first `i` steps. */
  ghost function Written(env: Env, states: seq<Sys>, events: seq<Event>, i: nat): seq<Entry>
    requires Run(env, states, events) && i <= |events|
  {
    if i == 0 then [] else Written(env, states, events, i - 1) + Entries(env, states[i - 1], events[i - 1])
  }

  lemma {:induction false} WrittenTurns(env: Env, states: seq<Sys>, events: seq<Event>, i: nat)
    requires IndexAgrees(env.cfg) && Run(env, states, events) && i < |states|
    ensures Turns(Proxy.Empty, states[i].px, Written(env, states, events, i))
  {
    Directory.ListedAlways(env, states, events);
    hide Turns, Directory.Listed, Entries, Apply, Enabled, IndexAgrees;
    if i == 0 {
      NothingTurns(Proxy.Empty);
    } else {
      WrittenTurns(env, states, events, i - 1);
      StepTurns(env, states[i - 1], events[i - 1]);
      TurnOn(Proxy.Empty, states[i - 1].px, states[i].px, Written(env, states, events, i - 1),
             Entries(env, states[i - 1], events[i - 1]));
    }
  }

  /** Backlogs are first in, first out, in every run: what was put into that of `p`, in
      order, is what was taken from it, in order, and then what it holds. */
  lemma BacklogInOrder(env: Env, states: seq<Sys>, events: seq<Event>, i: nat, p: nat)
    requires IndexAgrees(env.cfg) && Run(env, states, events) && i < |states|
    ensures var entries := Written(env, states, events, i);
            PutInto(entries, p) == TakenFrom(entries, p) + Backlog(states[i].px, p)
  {
    WrittenTurns(env, states, events, i);
    hide FlagsTurn, ChainsTurn, GroupsTurn, Run, IndexAgrees, PutInto, TakenFrom;
    assert Backlog(Proxy.Empty, p) == [];
  }

  /** A record shows what was noted last of its process; at first, that it serves no call
      and does not wait. */
  lemma RecordsAreLastNotes(env: Env, states: seq<Sys>, events: seq<Event>, i: nat, p: nat)
    requires IndexAgrees(env.cfg) && Run(env, states, events) && i < |states|
    ensures Flags(states[i].px, p) == LastNote(Written(env, states, events, i), p, ([], false))
  {
    WrittenTurns(env, states, events, i);
    hide BacklogsTurn, ChainsTurn, GroupsTurn, Run, IndexAgrees, LastNote;
    assert Flags(Proxy.Empty, p) == ([], false);
  }

  /** A chain is the stack of those that were put on it and not taken off. */
  lemma ChainsAreStacks(env: Env, states: seq<Sys>, events: seq<Event>, i: nat, c: Text)
    requires IndexAgrees(env.cfg) && Run(env, states, events) && i < |states|
    ensures Proxy.Chain(states[i].px, c) == Stack(Written(env, states, events, i), c, [])
  {
    WrittenTurns(env, states, events, i);
    hide BacklogsTurn, FlagsTurn, GroupsTurn, Run, IndexAgrees, Stack;
    assert Proxy.Chain(Proxy.Empty, c) == [];
  }

  /** The processes of an actor node are listed in the order they connected. */
  lemma GroupsInOrder(env: Env, states: seq<Sys>, events: seq<Event>, i: nat, name: Text)
    requires IndexAgrees(env.cfg) && Run(env, states, events) && i < |states|
    ensures Proxy.Group(states[i].px, name) == Members(Written(env, states, events, i), name)
  {
    WrittenTurns(env, states, events, i);
    hide BacklogsTurn, FlagsTurn, ChainsTurn, Run, IndexAgrees, Members;
    assert Proxy.Group(Proxy.Empty, name) == [];
  }

  // ------------------------------------------------- whose backlog is looked into

  lemma TakenSnoc(xs: seq<Entry>, e: Entry, p: nat)
    ensures TakenFrom(xs + [e], p) == TakenFrom(xs, p) + if e.Taken? && e.p == p then [e.req] else []
  {
    assert (xs + [e])[..|xs|] == xs;
  }

  lemma TakenDealt(p: nat, out: Proxy.Outcome, q: nat)
    ensures TakenFrom(Dealt(p, out), q) == if !out.Quiet? && p == q then [out.req] else []
  {
    assert TakenFrom([], q) == [];
    hide TakenFrom;
    if !out.Quiet? {
      TakenSnoc([], Taken(p, out.req), q);
      assert [] + [Taken(p, out.req)] == [Taken(p, out.req)];
      if out.Cached? || out.Sent? {
        var r, callee := out.req, out.callee;
        var last := if out.Cached? then Queued(callee, r) else Noted(callee, r.callId, false);
        TakenRest(r, callee, [Taken(p, r)], q, out.Cached?);
        assert Dealt(p, out) == [Taken(p, r)] + [Noted(r.pid, r.callId, true), Pushed(r.callId, callee), last];
      }
    }
  }

  lemma TakenRest(r: Request, callee: nat, one: seq<Entry>, q: nat, cached: bool)
    ensures var last := if cached then Queued(callee, r) else Noted(callee, r.callId, false);
            TakenFrom(one + [Noted(r.pid, r.callId, true), Pushed(r.callId, callee), last], q) == TakenFrom(one, q)
  {
    hide TakenFrom;
    var two := one + [Noted(r.pid, r.callId, true)];
    var three := two + [Pushed(r.callId, callee)];
    var last := if cached then Queued(callee, r) else Noted(callee, r.callId, false);
    TakenSnoc(one, Noted(r.pid, r.callId, true), q);
    TakenSnoc(two, Pushed(r.callId, callee), q);
    TakenSnoc(three, last, q);
    assert one + [Noted(r.pid, r.callId, true), Pushed(r.callId, callee), last] == three + [last];
  }

  function First(queue: seq<Request>): seq<Request> {
    if queue == [] then [] else [queue[0]]
  }

  lemma FirstIs(queue: seq<Request>)
    ensures First(queue) == [] <==> queue == []
  {
  }

  lemma NotesTake(p: nat, c: Text, q: nat)
    ensures TakenFrom([Noted(p, c, false)], q) == []
  {
    OneEntry(Noted(p, c, false));
  }

  /** A REQUEST that is read is put at the end of its sender's backlog, and unless the
      sender counts as waiting the first one there is taken. */
  lemma ReadLooks(env: Env, s: Sys, p: nat, ok: bool)
    requires Enabled(env, s, ReadUp(p, ok)) && s.net[p].up[0].Req?
    requires Directory.Listed(env.cfg, s)
    ensures var r, xs := s.net[p].up[0].req, Entries(env, s, ReadUp(p, ok));
            && r.pid == p
            && TakenFrom(xs, p) == if Flags(s.px, p).1 then [] else First(Backlog(s.px, p) + [r])
  {
    hide *;
    ReadUpEntries(env, s, p, ok);
    ListedParts(env.cfg, s, p);
    ReadTakes(env, s.px, s.net[p].up[0].req);
  }

  lemma ReadTakes(env: Env, px: Proxy.State, r: Request)
    requires Registry.Sound(px) && r.pid in px.infos
    ensures var out := Proxy.ReadRequest(env.cfg.owner, px, r).1;
            TakenFrom((if r.callId in px.chains then [] else [Rooted(r.callId, r.pid)])
                      + [Queued(r.pid, r)] + Dealt(r.pid, out), r.pid)
            == if Flags(px, r.pid).1 then [] else First(Backlog(px, r.pid) + [r])
  {
    var px1 := Proxy.Root(px, r.callId, r.pid);
    var px2 := Proxy.Enqueue(px1, r.pid, r);
    var root := if r.callId in px.chains then [] else [Rooted(r.callId, r.pid)];
    var out := Proxy.ReadRequest(env.cfg.owner, px, r).1;
    assert out == Proxy.Dispatch(env.cfg.owner, px2, r.pid).1;
    assert Backlog(px2, r.pid) == Backlog(px, r.pid) + [r] && Flags(px2, r.pid) == Flags(px, r.pid);
    assert TakenFrom(root, r.pid) == [] by {
      OneEntry(Rooted(r.callId, r.pid));
    }
    hide *;
    Registry.RootKeeps(px, r.callId, r.pid);
    Registry.EnqueueKeeps(px1, r.pid, r);
    DispatchTurns(env.cfg.owner, px2, r.pid);
    TakenSnoc(root, Queued(r.pid, r), r.pid);
    RowQueues(root + [Queued(r.pid, r)], Dealt(r.pid, out), r.pid);
    TakenDealt(r.pid, out, r.pid);
  }

  /** What is taken from the backlog of the one who is woken. */
  lemma WakeTakes(env: Env, px: Proxy.State, c: Text, end: seq<nat>)
    requires Registry.Sound(px) && end == EndAfter(px, Proxy.Quiet, c)
    ensures end != [] ==>
              TakenFrom(Woken(end, c, WakeOutcome(env, px, c)), end[0]) == First(Backlog(px, end[0]))
  {
    hide *;
    if end != [] {
      var q, out := end[0], WakeOutcome(env, px, c);
      WakeIs(env, px, c, end);
      WokenIs(end, c, out);
      NotedShows(px, q, c);
      Registry.UpdateKeeps(px, q, c, false);
      DispatchTurns(env.cfg.owner, Proxy.Update(px, q, c, false), q);
      NotesTake(q, c, q);
      RowQueues([Noted(q, c, false)], Dealt(q, out), q);
      TakenDealt(q, out, q);
    }
  }

  function FirstOutcome(env: Env, s: Sys, e: Event): Proxy.Outcome
    requires Enabled(env, s, e)
  {
    var outs := Outcomes(env, s, e);
    if outs == [] then Proxy.Quiet else outs[0]
  }

  /** The handler of an answered RESPONSE, when it resumes, takes the first request from
      the backlog of the one who answered; and unless it sent that one out, and is in this
      write now, it takes one, if there is one, from whoever ends the chain. */
  lemma AnswerLooks(env: Env, s: Sys, p: nat, ok: bool)
    requires Directory.Listed(env.cfg, s) && Enabled(env, s, Resume(p, ok)) && s.net[p].pc.Answering?
    ensures var self, c := s.net[p].pc.self, s.net[p].pc.callId;
            var t, xs := Apply(env, s, Resume(p, ok)), Entries(env, s, Resume(p, ok));
            var end := EndAfter(s.px, FirstOutcome(env, s, Resume(p, ok)), c);
            && First(Backlog(s.px, self)) <= TakenFrom(xs, self)
            && p in t.net
            && ((t.net[p].pc.Sending? && t.net[p].pc.after == Caller(c))
                || (end != [] && Backlog(s.px, end[0]) != [] ==> TakenFrom(xs, end[0]) != []))
  {
    assert p in s.net;
    hide *;
    ListedParts(env.cfg, s, p);
    PcParts(env.cfg, s, p);
    AnsweringEntries(env, s, p, ok);
    AnsweringSuspends(env, s, p, ok);
    AnswerTakes(env, s.px, s.net[p].pc.self, s.net[p].pc.callId);
  }

  lemma AnsweringSuspends(env: Env, s: Sys, p: nat, ok: bool)
    requires Enabled(env, s, Resume(p, ok)) && s.net[p].pc.Answering?
    ensures var self, c, t := s.net[p].pc.self, s.net[p].pc.callId, Apply(env, s, Resume(p, ok));
            var out := Proxy.Dispatch(env.cfg.owner, Proxy.Update(s.px, self, [], false), self).1;
            && FirstOutcome(env, s, Resume(p, ok)) == out && p in t.net
            && (out.Sent? ==> t.net[p].pc == Sending(out.req, out.callee, ok, Caller(c)))
  {
    hide Proxy.Dispatch, Proxy.Update, WakeOutcome;
  }

  lemma NotedShows(px: Proxy.State, p: nat, c: Text)
    ensures var px1 := Proxy.Update(px, p, c, false);
            && px1.chains == px.chains && Backlog(px1, p) == Backlog(px, p) && !Flags(px1, p).1
            && First(Backlog(px, p)) == if Backlog(px, p) == [] then [] else [Backlog(px, p)[0]]
  {
  }

  lemma AnswerTakes(env: Env, px: Proxy.State, self: nat, c: Text)
    requires Registry.Sound(px) && self in px.infos
    ensures var (py, out) := Proxy.Dispatch(env.cfg.owner, Proxy.Update(px, self, [], false), self);
            var xs, end := [Noted(self, [], false)] + Dealt(self, out), EndAfter(px, out, c);
            var ys := xs + Woken(end, c, WakeOutcome(env, py, c));
            && TakenFrom(xs, self) == First(Backlog(px, self)) <= TakenFrom(ys, self)
            && (end != [] && Backlog(px, end[0]) != [] ==> TakenFrom(ys, end[0]) != [])
  {
    var px1 := Proxy.Update(px, self, [], false);
    var (py, out) := Proxy.Dispatch(env.cfg.owner, px1, self);
    var end, xs := EndAfter(px, out, c), [Noted(self, [], false)] + Dealt(self, out);
    hide *;
    NotedShows(px, self, []);
    NotesTake(self, [], self);
    Registry.UpdateKeeps(px, self, [], false);
    DispatchTurns(env.cfg.owner, px1, self);
    Registry.DispatchKeeps(env.cfg.owner, px1, self);
    EndDealt(env.cfg.owner, px1, self, c);
    EndKept(px, px1, out, c);
    WakeTakes(env, py, c, end);
    RowQueues([Noted(self, [], false)], Dealt(self, out), self);
    TakenDealt(self, out, self);
    RowQueues(xs, Woken(end, c, WakeOutcome(env, py, c)), self);
    if end != [] {
      NotesTake(self, [], end[0]);
      FirstIs(Backlog(py, end[0]));
      RowQueues([Noted(self, [], false)], Dealt(self, out), end[0]);
      TakenDealt(self, out, end[0]);
      RowQueues(xs, Woken(end, c, WakeOutcome(env, py, c)), end[0]);
      AnsweringTurns(env, px, self, c);
      StaysFilled(px, py, xs, end[0]);
    }
  }

  /** A backlog from which nothing is taken does not become empty. */
  lemma StaysFilled(px: Proxy.State, py: Proxy.State, xs: seq<Entry>, p: nat)
    requires Turns(px, py, xs)
    ensures Backlog(px, p) != [] && TakenFrom(xs, p) == [] ==> Backlog(py, p) != []
  {
    hide FlagsTurn, ChainsTurn, GroupsTurn, Backlog, PutInto, TakenFrom;
    assert Backlog(px, p) + PutInto(xs, p) == TakenFrom(xs, p) + Backlog(py, p);
  }

  /** After such a write it goes on to whoever ends the chain then. */
  lemma ReturnLooks(env: Env, s: Sys, p: nat, ok: bool)
    requires Directory.Listed(env.cfg, s) && Enabled(env, s, Resume(p, ok))
    requires s.net[p].pc.Sending? && s.net[p].pc.after.Caller?
    ensures var end, xs := EndAfter(s.px, Proxy.Quiet, s.net[p].pc.after.callId), Entries(env, s, Resume(p, ok));
            end != [] ==> TakenFrom(xs, end[0]) == First(Backlog(s.px, end[0]))
  {
    assert p in s.net;
    hide *;
    var pc := s.net[p].pc;
    ListedParts(env.cfg, s, p);
    PcParts(env.cfg, s, p);
    SendingEntries(env, s, p, ok);
    ReturnTakes(env, s.px, pc.req, pc.callee, pc.ok, pc.after.callId);
  }

  lemma FailedTakes(px: Proxy.State, r: Request, q: nat, sent: bool, p: nat)
    ensures var px1 := if sent then px else Proxy.WriteFailed(px, r, q);
            var failed := if sent then [] else [Noted(r.pid, [], false)] + [Noted(q, [], false)];
            Backlog(px1, p) == Backlog(px, p) && TakenFrom(failed, p) == []
  {
    assert TakenFrom([], p) == [];
    hide TakenFrom;
    NotesTake(r.pid, [], p);
    NotesTake(q, [], p);
    RowQueues([Noted(r.pid, [], false)], [Noted(q, [], false)], p);
  }

  lemma ReturnTakes(env: Env, px: Proxy.State, r: Request, q: nat, sent: bool, c: Text)
    requires Registry.Sound(px) && r.pid in px.infos && q in px.infos
    ensures var px1 := if sent then px else Proxy.WriteFailed(px, r, q);
            var failed := if sent then [] else [Noted(r.pid, [], false)] + [Noted(q, [], false)];
            var end := EndAfter(px, Proxy.Quiet, c);
            end != [] ==>
              TakenFrom(failed + Woken(end, c, WakeOutcome(env, px1, c)), end[0]) == First(Backlog(px, end[0]))
  {
    var px1 := if sent then px else Proxy.WriteFailed(px, r, q);
    var failed := if sent then [] else [Noted(r.pid, [], false)] + [Noted(q, [], false)];
    var end := EndAfter(px, Proxy.Quiet, c);
    hide *;
    FailedTurns(px, r, q);
    Registry.WriteFailedKeeps(px, r, q);
    EndKept(px, px1, Proxy.Quiet, c);
    WakeTakes(env, px1, c, end);
    if end != [] {
      FailedTakes(px, r, q, sent, end[0]);
      RowQueues(failed, Woken(end, c, WakeOutcome(env, px1, c)), end[0]);
    }
  }

  // ---------------------------------------------------------- chains are kept

  lemma WakeExtends(env: Env, px: Proxy.State, c: Text)
    requires Registry.Sound(px)
    ensures Registry.Extends(px, WakeLeaves(env, px, c))
  {
    hide *;
    var end := EndAfter(px, Proxy.Quiet, c);
    WakeIs(env, px, c, end);
    if end == [] {
      ExtendsSelf(px);
    } else {
      Registry.UpdateKeeps(px, end[0], c, false);
      Registry.DispatchKeeps(env.cfg.owner, Proxy.Update(px, end[0], c, false), end[0]);
      ExtendsOn(px, Proxy.Update(px, end[0], c, false), WakeLeaves(env, px, c));
    }
  }

  lemma ExtendsSelf(px: Proxy.State)
    ensures Registry.Extends(px, px)
  {
  }

  lemma ExtendsOn(px: Proxy.State, py: Proxy.State, pz: Proxy.State)
    requires Registry.Extends(px, py) && Registry.Extends(py, pz)
    ensures Registry.Extends(px, pz)
  {
  }

  lemma ExtendsChains(px: Proxy.State, py: Proxy.State)
    requires Registry.Extends(px, py)
    ensures px.chains.Keys <= py.chains.Keys
  {
  }

  lemma AnsweringExtends(env: Env, px: Proxy.State, self: nat, c: Text)
    requires Registry.Sound(px)
    ensures var py := Proxy.Dispatch(env.cfg.owner, Proxy.Update(px, self, [], false), self).0;
            Registry.Extends(px, py) && Registry.Extends(px, WakeLeaves(env, py, c))
  {
    hide *;
    var px1 := Proxy.Update(px, self, [], false);
    var py := Proxy.Dispatch(env.cfg.owner, px1, self).0;
    Registry.UpdateKeeps(px, self, [], false);
    Registry.DispatchKeeps(env.cfg.owner, px1, self);
    ExtendsOn(px, px1, py);
    WakeExtends(env, py, c);
    ExtendsOn(px, py, WakeLeaves(env, py, c));
  }

  lemma SendingExtends(env: Env, px: Proxy.State, r: Request, q: nat, sent: bool, c: Text)
    requires Registry.Sound(px)
    ensures var px1 := if sent then px else Proxy.WriteFailed(px, r, q);
            Registry.Extends(px, px1) && Registry.Extends(px, WakeLeaves(env, px1, c))
  {
    hide *;
    var px1 := if sent then px else Proxy.WriteFailed(px, r, q);
    ExtendsSelf(px);
    Registry.WriteFailedKeeps(px, r, q);
    WakeExtends(env, px1, c);
    ExtendsOn(px, px1, WakeLeaves(env, px1, c));
  }

  lemma ResumeExtends(env: Env, s: Sys, p: nat, ok: bool)
    requires Registry.Sound(s.px) && Enabled(env, s, Resume(p, ok))
    ensures Registry.Extends(s.px, Apply(env, s, Resume(p, ok)).px)
  {
    hide Registry.Sound, Registry.Extends, Apply, WakeLeaves, Proxy.Dispatch, Proxy.Update, Proxy.WriteFailed, Entries;
    hide WakeOutcome, EndAfter, Woken, Dealt;
    var pc := s.net[p].pc;
    if pc.Answering? {
      AnsweringEntries(env, s, p, ok);
      AnsweringExtends(env, s.px, pc.self, pc.callId);
    } else {
      SendingEntries(env, s, p, ok);
      SendingExtends(env, s.px, pc.req, pc.callee, pc.ok, if pc.after.Caller? then pc.after.callId else []);
    }
  }

  lemma RunStep(env: Env, states: seq<Sys>, events: seq<Event>, i: nat)
    requires IndexAgrees(env.cfg) && Run(env, states, events) && i + 1 < |states|
    ensures i < |events| && Enabled(env, states[i], events[i]) && states[i + 1] == Apply(env, states[i], events[i])
    ensures Directory.Listed(env.cfg, states[i])
  {
    hide Directory.Listed, Enabled, Apply, IndexAgrees;
    Directory.ListedAlways(env, states, events);
  }

  /** A call id that the proxy knows stays known. */
  lemma StepKeepsChains(env: Env, s: Sys, e: Event)
    requires Directory.Listed(env.cfg, s) && IndexAgrees(env.cfg) && Enabled(env, s, e)
    ensures s.px.chains.Keys <= Apply(env, s, e).px.chains.Keys
  {
    hide Directory.Listed, ReadUpStep, ResumeStep, IndexAgrees, Registry.Extends, Entries, Proxy.ReadRequest;
    match e
    case ReadUp(p, ok) =>
      ReadUpEntries(env, s, p, ok);
      ListedParts(env.cfg, s, p);
      if s.net[p].up[0].Req? {
        Directory.ReadRequestAddressed(env.cfg, s.px, s.net[p].up[0].req);
        ExtendsChains(s.px, Apply(env, s, e).px);
      }
    case Resume(p, ok) =>
      assert Registry.Sound(s.px) by {
        ListedParts(env.cfg, s, p);
      }
      ResumeExtends(env, s, p, ok);
      ExtendsChains(s.px, Apply(env, s, e).px);
    case _ =>
  }

  lemma {:induction false} ChainsKept(env: Env, states: seq<Sys>, events: seq<Event>, i: nat, j: nat)
    requires IndexAgrees(env.cfg) && Run(env, states, events) && i <= j < |states|
    ensures states[i].px.chains.Keys <= states[j].px.chains.Keys
  {
    hide *;
    if i < j {
      ChainsKept(env, states, events, i, j - 1);
      RunStep(env, states, events, j - 1);
      StepKeepsChains(env, states[j - 1], events[j - 1]);
    }
  }
}
