/** Caching as a whole run of the system, from its initial state and with all its writes
    successful: 1 asks 2, 3 asks 1 and is cached, and in the end the answer meant for 3
    is on the link to 1. */
module CachedRun {
  import opened Protocol
  import opened CallIds
  import opened S = System
  import opened SmoothRuns
  import opened ThreeActors
  import X = Counterexamples
  import Proxy

  // ---------------------------------------------------------- three more moves

  lemma CachesIs(px: Proxy.State, net: map<nat, Node>, p: nat, r: Request, py: Proxy.State, q: nat, h: History)
    requires p in net && net[p].up == [Req(r)] && net[p].pc.Reading?
    requires Proxy.ReadRequest(X.OWNER, px, r) == (py, Proxy.Cached(r, q))
    ensures Leads(Sys(px, net, h), ReadUp(p, true), FaultFreeOnly, py, net[p := net[p].(up := [])])
  {
    hide Proxy.ReadRequest;
    assert [Req(r)][1..] == [];
    assert net[p].(up := []).(pc := Reading) == net[p].(up := []);
  }

  /** The proxy reads a request and caches it behind `q`. */
  lemma Caches(px: Proxy.State, net: map<nat, Node>, p: nat, r: Request, py: Proxy.State, q: nat)
    requires At(px, net, FaultFreeOnly) && p in net && net[p].up == [Req(r)] && net[p].pc.Reading?
    requires Proxy.ReadRequest(X.OWNER, px, r) == (py, Proxy.Cached(r, q))
    ensures At(py, net[p := net[p].(up := [])], FaultFreeOnly)
  {
    hide *;
    var ny := net[p := net[p].(up := [])];
    forall h ensures Leads(Sys(px, net, h), ReadUp(p, true), FaultFreeOnly, py, ny) {
      CachesIs(px, net, p, r, py, q, h);
    }
    Moves(px, net, FaultFreeOnly, ReadUp(p, true), py, ny);
  }

  /** The handler of `g` is back in the write of `r` to `a`. */
  function SentOn(net: map<nat, Node>, g: nat, a: nat, r: Request): map<nat, Node>
    requires a in net && g in net
  {
    net[a := net[a].(down := net[a].down + [Req(r)])][g := net[g].(pc := Sending(r, a, true, Done))]
  }

  /** What the dispatch of `a` finds when the handler of `g` has let both go. */
  function Freed(px: Proxy.State, g: nat, a: nat, c: Text): Proxy.State {
    Proxy.Update(Proxy.Update(px, g, [], false), a, c, false)
  }

  lemma SendsOnIs(px: Proxy.State, net: map<nat, Node>, g: nat, c: Text, a: nat, r: Request, py: Proxy.State,
                  h: History)
    requires g in net && a in net && net[g].pc == Answering(g, c) && Proxy.Chain(px, c) == [a] && a != g
    requires g in px.infos && px.infos[g].queue == []
    requires Proxy.Dispatch(X.OWNER, Freed(px, g, a, c), a) == (py, Proxy.Sent(r, a))
    ensures Leads(Sys(px, net, h), Resume(g, true), FaultFreeOnly, py, SentOn(net, g, a, r))
  {
    var px1 := Proxy.Update(px, g, [], false);
    assert Proxy.Dispatch(X.OWNER, px1, g) == (px1, Proxy.Quiet);
    assert Proxy.Chain(px1, c) == [a];
    hide Proxy.Update, Proxy.Dispatch;
  }

  /** The handler of `g` resumes, lets `a` go and sends on what was cached behind it. */
  lemma SendsOn(px: Proxy.State, net: map<nat, Node>, g: nat, c: Text, a: nat, r: Request, py: Proxy.State)
    requires At(px, net, FaultFreeOnly)
    requires g in net && a in net && net[g].pc == Answering(g, c) && Proxy.Chain(px, c) == [a] && a != g
    requires g in px.infos && px.infos[g].queue == []
    requires Proxy.Dispatch(X.OWNER, Freed(px, g, a, c), a) == (py, Proxy.Sent(r, a))
    ensures At(py, SentOn(net, g, a, r), FaultFreeOnly)
  {
    hide *;
    forall h ensures Leads(Sys(px, net, h), Resume(g, true), FaultFreeOnly, py, SentOn(net, g, a, r)) {
      SendsOnIs(px, net, g, c, a, r, py, h);
    }
    Moves(px, net, FaultFreeOnly, Resume(g, true), py, SentOn(net, g, a, r));
  }

  /** `a` has its own response back, and its handler is in that write. */
  function Bounced(net: map<nat, Node>, a: nat, r: Response): map<nat, Node>
    requires a in net
  {
    net[a := net[a].(up := [], down := net[a].down + [Resp(r)], pc := Answering(a, r.callId))]
  }

  lemma BouncesIs(px: Proxy.State, net: map<nat, Node>, a: nat, d: nat, r: Response, h: History)
    requires a in net && net[a].up == [Resp(r)] && net[a].pc.Reading? && Proxy.Chain(px, r.callId) == [d, a, a]
    ensures Leads(Sys(px, net, h), ReadUp(a, true), FaultFreeOnly, Proxy.PopChain(px, r.callId),
                  Bounced(net, a, r))
  {
    hide Proxy.PopChain;
    assert [Resp(r)][1..] == [];
  }

  /** The proxy reads the response of `a` on a chain with `a` twice, and writes it to `a`. */
  lemma Bounces(px: Proxy.State, net: map<nat, Node>, a: nat, d: nat, r: Response)
    requires At(px, net, FaultFreeOnly)
    requires a in net && net[a].up == [Resp(r)] && net[a].pc.Reading? && Proxy.Chain(px, r.callId) == [d, a, a]
    ensures At(Proxy.PopChain(px, r.callId), Bounced(net, a, r), FaultFreeOnly)
  {
    hide *;
    var ny := Bounced(net, a, r);
    forall h ensures Leads(Sys(px, net, h), ReadUp(a, true), FaultFreeOnly, Proxy.PopChain(px, r.callId), ny) {
      BouncesIs(px, net, a, d, r, h);
    }
    Moves(px, net, FaultFreeOnly, ReadUp(a, true), Proxy.PopChain(px, r.callId), ny);
  }

  // ------------------------------------------------------------------- the run

  /** 3 with its request cached. */
  const PARKED: Node := ASKING.(up := [])

  /** 1 asks 2, then 3 asks 1 and is cached. */
  lemma Parks()
    ensures At(X.CachedBehind(C1, R3),
               Net(Busy(Reading, [], [], [], C1, Some(R1)), Fresh(X.B).(down := [Req(R1)]), PARKED), FaultFreeOnly)
  {
    IdsDiffer();
    hide At, MakeCallId, Net, Proxy.ReadRequest, X.Px;
    Connects(FaultFreeOnly);
    var px := X.Px(X.Idle(X.A), X.Idle(X.B), X.Idle(X.C), map[]);
    Clients(px, FaultFreeOnly);
    Lists(Req(R1));
    X.FirstAsk(C1, K0);
    X.ReadCaches(C1, R3);
    hide X.Asked, X.CachedBehind;
    var a1 := Busy(Reading, [Req(R1)], [], [], C1, Some(R1));
    var a2, b1 := a1.(up := []), Fresh(X.B).(down := [Req(R1)]);
    Acted(px, Busy(Reading, [], [], [], [], None), Fresh(X.B), ASKING, FaultFreeOnly, Act(1, true), a1);
    Forwarded(px, a1, Fresh(X.B), ASKING, FaultFreeOnly, 1, 2, R1, X.Asked(C1));
    Resumed(X.Asked(C1), a2.(pc := Sending(R1, 2, true, Done)), b1, ASKING, FaultFreeOnly, 1);
    PutIs(a2, b1, ASKING, 3, PARKED);
    Caches(X.Asked(C1), Net(a2, b1, ASKING), 3, R3, X.CachedBehind(C1, R3), 1);
  }

  lemma FirstAnswer()
    ensures At(Proxy.PopChain(X.CachedBehind(C1, R3), C1),
               Net(Busy(Reading, [], [Resp(S2)], [], C1, Some(R1)), Served(Answering(2, C1), [], []), PARKED),
               FaultFreeOnly)
  {
    IdsDiffer();
    hide At, MakeCallId, Net, Proxy.PopChain;
    Parks();
    Lists(Resp(S2));
    var px, a := X.CachedBehind(C1, R3), Busy(Reading, [], [], [], C1, Some(R1));
    SecondServes(px, a, PARKED, FaultFreeOnly);
    Replied(px, a, Served(Reading, [Resp(S2)], []), PARKED, FaultFreeOnly, 2, 1, S2);
  }

  /** The proxy once the request of 3 has been sent on. */
  function Released(): Proxy.State {
    Proxy.Dispatch(X.OWNER, Proxy.Update(X.AnsweredCached(C1, R3), 1, C1, false), 1).0
  }

  /** The handler of 2 resumes: 1 is let go and sent the request of 3, and pushed on the
      chain of 3 once more. */
  lemma SentOnToOne()
    ensures Proxy.Chain(Released(), D1) == [3, 1, 1]
    ensures Proxy.Chain(Proxy.PopChain(Released(), D1), D1) == [3, 1]
    ensures At(Released(), Net(Busy(Reading, [], [Resp(S2), Req(R3)], [], C1, Some(R1)),
                               Served(Sending(R3, 1, true, Done), [], []), PARKED), FaultFreeOnly)
  {
    IdsDiffer();
    hide At, MakeCallId, Net, Put2, Proxy.Update, Proxy.Dispatch;
    FirstAnswer();
    X.ReadAnswer(C1, R3);
    X.WakeCached(C1, R3);
    var px := Proxy.PopChain(X.CachedBehind(C1, R3), C1);
    assert Proxy.Chain(px, C1) == [1] && 2 in px.infos && px.infos[2].queue == [];
    hide Proxy.PopChain;
    var a, b := Busy(Reading, [], [Resp(S2)], [], C1, Some(R1)), Served(Answering(2, C1), [], []);
    PutIs(a, b, PARKED, 1, a);
    PutIs(a, b, PARKED, 2, b);
    assert [Resp(S2)] + [Req(R3)] == [Resp(S2), Req(R3)];
    SendsOn(px, Net(a, b, PARKED), 2, C1, 1, R3, Released());
    Put2Is(a, b, PARKED, 2, b.(pc := Sending(R3, 1, true, Done)), 1, a.(down := [Resp(S2), Req(R3)]));
    assert Put2(a, b, PARKED, 2, b.(pc := Sending(R3, 1, true, Done)), 1, a.(down := [Resp(S2), Req(R3)])) ==
           Net(a.(down := [Resp(S2), Req(R3)]), b.(pc := Sending(R3, 1, true, Done)), PARKED) by {
      Put2Shows(a, b, PARKED, a.(down := [Resp(S2), Req(R3)]), b.(pc := Sending(R3, 1, true, Done)));
    }
  }

  lemma Put2Shows(a: Node, b: Node, c: Node, m: Node, n: Node)
    ensures Put2(a, b, c, 2, n, 1, m) == Net(m, n, c)
  {
  }

  lemma AnswersClient()
    ensures At(Released(), Net(Once(Reading, [Req(R3)], [], None), Served(Sending(R3, 1, true, Done), [], []), PARKED),
               FaultFreeOnly)
  {
    IdsDiffer();
    hide At, MakeCallId, Net, Released;
    SentOnToOne();
    Lists(Got(K0));
    Lists(Answer(M1, K1));
    assert [Resp(S2), Req(R3)][1..] == [Req(R3)];
    var px, b := Released(), Served(Sending(R3, 1, true, Done), [], []);
    var a1 := Node(Reading, [], [Req(R3)], Proc(X.A, 1, C1, [], Some(Job(M1, [Got(K0)])), None, false, true, {}, []));
    Acted(px, Busy(Reading, [], [Resp(S2), Req(R3)], [], C1, Some(R1)), b, PARKED, FaultFreeOnly, Receive(1), a1);
    Acted(px, a1, b, PARKED, FaultFreeOnly, Act(1, true), Once(Reading, [Req(R3)], [], None));
  }

  lemma ServesThree()
    ensures At(Released(), Net(Settled([Resp(S1)], [], Reading), Served(Sending(R3, 1, true, Done), [], []), PARKED),
               FaultFreeOnly)
  {
    IdsDiffer();
    hide At, MakeCallId, Net, Released;
    AnswersClient();
    Lists(MA1);
    Lists(Resp(S1));
    Lists(Req(R3));
    assert [Answer(M1, K1)] + [Answer(MA1, K0)] == [Answer(M1, K1), Answer(MA1, K0)];
    var px, b := Released(), Served(Sending(R3, 1, true, Done), [], []);
    var a3 := Once(Reading, [], [MA1], None);
    var a4 := a3.(proc := a3.proc.(callId := D1, queue := [], job := Some(Job(MA1, []))));
    Acted(px, Once(Reading, [Req(R3)], [], None), b, PARKED, FaultFreeOnly, Receive(1), a3);
    Acted(px, a3, b, PARKED, FaultFreeOnly, Take(1), a4);
    Acted(px, a4, b, PARKED, FaultFreeOnly, Act(1, true), Settled([Resp(S1)], [], Reading));
  }

  /** Process 1 when its client has its answer. */
  function Once(pc: Pc, down: seq<Frame>, queue: seq<Msg>, job: Option<Job>): Node {
    Node(pc, [], down, Proc(X.A, 1, [], queue, job, None, false, true, {}, [Answer(M1, K1)]))
  }

  /** And once it has served 3. */
  function Settled(up: seq<Frame>, down: seq<Frame>, pc: Pc): Node {
    Node(pc, up, down, Proc(X.A, 1, [], [], None, None, false, true, {}, [Answer(M1, K1), Answer(MA1, K0)]))
  }

  /** The answer to 3 bounces. */
  lemma Misdelivered()
    ensures At(Proxy.PopChain(Released(), D1),
               Net(Settled([], [Resp(S1)], Answering(1, D1)), Served(Sending(R3, 1, true, Done), [], []), PARKED),
               FaultFreeOnly)
  {
    hide At, MakeCallId, Net, Released, Proxy.PopChain, Proxy.Chain;
    ServesThree();
    SentOnToOne();
    Lists(Resp(S1));
    var a, b := Settled([Resp(S1)], [], Reading), Served(Sending(R3, 1, true, Done), [], []);
    PutIs(a, b, PARKED, 1, Settled([], [Resp(S1)], Answering(1, D1)));
    Bounces(Released(), Net(a, b, PARKED), 1, 3, S1);
  }

  /** A run in which all writes succeed ends with 3 suspended in its request to 1 and the
      one answer to that request, under its call id, on the link to 1, which waits for
      nothing. */
  lemma CachingMisdelivers() returns (states: seq<Sys>, events: seq<Event>)
    ensures IndexAgrees(ENV.cfg) && Run(ENV, states, events)
    ensures forall i :: 0 <= i < |events| ==> Written(events[i]) && NoWrap(states[i], events[i])
    ensures var s := states[|events|];
            && Proxy.Chain(s.px, D1) == [3, 1] && s.net.Keys == {1, 2, 3}
            && s.net[3].proc.wait == Some(R3) && s.net[3].up == [] && s.net[3].down == []
            && s.net[1].proc.wait == None && s.net[1].down == [Resp(S1)] && S1.callId == R3.callId
            && s.net[1].proc.answers == [Answer(M1, K1), Answer(MA1, S1.pack)]
  {
    IndexFits();
    Misdelivered();
    SentOnToOne();
    hide Enabled, Apply, Direct, FaultFree, Written, NoWrap, MakeCallId, Released, Proxy.PopChain;
    var px := Proxy.PopChain(Released(), D1);
    var net := Net(Settled([], [Resp(S1)], Answering(1, D1)), Served(Sending(R3, 1, true, Done), [], []), PARKED);
    var h :| Reached(Sys(px, net, h), FaultFreeOnly);
    states, events :| ReachedBy(states, events, Sys(px, net, h), FaultFreeOnly);
    assert forall i :: 0 <= i < |events| ==> Fine(states[i], events[i], FaultFreeOnly);
  }
}
