/** The late wake-up as a whole run of the system, from its initial state: a smooth run,
    and in the end a chain with one actor twice. Up to its one step that is not timely the
    run is timely, so timely runs in which nested calls are made and answered, and in which
    handlers overtake each other, do exist. */
module LateRun {
  import opened Protocol
  import opened CallIds
  import opened S = System
  import opened SmoothRuns
  import opened Counterexamples
  import opened ThreeActors
  import opened WaitGraph
  import Invariant
  import Proxy

  // ------------------------------------------------------------------- the run

  /** 1 after its first client; the message of 3 is in its queue. */
  const ANSWERED: Node := Node(Reading, [], [], Proc(A, 1, [], [MA1], None, None, false, true, {}, [Answer(M1, K1)]))

  /** 1 after the message of 3. */
  function Settled(pc: Pc, up: seq<Frame>): Node {
    Node(pc, up, [], Proc(A, 1, [], [], None, None, false, true, {}, [Answer(M1, K1), Answer(MA1, K0)]))
  }

  /** 1 suspended in its second send. */
  function Again(pc: Pc, up: seq<Frame>): Node {
    var answers := [Answer(M1, K1), Answer(MA1, K0)];
    Node(pc, up, [], Proc(A, 2, E1, [], Some(Job(M2, [])), Some(R2), false, true, {}, answers))
  }

  lemma Opening(kind: Kind)
    ensures At(Late1(D1), Net(Busy(Reading, [], [Req(R3)], [], [], None), Fresh(B), WAITING), kind)
  {
    hide At, MakeCallId, Net, Proxy.ReadRequest, Px, Late1;
    Connects(kind);
    var px := Px(Idle(A), Idle(B), Idle(C), map[]);
    Clients(px, kind);
    LateStep1(D1, K0);
    Forwarded(px, Busy(Reading, [], [], [], [], None), Fresh(B), ASKING, kind, 3, 1, R3, Late1(D1));
  }

  /** 1 asks 2. */
  lemma FirstSend(kind: Kind)
    ensures At(Late2(C1, D1), Net(Busy(Reading, [], [Req(R3)], [], C1, Some(R1)), Fresh(B).(down := [Req(R1)]),
                                  WAITING), kind)
  {
    IdsDiffer();
    hide At, MakeCallId, Net, Proxy.ReadRequest, Late1, Late2;
    Opening(kind);
    Lists(Req(R1));
    LateStep2(C1, D1, K0);
    var a1 := Busy(Reading, [Req(R1)], [Req(R3)], [], C1, Some(R1));
    Acted(Late1(D1), Busy(Reading, [], [Req(R3)], [], [], None), Fresh(B), WAITING, kind, Act(1, true), a1);
    Forwarded(Late1(D1), a1, Fresh(B), WAITING, kind, 1, 2, R1, Late2(C1, D1));
    Resumed(Late2(C1, D1), a1.(up := [], pc := Sending(R1, 2, true, Done)), Fresh(B).(down := [Req(R1)]), WAITING,
            kind, 1);
  }

  /** 2 serves the request of 1 and the proxy writes its answer; 1 has the request of 3
      and that answer on its link. */
  lemma FirstAnswer(kind: Kind)
    ensures At(Proxy.PopChain(Late2(C1, D1), C1),
               Net(Busy(Reading, [], [Req(R3), Resp(S2)], [], C1, Some(R1)), Served(Answering(2, C1), [], []),
                   WAITING), kind)
  {
    IdsDiffer();
    hide At, MakeCallId, Net, Proxy.PopChain;
    FirstSend(kind);
    Lists(Resp(S2));
    var px := Late2(C1, D1);
    var a := Busy(Reading, [], [Req(R3)], [], C1, Some(R1));
    SecondServes(px, a, WAITING, kind);
    Replied(px, a, Served(Reading, [Resp(S2)], []), WAITING, kind, 2, 1, S2);
    assert [Req(R3)] + [Resp(S2)] == [Req(R3), Resp(S2)];
  }

  /** 1 gets both, goes on with its client and answers it. */
  lemma ClientAnswered(kind: Kind)
    ensures At(Proxy.PopChain(Late2(C1, D1), C1), Net(ANSWERED, Served(Answering(2, C1), [], []), WAITING), kind)
  {
    hide At, MakeCallId, Net, Proxy.PopChain;
    FirstAnswer(kind);
    Lists(MA1);
    Lists(Got(K0));
    Lists(Answer(M1, K1));
    assert [Req(R3), Resp(S2)][1..] == [Resp(S2)] && [Resp(S2)][1..] == [];
    var px, b := Proxy.PopChain(Late2(C1, D1), C1), Served(Answering(2, C1), [], []);
    var a1 := Busy(Reading, [], [Resp(S2)], [MA1], [], Some(R1));
    var a2 := Node(Reading, [], [], Proc(A, 1, [], [MA1], Some(Job(M1, [Got(K0)])), None, false, true, {}, []));
    Acted(px, Busy(Reading, [], [Req(R3), Resp(S2)], [], C1, Some(R1)), b, WAITING, kind, Receive(1), a1);
    Acted(px, a1, b, WAITING, kind, Receive(1), a2);
    Acted(px, a2, b, WAITING, kind, Act(1, true), ANSWERED);
  }

  lemma Late3Timely(c: Text, d: Text)
    ensures MayLetGo(Proxy.Update(Late3(c, d), 1, [], false), d)
  {
    hide Invariant.InBody;
  }

  /** The proxy reads the answer of 1 to 3 and writes it. */
  lemma SecondAnswer(kind: Kind)
    ensures At(Late3(C1, D1), Net(Settled(Answering(1, D1), []), Served(Answering(2, C1), [], []),
                                  WAITING.(down := [Resp(S1)])), kind)
  {
    IdsDiffer();
    hide At, MakeCallId, Net;
    ClientAnswered(kind);
    Lists(MA1);
    Lists(Resp(S1));
    assert [Answer(M1, K1)] + [Answer(MA1, K0)] == [Answer(M1, K1), Answer(MA1, K0)];
    LateStep3(C1, D1);
    var px, b := Proxy.PopChain(Late2(C1, D1), C1), Served(Answering(2, C1), [], []);
    assert Proxy.Chain(px, D1) == [3, 1];
    var a1 := ANSWERED.(proc := ANSWERED.proc.(queue := [], callId := D1, job := Some(Job(MA1, []))));
    hide Proxy.PopChain, Late2, Late3;
    Acted(px, ANSWERED, b, WAITING, kind, Take(1), a1);
    Acted(px, a1, b, WAITING, kind, Act(1, true), Settled(Reading, [Resp(S1)]));
    Replied(px, Settled(Reading, [Resp(S1)]), b, WAITING, kind, 1, 3, S1);
  }

  /** 1 answers 3, before the handler that answered 1 has resumed; the handler of that
      answer resumes first. Until here everything is timely. */
  lemma Overtakes(kind: Kind)
    ensures At(Late4(C1, D1), Net(Settled(Reading, []), Served(Answering(2, C1), [], []),
                                  WAITING.(down := [Resp(S1)])), kind)
  {
    IdsDiffer();
    hide At, MakeCallId, Net;
    SecondAnswer(kind);
    LateStep4(C1, D1);
    Late3Timely(C1, D1);
    hide Proxy.Update, MayLetGo;
    LetGo(Late3(C1, D1), Settled(Answering(1, D1), []), Served(Answering(2, C1), [], []),
          WAITING.(down := [Resp(S1)]), kind, 1, D1, 3);
  }

  /** The second client of 1 arrives, and 1 asks again. */
  lemma AsksAgain(a: Node, a1: Node, a2: Node)
    requires a == Settled(Reading, []) && a1 == a.(proc := a.proc.(queue := [M2]))
    requires a2 == a.(proc := a.proc.(job := Some(Job(M2, []))))
    ensures CanDo(a, Arrive(1, M2), a1) && CanDo(a1, Take(1), a2)
    ensures CanDo(a2, Act(1, true), Again(Reading, [Req(R2)]))
  {
    hide MakeCallId;
    Lists(M2);
    Lists(Req(R2));
  }

  lemma SecondCall()
    ensures At(Late4(C1, D1), Net(Again(Reading, [Req(R2)]), Served(Answering(2, C1), [], []),
                                  WAITING.(down := [Resp(S1)])), SmoothOnly)
  {
    hide At, MakeCallId, Net, CanDo, Again, Served;
    Overtakes(SmoothOnly);
    var px, b, c := Late4(C1, D1), Served(Answering(2, C1), [], []), WAITING.(down := [Resp(S1)]);
    var a := Settled(Reading, []);
    var a1 := a.(proc := a.proc.(queue := [M2]));
    var a2 := a.(proc := a.proc.(job := Some(Job(M2, []))));
    AsksAgain(a, a1, a2);
    Acted(px, a, b, c, SmoothOnly, Arrive(1, M2), a1);
    Acted(px, a1, b, c, SmoothOnly, Take(1), a2);
    Acted(px, a2, b, c, SmoothOnly, Act(1, true), Again(Reading, [Req(R2)]));
  }

  lemma SecondSend()
    ensures At(Late6(C1, D1, E1),
               Net(Again(Sending(R2, 2, true, Done), []), Served(Reading, [], [Req(R2)]),
                   WAITING.(down := [Resp(S1)])), SmoothOnly)
  {
    IdsDiffer();
    hide At, MakeCallId, Net, Proxy.ReadRequest;
    SecondCall();
    Lists(Req(R2));
    LateStep5(C1, D1, E1, K2);
    LateStep6(C1, D1, E1);
    hide Proxy.Update;
    var px, b, c := Late4(C1, D1), Served(Answering(2, C1), [], []), WAITING.(down := [Resp(S1)]);
    Forwarded(px, Again(Reading, [Req(R2)]), b, c, SmoothOnly, 1, 2, R2, Late5(C1, D1, E1));
    LetGo(Late5(C1, D1, E1), Again(Sending(R2, 2, true, Done), []), b.(down := [Req(R2)]), c, SmoothOnly, 2, C1, 1);
  }

  /** 2 serves that request and asks 1: the chain has 1 twice. */
  lemma Circle() returns (px: Proxy.State, net: map<nat, Node>)
    ensures At(px, net, SmoothOnly) && Proxy.Chain(px, E1) == [1, 2, 1]
  {
    IdsDiffer();
    hide At, MakeCallId, Net, Proxy.ReadRequest;
    SecondSend();
    Lists(MB2);
    Lists(Req(R2));
    Lists(Req(R4));
    LateStep7(C1, D1, E1, K0);
    var py, c := Late6(C1, D1, E1), WAITING.(down := [Resp(S1)]);
    var a := Again(Sending(R2, 2, true, Done), []);
    var b0 := Served(Reading, [], []);
    var b1 := b0.(proc := b0.proc.(queue := [MB2]));
    var b2 := b0.(proc := b0.proc.(callId := E1, job := Some(Job(MB2, []))));
    var b3 := b0.(up := [Req(R4)], proc := b2.proc.(wait := Some(R4)));
    Acted(py, a, Served(Reading, [], [Req(R2)]), c, SmoothOnly, Receive(2), b1);
    Acted(py, a, b1, c, SmoothOnly, Take(2), b2);
    Acted(py, a, b2, c, SmoothOnly, Act(2, true), b3);
    px := Proxy.ReadRequest(OWNER, py, R4).0;
    Forwarded(py, a, b3, c, SmoothOnly, 2, 1, R4, px);
    net := Put2(a, b3, c, 2, b3.(up := [], pc := Sending(R4, 1, true, Done)), 1, a.(down := [Req(R4)]));
  }

  /** Smooth is not enough for circular calls to be cut off: a run of the system in which
      no request is cached, every write succeeds and few ids are made ends with a chain
      on which one actor appears twice, so that 1 and 2 wait for each other. */
  lemma SmoothIsNotEnough() returns (states: seq<Sys>, events: seq<Event>, c: Text)
    ensures IndexAgrees(ENV.cfg) && SmoothRun(ENV, states, events)
    ensures forall i :: 0 <= i < |events| ==> Written(events[i])
    ensures var px := states[|events|].px; Proxy.Chain(px, c) == [1, 2, 1] && LinkOn(px, c, 1, 2) && LinkOn(px, c, 2, 1)
  {
    IndexFits();
    var px, net := Circle();
    c := E1;
    var ch := Proxy.Chain(px, c);
    assert ch[0] == 1 && ch[0 + 1] == 2 && ch[1] == 2 && ch[1 + 1] == 1;
    var h :| Reached(Sys(px, net, h), SmoothOnly);
    states, events :| ReachedBy(states, events, Sys(px, net, h), SmoothOnly);
    hide Enabled, Apply, Direct, FaultFree, Written, NoWrap, MakeCallId;
    assert forall i :: 0 <= i < |events| ==> Fine(states[i], events[i], SmoothOnly);
  }

  /** Timely runs exist in which nested calls are answered, and in which a response is
      read from an actor whose own answer is still being written: in this one a service
      of 1 has got the answer of 2, and 1 has answered its client and then 3. */
  lemma TimelyRunsExist() returns (states: seq<Sys>, events: seq<Event>)
    ensures IndexAgrees(ENV.cfg) && TimelyRun(ENV, states, events)
    ensures var net := states[|events|].net;
            && 1 in net && net[1].proc.answers == [Answer(M1, K1), Answer(MA1, K0)]
            && 2 in net && net[2].pc == Answering(2, C1)
  {
    IndexFits();
    Overtakes(TimelyOnly);
    hide Enabled, Apply, Direct, FaultFree, Written, NoWrap, Timely, MakeCallId, Late4;
    var px := Late4(C1, D1);
    var net := Net(Settled(Reading, []), Served(Answering(2, C1), [], []), WAITING.(down := [Resp(S1)]));
    var h :| Reached(Sys(px, net, h), TimelyOnly);
    states, events :| ReachedBy(states, events, Sys(px, net, h), TimelyOnly);
    assert forall i :: 0 <= i < |events| ==> Fine(states[i], events[i], TimelyOnly);
  }
}
