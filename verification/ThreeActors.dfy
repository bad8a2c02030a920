/** A system of three actor processes, one for each of the nodes A, B and C, and the
    steps that runs of it are put together from. */
module ThreeActors {
  import opened Protocol
  import opened CallIds
  import opened S = System
  import opened SmoothRuns
  import opened Counterexamples
  import Proxy

  // ------------------------------------------------------------------ the system

  const K0: Pack := Pack(0, [])
  const K1: Pack := Pack(1, [])
  const K2: Pack := Pack(2, [])

  /** Kind 0 is answered at once. Otherwise A asks B, and B and C ask A, and then the
      answer is the request. */
  function Program(service: Text, arg: Pack, replies: seq<Reply>): Action {
    if arg.kind == 0 || replies != [] then Return(arg)
    else if service == A then Call(B, if arg.kind == 1 then K0 else K2)
    else Call(A, K0)
  }

  const ENV: Env := Env(Config(OWNER, map[A := {A}, B := {B}, C := {C}]), (s, a, r) => Program(s, a, r))

  lemma IndexFits()
    ensures IndexAgrees(ENV.cfg)
  {
    assert A != B && B != C && A != C;
  }

  function Net(a: Node, b: Node, c: Node): map<nat, Node> {
    map[1 := a, 2 := b, 3 := c]
  }

  function Fresh(name: Text): Node {
    Node(Reading, [], [], Proc(name, 0, [], [], None, None, false, true, {}, []))
  }

  // ------------------------------------------------------------------- reaching

  /** What is asked of a run besides that all its writes succeed. */
  datatype Kind = FaultFreeOnly | SmoothOnly | TimelyOnly

  /** A state that a run of that kind reaches. */
  ghost predicate Reached(s: Sys, kind: Kind) {
    exists states, events :: ReachedBy(states, events, s, kind)
  }

  /** The writes that the step starts, those of the actors too, succeed. */
  predicate Written(e: Event) {
    e.Act? || e.ReadUp? || e.Resume? ==> e.ok
  }

  ghost predicate Fine(s: Sys, e: Event, kind: Kind) {
    && Enabled(ENV, s, e) && FaultFree(e) && Written(e) && NoWrap(s, e)
    && (!kind.FaultFreeOnly? ==> Direct(ENV, s, e)) && (kind.TimelyOnly? ==> Timely(s, e))
  }

  ghost predicate ReachedBy(states: seq<Sys>, events: seq<Event>, s: Sys, kind: Kind) {
    && Run(ENV, states, events) && states[|events|] == s
    && forall i :: 0 <= i < |events| ==> Fine(states[i], events[i], kind)
  }

  lemma Start(kind: Kind)
    ensures Reached(Init, kind)
  {
    assert ReachedBy([Init], [], Init, kind);
  }

  lemma GoOn(s: Sys, e: Event, kind: Kind)
    requires Reached(s, kind) && Fine(s, e, kind)
    ensures Reached(Apply(ENV, s, e), kind)
  {
    hide Enabled, Apply, Direct, FaultFree, Written, NoWrap, Timely;
    var states, events :| ReachedBy(states, events, s, kind);
    var t := Apply(ENV, s, e);
    var more, longer := states + [t], events + [e];
    forall i | 0 <= i < |longer|
      ensures Fine(more[i], longer[i], kind) && more[i + 1] == Apply(ENV, more[i], longer[i]) {
      if i < |events| {
        assert more[i] == states[i] && more[i + 1] == states[i + 1] && longer[i] == events[i];
        assert Fine(states[i], events[i], kind);
      }
    }
    assert ReachedBy(more, longer, t, kind);
  }

  /** Such a state, whatever its history. */
  ghost predicate At(px: Proxy.State, net: map<nat, Node>, kind: Kind) {
    exists h :: Reached(Sys(px, net, h), kind)
  }

  ghost predicate Leads(s: Sys, e: Event, kind: Kind, py: Proxy.State, ny: map<nat, Node>) {
    Fine(s, e, kind) && Apply(ENV, s, e).px == py && Apply(ENV, s, e).net == ny
  }

  /** A step whose effect does not depend on the history. */
  lemma Moves(px: Proxy.State, net: map<nat, Node>, kind: Kind, e: Event, py: Proxy.State, ny: map<nat, Node>)
    requires At(px, net, kind) && forall h :: Leads(Sys(px, net, h), e, kind, py, ny)
    ensures At(py, ny, kind)
  {
    hide Apply, Reached, Direct, FaultFree, NoWrap, Timely, Enabled;
    var h :| Reached(Sys(px, net, h), kind);
    assert Leads(Sys(px, net, h), e, kind, py, ny);
    GoOn(Sys(px, net, h), e, kind);
    assert Apply(ENV, Sys(px, net, h), e) == Sys(py, ny, Apply(ENV, Sys(px, net, h), e).hist);
  }

  // ------------------------------------------------------------------ the moves

  lemma Joins(px: Proxy.State, net: map<nat, Node>, kind: Kind, p: nat, name: Text)
    requires At(px, net, kind) && p !in net && name in ENV.cfg.services
    ensures At(Proxy.Connect(px, p, name), net[p := Fresh(name)], kind)
  {
    hide At, Proxy.Connect;
    Moves(px, net, kind, Connect(p, name), Proxy.Connect(px, p, name), net[p := Fresh(name)]);
  }

  lemma Arrives(px: Proxy.State, net: map<nat, Node>, kind: Kind, p: nat, msg: Msg)
    requires At(px, net, kind) && p in net && msg.origin.Tcp? && msg.callId == []
    ensures At(px, net[p := net[p].(proc := net[p].proc.(queue := net[p].proc.queue + [msg]))], kind)
  {
    hide At;
    Moves(px, net, kind, Arrive(p, msg), px,
          net[p := net[p].(proc := net[p].proc.(queue := net[p].proc.queue + [msg]))]);
  }

  lemma Takes(px: Proxy.State, net: map<nat, Node>, kind: Kind, p: nat)
    requires At(px, net, kind) && p in net && net[p].proc.job.None? && net[p].proc.queue != []
    ensures At(px, net[p := TakeNode(ENV, net[p])], kind)
  {
    hide At, TakeNode;
    Moves(px, net, kind, Take(p), px, net[p := TakeNode(ENV, net[p])]);
  }

  lemma Receives(px: Proxy.State, net: map<nat, Node>, kind: Kind, p: nat)
    requires At(px, net, kind) && p in net && net[p].proc.linked && net[p].down != []
    ensures At(px, net[p := ReceiveNode(net[p])], kind)
  {
    hide At, ReceiveNode;
    Moves(px, net, kind, Receive(p), px, net[p := ReceiveNode(net[p])]);
  }

  lemma Acts(px: Proxy.State, net: map<nat, Node>, kind: Kind, p: nat)
    requires At(px, net, kind) && p in net && net[p].proc.job.Some? && net[p].proc.wait.None? && net[p].proc.linked
    requires net[p].proc.seq_ < 10
    ensures At(px, net[p := ActNode(ENV, p, net[p], true)], kind)
  {
    hide At, ActNode;
    Moves(px, net, kind, Act(p, true), px, net[p := ActNode(ENV, p, net[p], true)]);
  }

  /** `q` has been sent `r`, and the handler of `p` is in that write. */
  function SendingNet(net: map<nat, Node>, p: nat, q: nat, r: Request): map<nat, Node>
    requires p in net && q in net
  {
    net[q := net[q].(down := net[q].down + [Req(r)])][p := net[p].(up := [], pc := Sending(r, q, true, Done))]
  }

  lemma AsksIs(px: Proxy.State, net: map<nat, Node>, p: nat, q: nat, r: Request, py: Proxy.State, h: History,
               kind: Kind)
    requires p in net && q in net && p != q && net[p].up == [Req(r)] && net[p].pc.Reading? && r.pid == p
    requires Proxy.ReadRequest(OWNER, px, r) == (py, Proxy.Sent(r, q))
    ensures Leads(Sys(px, net, h), ReadUp(p, true), kind, py, SendingNet(net, p, q, r))
  {
    hide Proxy.ReadRequest;
    assert Outcomes(ENV, Sys(px, net, h), ReadUp(p, true)) == [Proxy.Sent(r, q)];
    assert [Req(r)][1..] == [];
  }

  /** The proxy reads a request and sends it on to `q`. */
  lemma Asks(px: Proxy.State, net: map<nat, Node>, kind: Kind, p: nat, q: nat, r: Request, py: Proxy.State)
    requires At(px, net, kind) && p in net && q in net && p != q
    requires net[p].up == [Req(r)] && net[p].pc.Reading? && r.pid == p
    requires Proxy.ReadRequest(OWNER, px, r) == (py, Proxy.Sent(r, q))
    ensures At(py, SendingNet(net, p, q, r), kind)
  {
    hide *;
    var ny := SendingNet(net, p, q, r);
    forall h ensures Leads(Sys(px, net, h), ReadUp(p, true), kind, py, ny) {
      AsksIs(px, net, p, q, r, py, h, kind);
    }
    Moves(px, net, kind, ReadUp(p, true), py, ny);
  }

  /** `a` has been written the response of `b`, whose handler is in that write. */
  function AnsweringNet(net: map<nat, Node>, b: nat, a: nat, r: Response): map<nat, Node>
    requires a in net && b in net
  {
    net[a := net[a].(down := net[a].down + [Resp(r)])][b := net[b].(up := [], pc := Answering(b, r.callId))]
  }

  lemma RepliesIs(px: Proxy.State, net: map<nat, Node>, b: nat, a: nat, r: Response, h: History, kind: Kind)
    requires a in net && b in net && a != b && net[b].up == [Resp(r)] && net[b].pc.Reading?
    requires Proxy.Chain(px, r.callId) == [a, b]
    ensures Leads(Sys(px, net, h), ReadUp(b, true), kind, Proxy.PopChain(px, r.callId), AnsweringNet(net, b, a, r))
  {
    hide Proxy.PopChain;
    assert [Resp(r)][1..] == [];
  }

  /** The proxy reads the response of `b` and writes it to `a`. */
  lemma Replies(px: Proxy.State, net: map<nat, Node>, kind: Kind, b: nat, a: nat, r: Response)
    requires At(px, net, kind) && a in net && b in net && a != b && net[b].up == [Resp(r)] && net[b].pc.Reading?
    requires Proxy.Chain(px, r.callId) == [a, b]
    ensures At(Proxy.PopChain(px, r.callId), AnsweringNet(net, b, a, r), kind)
  {
    hide *;
    var ny := AnsweringNet(net, b, a, r);
    forall h ensures Leads(Sys(px, net, h), ReadUp(b, true), kind, Proxy.PopChain(px, r.callId), ny) {
      RepliesIs(px, net, b, a, r, h, kind);
    }
    Moves(px, net, kind, ReadUp(b, true), Proxy.PopChain(px, r.callId), ny);
  }

  /** The write of a request is over. */
  lemma Resumes(px: Proxy.State, net: map<nat, Node>, kind: Kind, p: nat)
    requires At(px, net, kind) && p in net && net[p].pc.Sending? && net[p].pc.ok && net[p].pc.after.Done?
    ensures At(px, net[p := net[p].(pc := Reading)], kind)
  {
    hide At;
    Moves(px, net, kind, Resume(p, true), px, net[p := net[p].(pc := Reading)]);
  }

  lemma LetsGoIs(px: Proxy.State, net: map<nat, Node>, g: nat, c: Text, a: nat, h: History, kind: Kind)
    requires g in net && net[g].pc == Answering(g, c) && Proxy.Chain(px, c) == [a] && a != g
    requires g in px.infos && px.infos[g].queue == [] && a in px.infos && px.infos[a].queue == []
    requires kind.TimelyOnly? ==> MayLetGo(Proxy.Update(px, g, [], false), c)
    ensures Leads(Sys(px, net, h), Resume(g, true), kind, Proxy.Update(Proxy.Update(px, g, [], false), a, c, false),
                  net[g := net[g].(pc := Reading)])
  {
    var px1 := Proxy.Update(px, g, [], false);
    assert Proxy.Dispatch(OWNER, px1, g) == (px1, Proxy.Quiet);
    assert Proxy.Chain(px1, c) == [a];
    var px2 := Proxy.Update(px1, a, c, false);
    assert Proxy.Dispatch(OWNER, px2, a) == (px2, Proxy.Quiet);
    hide Proxy.Update, Proxy.Dispatch, MayLetGo;
    assert Outcomes(ENV, Sys(px, net, h), Resume(g, true)) == [Proxy.Quiet, Proxy.Quiet];
  }

  /** The write of a response is over: its sender and the end of the chain are let go. */
  lemma LetsGo(px: Proxy.State, net: map<nat, Node>, kind: Kind, g: nat, c: Text, a: nat)
    requires At(px, net, kind) && g in net && net[g].pc == Answering(g, c) && Proxy.Chain(px, c) == [a] && a != g
    requires g in px.infos && px.infos[g].queue == [] && a in px.infos && px.infos[a].queue == []
    requires kind.TimelyOnly? ==> MayLetGo(Proxy.Update(px, g, [], false), c)
    ensures At(Proxy.Update(Proxy.Update(px, g, [], false), a, c, false), net[g := net[g].(pc := Reading)], kind)
  {
    hide *;
    var py, ny := Proxy.Update(Proxy.Update(px, g, [], false), a, c, false), net[g := net[g].(pc := Reading)];
    forall h ensures Leads(Sys(px, net, h), Resume(g, true), kind, py, ny) {
      LetsGoIs(px, net, g, c, a, h, kind);
    }
    Moves(px, net, kind, Resume(g, true), py, ny);
  }

  // ------------------------------------------------------------------- the run

  /** The call ids in the order in which the processes make them. */
  const C1: Text := MakeCallId(1, 1)
  const D1: Text := MakeCallId(3, 1)
  const E1: Text := MakeCallId(1, 2)

  lemma IdsDiffer()
    ensures C1 != D1 && D1 != E1 && C1 != E1
  {
    if C1 == D1 { MakeCallIdInjective(1, 1, 3, 1); }
    if D1 == E1 { MakeCallIdInjective(3, 1, 1, 2); }
    if C1 == E1 { MakeCallIdInjective(1, 1, 1, 2); }
  }

  const M1: Msg := Msg(A, [], K1, Tcp(0))
  const M2: Msg := Msg(A, [], K2, Tcp(1))
  const M3: Msg := Msg(C, [], K1, Tcp(0))
  const R1: Request := Request(1, C1, B, K0)
  const R2: Request := Request(1, E1, B, K2)
  const R3: Request := Request(3, D1, A, K0)
  const R4: Request := Request(2, E1, A, K0)

  /** 3 serves its client and has sent its request. */
  const ASKING: Node :=
    Node(Reading, [Req(R3)], [], Proc(C, 1, D1, [], Some(Job(M3, [])), Some(R3), false, true, {}, []))

  /** 1 serves its first client; `up` and `down` are its links. */
  function Busy(pc: Pc, up: seq<Frame>, down: seq<Frame>, queue: seq<Msg>, c: Text, wait: Option<Request>): Node {
    Node(pc, up, down, Proc(A, if wait.Some? then 1 else 0, c, queue, Some(Job(M1, [])), wait, false, true, {}, []))
  }

  // ------------------------------------------------ steps of the three processes

  function Pick(a: Node, b: Node, c: Node, p: nat): Node {
    if p == 1 then a else if p == 2 then b else c
  }

  function Put(a: Node, b: Node, c: Node, p: nat, m: Node): map<nat, Node> {
    Net(if p == 1 then m else a, if p == 2 then m else b, if p == 3 then m else c)
  }

  lemma PutIs(a: Node, b: Node, c: Node, p: nat, m: Node)
    requires 1 <= p <= 3
    ensures p in Net(a, b, c) && Net(a, b, c)[p] == Pick(a, b, c, p) && Net(a, b, c)[p := m] == Put(a, b, c, p, m)
  {
  }

  /** A process may do `e`, and is `m` afterwards. */
  ghost predicate CanDo(n: Node, e: Event, m: Node) {
    match e
    case Arrive(_, msg) =>
      msg.origin.Tcp? && msg.callId == [] && m == n.(proc := n.proc.(queue := n.proc.queue + [msg]))
    case Receive(_) => n.proc.linked && n.down != [] && m == ReceiveNode(n)
    case Take(_) => n.proc.job.None? && n.proc.queue != [] && m == TakeNode(ENV, n)
    case Act(p, ok) =>
      ok && n.proc.job.Some? && n.proc.wait.None? && n.proc.linked && n.proc.seq_ < 10 && m == ActNode(ENV, p, n, true)
    case _ => false
  }

  lemma Acted(px: Proxy.State, a: Node, b: Node, c: Node, kind: Kind, e: Event, m: Node)
    requires At(px, Net(a, b, c), kind) && 1 <= e.p <= 3 && CanDo(Pick(a, b, c, e.p), e, m)
    ensures At(px, Put(a, b, c, e.p, m), kind)
  {
    PutIs(a, b, c, e.p, m);
    hide At, Net, Put, Pick, ReceiveNode, TakeNode, ActNode;
    match e
    case Arrive(p, msg) => Arrives(px, Net(a, b, c), kind, p, msg);
    case Receive(p) => Receives(px, Net(a, b, c), kind, p);
    case Take(p) => Takes(px, Net(a, b, c), kind, p);
    case Act(p, _) => Acts(px, Net(a, b, c), kind, p);
    case _ =>
  }

  lemma Lists<T>(x: T)
    ensures [] + [x] == [x] && [x][1..] == []
  {
  }

  lemma ClientOfOne(a1: Node)
    requires a1 == Fresh(A).(proc := Fresh(A).proc.(queue := [M1]))
    ensures CanDo(Fresh(A), Arrive(1, M1), a1) && CanDo(a1, Take(1), Busy(Reading, [], [], [], [], None))
  {
    Lists(M1);
  }

  lemma ClientOfThree(c1: Node, c2: Node)
    requires c1 == Fresh(C).(proc := Fresh(C).proc.(queue := [M3]))
    requires c2 == Fresh(C).(proc := Fresh(C).proc.(job := Some(Job(M3, []))))
    ensures CanDo(Fresh(C), Arrive(3, M3), c1) && CanDo(c1, Take(3), c2) && CanDo(c2, Act(3, true), ASKING)
  {
    hide MakeCallId;
    Lists(M3);
    Lists(Req(R3));
  }

  /** The clients of 1 and 3 arrive, and 3 sends. */
  lemma Clients(px: Proxy.State, kind: Kind)
    requires At(px, Net(Fresh(A), Fresh(B), Fresh(C)), kind)
    ensures At(px, Net(Busy(Reading, [], [], [], [], None), Fresh(B), ASKING), kind)
  {
    hide At, MakeCallId, Net, CanDo, Busy;
    var a1 := Fresh(A).(proc := Fresh(A).proc.(queue := [M1]));
    var a2 := Busy(Reading, [], [], [], [], None);
    var c1 := Fresh(C).(proc := Fresh(C).proc.(queue := [M3]));
    var c2 := Fresh(C).(proc := Fresh(C).proc.(job := Some(Job(M3, []))));
    ClientOfOne(a1);
    ClientOfThree(c1, c2);
    Acted(px, Fresh(A), Fresh(B), Fresh(C), kind, Arrive(1, M1), a1);
    Acted(px, a1, Fresh(B), Fresh(C), kind, Take(1), a2);
    Acted(px, a2, Fresh(B), Fresh(C), kind, Arrive(3, M3), c1);
    Acted(px, a2, Fresh(B), c1, kind, Take(3), c2);
    Acted(px, a2, Fresh(B), c2, kind, Act(3, true), ASKING);
  }

  function Put2(a: Node, b: Node, c: Node, p: nat, m: Node, q: nat, n: Node): map<nat, Node> {
    Net(if p == 1 then m else if q == 1 then n else a,
        if p == 2 then m else if q == 2 then n else b,
        if p == 3 then m else if q == 3 then n else c)
  }

  lemma Put2Is(a: Node, b: Node, c: Node, p: nat, m: Node, q: nat, n: Node)
    requires 1 <= p <= 3 && 1 <= q <= 3 && p != q
    ensures Net(a, b, c)[q := n][p := m] == Put2(a, b, c, p, m, q, n)
  {
  }

  /** The proxy sends the request of `p` on to `q`. */
  lemma Forwarded(px: Proxy.State, a: Node, b: Node, c: Node, kind: Kind, p: nat, q: nat, r: Request, py: Proxy.State)
    requires At(px, Net(a, b, c), kind) && 1 <= p <= 3 && 1 <= q <= 3 && p != q && r.pid == p
    requires Pick(a, b, c, p).up == [Req(r)] && Pick(a, b, c, p).pc.Reading? && Pick(a, b, c, q).down == []
    requires Proxy.ReadRequest(OWNER, px, r) == (py, Proxy.Sent(r, q))
    ensures At(py, Put2(a, b, c, p, Pick(a, b, c, p).(up := [], pc := Sending(r, q, true, Done)),
                        q, Pick(a, b, c, q).(down := [Req(r)])), kind)
  {
    hide At, Net, Put, Put2, Pick, Proxy.ReadRequest;
    Lists(Req(r));
    PutIs(a, b, c, p, a);
    PutIs(a, b, c, q, a);
    var m, n := Pick(a, b, c, p).(up := [], pc := Sending(r, q, true, Done)), Pick(a, b, c, q).(down := [Req(r)]);
    Put2Is(a, b, c, p, m, q, n);
    Asks(px, Net(a, b, c), kind, p, q, r, py);
  }

  /** The proxy writes the response of `p` to `q`. */
  lemma Replied(px: Proxy.State, a: Node, b: Node, c: Node, kind: Kind, p: nat, q: nat, r: Response)
    requires At(px, Net(a, b, c), kind) && 1 <= p <= 3 && 1 <= q <= 3 && p != q
    requires Pick(a, b, c, p).up == [Resp(r)] && Pick(a, b, c, p).pc.Reading? && Proxy.Chain(px, r.callId) == [q, p]
    ensures At(Proxy.PopChain(px, r.callId),
               Put2(a, b, c, p, Pick(a, b, c, p).(up := [], pc := Answering(p, r.callId)),
                    q, Pick(a, b, c, q).(down := Pick(a, b, c, q).down + [Resp(r)])), kind)
  {
    hide At, Net, Put, Put2, Pick, Proxy.PopChain, Proxy.Chain;
    PutIs(a, b, c, p, a);
    PutIs(a, b, c, q, a);
    var m := Pick(a, b, c, p).(up := [], pc := Answering(p, r.callId));
    Put2Is(a, b, c, p, m, q, Pick(a, b, c, q).(down := Pick(a, b, c, q).down + [Resp(r)]));
    Replies(px, Net(a, b, c), kind, p, q, r);
  }

  /** The handler of `p` resumes after a request. */
  lemma Resumed(px: Proxy.State, a: Node, b: Node, c: Node, kind: Kind, p: nat)
    requires At(px, Net(a, b, c), kind) && 1 <= p <= 3
    requires Pick(a, b, c, p).pc.Sending? && Pick(a, b, c, p).pc.ok && Pick(a, b, c, p).pc.after.Done?
    ensures At(px, Put(a, b, c, p, Pick(a, b, c, p).(pc := Reading)), kind)
  {
    hide At, Net, Put, Pick;
    PutIs(a, b, c, p, Pick(a, b, c, p).(pc := Reading));
    Resumes(px, Net(a, b, c), kind, p);
  }

  /** The handler of `p` resumes after a response on call `d`, whose chain ends in `q`. */
  lemma LetGo(px: Proxy.State, a: Node, b: Node, c: Node, kind: Kind, p: nat, d: Text, q: nat)
    requires At(px, Net(a, b, c), kind) && 1 <= p <= 3 && Pick(a, b, c, p).pc == Answering(p, d)
    requires Proxy.Chain(px, d) == [q] && q != p
    requires p in px.infos && px.infos[p].queue == [] && q in px.infos && px.infos[q].queue == []
    requires kind.TimelyOnly? ==> MayLetGo(Proxy.Update(px, p, [], false), d)
    ensures At(Proxy.Update(Proxy.Update(px, p, [], false), q, d, false),
               Put(a, b, c, p, Pick(a, b, c, p).(pc := Reading)), kind)
  {
    hide At, Net, Put, Pick, Proxy.Chain, Proxy.Update;
    PutIs(a, b, c, p, Pick(a, b, c, p).(pc := Reading));
    LetsGo(px, Net(a, b, c), kind, p, d, q);
  }

  lemma Connects(kind: Kind)
    ensures At(Px(Idle(A), Idle(B), Idle(C), map[]), Net(Fresh(A), Fresh(B), Fresh(C)), kind)
  {
    Start(kind);
    assert At(Proxy.Empty, map[], kind) by {
      assert Init == Sys(Proxy.Empty, map[], Init.hist);
    }
    hide At, Reached, Proxy.Connect;
    Connected();
    Joins(Proxy.Empty, map[], kind, 1, A);
    Joins(Proxy.Connect(Proxy.Empty, 1, A), map[1 := Fresh(A)], kind, 2, B);
    assert map[1 := Fresh(A)][2 := Fresh(B)][3 := Fresh(C)] == Net(Fresh(A), Fresh(B), Fresh(C));
    Joins(Proxy.Connect(Proxy.Connect(Proxy.Empty, 1, A), 2, B), map[1 := Fresh(A)][2 := Fresh(B)], kind, 3, C);
  }

  const MB1: Msg := Msg(B, C1, K0, Unix)
  const MA1: Msg := Msg(A, D1, K0, Unix)
  const MB2: Msg := Msg(B, E1, K2, Unix)
  const S1: Response := Response(1, D1, A, K0)
  const S2: Response := Response(2, C1, B, K0)

  /** 3 from its send on. */
  const WAITING: Node := ASKING.(up := [], pc := Sending(R3, 1, true, Done))

  /** 2 after its first message. */
  function Served(pc: Pc, up: seq<Frame>, down: seq<Frame>): Node {
    Node(pc, up, down, Proc(B, 0, [], [], None, None, false, true, {}, [Answer(MB1, K0)]))
  }

  lemma AnswersRequest(b1: Node, b2: Node)
    requires b1 == Fresh(B).(proc := Fresh(B).proc.(queue := [MB1]))
    requires b2 == Fresh(B).(proc := Fresh(B).proc.(callId := C1, job := Some(Job(MB1, []))))
    ensures CanDo(Fresh(B).(down := [Req(R1)]), Receive(2), b1) && CanDo(b1, Take(2), b2)
    ensures CanDo(b2, Act(2, true), Served(Reading, [Resp(S2)], []))
  {
    hide MakeCallId;
    Lists(Req(R1));
    Lists(MB1);
    Lists(Resp(S2));
    Lists(Answer(MB1, K0));
  }

  /** 2 receives the request of 1 and answers it. */
  lemma SecondServes(px: Proxy.State, a: Node, c: Node, kind: Kind)
    requires At(px, Net(a, Fresh(B).(down := [Req(R1)]), c), kind)
    ensures At(px, Net(a, Served(Reading, [Resp(S2)], []), c), kind)
  {
    hide At, MakeCallId, Net, CanDo, Served;
    var b1 := Fresh(B).(proc := Fresh(B).proc.(queue := [MB1]));
    var b2 := Fresh(B).(proc := Fresh(B).proc.(callId := C1, job := Some(Job(MB1, []))));
    AnswersRequest(b1, b2);
    Acted(px, a, Fresh(B).(down := [Req(R1)]), c, kind, Receive(2), b1);
    Acted(px, a, b1, c, kind, Take(2), b2);
    Acted(px, a, b2, c, kind, Act(2, true), Served(Reading, [Resp(S2)], []));
  }
}
