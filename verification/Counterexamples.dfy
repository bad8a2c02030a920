/** What goes wrong outside of smooth and of timely runs, on concrete sequences of
    proxy steps: the frame that caching pushes twice, and a wake-up at
    src/coro_actor.cpp:614 that reaches an actor it was not meant for. */
module Counterexamples {
  import opened Protocol
  import Proxy

  // ----------------------------------------------------------------- three actors

  const A: Text := [65]
  const B: Text := [66]
  const C: Text := [67]

  /** Each actor node owns the service of its own name. */
  const OWNER: map<Text, Text> := map[A := A, B := B, C := C]

  /** Processes 1, 2 and 3 of the nodes A, B and C. */
  function Px(a: Proxy.Info, b: Proxy.Info, c: Proxy.Info, chains: map<Text, seq<nat>>): Proxy.State {
    Proxy.State(map[1 := a, 2 := b, 3 := c], map[A := [1], B := [2], C := [3]], chains)
  }

  function Idle(name: Text): Proxy.Info {
    Proxy.Info(name, false, [], [])
  }

  lemma Connected()
    ensures Proxy.Connect(Proxy.Connect(Proxy.Connect(Proxy.Empty, 1, A), 2, B), 3, C)
            == Px(Idle(A), Idle(B), Idle(C), map[])
  {
    assert [] + [1] == [1] && [] + [2] == [2] && [] + [3] == [3];
    assert map[A := [1]][B := [2]][C := [3]] == map[A := [1], B := [2], C := [3]];
    assert map[1 := Idle(A)][2 := Idle(B)][3 := Idle(C)] == map[1 := Idle(A), 2 := Idle(B), 3 := Idle(C)];
  }

  /** A request of an idle process for a service of the one process `q`. */
  lemma ReadRoutes(px: Proxy.State, r: Request, q: nat)
    requires r.pid in px.infos && !px.infos[r.pid].waiting && px.infos[r.pid].queue == [] && q != r.pid
    requires r.service in OWNER && Proxy.Group(px, OWNER[r.service]) == [q] && q in px.infos
    requires px.infos[q].callId != r.callId
    ensures Proxy.ReadRequest(OWNER, px, r) == Proxy.Forward(Proxy.Root(px, r.callId, r.pid), r, q)
  {
    var px1 := Proxy.Root(px, r.callId, r.pid);
    var px2 := Proxy.Enqueue(px1, r.pid, r);
    var info := px.infos[r.pid];
    assert px1.infos == px.infos && info.queue + [r] == [r] && [r][1..] == [];
    assert Proxy.Dequeue(px2, r.pid) == px1 by {
      assert info.(queue := [r]).(queue := []) == info;
      assert px.infos[r.pid := info.(queue := [r])][r.pid := info] == px.infos;
    }
    assert Proxy.Group(px1, OWNER[r.service]) == [q] && !Proxy.Loops(px1, [q], r.callId);
    hide Proxy.Root, Proxy.Forward, Proxy.Loops, Proxy.Group, Proxy.Dequeue, Proxy.Enqueue;
    assert Proxy.Least(px1, [q]) == q;
  }

  /** The records with `p` suspended in call `c`, and `q` at work for it. */
  function Engaged(px: Proxy.State, p: nat, q: nat, c: Text): map<nat, Proxy.Info>
    requires p in px.infos && q in px.infos
  {
    px.infos[p := px.infos[p].(callId := c, waiting := true)][q := px.infos[q].(callId := c)]
  }

  /** What such a request does when `q` does not wait. */
  lemma ReadSends(px: Proxy.State, r: Request, q: nat)
    requires r.pid in px.infos && !px.infos[r.pid].waiting && px.infos[r.pid].queue == [] && q != r.pid
    requires r.service in OWNER && Proxy.Group(px, OWNER[r.service]) == [q] && q in px.infos
    requires px.infos[q].callId != r.callId && !px.infos[q].waiting
    ensures var c := r.callId;
            var chain := if c in px.chains then px.chains[c] else [r.pid];
            Proxy.ReadRequest(OWNER, px, r) ==
              (Proxy.State(Engaged(px, r.pid, q, c), px.groups, px.chains[c := chain + [q]]), Proxy.Sent(r, q))
  {
    ReadRoutes(px, r, q);
    assert px.chains[r.callId := [r.pid]][r.callId := [r.pid] + [q]] == px.chains[r.callId := [r.pid] + [q]];
    hide Proxy.ReadRequest;
  }

  /** The same, for a state written out. */
  lemma Becomes(px: Proxy.State, r: Request, q: nat, py: Proxy.State)
    requires r.pid in px.infos && !px.infos[r.pid].waiting && px.infos[r.pid].queue == [] && q != r.pid
    requires r.service in OWNER && Proxy.Group(px, OWNER[r.service]) == [q] && q in px.infos
    requires px.infos[q].callId != r.callId && !px.infos[q].waiting
    requires py.groups == px.groups
    requires py.infos == Engaged(px, r.pid, q, r.callId)
    requires py.chains == px.chains[r.callId := (if r.callId in px.chains then px.chains[r.callId] else [r.pid]) + [q]]
    ensures Proxy.ReadRequest(OWNER, px, r) == (py, Proxy.Sent(r, q))
  {
    hide Proxy.ReadRequest;
    ReadSends(px, r, q);
  }

  // -------------------------------------------------------------------- caching

  /** A cached request has its callee on the chain already; forwarded from the
      backlog it puts another frame there. So one request has two frames. */
  lemma CachedPushesTwice(owner: map<Text, Text>, px: Proxy.State, r: Request, callee: nat, pz: Proxy.State, q: nat)
    requires Proxy.Route(owner, px, r).1 == Proxy.Cached(r, callee) && callee in px.infos
    requires var py := Proxy.Route(owner, px, r).0;
             && Proxy.Chain(pz, r.callId) == Proxy.Chain(py, r.callId)
             && callee in pz.infos && pz.infos[callee].queue != [] && pz.infos[callee].queue[0] == r
    requires Proxy.Dispatch(owner, pz, callee).1 == Proxy.Sent(r, q)
    ensures var py := Proxy.Route(owner, px, r).0;
            callee in py.infos && py.infos[callee].queue == px.infos[callee].queue + [r]
    ensures Proxy.Chain(Proxy.Dispatch(owner, pz, callee).0, r.callId) == Proxy.Chain(px, r.callId) + [callee] + [q]
  {
    hide Proxy.Least, Proxy.Loops;
    assert Proxy.Route(owner, px, r) == Proxy.Forward(px, r, callee);
    assert Proxy.Chain(Proxy.Dequeue(pz, callee), r.callId) == Proxy.Chain(pz, r.callId);
    assert Proxy.Route(owner, Proxy.Dequeue(pz, callee), r) == Proxy.Forward(Proxy.Dequeue(pz, callee), r, q);
  }

  function Waits(name: Text, c: Text): Proxy.Info {
    Proxy.Info(name, true, c, [])
  }

  function Works(name: Text, c: Text): Proxy.Info {
    Proxy.Info(name, false, c, [])
  }

  /** 1 waits for 2 on `c`. */
  function Asked(c: Text): Proxy.State {
    Px(Waits(A, c), Works(B, c), Idle(C), map[c := [1, 2]])
  }

  /** And 3 for 1, behind whom its request is cached. */
  function CachedBehind(c: Text, r3: Request): Proxy.State {
    Px(Waits(A, c).(queue := [r3]), Works(B, c), Waits(C, r3.callId), map[c := [1, 2], r3.callId := [3, 1]])
  }

  /** The answer of 2 has been read and its record released. */
  function AnsweredCached(c: Text, r3: Request): Proxy.State {
    Px(Waits(A, c).(queue := [r3]), Idle(B), Waits(C, r3.callId), map[c := [1], r3.callId := [3, 1]])
  }

  lemma FirstAsk(c: Text, p: Pack)
    requires c != []
    ensures Proxy.ReadRequest(OWNER, Px(Idle(A), Idle(B), Idle(C), map[]), Request(1, c, B, p)) ==
            (Asked(c), Proxy.Sent(Request(1, c, B, p), 2))
  {
    hide Proxy.ReadRequest;
    var px := Px(Idle(A), Idle(B), Idle(C), map[]);
    assert [1] + [2] == [1, 2];
    assert Asked(c).infos == px.infos[1 := Waits(A, c)][2 := Works(B, c)];
    Becomes(px, Request(1, c, B, p), 2, Asked(c));
  }

  lemma ForwardCaches(c: Text, r3: Request)
    requires r3.pid == 3 && r3.service == A && r3.callId != c && r3.callId != []
    ensures Proxy.Forward(Proxy.Root(Asked(c), r3.callId, 3), r3, 1) == (CachedBehind(c, r3), Proxy.Cached(r3, 1))
  {
    var px := Asked(c);
    assert [3] + [1] == [3, 1] && [] + [r3] == [r3];
    assert px.chains[r3.callId := [3]][r3.callId := [3, 1]] == map[c := [1, 2], r3.callId := [3, 1]];
    assert px.infos[3 := Waits(C, r3.callId)][1 := Waits(A, c).(queue := [r3])] == CachedBehind(c, r3).infos;
  }

  lemma ReadCaches(c: Text, r3: Request)
    requires r3.pid == 3 && r3.service == A && r3.callId != c && r3.callId != []
    ensures Proxy.ReadRequest(OWNER, Asked(c), r3) == (CachedBehind(c, r3), Proxy.Cached(r3, 1))
  {
    hide Proxy.ReadRequest, Proxy.Forward, Proxy.Root;
    ForwardCaches(c, r3);
    ReadRoutes(Asked(c), r3, 1);
  }

  lemma ReadAnswer(c: Text, r3: Request)
    requires r3.callId != c
    ensures Proxy.Update(Proxy.PopChain(CachedBehind(c, r3), c), 2, [], false) == AnsweredCached(c, r3)
  {
    assert [1, 2][..1] == [1];
    assert CachedBehind(c, r3).infos[2 := Idle(B)] == AnsweredCached(c, r3).infos;
    assert CachedBehind(c, r3).chains[c := [1]] == AnsweredCached(c, r3).chains;
  }

  lemma WakeCached(c: Text, r3: Request)
    requires r3.pid == 3 && r3.service == A && r3.callId != c && r3.callId != []
    ensures var (px, out) := Proxy.Dispatch(OWNER, Proxy.Update(AnsweredCached(c, r3), 1, c, false), 1);
            && out == Proxy.Sent(r3, 1) && Proxy.Chain(px, r3.callId) == [3, 1, 1]
            && Proxy.Chain(Proxy.PopChain(px, r3.callId), r3.callId) == [3, 1]
  {
    var px := Proxy.Dequeue(Proxy.Update(AnsweredCached(c, r3), 1, c, false), 1);
    assert px == Px(Works(A, c), Idle(B), Waits(C, r3.callId), map[c := [1], r3.callId := [3, 1]]) by {
      assert [r3][1..] == [];
      assert AnsweredCached(c, r3).infos[1 := Works(A, c)]
          == map[1 := Works(A, c), 2 := Idle(B), 3 := Waits(C, r3.callId)];
    }
    assert Proxy.Group(px, A) == [1] && !Proxy.Loops(px, [1], r3.callId) && Proxy.Least(px, [1]) == 1;
    assert Proxy.Route(OWNER, px, r3) == Proxy.Forward(px, r3, 1);
    assert [3, 1] + [1] == [3, 1, 1] && [3, 1, 1][..2] == [3, 1];
  }

  /** While 1 waits for 2 on call `c`, 3 asks 1 on call `d` and is cached. Once 2 has
      answered, the chain of `d` is 3, 1, 1: the answer of 1 goes to 1, not to 3. */
  lemma CachingMisdelivers(c: Text, d: Text, p: Pack)
    requires c != d && c != [] && d != []
    ensures var px0 := Px(Idle(A), Idle(B), Idle(C), map[]);
            var (px1, out1) := Proxy.ReadRequest(OWNER, px0, Request(1, c, B, p));
            var (px2, out2) := Proxy.ReadRequest(OWNER, px1, Request(3, d, A, p));
            var px3 := Proxy.Update(Proxy.PopChain(px2, c), 2, [], false);
            var (px4, out4) := Proxy.Dispatch(OWNER, Proxy.Update(px3, 1, c, false), 1);
            && out1.Sent? && out2 == Proxy.Cached(Request(3, d, A, p), 1)
            && out4 == Proxy.Sent(Request(3, d, A, p), 1)
            && Proxy.Chain(px4, d) == [3, 1, 1]
            && Proxy.Chain(Proxy.PopChain(px4, d), d) == [3, 1]
  {
    hide *;
    var r3 := Request(3, d, A, p);
    FirstAsk(c, p);
    ReadCaches(c, r3);
    ReadAnswer(c, r3);
    WakeCached(c, r3);
  }

  // ------------------------------------------------- a wake-up that comes too late

  /** 3 waits for 1 on `d`. */
  function Late1(d: Text): Proxy.State {
    Px(Works(A, d), Idle(B), Waits(C, d), map[d := [3, 1]])
  }

  /** And 1, before it serves 3, for 2 on `c`. */
  function Late2(c: Text, d: Text): Proxy.State {
    Px(Waits(A, c), Works(B, c), Waits(C, d), map[d := [3, 1], c := [1, 2]])
  }

  /** 2 has answered on `c`, and 1 on `d`; neither handler has resumed. */
  function Late3(c: Text, d: Text): Proxy.State {
    Px(Waits(A, c), Works(B, c), Waits(C, d), map[d := [3], c := [1]])
  }

  /** The handler of 1 has resumed. */
  function Late4(c: Text, d: Text): Proxy.State {
    Px(Idle(A), Works(B, c), Works(C, d), map[d := [3], c := [1]])
  }

  /** 1 waits for 2 again, on `e`. */
  function Late5(c: Text, d: Text, e: Text): Proxy.State {
    Px(Waits(A, e), Works(B, e), Works(C, d), map[d := [3], c := [1], e := [1, 2]])
  }

  /** The handler of 2 has resumed. */
  function Late6(c: Text, d: Text, e: Text): Proxy.State {
    Px(Works(A, c), Idle(B), Works(C, d), map[d := [3], c := [1], e := [1, 2]])
  }

  lemma LateStep1(d: Text, p: Pack)
    requires d != []
    ensures Proxy.ReadRequest(OWNER, Px(Idle(A), Idle(B), Idle(C), map[]), Request(3, d, A, p)) ==
            (Late1(d), Proxy.Sent(Request(3, d, A, p), 1))
  {
    hide Proxy.ReadRequest;
    var px := Px(Idle(A), Idle(B), Idle(C), map[]);
    assert [3] + [1] == [3, 1];
    assert Late1(d).infos == px.infos[3 := Waits(C, d)][1 := Works(A, d)];
    Becomes(px, Request(3, d, A, p), 1, Late1(d));
  }

  lemma LateStep2(c: Text, d: Text, p: Pack)
    requires c != d && c != []
    ensures Proxy.ReadRequest(OWNER, Late1(d), Request(1, c, B, p)) == (Late2(c, d), Proxy.Sent(Request(1, c, B, p), 2))
  {
    hide Proxy.ReadRequest;
    assert [1] + [2] == [1, 2];
    assert Late2(c, d).infos == Late1(d).infos[1 := Waits(A, c)][2 := Works(B, c)];
    Becomes(Late1(d), Request(1, c, B, p), 2, Late2(c, d));
  }

  lemma LateStep3(c: Text, d: Text)
    requires c != d
    ensures Proxy.PopChain(Proxy.PopChain(Late2(c, d), c), d) == Late3(c, d)
  {
    assert [1, 2][..1] == [1] && [3, 1][..1] == [3];
    assert Late2(c, d).chains[c := [1]][d := [3]] == Late3(c, d).chains;
  }

  lemma LateStep4(c: Text, d: Text)
    ensures Proxy.Update(Proxy.Update(Late3(c, d), 1, [], false), 3, d, false) == Late4(c, d)
  {
    assert Late3(c, d).infos[1 := Idle(A)][3 := Works(C, d)] == Late4(c, d).infos;
  }

  lemma LateStep5(c: Text, d: Text, e: Text, p: Pack)
    requires c != d && d != e && c != e && e != []
    ensures var r := Request(1, e, B, p);
            Proxy.ReadRequest(OWNER, Late4(c, d), r) == (Late5(c, d, e), Proxy.Sent(r, 2))
  {
    hide Proxy.ReadRequest;
    assert [1] + [2] == [1, 2];
    assert Late5(c, d, e).infos == Late4(c, d).infos[1 := Waits(A, e)][2 := Works(B, e)];
    assert Late5(c, d, e).chains == Late4(c, d).chains[e := [1, 2]];
    Becomes(Late4(c, d), Request(1, e, B, p), 2, Late5(c, d, e));
  }

  lemma LateStep6(c: Text, d: Text, e: Text)
    ensures Proxy.Update(Proxy.Update(Late5(c, d, e), 2, [], false), 1, c, false) == Late6(c, d, e)
  {
    assert Late5(c, d, e).infos[2 := Idle(B)][1 := Works(A, c)] == Late6(c, d, e).infos;
  }

  lemma LateStep7(c: Text, d: Text, e: Text, p: Pack)
    requires c != d && d != e && c != e && e != []
    ensures var (px, out) := Proxy.ReadRequest(OWNER, Late6(c, d, e), Request(2, e, A, p));
            out == Proxy.Sent(Request(2, e, A, p), 1) && Proxy.Chain(px, e) == [1, 2, 1]
  {
    hide Proxy.ReadRequest;
    ReadSends(Late6(c, d, e), Request(2, e, A, p), 1);
    assert [1, 2] + [1] == [1, 2, 1];
  }

  /** Process 1 has been answered by 2 on call `c`, and that handler is suspended. 1
      goes on: it answers 3 on call `d`, is let go by that, and asks 2 on a new call
      `e`. Now the first handler resumes and lets 1 go again, on call `c`, though it
      waits on `e`: a request of 2 on `e` is not found circular. The chain of `e` is
      1, 2, 1, and 1 and 2 wait for each other. No request was cached and every write
      succeeded. */
  lemma LateWakeUpDeadlocks(c: Text, d: Text, e: Text, p: Pack)
    requires c != d && d != e && c != e && c != [] && d != [] && e != []
    ensures var px0 := Px(Idle(A), Idle(B), Idle(C), map[]);
            var (px1, out1) := Proxy.ReadRequest(OWNER, px0, Request(3, d, A, p));
            var (px2, out2) := Proxy.ReadRequest(OWNER, px1, Request(1, c, B, p));
            // 2 answers on c, then 1 on d, whose handler resumes first
            var px3 := Proxy.PopChain(Proxy.PopChain(px2, c), d);
            var px4 := Proxy.Update(Proxy.Update(px3, 1, [], false), 3, d, false);
            var (px5, out5) := Proxy.ReadRequest(OWNER, px4, Request(1, e, B, p));
            // the handler that answered on c resumes
            var px6 := Proxy.Update(Proxy.Update(px5, 2, [], false), 1, c, false);
            var (px7, out7) := Proxy.ReadRequest(OWNER, px6, Request(2, e, A, p));
            && out1.Sent? && out2.Sent? && out5.Sent? && out7.Sent?
            && px3 == Late3(c, d) && Proxy.Chain(px7, e) == [1, 2, 1]
  {
    hide *;
    LateStep1(d, p);
    LateStep2(c, d, p);
    LateStep3(c, d);
    LateStep4(c, d);
    LateStep5(c, d, e, p);
    LateStep6(c, d, e);
    LateStep7(c, d, e, p);
  }
}
