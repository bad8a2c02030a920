/** Who waits for whom. In smooth runs the waits that the proxy records never come round,
    and following them from a waiting actor ends; in timely runs every actor below the
    end of a chain is recorded as waiting, so there is no deadlock. And which steps of a
    smooth run exactly would bring one about. */
module WaitGraph {
  import opened Protocol
  import opened S = System
  import opened Invariant
  import opened ActorNodes
  import opened ReplySteps
  import opened SmoothSteps
  import opened SmoothRuns
  import opened SmoothInvariant
  import opened ResumeSteps
  import opened Moves
  import opened CutOff
  import Proxy

  /** On chain `c`, `q` was chosen for the request `p` is suspended in. */
  predicate LinkOn(px: Proxy.State, c: Text, p: nat, q: nat) {
    var ch := Proxy.Chain(px, c);
    exists i :: 0 <= i < |ch| - 1 && ch[i] == p && ch[i + 1] == q
  }

  ghost predicate Linked(px: Proxy.State, p: nat, q: nat) {
    exists c :: LinkOn(px, c, p, q)
  }

  /** `q` has answered on a chain that ends in `p`, and its handler is still suspended. */
  predicate AnsweredBy(px: Proxy.State, net: map<nat, Node>, p: nat, q: nat) {
    q in net && net[q].pc.Answering? && IsTop(px, net[q].pc.callId, p)
  }

  predicate Waiting(px: Proxy.State, p: nat) {
    p in px.infos && px.infos[p].waiting
  }

  ghost predicate Edge(s: Sys, p: nat, q: nat) {
    Linked(s.px, p, q) || AnsweredBy(s.px, s.net, p, q)
  }

  /** `p` waits for `q`: from the choice of `q` to the moment `p` is let go. */
  ghost predicate WaitsFor(s: Sys, p: nat, q: nat) {
    Waiting(s.px, p) && Edge(s, p, q)
  }

  /** From `p` to `q` it goes down: to a handler suspended in a response, or else in
      rank. */
  ghost predicate Lower(s: Sys, rank: nat -> nat, p: nat, q: nat) {
    if Responding(s.net, p) then Responding(s.net, q) && rank(p) > rank(q)
    else Responding(s.net, q) || rank(p) > rank(q)
  }

  /** Waiting goes down, so it cannot come round. */
  ghost predicate Ranked(s: Sys, rank: nat -> nat, bound: nat) {
    && (forall p :: rank(p) <= bound)
    && (forall p, q :: WaitsFor(s, p, q) ==> Lower(s, rank, p, q))
  }

  ghost predicate Acyclic(s: Sys) {
    exists rank: nat -> nat, bound: nat :: Ranked(s, rank, bound)
  }

  // -------------------------------------------------------------- single edges

  lemma LinkInBody(px: Proxy.State, c: Text, p: nat, q: nat)
    requires LinkOn(px, c, p, q)
    ensures InBody(px, c, p)
  {
  }

  /** No chain waits for an actor whose own handler is suspended in a response. */
  lemma RespondingFree(env: Env, s: Sys, p: nat)
    requires Inv(env, s) && Responding(s.net, p)
    ensures Free(s.px, p) && s.net[p].pc.callId in s.px.chains
  {
    hide Inv, Free;
    AnsweringAt(env, s, p);
  }

  lemma RespondingUnlinked(env: Env, s: Sys, p: nat, q: nat)
    requires Inv(env, s) && Responding(s.net, p)
    ensures !Linked(s.px, p, q)
  {
    RespondingFree(env, s, p);
    hide Inv, LinkOn, InBody;
    if c :| LinkOn(s.px, c, p, q) {
      LinkInBody(s.px, c, p, q);
    }
  }

  /** So from such an actor one only gets to another. */
  lemma EdgeStaysLow(env: Env, s: Sys, p: nat, q: nat)
    requires Inv(env, s) && Edge(s, p, q) && Responding(s.net, p)
    ensures Responding(s.net, q)
  {
    RespondingUnlinked(env, s, p, q);
    hide Inv, Linked;
  }

  lemma FreeUnlinked(px: Proxy.State, p: nat, q: nat)
    requires Free(px, p)
    ensures !Linked(px, p, q)
  {
    hide LinkOn, InBody;
    if c :| LinkOn(px, c, p, q) {
      LinkInBody(px, c, p, q);
    }
  }

  /** An actor that counts as waiting waits for another, unless its own handler is
      about to let it go. */
  lemma WaitingHasEdge(env: Env, s: Sys, p: nat) returns (q: nat)
    requires Inv(env, s) && Waiting(s.px, p) && !Responding(s.net, p)
    ensures WaitsFor(s, p, q) && q in s.px.infos
  {
    hide Inv, UpOK, QueueOK, DownOK, JobOK, OweOK, AnswersOK, PcOK, NoAnswer, InBody, Awaited, IsTop, Responding;
    NodeNamed(env, s, p);
    NodeAt(env, s, p);
    if Awaited(s.px, s.net, p) {
      q := AwaitedEdge(s, p);
      NodeAt(env, s, q);
    } else {
      var c :| InBody(s.px, c, p);
      q := BodyEdge(s.px, c, p);
      LinkKnown(env, s, c, p, q);
    }
  }

  lemma AwaitedEdge(s: Sys, p: nat) returns (q: nat)
    requires Awaited(s.px, s.net, p)
    ensures Edge(s, p, q) && q in s.net
  {
    hide IsTop;
    q :| q in s.net && s.net[q].pc.Answering? && IsTop(s.px, s.net[q].pc.callId, p);
    assert AnsweredBy(s.px, s.net, p, q);
  }

  lemma BodyEdge(px: Proxy.State, c: Text, p: nat) returns (q: nat)
    requires InBody(px, c, p)
    ensures LinkOn(px, c, p, q)
  {
    var ch := Proxy.Chain(px, c);
    var i :| 0 <= i < |ch| - 1 && ch[i] == p;
    q := ch[i + 1];
  }

  lemma LinkKnown(env: Env, s: Sys, c: Text, p: nat, q: nat)
    requires Inv(env, s) && LinkOn(s.px, c, p, q)
    ensures q in s.px.infos
  {
    ChainKnown(env, s, c);
    hide Inv;
  }

  // ---------------------------------------------- the chains stay as they are

  lemma StillLink(s: Sys, t: Sys, c: Text, p: nat, q: nat)
    requires StillMove(s, t) && LinkOn(t.px, c, p, q)
    ensures LinkOn(s.px, c, p, q)
  {
    hide FewerAnswering;
    var ch := Proxy.Chain(t.px, c);
    assert |ch| >= 2;
    assert Proxy.Chain(s.px, c) == ch;
  }

  lemma StillAnswering(s: Sys, t: Sys, p: nat, q: nat)
    requires StillMove(s, t) && AnsweredBy(t.px, t.net, p, q)
    requires Responding(s.net, q) ==> s.net[q].pc.callId in s.px.chains
    ensures AnsweredBy(s.px, s.net, p, q)
  {
  }

  lemma StillEdge(env: Env, s: Sys, t: Sys, p: nat, q: nat)
    requires Inv(env, s) && StillMove(s, t) && Edge(t, p, q)
    ensures Edge(s, p, q)
  {
    hide Inv, StillMove, LinkOn, AnsweredBy;
    if c :| LinkOn(t.px, c, p, q) {
      StillLink(s, t, c, p, q);
    } else {
      if Responding(s.net, q) {
        RespondingFree(env, s, q);
      }
      StillAnswering(s, t, p, q);
    }
  }

  lemma StayWaits(s: Sys, t: Sys, woken: set<nat>, p: nat)
    requires FlagsStay(s, t, woken) && Waiting(t.px, p)
    ensures Waiting(s.px, p) && (Responding(s.net, p) ==> Responding(t.net, p))
  {
    if p in s.px.infos {
      assert RecordStays(s.px, t.px, woken, p);
    }
    hide Responding;
  }

  /** Who does not wait any more goes to the bottom. */
  ghost function Sunk(px: Proxy.State, rank: nat -> nat): nat -> nat {
    p => if Waiting(px, p) then rank(p) + 1 else 0
  }

  lemma StillLower(env: Env, s: Sys, t: Sys, woken: set<nat>, rank: nat -> nat, p: nat, q: nat)
    requires Inv(env, t) && FewerAnswering(s, t) && FlagsStay(s, t, woken) && Lower(s, rank, p, q)
    requires Edge(t, p, q) && Waiting(t.px, p)
    ensures Lower(t, Sunk(t.px, rank), p, q)
  {
    StayWaits(s, t, woken, p);
    if Waiting(t.px, q) {
      StayWaits(s, t, woken, q);
    }
    assert Responding(t.net, q) ==> Responding(s.net, q);
    assert Responding(t.net, p) ==> Responding(s.net, p);
    hide Inv, FlagsStay, FewerAnswering, Edge, Responding;
    if Responding(t.net, p) {
      EdgeStaysLow(env, t, p, q);
    }
  }

  lemma StillRanked(env: Env, s: Sys, t: Sys, woken: set<nat>, rank: nat -> nat, bound: nat)
    requires Inv(env, s) && Inv(env, t) && StillMove(s, t) && FlagsStay(s, t, woken) && Ranked(s, rank, bound)
    ensures Ranked(t, Sunk(t.px, rank), bound + 1)
  {
    hide Inv, FlagsStay, FewerAnswering, Edge, Lower;
    assert FewerAnswering(s, t);
    hide StillMove;
    forall p, q | WaitsFor(t, p, q) ensures Lower(t, Sunk(t.px, rank), p, q) {
      StillEdge(env, s, t, p, q);
      StayWaits(s, t, woken, p);
      assert WaitsFor(s, p, q);
      StillLower(env, s, t, woken, rank, p, q);
    }
  }

  // --------------------------------------------------------- a callee is pushed

  lemma PushedLink(s: Sys, t: Sys, r: Request, callee: nat, c: Text, p: nat, q: nat)
    requires PushMove(s, t, r, callee) && LinkOn(t.px, c, p, q)
    ensures LinkOn(s.px, c, p, q) || (p == r.pid && q == callee)
  {
    var base := Proxy.Root(s.px, r.callId, r.pid);
    var ch := Proxy.Chain(base, r.callId);
    if c == r.callId {
      assert Proxy.Chain(t.px, c) == ch + [callee];
      var i :| 0 <= i < |ch| && (ch + [callee])[i] == p && (ch + [callee])[i + 1] == q;
      if i < |ch| - 1 {
        assert ch[i] == p && ch[i + 1] == q;
        assert Proxy.Chain(s.px, c) == ch;
      }
    } else {
      assert Proxy.Chain(t.px, c) == Proxy.Chain(s.px, c);
    }
  }

  /** A new link of the requester shows in the chain. */
  lemma NewLink(s: Sys, t: Sys, r: Request, callee: nat)
    requires PushMove(s, t, r, callee)
    ensures LinkOn(t.px, r.callId, r.pid, callee) && FewerAnswering(s, t) && r.pid != callee
  {
    var ch := Proxy.Chain(Proxy.Root(s.px, r.callId, r.pid), r.callId);
    assert Proxy.Chain(t.px, r.callId) == ch + [callee] && ch[|ch| - 1] == r.pid;
    assert (ch + [callee])[|ch| - 1] == r.pid && (ch + [callee])[|ch| - 1 + 1] == callee;
  }

  lemma PushedAnswering(s: Sys, t: Sys, r: Request, callee: nat, p: nat, q: nat)
    requires PushMove(s, t, r, callee) && AnsweredBy(t.px, t.net, p, q) && p != callee
    ensures AnsweredBy(s.px, s.net, p, q)
  {
    var base := Proxy.Root(s.px, r.callId, r.pid);
    var d := t.net[q].pc.callId;
    assert Proxy.Chain(t.px, d) == if d == r.callId then Proxy.Chain(base, d) + [callee] else Proxy.Chain(s.px, d);
    hide Proxy.Root;
  }

  lemma PushedEdge(s: Sys, t: Sys, r: Request, callee: nat, p: nat, q: nat)
    requires PushMove(s, t, r, callee) && Edge(t, p, q) && p != callee
    ensures Edge(s, p, q) || (p == r.pid && q == callee)
  {
    hide PushMove, LinkOn, AnsweredBy;
    if c :| LinkOn(t.px, c, p, q) {
      PushedLink(s, t, r, callee, c, p, q);
    } else {
      PushedAnswering(s, t, r, callee, p, q);
    }
  }

  /** All the requester gets to, but for handlers suspended in a response, is its callee. */
  lemma RequesterEdge(env: Env, s: Sys, t: Sys, woken: set<nat>, r: Request, callee: nat, q: nat)
    requires Inv(env, t) && PushMove(s, t, r, callee) && FlagsPush(s, t, woken, r, callee) && Edge(t, r.pid, q)
    ensures !Responding(t.net, r.pid) && (Responding(t.net, q) || q == callee)
  {
    NewLink(s, t, r, callee);
    FlagsPushFree(s, t, woken, r, callee);
    hide Inv, PushMove, FlagsPush, LinkOn, Free;
    if Responding(t.net, r.pid) {
      RespondingUnlinked(env, t, r.pid, callee);
    }
    if c :| LinkOn(t.px, c, r.pid, q) {
      PushedLink(s, t, r, callee, c, r.pid, q);
      FreeUnlinked(s.px, r.pid, q);
    }
  }

  lemma PushWaits(s: Sys, t: Sys, woken: set<nat>, r: Request, callee: nat, p: nat)
    requires FlagsPush(s, t, woken, r, callee) && Waiting(t.px, p) && p != r.pid
    ensures p != callee && Waiting(s.px, p) && (Responding(s.net, p) ==> Responding(t.net, p))
  {
    hide Responding, Free;
    assert RecordStays(s.px, t.px, woken, p);
  }

  lemma PushCallee(s: Sys, t: Sys, woken: set<nat>, r: Request, callee: nat)
    requires FlagsPush(s, t, woken, r, callee)
    ensures !Waiting(t.px, callee) && Waiting(t.px, r.pid)
  {
    hide Responding, Free, RecordStays;
  }

  /** The requester goes just above its callee, which does not wait. */
  ghost function Resting(px: Proxy.State, rank: nat -> nat, a: nat): nat -> nat {
    p => if p == a then 1 else if Waiting(px, p) then rank(p) + 2 else 0
  }

  lemma PushLower(env: Env, s: Sys, t: Sys, woken: set<nat>, r: Request, callee: nat, rank: nat -> nat, p: nat, q: nat)
    requires Inv(env, t) && FewerAnswering(s, t) && FlagsPush(s, t, woken, r, callee) && Lower(s, rank, p, q)
    requires Edge(t, p, q) && Waiting(t.px, p) && p != r.pid
    ensures Lower(t, Resting(t.px, rank, r.pid), p, q)
  {
    PushWaits(s, t, woken, r, callee, p);
    if Waiting(t.px, q) && q != r.pid {
      PushWaits(s, t, woken, r, callee, q);
    }
    assert Responding(t.net, q) ==> Responding(s.net, q);
    assert Responding(t.net, p) ==> Responding(s.net, p);
    hide Inv, FlagsPush, FewerAnswering, Edge, Responding;
    if Responding(t.net, p) {
      EdgeStaysLow(env, t, p, q);
    }
  }

  lemma RequesterLower(env: Env, s: Sys, t: Sys, woken: set<nat>, r: Request, callee: nat, rank: nat -> nat, q: nat)
    requires Inv(env, t) && PushMove(s, t, r, callee) && FlagsPush(s, t, woken, r, callee) && WaitsFor(t, r.pid, q)
    ensures Lower(t, Resting(t.px, rank, r.pid), r.pid, q)
  {
    hide Inv, PushMove, FlagsPush, Edge, Responding, FewerAnswering, LinkOn;
    PushCallee(s, t, woken, r, callee);
    RequesterEdge(env, s, t, woken, r, callee, q);
  }

  lemma OtherLower(env: Env, s: Sys, t: Sys, woken: set<nat>, r: Request, callee: nat, rank: nat -> nat, bound: nat,
                   p: nat, q: nat)
    requires Inv(env, t) && PushMove(s, t, r, callee) && FlagsPush(s, t, woken, r, callee) && Ranked(s, rank, bound)
    requires WaitsFor(t, p, q) && p != r.pid
    ensures Lower(t, Resting(t.px, rank, r.pid), p, q)
  {
    hide Inv, PushMove, FlagsPush, Edge, Responding, Lower, LinkOn, FewerAnswering, Waiting;
    NewLink(s, t, r, callee);
    PushWaits(s, t, woken, r, callee, p);
    PushedEdge(s, t, r, callee, p, q);
    assert WaitsFor(s, p, q);
    PushLower(env, s, t, woken, r, callee, rank, p, q);
  }

  lemma RestingBound(px: Proxy.State, rank: nat -> nat, bound: nat, a: nat)
    requires forall p :: rank(p) <= bound
    ensures forall p :: Resting(px, rank, a)(p) <= bound + 2
  {
  }

  lemma PushEdgeLower(env: Env, s: Sys, t: Sys, woken: set<nat>, r: Request, callee: nat, rank: nat -> nat,
                      bound: nat, p: nat, q: nat)
    requires Inv(env, t) && PushMove(s, t, r, callee) && FlagsPush(s, t, woken, r, callee) && Ranked(s, rank, bound)
    requires WaitsFor(t, p, q)
    ensures Lower(t, Resting(t.px, rank, r.pid), p, q)
  {
    hide *;
    if p == r.pid {
      RequesterLower(env, s, t, woken, r, callee, rank, q);
    } else {
      OtherLower(env, s, t, woken, r, callee, rank, bound, p, q);
    }
  }

  lemma RankBound(s: Sys, rank: nat -> nat, bound: nat)
    requires Ranked(s, rank, bound)
    ensures forall p :: rank(p) <= bound
  {
    hide WaitsFor, Lower;
  }

  lemma RankedIs(s: Sys, rank: nat -> nat, bound: nat)
    requires forall p :: rank(p) <= bound
    requires forall p, q :: WaitsFor(s, p, q) ==> Lower(s, rank, p, q)
    ensures Ranked(s, rank, bound)
  {
    hide WaitsFor, Lower;
  }

  lemma PushRanked(env: Env, s: Sys, t: Sys, woken: set<nat>, r: Request, callee: nat, rank: nat -> nat, bound: nat)
    requires Inv(env, t) && PushMove(s, t, r, callee) && FlagsPush(s, t, woken, r, callee) && Ranked(s, rank, bound)
    ensures Ranked(t, Resting(t.px, rank, r.pid), bound + 2)
  {
    hide *;
    RankBound(s, rank, bound);
    RestingBound(t.px, rank, bound, r.pid);
    forall p, q | WaitsFor(t, p, q) ensures Lower(t, Resting(t.px, rank, r.pid), p, q) {
      PushEdgeLower(env, s, t, woken, r, callee, rank, bound, p, q);
    }
    RankedIs(t, Resting(t.px, rank, r.pid), bound + 2);
  }

  // ------------------------------------------------------- a frame is popped

  lemma PoppedLink(s: Sys, t: Sys, r: Response, a: nat, b: nat, c: Text, p: nat, q: nat)
    requires PopMove(s, t, r, a, b) && LinkOn(t.px, c, p, q)
    ensures LinkOn(s.px, c, p, q)
  {
    PoppedChain(s.px, r.callId, c);
    hide Proxy.PopChain;
  }

  lemma PoppedTops(s: Sys, t: Sys, r: Response, a: nat, b: nat)
    requires PopMove(s, t, r, a, b)
    ensures forall d, p :: IsTop(t.px, d, p) <==> if d == r.callId then p == a else IsTop(s.px, d, p)
    ensures LinkOn(s.px, r.callId, a, b)
  {
    forall d, p ensures IsTop(t.px, d, p) <==> if d == r.callId then p == a else IsTop(s.px, d, p) {
      PoppedTop(s.px, r.callId, a, b, d, p);
    }
    var ch := Proxy.Chain(s.px, r.callId);
    assert ch[|ch| - 2] == a && ch[|ch| - 2 + 1] == b;
  }

  lemma PoppedNet(s: Sys, t: Sys, r: Response, a: nat, b: nat)
    requires PopMove(s, t, r, a, b)
    ensures a != b && t.px.infos == s.px.infos && b in t.net && t.net[b].pc == Answering(b, r.callId)
    ensures forall h :: h != b ==> (h in t.net <==> h in s.net)
    ensures forall h :: h != b && h in s.net ==> t.net[h].pc == s.net[h].pc
  {
    PoppedRecords(s.px, r.callId);
    hide Proxy.PopChain;
  }

  /** `b` responds and goes above all others whose handlers are suspended. */
  ghost function Raised(rank: nat -> nat, bound: nat, b: nat): nat -> nat {
    p => if p == b then bound + 1 else rank(p)
  }

  lemma PoppedLinked(s: Sys, t: Sys, r: Response, a: nat, b: nat, p: nat, q: nat)
    requires PopMove(s, t, r, a, b) && Linked(t.px, p, q)
    ensures Linked(s.px, p, q)
  {
    hide PopMove, LinkOn;
    var c :| LinkOn(t.px, c, p, q);
    PoppedLink(s, t, r, a, b, c, p, q);
  }

  lemma LinkedReading(env: Env, s: Sys, p: nat, q: nat)
    requires Inv(env, s) && Linked(s.px, p, q)
    ensures !Responding(s.net, p)
  {
    hide Inv, Linked, Responding;
    if Responding(s.net, p) {
      RespondingUnlinked(env, s, p, q);
    }
  }

  /** The handler of `b` is suspended now; all others are as before. */
  ghost predicate OnlySuspends(s: Sys, t: Sys, b: nat) {
    && t.px.infos == s.px.infos && Responding(t.net, b)
    && forall h :: h != b ==> (Responding(t.net, h) <==> Responding(s.net, h))
  }

  lemma PoppedSuspends(s: Sys, t: Sys, r: Response, a: nat, b: nat)
    requires PopMove(s, t, r, a, b)
    ensures OnlySuspends(s, t, b)
  {
    PoppedNet(s, t, r, a, b);
    hide PopMove;
  }

  /** An edge that was there before is as low as before. */
  lemma KeptLower(s: Sys, t: Sys, b: nat, rank: nat -> nat, bound: nat, p: nat, q: nat)
    requires OnlySuspends(s, t, b) && Ranked(s, rank, bound) && Edge(s, p, q) && Waiting(t.px, p) && p != b
    ensures Lower(t, Raised(rank, bound, b), p, q) || (q == b && Responding(t.net, p))
  {
    hide Edge, Responding;
    assert WaitsFor(s, p, q);
    assert Lower(s, rank, p, q);
  }

  /** Links are the same as before, and none starts at a suspended handler. */
  lemma PoppedLinkLower(env: Env, s: Sys, t: Sys, r: Response, a: nat, b: nat, rank: nat -> nat, bound: nat, p: nat,
                        q: nat)
    requires Inv(env, t) && PopMove(s, t, r, a, b) && Ranked(s, rank, bound)
    requires Linked(t.px, p, q) && Waiting(t.px, p)
    ensures Lower(t, Raised(rank, bound, b), p, q)
  {
    PoppedSuspends(s, t, r, a, b);
    LinkedReading(env, t, p, q);
    PoppedLinked(s, t, r, a, b, p, q);
    assert p != b && Edge(s, p, q);
    hide *;
    KeptLower(s, t, b, rank, bound, p, q);
  }

  lemma CallerReading(env: Env, s: Sys, t: Sys, r: Response, a: nat, b: nat)
    requires Inv(env, s) && PopMove(s, t, r, a, b)
    ensures !Responding(s.net, a) && a != b
  {
    PoppedTops(s, t, r, a, b);
    PoppedNet(s, t, r, a, b);
    assert Linked(s.px, a, b);
    hide Inv, PopMove, Linked;
    LinkedReading(env, s, a, b);
  }

  /** On the popped chain only the caller is answered; elsewhere it is as before. */
  lemma PoppedAnswering(s: Sys, t: Sys, r: Response, a: nat, b: nat, p: nat, q: nat)
    requires PopMove(s, t, r, a, b) && AnsweredBy(t.px, t.net, p, q)
    ensures Responding(t.net, q) && (p == a || (q != b && AnsweredBy(s.px, s.net, p, q)))
  {
    PoppedNet(s, t, r, a, b);
    PoppedTops(s, t, r, a, b);
    hide PopMove, IsTop, LinkOn;
  }

  lemma PoppedAnswerLower(env: Env, s: Sys, t: Sys, r: Response, a: nat, b: nat, rank: nat -> nat, bound: nat, p: nat,
                          q: nat)
    requires Inv(env, s) && PopMove(s, t, r, a, b) && Ranked(s, rank, bound)
    requires AnsweredBy(t.px, t.net, p, q) && Waiting(t.px, p)
    ensures Lower(t, Raised(rank, bound, b), p, q)
  {
    PoppedSuspends(s, t, r, a, b);
    CallerReading(env, s, t, r, a, b);
    PoppedAnswering(s, t, r, a, b, p, q);
    hide Inv, PopMove, AnsweredBy, Linked, Responding, Waiting;
    if p == b {
      assert q != b && rank(q) <= bound;
    } else if p != a {
      hide Lower, Raised, Ranked, OnlySuspends;
      KeptLower(s, t, b, rank, bound, p, q);
    }
  }

  lemma PoppedLower(env: Env, s: Sys, t: Sys, r: Response, a: nat, b: nat, rank: nat -> nat, bound: nat, p: nat, q: nat)
    requires Inv(env, s) && Inv(env, t) && PopMove(s, t, r, a, b) && Ranked(s, rank, bound) && WaitsFor(t, p, q)
    ensures Lower(t, Raised(rank, bound, b), p, q)
  {
    hide Inv, PopMove, Lower, Linked, AnsweredBy, Ranked, Raised;
    if Linked(t.px, p, q) {
      PoppedLinkLower(env, s, t, r, a, b, rank, bound, p, q);
    } else {
      PoppedAnswerLower(env, s, t, r, a, b, rank, bound, p, q);
    }
  }

  lemma PopRanked(env: Env, s: Sys, t: Sys, r: Response, a: nat, b: nat, rank: nat -> nat, bound: nat)
    requires Inv(env, s) && Inv(env, t) && PopMove(s, t, r, a, b) && Ranked(s, rank, bound)
    ensures Ranked(t, Raised(rank, bound, b), bound + 1)
  {
    hide Inv, PopMove, WaitsFor, Lower;
    forall p, q | WaitsFor(t, p, q) ensures Lower(t, Raised(rank, bound, b), p, q) {
      PoppedLower(env, s, t, r, a, b, rank, bound, p, q);
    }
  }

  // ------------------------------------------------------------- whole runs

  lemma AcyclicMove(env: Env, s: Sys, t: Sys, woken: set<nat>, out: Proxy.Outcome)
    requires Inv(env, s) && Inv(env, t) && Moved(s, t, woken, out) && Acyclic(s)
    ensures Acyclic(t)
  {
    hide Inv, StillMove, PushMove, PopMove, FlagsStay, FlagsPush, Ranked;
    var rank: nat -> nat, bound: nat :| Ranked(s, rank, bound);
    if out.Sent? {
      PushRanked(env, s, t, woken, out.req, out.callee, rank, bound);
    } else if StillMove(s, t) && FlagsStay(s, t, woken) {
      StillRanked(env, s, t, woken, rank, bound);
    } else {
      var r, a, b :| PopMove(s, t, r, a, b);
      PopRanked(env, s, t, r, a, b, rank, bound);
    }
  }

  lemma InitAcyclic()
    ensures Acyclic(Init)
  {
    assert Ranked(Init, p => 0, 0);
  }

  /** The wait-for graph has no cycle in any state of a smooth run. */
  lemma {:induction false} RecordedWaitsAcyclic(env: Env, states: seq<Sys>, events: seq<Event>, i: nat)
    requires IndexAgrees(env.cfg) && SmoothRun(env, states, events) && i < |states|
    ensures Acyclic(states[i])
  {
    hide Inv, IndexAgrees, Acyclic, Moved, Apply, Enabled, Smooth;
    if i == 0 {
      InitAcyclic();
    } else {
      InvAlways(env, states, events, i);
      InvAlways(env, states, events, i - 1);
      RecordedWaitsAcyclic(env, states, events, i - 1);
      SmoothMoves(env, states[i - 1], events[i - 1]);
      AcyclicMove(env, states[i - 1], states[i], Woken(states[i - 1], events[i - 1]),
                  LastOutcome(env, states[i - 1], events[i - 1]));
    }
  }

  // ------------------------------------------------------------ following it

  ghost predicate Waits(s: Sys, path: seq<nat>) {
    forall k :: 0 <= k < |path| - 1 ==> WaitsFor(s, path[k], path[k + 1])
  }

  lemma {:induction false} PathDescends(s: Sys, rank: nat -> nat, bound: nat, path: seq<nat>)
    requires Ranked(s, rank, bound) && Waits(s, path) && |path| >= 2
    ensures Lower(s, rank, path[0], path[|path| - 1])
  {
    hide WaitsFor, Responding;
    assert WaitsFor(s, path[0], path[1]);
    if |path| > 2 {
      assert Waits(s, path[1..]) by {
        forall k | 0 <= k < |path[1..]| - 1 ensures WaitsFor(s, path[1..][k], path[1..][k + 1]) {
          assert WaitsFor(s, path[k + 1], path[k + 1 + 1]);
        }
      }
      PathDescends(s, rank, bound, path[1..]);
    }
  }

  /** A way of waiting that came round would go down all the way. */
  lemma NoWayRound(s: Sys, path: seq<nat>)
    requires Acyclic(s) && |path| >= 2 && Waits(s, path)
    ensures path[0] != path[|path| - 1]
  {
    var rank: nat -> nat, bound: nat :| Ranked(s, rank, bound);
    hide WaitsFor, Ranked, Responding;
    PathDescends(s, rank, bound, path);
  }

  /** No actor waits, however indirectly, for itself. */
  lemma NoCircularWait(env: Env, states: seq<Sys>, events: seq<Event>, i: nat, path: seq<nat>)
    requires IndexAgrees(env.cfg) && SmoothRun(env, states, events) && i < |states|
    requires |path| >= 2 && Waits(states[i], path)
    ensures path[0] != path[|path| - 1]
  {
    hide *;
    RecordedWaitsAcyclic(env, states, events, i);
    NoWayRound(states[i], path);
  }

  /** `p` does not wait, or its own handler lets it go when it resumes. */
  ghost predicate Settled(s: Sys, p: nat) {
    p in s.px.infos && (!s.px.infos[p].waiting || Responding(s.net, p))
  }

  lemma {:induction false} Follow(env: Env, s: Sys, rank: nat -> nat, bound: nat, p: nat) returns (path: seq<nat>)
    requires Inv(env, s) && Ranked(s, rank, bound) && p in s.px.infos
    ensures path != [] && path[0] == p && Waits(s, path) && Settled(s, path[|path| - 1])
    decreases rank(p)
  {
    hide Inv, WaitsFor, Responding;
    if Settled(s, p) {
      path := [p];
    } else {
      var q := WaitingHasEdge(env, s, p);
      assert Lower(s, rank, p, q);
      var rest := [q];
      if !Settled(s, q) {
        rest := Follow(env, s, rank, bound, q);
      }
      path := [p] + rest;
      forall k | 0 <= k < |path| - 1 ensures WaitsFor(s, path[k], path[k + 1]) {
        if k > 0 {
          assert WaitsFor(s, rest[k - 1], rest[k - 1 + 1]);
        }
      }
    }
  }

  /** Following waits from any actor ends, after finitely many hops, at one that does
      not wait or is about to be let go by its own handler. */
  lemma WaitsEnd(env: Env, states: seq<Sys>, events: seq<Event>, i: nat, p: nat) returns (path: seq<nat>)
    requires IndexAgrees(env.cfg) && SmoothRun(env, states, events) && i < |states| && p in states[i].px.infos
    ensures path != [] && path[0] == p && Waits(states[i], path) && Settled(states[i], path[|path| - 1])
  {
    RecordedWaitsAcyclic(env, states, events, i);
    InvAlways(env, states, events, i);
    hide Inv, SmoothRun, Ranked, WaitsFor, Settled;
    var rank: nat -> nat, bound: nat :| Ranked(states[i], rank, bound);
    path := Follow(env, states[i], rank, bound, p);
  }

  // ----------------------------------------------------------- in timely runs

  /** Every actor below the end of a chain counts as waiting. */
  lemma LinkedWaits(cfg: Config, px: Proxy.State, p: nat, q: nat)
    requires AllCut(cfg, px) && Linked(px, p, q)
    ensures Waiting(px, p)
  {
    var c :| LinkOn(px, c, p, q);
    LinkInBody(px, c, p, q);
    assert AllShown(px) by {
      hide Shown;
    }
    hide AllShown, InBody, LinkOn, AllCut;
    ShownAt(px, c, p);
  }

  lemma TimelyCut(env: Env, states: seq<Sys>, events: seq<Event>, i: nat)
    requires IndexAgrees(env.cfg) && TimelyRun(env, states, events) && i < |states|
    ensures SmoothRun(env, states, events) && AllCut(env.cfg, states[i].px)
  {
    assert SmoothRun(env, states, events) && |states| == |events| + 1;
    assert forall j :: 0 <= j < |events| ==> Timely(states[j], events[j]);
    hide IndexAgrees, SmoothRun, Timely, AllCut;
    CutUpTo(env, states, events, i);
  }

  ghost predicate Edges(s: Sys, path: seq<nat>) {
    forall k :: 0 <= k < |path| - 1 ==> Edge(s, path[k], path[k + 1])
  }

  /** In a timely run, a way along the links of chains and from answered to answering
      actors comes round only through an answered actor that has been let go since. So
      the links alone never come round. */
  lemma OnlyTheReleasedComeRound(env: Env, states: seq<Sys>, events: seq<Event>, i: nat, path: seq<nat>)
    requires IndexAgrees(env.cfg) && TimelyRun(env, states, events) && i < |states|
    requires |path| >= 2 && Edges(states[i], path) && path[0] == path[|path| - 1]
    ensures exists k :: 0 <= k < |path| - 1 && !Waiting(states[i].px, path[k])
                        && !Linked(states[i].px, path[k], path[k + 1])
  {
    var s := states[i];
    hide TimelyRun, AllCut, Inv, Edge, IndexAgrees, Linked;
    TimelyCut(env, states, events, i);
    if forall k :: 0 <= k < |path| - 1 ==> Waiting(s.px, path[k]) || Linked(s.px, path[k], path[k + 1]) {
      forall k | 0 <= k < |path| - 1 ensures WaitsFor(s, path[k], path[k + 1]) {
        if Linked(s.px, path[k], path[k + 1]) {
          LinkedWaits(env.cfg, s.px, path[k], path[k + 1]);
        }
      }
      NoCircularWait(env, states, events, i, path);
    }
  }

  ghost predicate Links(px: Proxy.State, path: seq<nat>) {
    forall k :: 0 <= k < |path| - 1 ==> Linked(px, path[k], path[k + 1])
  }

  ghost predicate LinksAcyclic(px: Proxy.State) {
    forall path :: |path| >= 2 && Links(px, path) ==> path[0] != path[|path| - 1]
  }

  /** No deadlock: no actors wait for each other along call chains. */
  lemma NoDeadlock(env: Env, states: seq<Sys>, events: seq<Event>, i: nat)
    requires IndexAgrees(env.cfg) && TimelyRun(env, states, events) && i < |states|
    ensures LinksAcyclic(states[i].px)
  {
    hide TimelyRun, IndexAgrees, Linked;
    var px := states[i].px;
    forall path | |path| >= 2 && Links(px, path) ensures path[0] != path[|path| - 1] {
      if path[0] == path[|path| - 1] {
        OnlyTheReleasedComeRound(env, states, events, i, path);
      }
    }
  }

  // ----------------------------------------------- exactly when links come round

  /** `q` is `p`, or `p` waits for `q` along links of chains. */
  ghost predicate Reaches(px: Proxy.State, p: nat, q: nat) {
    exists path :: Leads(px, path, p, q)
  }

  ghost predicate Leads(px: Proxy.State, path: seq<nat>, p: nat, q: nat) {
    path != [] && path[0] == p && path[|path| - 1] == q && Links(px, path)
  }

  lemma Alone(px: Proxy.State, p: nat)
    ensures Reaches(px, p, p)
  {
    assert Leads(px, [p], p, p);
  }

  lemma Joined(px: Proxy.State, left: seq<nat>, right: seq<nat>)
    requires left != [] && right != [] && Links(px, left) && Links(px, right)
    requires Linked(px, left[|left| - 1], right[0])
    ensures Links(px, left + right)
  {
    hide Linked;
    var path := left + right;
    forall k | 0 <= k < |path| - 1 ensures Linked(px, path[k], path[k + 1]) {
      if k < |left| - 1 {
        assert path[k] == left[k] && path[k + 1] == left[k + 1];
      } else if k > |left| - 1 {
        assert path[k] == right[k - |left|] && path[k + 1] == right[k - |left| + 1];
      }
    }
  }

  lemma Tail(px: Proxy.State, path: seq<nat>)
    requires Links(px, path) && |path| >= 2
    ensures Links(px, path[1..]) && Linked(px, path[0], path[1])
  {
    hide Linked;
    forall k | 0 <= k < |path[1..]| - 1 ensures Linked(px, path[1..][k], path[1..][k + 1]) {
      assert Linked(px, path[k + 1], path[k + 1 + 1]);
    }
  }

  lemma Further(px: Proxy.State, p: nat, q: nat, z: nat)
    requires Linked(px, p, q) && Reaches(px, q, z)
    ensures Reaches(px, p, z)
  {
    hide Linked;
    var path :| Leads(px, path, q, z);
    Joined(px, [p], path);
    assert Leads(px, [p] + path, p, z);
  }

  lemma Through(px: Proxy.State, p: nat, q: nat, z: nat)
    requires Reaches(px, p, q) && Reaches(px, q, z)
    ensures Reaches(px, p, z)
  {
    hide Linked;
    var left :| Leads(px, left, p, q);
    var right :| Leads(px, right, q, z);
    if |right| == 1 {
      assert Leads(px, left, p, z);
    } else {
      Tail(px, right);
      Joined(px, left, right[1..]);
      assert Leads(px, left + right[1..], p, z);
    }
  }

  /** `py` has the links of `px`, and that from `a` to `b`. */
  ghost predicate OneMore(px: Proxy.State, py: Proxy.State, a: nat, b: nat) {
    forall p, q :: Linked(py, p, q) <==> Linked(px, p, q) || (p == a && q == b)
  }

  /** A way along the links of `py` is one of `px`, or uses the new link. */
  lemma {:induction false} SplitWay(px: Proxy.State, py: Proxy.State, a: nat, b: nat, path: seq<nat>)
    requires OneMore(px, py, a, b) && path != [] && Links(py, path)
    ensures Links(px, path) || (Reaches(px, path[0], a) && Reaches(px, b, path[|path| - 1]))
    decreases |path|
  {
    hide Linked, Reaches;
    if |path| >= 2 {
      var rest := path[1..];
      Tail(py, path);
      SplitWay(px, py, a, b, rest);
      if Linked(px, path[0], path[1]) {
        if Links(px, rest) {
          Joined(px, [path[0]], rest);
          assert [path[0]] + rest == path;
        } else {
          Further(px, path[0], path[1], a);
        }
      } else {
        Alone(px, a);
        if Links(px, rest) {
          ReachesEnd(px, rest);
        }
      }
    }
  }

  lemma ReachesEnd(px: Proxy.State, path: seq<nat>)
    requires path != [] && Links(px, path)
    ensures Reaches(px, path[0], path[|path| - 1])
  {
    assert Leads(px, path, path[0], path[|path| - 1]);
  }

  /** One more link closes a way round if and only if there was a way back already. */
  lemma OneMoreAcyclic(px: Proxy.State, py: Proxy.State, a: nat, b: nat)
    requires OneMore(px, py, a, b) && LinksAcyclic(px)
    ensures LinksAcyclic(py) <==> !Reaches(px, b, a)
  {
    hide Linked;
    if Reaches(px, b, a) {
      var path :| Leads(px, path, b, a);
      assert Links(py, path);
      Joined(py, path, [b]);
      assert Links(py, path + [b]) && (path + [b])[0] == (path + [b])[|path + [b]| - 1];
    } else {
      forall path | |path| >= 2 && Links(py, path) ensures path[0] != path[|path| - 1] {
        SplitWay(px, py, a, b, path);
        if path[0] == path[|path| - 1] && !Links(px, path) {
          Through(px, b, path[0], a);
        }
      }
    }
  }

  lemma FewerLinks(px: Proxy.State, py: Proxy.State)
    requires LinksAcyclic(px) && forall p, q :: Linked(py, p, q) ==> Linked(px, p, q)
    ensures LinksAcyclic(py)
  {
    hide Linked;
    forall path | |path| >= 2 && Links(py, path) ensures path[0] != path[|path| - 1] {
      assert Links(px, path);
    }
  }

  lemma PushKeepsLink(s: Sys, t: Sys, r: Request, callee: nat, c: Text, p: nat, q: nat)
    requires PushMove(s, t, r, callee) && LinkOn(s.px, c, p, q)
    ensures LinkOn(t.px, c, p, q)
  {
    var ch, more := Proxy.Chain(s.px, c), Proxy.Chain(t.px, c);
    var i :| 0 <= i < |ch| - 1 && ch[i] == p && ch[i + 1] == q;
    assert more[i] == p && more[i + 1] == q;
  }

  lemma PushLinks(s: Sys, t: Sys, r: Request, callee: nat)
    requires PushMove(s, t, r, callee)
    ensures OneMore(s.px, t.px, r.pid, callee)
  {
    NewLink(s, t, r, callee);
    hide PushMove, LinkOn;
    forall p, q ensures Linked(t.px, p, q) <==> Linked(s.px, p, q) || (p == r.pid && q == callee) {
      if c :| LinkOn(t.px, c, p, q) {
        PushedLink(s, t, r, callee, c, p, q);
      }
      if c :| LinkOn(s.px, c, p, q) {
        PushKeepsLink(s, t, r, callee, c, p, q);
      }
    }
  }

  lemma StillLinked(s: Sys, t: Sys, p: nat, q: nat)
    requires StillMove(s, t) && Linked(t.px, p, q)
    ensures Linked(s.px, p, q)
  {
    hide StillMove, LinkOn;
    var c :| LinkOn(t.px, c, p, q);
    StillLink(s, t, c, p, q);
  }

  lemma MoveLinks(s: Sys, t: Sys, woken: set<nat>, out: Proxy.Outcome)
    requires Moved(s, t, woken, out) && LinksAcyclic(s.px)
    ensures LinksAcyclic(t.px) <==> !(out.Sent? && Reaches(s.px, out.callee, out.req.pid))
  {
    hide StillMove, PushMove, PopMove, FlagsStay, FlagsPush, LinksAcyclic, Linked, Reaches;
    if out.Sent? {
      PushLinks(s, t, out.req, out.callee);
      OneMoreAcyclic(s.px, t.px, out.req.pid, out.callee);
    } else if StillMove(s, t) && FlagsStay(s, t, woken) {
      forall p, q | Linked(t.px, p, q) ensures Linked(s.px, p, q) {
        StillLinked(s, t, p, q);
      }
      FewerLinks(s.px, t.px);
    } else {
      var r, a, b :| PopMove(s, t, r, a, b);
      forall p, q | Linked(t.px, p, q) ensures Linked(s.px, p, q) {
        PoppedLinked(s, t, r, a, b, p, q);
      }
      FewerLinks(s.px, t.px);
    }
  }

  /** The step forwards a request to a process that, along the links of chains, waits for
      the requester. */
  ghost predicate Closes(env: Env, s: Sys, e: Event)
    requires Enabled(env, s, e)
  {
    var out := LastOutcome(env, s, e);
    out.Sent? && Reaches(s.px, out.callee, out.req.pid)
  }

  /** From a state of a smooth run in which the links never come round, a step keeps them
      so if and only if it forwards no request to a process waiting for the requester. */
  lemma LinksAreExact(env: Env, states: seq<Sys>, events: seq<Event>, i: nat)
    requires IndexAgrees(env.cfg) && SmoothRun(env, states, events) && i < |events|
    requires LinksAcyclic(states[i].px)
    ensures Enabled(env, states[i], events[i])
    ensures LinksAcyclic(states[i + 1].px) <==> !Closes(env, states[i], events[i])
  {
    SmoothHere(env, states, events, i);
    assert Closes(env, states[i], events[i]) <==>
           var out := LastOutcome(env, states[i], events[i]);
           out.Sent? && Reaches(states[i].px, out.callee, out.req.pid);
    hide *;
    InvAlways(env, states, events, i);
    SmoothMoves(env, states[i], events[i]);
    MoveLinks(states[i], states[i + 1], Woken(states[i], events[i]), LastOutcome(env, states[i], events[i]));
  }

  lemma InitLinks()
    ensures LinksAcyclic(Init.px)
  {
    assert forall p, q :: !Linked(Init.px, p, q);
    hide Linked;
    if path :| |path| >= 2 && Links(Init.px, path) && path[0] == path[|path| - 1] {
      Tail(Init.px, path);
    }
  }

  lemma {:induction false} LinksUpTo(env: Env, states: seq<Sys>, events: seq<Event>, i: nat)
    requires IndexAgrees(env.cfg) && SmoothRun(env, states, events) && i < |states| == |events| + 1
    requires forall j :: 0 <= j < i ==> Enabled(env, states[j], events[j]) && !Closes(env, states[j], events[j])
    ensures LinksAcyclic(states[i].px)
  {
    hide IndexAgrees, Closes, Enabled, LinksAcyclic;
    if i == 0 {
      assert states[0] == Init;
      InitLinks();
    } else {
      hide SmoothRun;
      LinksUpTo(env, states, events, i - 1);
      LinksAreExact(env, states, events, i - 1);
    }
  }

  /** In a smooth run no actors wait for each other along call chains in any state if and
      only if no step forwards a request to a process waiting for the requester. */
  lemma DeadlockIsExact(env: Env, states: seq<Sys>, events: seq<Event>)
    requires IndexAgrees(env.cfg) && SmoothRun(env, states, events)
    ensures forall i :: 0 <= i < |events| ==> Enabled(env, states[i], events[i])
    ensures (forall i :: 0 <= i < |states| ==> LinksAcyclic(states[i].px))
       <==> (forall i :: 0 <= i < |events| ==> !Closes(env, states[i], events[i]))
  {
    assert |states| == |events| + 1;
    assert forall i :: 0 <= i < |events| ==> Enabled(env, states[i], events[i]);
    hide IndexAgrees, SmoothRun, Closes, LinksAcyclic, Enabled;
    if forall i :: 0 <= i < |events| ==> !Closes(env, states[i], events[i]) {
      forall i | 0 <= i < |states| ensures LinksAcyclic(states[i].px) {
        LinksUpTo(env, states, events, i);
      }
    }
    if forall i :: 0 <= i < |states| ==> LinksAcyclic(states[i].px) {
      forall i | 0 <= i < |events| ensures !Closes(env, states[i], events[i]) {
        assert LinksAcyclic(states[i].px) && LinksAcyclic(states[i + 1].px);
        LinksAreExact(env, states, events, i);
      }
    }
  }
}
