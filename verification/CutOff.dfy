/** Circular calls. Names along a chain differ as long as the records of the waiting
    actors show what they wait on, and they do exactly as long as line 614 lets
    nobody go who waits on another call. */
module CutOff {
  import opened Protocol
  import opened S = System
  import opened Invariant
  import opened ActorSteps
  import opened ActorNodes
  import opened ProxySteps
  import opened ReplySteps
  import opened RecordSteps
  import opened SmoothSteps
  import opened SmoothRuns
  import opened ResumeSteps
  import opened SmoothInvariant
  import opened Moves
  import Foreign
  import Proxy

  /** The frames of chain `c`: actors of pairwise distinct names, all but the top
      recorded as waiting on `c`. */
  ghost predicate Shown(px: Proxy.State, c: Text, ch: seq<nat>) {
    && (forall j :: 0 <= j < |ch| ==> ch[j] in px.infos)
    && (forall j, k :: 0 <= j < k < |ch| ==> px.infos[ch[j]].name != px.infos[ch[k]].name)
    && (forall j :: 0 <= j < |ch| - 1 ==> px.infos[ch[j]].waiting && px.infos[ch[j]].callId == c)
  }

  ghost predicate AllShown(px: Proxy.State) {
    forall c :: c in px.chains ==> Shown(px, c, px.chains[c])
  }

  /** Besides, every frame is of a configured actor node. */
  ghost predicate Cut(cfg: Config, px: Proxy.State, c: Text, ch: seq<nat>) {
    Shown(px, c, ch) && forall j :: 0 <= j < |ch| ==> px.infos[ch[j]].name in cfg.services
  }

  ghost predicate AllCut(cfg: Config, px: Proxy.State) {
    forall c :: c in px.chains ==> Cut(cfg, px, c, px.chains[c])
  }

  lemma ShownAt(px: Proxy.State, c: Text, p: nat)
    requires AllShown(px) && InBody(px, c, p)
    ensures c in px.chains && p in px.infos && px.infos[p].waiting && px.infos[p].callId == c
  {
    var ch := Proxy.Chain(px, c);
    var i :| 0 <= i < |ch| - 1 && ch[i] == p;
    assert Shown(px, c, px.chains[c]);
  }

  lemma ShownTopOnly(px: Proxy.State, c: Text, p: nat)
    requires AllShown(px) && IsTop(px, c, p)
    ensures !InBody(px, c, p)
  {
    assert c in px.chains && Shown(px, c, px.chains[c]);
  }

  // ----------------------------------------------------- timely steps keep it

  /** A timely step lets nobody go whom a chain waits for. */
  lemma WokenFree(env: Env, s: Sys, e: Event, p: nat)
    requires Inv(env, s) && AllShown(s.px) && Timely(s, e) && p in Woken(s, e)
    ensures Free(s.px, p)
  {
    var h := e.p;
    hide Inv, AllShown, InBody;
    AnsweringAt(env, s, h);
    var c := s.net[h].pc.callId;
    if p != h {
      assert IsTop(s.px, c, p);
      SameTops(s.px, Proxy.Update(s.px, h, [], false));
      forall d ensures !InBody(s.px, d, p) {
        if InBody(s.px, d, p) {
          ShownAt(s.px, d, p);
          ShownTopOnly(s.px, c, p);
        }
      }
    }
  }

  lemma StaysShown(px: Proxy.State, py: Proxy.State, woken: set<nat>, c: Text, ch: seq<nat>)
    requires Shown(px, c, ch) && forall j :: 0 <= j < |ch| ==> RecordStays(px, py, woken, ch[j])
    requires forall j :: 0 <= j < |ch| - 1 ==> ch[j] !in woken
    ensures Shown(py, c, ch)
  {
  }

  lemma StillOneShown(s: Sys, t: Sys, woken: set<nat>, c: Text, ch: seq<nat>)
    requires AllShown(s.px) && FlagsStay(s, t, woken) && c in s.px.chains && ch == s.px.chains[c]
    requires forall p :: p in woken ==> Free(s.px, p)
    ensures Shown(t.px, c, ch)
  {
    assert Shown(s.px, c, ch);
    forall j | 0 <= j < |ch| - 1 ensures ch[j] !in woken {
      InBodyAt(s.px, c, j);
    }
    hide InBody, RecordStays, AllShown, Unsuspends;
    StaysShown(s.px, t.px, woken, c, ch);
  }

  lemma StillShown(env: Env, s: Sys, t: Sys, woken: set<nat>)
    requires Inv(env, t) && AllShown(s.px) && StillMove(s, t) && FlagsStay(s, t, woken)
    requires forall p :: p in woken ==> Free(s.px, p)
    ensures AllShown(t.px)
  {
    hide Inv, Shown, FlagsStay, Free, FewerAnswering;
    forall c | c in t.px.chains ensures Shown(t.px, c, t.px.chains[c]) {
      if c in s.px.chains {
        StillOneShown(s, t, woken, c, s.px.chains[c]);
      } else {
        ChainKnown(env, t, c);
        AloneShown(t.px, c);
      }
    }
  }

  lemma AloneShown(px: Proxy.State, c: Text)
    requires c in px.chains && |px.chains[c]| == 1 && px.chains[c][0] in px.infos
    ensures Shown(px, c, px.chains[c])
  {
  }

  /** The records of waiting actors other than the requester stay. */
  lemma PushStays(s: Sys, t: Sys, woken: set<nat>, r: Request, callee: nat, c: Text, p: nat)
    requires AllShown(s.px) && FlagsPush(s, t, woken, r, callee) && InBody(s.px, c, p)
    requires forall q :: q in woken ==> Free(s.px, q)
    ensures p != r.pid && p !in woken && RecordStays(s.px, t.px, woken, p)
  {
    ShownAt(s.px, c, p);
    hide InBody;
  }

  lemma PushOthersShown(s: Sys, t: Sys, woken: set<nat>, r: Request, callee: nat, c: Text, ch: seq<nat>)
    requires AllShown(s.px) && FlagsPush(s, t, woken, r, callee) && c in s.px.chains && ch == s.px.chains[c]
    requires forall q :: q in woken ==> Free(s.px, q)
    ensures Shown(t.px, c, ch)
  {
    assert Shown(s.px, c, ch);
    forall j | 0 <= j < |ch| - 1 ensures t.px.infos[ch[j]].waiting && t.px.infos[ch[j]].callId == c {
      InBodyAt(s.px, c, j);
      PushStays(s, t, woken, r, callee, c, ch[j]);
    }
    hide AllShown, RecordStays, Unsuspends;
  }

  /** The chain of the call once the requester waits below its callee. */
  lemma PushOwnShown(s: Sys, t: Sys, woken: set<nat>, r: Request, callee: nat, ch: seq<nat>)
    requires AllShown(s.px) && FlagsPush(s, t, woken, r, callee)
    requires forall q :: q in woken ==> Free(s.px, q)
    requires ch != [] && ch[|ch| - 1] == r.pid
    requires if r.callId in s.px.chains then ch == s.px.chains[r.callId] else ch == [r.pid]
    ensures Shown(t.px, r.callId, ch + [callee])
  {
    var c, more := r.callId, ch + [callee];
    if c in s.px.chains {
      PushOthersShown(s, t, woken, r, callee, c, ch);
    }
    assert Shown(t.px, c, ch);
    forall j | 0 <= j < |ch| ensures t.px.infos[ch[j]].name != t.px.infos[callee].name
      ensures t.px.infos[ch[j]].waiting && t.px.infos[ch[j]].callId == c {
      if j < |ch| - 1 {
        InBodyAt(s.px, c, j);
        ShownAt(s.px, c, ch[j]);
        PushStays(s, t, woken, r, callee, c, ch[j]);
      }
    }
    hide AllShown, RecordStays, Unsuspends, FlagsPush;
  }

  lemma PushShown(s: Sys, t: Sys, woken: set<nat>, r: Request, callee: nat)
    requires AllShown(s.px) && PushMove(s, t, r, callee) && FlagsPush(s, t, woken, r, callee)
    requires forall q :: q in woken ==> Free(s.px, q)
    ensures AllShown(t.px)
  {
    var base := Proxy.Root(s.px, r.callId, r.pid);
    var ch := Proxy.Chain(base, r.callId);
    assert t.px.chains == base.chains[r.callId := ch + [callee]];
    assert if r.callId in s.px.chains then ch == s.px.chains[r.callId] else ch == [r.pid];
    assert ch != [] && ch[|ch| - 1] == r.pid;
    hide FlagsPush, PushMove, IsTop, Shown, Free;
    forall c | c in t.px.chains ensures Shown(t.px, c, t.px.chains[c]) {
      if c == r.callId {
        PushOwnShown(s, t, woken, r, callee, ch);
      } else {
        PushOthersShown(s, t, woken, r, callee, c, s.px.chains[c]);
      }
    }
  }

  lemma PopShown(s: Sys, t: Sys, r: Response, a: nat, b: nat)
    requires AllShown(s.px) && PopMove(s, t, r, a, b)
    ensures AllShown(t.px)
  {
    forall c | c in t.px.chains ensures Shown(t.px, c, t.px.chains[c]) {
      assert Shown(s.px, c, s.px.chains[c]);
    }
  }

  lemma TimelyKeeps(env: Env, s: Sys, t: Sys, e: Event, out: Proxy.Outcome)
    requires Inv(env, s) && Inv(env, t) && Moved(s, t, Woken(s, e), out) && AllShown(s.px) && Timely(s, e)
    ensures AllShown(t.px)
  {
    hide Inv, StillMove, PushMove, PopMove, FlagsStay, FlagsPush, AllShown, Timely, Woken, Free;
    forall p | p in Woken(s, e) ensures Free(s.px, p) {
      WokenFree(env, s, e, p);
    }
    if out.Sent? {
      PushShown(s, t, Woken(s, e), out.req, out.callee);
    } else if StillMove(s, t) && FlagsStay(s, t, Woken(s, e)) {
      StillShown(env, s, t, Woken(s, e));
    } else {
      var r, a, b :| PopMove(s, t, r, a, b);
      PopShown(s, t, r, a, b);
    }
  }

  // ------------------------------------------------------ and no others do

  /** Somebody is let go on chain `c` who waits on `d`. */
  ghost predicate LateFor(s: Sys, h: nat, q: nat, d: Text) {
    && h in s.net && s.net[h].pc.Answering? && q != h && d != s.net[h].pc.callId
    && IsTop(s.px, s.net[h].pc.callId, q) && InBody(s.px, d, q)
  }

  lemma LateIs(env: Env, s: Sys, e: Event) returns (q: nat, d: Text)
    requires Inv(env, s) && !Timely(s, e)
    ensures e.Resume? && LateFor(s, e.p, q, d)
  {
    AnsweringAt(env, s, e.p);
    hide Inv, MayLetGo;
    q, d := NotLetGo(s.px, e.p, s.net[e.p].pc.callId);
  }

  lemma NotLetGo(px: Proxy.State, h: nat, c: Text) returns (q: nat, d: Text)
    requires !MayLetGo(Proxy.Update(px, h, [], false), c)
    ensures q != h && d != c && IsTop(px, c, q) && InBody(px, d, q)
  {
    var py := Proxy.Update(px, h, [], false);
    SameTops(px, py);
    hide InBody;
    var ch := Proxy.Chain(px, c);
    assert Proxy.Chain(py, c) == ch;
    q := ch[|ch| - 1];
    d := py.infos[q].callId;
  }

  lemma LateLowers(env: Env, s: Sys, h: nat, q: nat, d: Text)
    requires Inv(env, s) && Enabled(env, s, Resume(h, true)) && Direct(env, s, Resume(h, true)) && LateFor(s, h, q, d)
    ensures var t := ResumeStep(env, s, h, true);
            t.px.chains == s.px.chains && q in t.px.infos && !t.px.infos[q].waiting
  {
    hide *;
    LateParts(s, h, q, d);
    var c := s.net[h].pc.callId;
    var u := s.(px := Proxy.Update(s.px, h, [], false));
    SuspendedQueue(env, s, d, q);
    DirectWake(env, s, h);
    LoweredFreed(s.px, h, q, c);
    WakeQuietIs(env, u, h, q, c);
    NowReading(u.(px := Freed(u.px, q, c)), h);
  }

  lemma LoweredFreed(px: Proxy.State, h: nat, q: nat, c: Text)
    requires q in px.infos && px.infos[q].queue == [] && IsTop(px, c, q)
    ensures var py := Proxy.Update(px, h, [], false);
            && q in py.infos && py.infos[q].queue == [] && IsTop(py, c, q)
            && Freed(py, q, c).chains == px.chains
            && q in Freed(py, q, c).infos && !Freed(py, q, c).infos[q].waiting
  {
  }

  lemma LateParts(s: Sys, h: nat, q: nat, d: Text)
    requires LateFor(s, h, q, d)
    ensures h in s.net && s.net[h].pc.Answering? && IsTop(s.px, s.net[h].pc.callId, q) && InBody(s.px, d, q)
  {
    hide IsTop, InBody;
  }

  lemma SuspendedQueue(env: Env, s: Sys, d: Text, q: nat)
    requires Inv(env, s) && InBody(s.px, d, q)
    ensures q in s.px.infos && s.px.infos[q].queue == []
  {
    SuspendedAt(env, s, d, q);
    hide Inv, InBody, NoAnswer;
  }

  lemma LateBreaks(env: Env, s: Sys, e: Event)
    requires Inv(env, s) && Enabled(env, s, e) && Direct(env, s, e) && FaultFree(e) && !Timely(s, e)
    ensures !AllShown(Apply(env, s, e).px)
  {
    var q, d := LateIs(env, s, e);
    assert e == Resume(e.p, true);
    var t := Apply(env, s, e);
    assert t == ResumeStep(env, s, e.p, true);
    hide *;
    LateLowers(env, s, e.p, q, d);
    LateParts(s, e.p, q, d);
    SameTops(s.px, t.px);
    if AllShown(t.px) {
      ShownAt(t.px, d, q);
    }
  }

  // --------------------------------------------------------- whole runs

  lemma FrameNamed(env: Env, s: Sys, p: nat)
    requires Inv(env, s) && Foreign.Homes(env.cfg, s) && p in s.px.infos
    ensures s.px.infos[p].name in env.cfg.services
  {
    hide Inv, Foreign.UpForeign, Foreign.FromElsewhere;
    NodeNamed(env, s, p);
    NodeName(env, s, p);
  }

  lemma CutIfShown(env: Env, s: Sys)
    requires Inv(env, s) && Foreign.Homes(env.cfg, s)
    ensures AllCut(env.cfg, s.px) <==> AllShown(s.px)
  {
    hide Inv, Foreign.Homes;
    forall p | p in s.px.infos ensures s.px.infos[p].name in env.cfg.services {
      FrameNamed(env, s, p);
    }
  }

  /** From a state of a smooth run in which every chain is cut, a step leads to
      another one if and only if it is timely. */
  lemma CutIsExact(env: Env, states: seq<Sys>, events: seq<Event>, i: nat)
    requires IndexAgrees(env.cfg) && SmoothRun(env, states, events) && i < |events|
    requires AllCut(env.cfg, states[i].px)
    ensures AllCut(env.cfg, states[i + 1].px) <==> Timely(states[i], events[i])
  {
    assert Run(env, states, events);
    hide *;
    SmoothHere(env, states, events, i);
    InvAlways(env, states, events, i);
    InvAlways(env, states, events, i + 1);
    Foreign.HomesAlways(env, states, events, i);
    Foreign.HomesAlways(env, states, events, i + 1);
    CutIfShown(env, states[i]);
    CutIfShown(env, states[i + 1]);
    SmoothMoves(env, states[i], events[i]);
    if Timely(states[i], events[i]) {
      TimelyKeeps(env, states[i], states[i + 1], events[i], LastOutcome(env, states[i], events[i]));
    } else {
      SmoothParts(env, states[i], events[i]);
      LateBreaks(env, states[i], events[i]);
    }
  }

  lemma SmoothHere(env: Env, states: seq<Sys>, events: seq<Event>, i: nat)
    requires SmoothRun(env, states, events) && i < |events|
    ensures |states| == |events| + 1 && Enabled(env, states[i], events[i]) && Smooth(env, states[i], events[i])
    ensures states[i + 1] == Apply(env, states[i], events[i])
  {
    hide Apply, Enabled, Smooth;
  }

  lemma SmoothParts(env: Env, s: Sys, e: Event)
    requires Enabled(env, s, e) && Smooth(env, s, e)
    ensures Direct(env, s, e) && FaultFree(e)
  {
    hide Direct, FaultFree, NoWrap, Enabled;
  }

  lemma {:induction false} CutUpTo(env: Env, states: seq<Sys>, events: seq<Event>, i: nat)
    requires IndexAgrees(env.cfg) && SmoothRun(env, states, events) && i < |states|
    requires forall j :: 0 <= j < i ==> j < |events| && Timely(states[j], events[j])
    ensures AllCut(env.cfg, states[i].px)
  {
    hide IndexAgrees, Timely;
    if i == 0 {
      assert states[0] == Init;
    } else {
      hide SmoothRun, Cut;
      CutUpTo(env, states, events, i - 1);
      CutIsExact(env, states, events, i - 1);
    }
  }

  /** In a smooth run every chain of every state is cut if and only if every step of
      the run is timely. */
  lemma CutOffIsExact(env: Env, states: seq<Sys>, events: seq<Event>)
    requires IndexAgrees(env.cfg) && SmoothRun(env, states, events)
    ensures (forall i :: 0 <= i < |states| ==> AllCut(env.cfg, states[i].px))
       <==> (forall i :: 0 <= i < |events| ==> Timely(states[i], events[i]))
  {
    assert |states| == |events| + 1;
    hide IndexAgrees, SmoothRun, Timely, AllCut;
    if forall i :: 0 <= i < |events| ==> Timely(states[i], events[i]) {
      forall i | 0 <= i < |states| ensures AllCut(env.cfg, states[i].px) {
        CutUpTo(env, states, events, i);
      }
    }
    if forall i :: 0 <= i < |states| ==> AllCut(env.cfg, states[i].px) {
      forall i | 0 <= i < |events| ensures Timely(states[i], events[i]) {
        assert AllCut(env.cfg, states[i].px) && AllCut(env.cfg, states[i + 1].px);
        CutIsExact(env, states, events, i);
      }
    }
  }

  lemma {:induction false} DistinctFit(xs: seq<Text>, names: set<Text>)
    requires forall i, j :: 0 <= i < j < |xs| ==> xs[i] != xs[j]
    requires forall i :: 0 <= i < |xs| ==> xs[i] in names
    ensures |xs| <= |names|
  {
    if xs != [] {
      var rest := xs[1..];
      forall i | 0 <= i < |rest| ensures rest[i] in names - {xs[0]} {
        assert rest[i] == xs[i + 1];
      }
      DistinctFit(rest, names - {xs[0]});
    }
  }

  lemma CutFits(cfg: Config, px: Proxy.State, c: Text, ch: seq<nat>)
    requires Cut(cfg, px, c, ch)
    ensures |ch| <= |cfg.services|
  {
    var names := seq(|ch|, j requires 0 <= j < |ch| => px.infos[ch[j]].name);
    DistinctFit(names, cfg.services.Keys);
    assert |cfg.services.Keys| == |cfg.services|;
  }

  /** The actor names along a call chain are pairwise distinct, so no chain is
      longer than the number of configured actor nodes. */
  lemma CircularCallsCutOff(env: Env, states: seq<Sys>, events: seq<Event>, i: nat, c: Text)
    requires IndexAgrees(env.cfg) && TimelyRun(env, states, events) && i < |states| && c in states[i].px.chains
    ensures Cut(env.cfg, states[i].px, c, states[i].px.chains[c])
    ensures 1 <= |states[i].px.chains[c]| <= |env.cfg.services|
  {
    assert SmoothRun(env, states, events) && |states| == |events| + 1;
    assert forall j :: 0 <= j < |events| ==> Timely(states[j], events[j]);
    hide IndexAgrees, SmoothRun, Timely, Cut, Inv;
    CutUpTo(env, states, events, i);
    CutFits(env.cfg, states[i].px, c, states[i].px.chains[c]);
    InvAlways(env, states, events, i);
    ChainRooted(env, states[i], c);
  }

  lemma ChainRooted(env: Env, s: Sys, c: Text)
    requires Inv(env, s) && c in s.px.chains
    ensures s.px.chains[c] != []
  {
    hide Inv, Distinct, LinksOK, Generated;
    ChainIs(env, s, c);
  }

  // ------------------------------------------------------ distinct names alone

  /** The frames of a chain are of pairwise distinct actor names. */
  ghost predicate NamesDiffer(px: Proxy.State, ch: seq<nat>) {
    && (forall j :: 0 <= j < |ch| ==> ch[j] in px.infos)
    && (forall j, k :: 0 <= j < k < |ch| ==> px.infos[ch[j]].name != px.infos[ch[k]].name)
  }

  ghost predicate AllNamesDiffer(px: Proxy.State) {
    forall c :: c in px.chains ==> NamesDiffer(px, px.chains[c])
  }

  /** A process of the actor node of `q` is below the end of chain `c`. */
  predicate NodeBelow(px: Proxy.State, c: Text, q: nat) {
    var ch := Proxy.Chain(px, c);
    q in px.infos &&
    exists j :: 0 <= j < |ch| - 1 && ch[j] in px.infos && px.infos[ch[j]].name == px.infos[q].name
  }

  /** The step forwards a request to a node that has a process below the end of its chain. */
  predicate Rejoins(env: Env, s: Sys, e: Event)
    requires Enabled(env, s, e)
  {
    var out := LastOutcome(env, s, e);
    out.Sent? && NodeBelow(s.px, out.req.callId, out.callee)
  }

  lemma SameNames(px: Proxy.State, py: Proxy.State, ch: seq<nat>)
    requires NamesDiffer(px, ch)
    requires forall j :: 0 <= j < |ch| ==> ch[j] in py.infos && py.infos[ch[j]].name == px.infos[ch[j]].name
    ensures NamesDiffer(py, ch)
  {
  }

  lemma StayNames(s: Sys, t: Sys, woken: set<nat>, p: nat)
    requires FlagsStay(s, t, woken) && p in s.px.infos
    ensures p in t.px.infos && t.px.infos[p].name == s.px.infos[p].name
  {
    hide Unsuspends;
    assert RecordStays(s.px, t.px, woken, p);
  }

  lemma StillOneNames(s: Sys, t: Sys, woken: set<nat>, c: Text)
    requires AllNamesDiffer(s.px) && FlagsStay(s, t, woken) && c in s.px.chains
    ensures NamesDiffer(t.px, s.px.chains[c])
  {
    var ch := s.px.chains[c];
    assert NamesDiffer(s.px, ch);
    hide FlagsStay, AllNamesDiffer;
    forall j | 0 <= j < |ch| ensures ch[j] in t.px.infos && t.px.infos[ch[j]].name == s.px.infos[ch[j]].name {
      StayNames(s, t, woken, ch[j]);
    }
    SameNames(s.px, t.px, ch);
  }

  lemma AloneDiffers(px: Proxy.State, ch: seq<nat>)
    requires |ch| == 1 && ch[0] in px.infos
    ensures NamesDiffer(px, ch)
  {
  }

  lemma StillNames(env: Env, s: Sys, t: Sys, woken: set<nat>)
    requires Inv(env, t) && AllNamesDiffer(s.px) && StillMove(s, t) && FlagsStay(s, t, woken)
    ensures AllNamesDiffer(t.px)
  {
    hide Inv, NamesDiffer, FlagsStay, FewerAnswering;
    forall c | c in t.px.chains ensures NamesDiffer(t.px, t.px.chains[c]) {
      if c in s.px.chains {
        StillOneNames(s, t, woken, c);
      } else {
        ChainKnown(env, t, c);
        AloneDiffers(t.px, t.px.chains[c]);
      }
    }
  }

  lemma NamesSnoc(px: Proxy.State, ch: seq<nat>, q: nat)
    requires NamesDiffer(px, ch) && q in px.infos
    ensures NamesDiffer(px, ch + [q]) <==> forall j :: 0 <= j < |ch| ==> px.infos[ch[j]].name != px.infos[q].name
  {
    var more := ch + [q];
    if NamesDiffer(px, more) {
      forall j | 0 <= j < |ch| ensures px.infos[ch[j]].name != px.infos[q].name {
        assert px.infos[more[j]].name != px.infos[more[|ch|]].name;
      }
    }
  }

  /** Pushing the callee keeps the names of its chain distinct unless one of its node
      is below already. */
  lemma PushOwnNames(px: Proxy.State, py: Proxy.State, r: Request, callee: nat, ch: seq<nat>)
    requires r.pid in px.infos && callee in px.infos && px.infos[r.pid].name != px.infos[callee].name
    requires py.infos.Keys == px.infos.Keys && forall p :: p in px.infos ==> py.infos[p].name == px.infos[p].name
    requires NamesDiffer(px, ch) && ch != [] && ch[|ch| - 1] == r.pid
    requires if r.callId in px.chains then ch == px.chains[r.callId] else ch == [r.pid]
    ensures NamesDiffer(py, ch + [callee]) <==> !NodeBelow(px, r.callId, callee)
  {
    SameNames(px, py, ch);
    NamesSnoc(py, ch, callee);
    if r.callId in px.chains {
      assert Proxy.Chain(px, r.callId) == ch;
    }
  }

  lemma PushNames(s: Sys, t: Sys, woken: set<nat>, r: Request, callee: nat)
    requires AllNamesDiffer(s.px) && PushMove(s, t, r, callee) && FlagsPush(s, t, woken, r, callee)
    ensures AllNamesDiffer(t.px) <==> !NodeBelow(s.px, r.callId, callee)
  {
    var ch := Proxy.Chain(Proxy.Root(s.px, r.callId, r.pid), r.callId);
    assert t.px.chains == s.px.chains[r.callId := ch + [callee]];
    assert ch != [] && ch[|ch| - 1] == r.pid;
    PushedNames(s, t, woken, r, callee);
    assert NamesDiffer(s.px, ch);
    hide PushMove, IsTop, NodeBelow, Proxy.Root, FlagsPush;
    PushOwnNames(s.px, t.px, r, callee, ch);
    forall c | c in t.px.chains && c != r.callId ensures NamesDiffer(t.px, t.px.chains[c]) {
      assert NamesDiffer(s.px, s.px.chains[c]);
      SameNames(s.px, t.px, s.px.chains[c]);
    }
    hide NamesDiffer;
    assert t.px.chains[r.callId] == ch + [callee];
  }

  lemma PushedNames(s: Sys, t: Sys, woken: set<nat>, r: Request, callee: nat)
    requires FlagsPush(s, t, woken, r, callee)
    ensures r.pid in s.px.infos && callee in s.px.infos && s.px.infos[r.pid].name != s.px.infos[callee].name
    ensures t.px.infos.Keys == s.px.infos.Keys
    ensures forall p :: p in s.px.infos ==> t.px.infos[p].name == s.px.infos[p].name
  {
    hide Free, RecordStays, Unsuspends;
  }

  lemma PopNames(s: Sys, t: Sys, r: Response, a: nat, b: nat)
    requires AllNamesDiffer(s.px) && PopMove(s, t, r, a, b)
    ensures AllNamesDiffer(t.px)
  {
    forall c | c in t.px.chains ensures NamesDiffer(t.px, t.px.chains[c]) {
      assert NamesDiffer(s.px, s.px.chains[c]);
    }
  }

  lemma MoveNames(env: Env, s: Sys, t: Sys, woken: set<nat>, out: Proxy.Outcome)
    requires Inv(env, t) && Moved(s, t, woken, out) && AllNamesDiffer(s.px)
    ensures AllNamesDiffer(t.px) <==> !(out.Sent? && NodeBelow(s.px, out.req.callId, out.callee))
  {
    hide Inv, StillMove, PushMove, PopMove, FlagsStay, FlagsPush, AllNamesDiffer, NodeBelow;
    if out.Sent? {
      PushNames(s, t, woken, out.req, out.callee);
    } else if StillMove(s, t) && FlagsStay(s, t, woken) {
      StillNames(env, s, t, woken);
    } else {
      var r, a, b :| PopMove(s, t, r, a, b);
      PopNames(s, t, r, a, b);
    }
  }

  /** From a state of a smooth run in which the names along every chain differ, a step
      keeps them so if and only if it forwards no request to a node that already has a
      process below the end of the request's chain. */
  lemma NamesAreExact(env: Env, states: seq<Sys>, events: seq<Event>, i: nat)
    requires IndexAgrees(env.cfg) && SmoothRun(env, states, events) && i < |events|
    requires AllNamesDiffer(states[i].px)
    ensures Enabled(env, states[i], events[i])
    ensures AllNamesDiffer(states[i + 1].px) <==> !Rejoins(env, states[i], events[i])
  {
    SmoothHere(env, states, events, i);
    assert Rejoins(env, states[i], events[i]) <==>
           var out := LastOutcome(env, states[i], events[i]);
           out.Sent? && NodeBelow(states[i].px, out.req.callId, out.callee);
    hide *;
    InvAlways(env, states, events, i);
    InvAlways(env, states, events, i + 1);
    SmoothMoves(env, states[i], events[i]);
    MoveNames(env, states[i], states[i + 1], Woken(states[i], events[i]), LastOutcome(env, states[i], events[i]));
  }

  lemma {:induction false} NamesUpTo(env: Env, states: seq<Sys>, events: seq<Event>, i: nat)
    requires IndexAgrees(env.cfg) && SmoothRun(env, states, events) && i < |states| == |events| + 1
    requires forall j :: 0 <= j < i ==> Enabled(env, states[j], events[j]) && !Rejoins(env, states[j], events[j])
    ensures AllNamesDiffer(states[i].px)
  {
    hide IndexAgrees, Rejoins, Enabled;
    if i == 0 {
      assert states[0] == Init;
    } else {
      hide SmoothRun, NamesDiffer;
      NamesUpTo(env, states, events, i - 1);
      NamesAreExact(env, states, events, i - 1);
    }
  }

  /** In a smooth run the names along every chain of every state differ if and only if no
      step forwards a request to a node with a process below the end of its chain. */
  lemma DistinctNamesAreExact(env: Env, states: seq<Sys>, events: seq<Event>)
    requires IndexAgrees(env.cfg) && SmoothRun(env, states, events)
    ensures forall i :: 0 <= i < |events| ==> Enabled(env, states[i], events[i])
    ensures (forall i :: 0 <= i < |states| ==> AllNamesDiffer(states[i].px))
       <==> (forall i :: 0 <= i < |events| ==> !Rejoins(env, states[i], events[i]))
  {
    assert |states| == |events| + 1;
    assert forall i :: 0 <= i < |events| ==> Enabled(env, states[i], events[i]);
    hide IndexAgrees, SmoothRun, Rejoins, AllNamesDiffer, Enabled;
    if forall i :: 0 <= i < |events| ==> !Rejoins(env, states[i], events[i]) {
      forall i | 0 <= i < |states| ensures AllNamesDiffer(states[i].px) {
        NamesUpTo(env, states, events, i);
      }
    }
    if forall i :: 0 <= i < |states| ==> AllNamesDiffer(states[i].px) {
      forall i | 0 <= i < |events| ensures !Rejoins(env, states[i], events[i]) {
        assert AllNamesDiffer(states[i].px) && AllNamesDiffer(states[i + 1].px);
        NamesAreExact(env, states, events, i);
      }
    }
  }
}
