/** Caching is exactly what takes a fault-free run out of the smooth ones: it is what
    puts a request of one actor into the backlog of another. */
module Exactness {
  import opened Protocol
  import opened S = System
  import opened Invariant
  import opened ActorNodes
  import opened ProxySteps
  import opened ForwardSteps
  import opened RecordSteps
  import opened SmoothSteps
  import opened SmoothRuns
  import opened SmoothInvariant
  import opened ResumeSteps
  import opened Moves
  import Directory
  import Proxy
  import Registry

  /** Every backlog holds requests of its own actor only. */
  ghost predicate OwnBacklogs(px: Proxy.State) {
    forall q, i :: q in px.infos && 0 <= i < |px.infos[q].queue| ==> px.infos[q].queue[i].pid == q
  }

  // ------------------------------------------------------------- a cached request

  lemma CachedQueue(env: Env, px: Proxy.State, r: Request, callee: nat)
    requires Proxy.Route(env.cfg.owner, px, r).1 == Proxy.Cached(r, callee)
    ensures var py := Proxy.Route(env.cfg.owner, px, r).0;
            && callee in py.infos && py.infos[callee].queue != []
            && py.infos[callee].queue[|py.infos[callee].queue| - 1] == r
  {
    hide Proxy.Least, Proxy.Loops;
  }

  lemma InvOwnBacklogs(env: Env, t: Sys)
    requires Inv(env, t)
    ensures OwnBacklogs(t.px)
  {
    hide Inv, NodeOK, PcOK;
    forall q, i | q in t.px.infos && 0 <= i < |t.px.infos[q].queue| ensures t.px.infos[q].queue[i].pid == q {
      NodeNamed(env, t, q);
      NodeAt(env, t, q);
      OwnBacklog(env, t.px, t.net, q, t.net[q], i);
    }
  }

  lemma OwnBacklog(env: Env, px: Proxy.State, net: map<nat, Node>, q: nat, n: Node, i: nat)
    requires NodeOK(env, px, net, q, n) && q in px.infos && i < |px.infos[q].queue|
    ensures px.infos[q].queue[i].pid == q
  {
    RequesterOf(env, px, net, q, n);
    hide UpOK, QueueOK, DownOK, JobOK, OweOK, AnswersOK, Free, IsTop, Awaited, Responding, NoAnswer;
  }

  lemma RequesterOf(env: Env, px: Proxy.State, net: map<nat, Node>, a: nat, n: Node)
    requires NodeOK(env, px, net, a, n)
    ensures n.proc.wait.Some? ==> n.proc.wait.value.pid == a
  {
    hide UpOK, QueueOK, DownOK, BacklogOK, OweOK, AnswersOK;
  }

  /** Whoever owns the service of a pending send is not its sender. */
  lemma CalleeDiffers(env: Env, px: Proxy.State, a: nat, n: Node, r: Request, callee: nat)
    requires IndexAgrees(env.cfg) && Registry.Registered(px) && a in px.infos && px.infos[a].name == n.proc.name
    requires r.pid == a && !Offers(env.cfg, n.proc.name, r.service)
    requires Proxy.Route(env.cfg.owner, px, r).1 == Proxy.Cached(r, callee)
    ensures callee != a
  {
    Registry.RouteOutcome(env.cfg.owner, px, r);
    hide Registry.Registered, Registry.Engaged, Proxy.Route;
  }

  lemma CachedBreaks(env: Env, t: Sys, px: Proxy.State, r: Request, callee: nat)
    requires Proxy.Route(env.cfg.owner, px, r).1 == Proxy.Cached(r, callee) && callee != r.pid
    requires t.px == Proxy.Route(env.cfg.owner, px, r).0
    ensures !OwnBacklogs(t.px)
  {
    hide Proxy.Route;
    CachedQueue(env, px, r, callee);
  }

  lemma DispatchedPx(s: Sys, h: nat, x: (Proxy.State, Proxy.Outcome))
    requires h in s.net
    ensures Dispatched(s, h, x, true, Done).px == x.0
  {
  }

  lemma ReadCached(env: Env, s: Sys, p: nat, r: Request)
    requires Inv(env, s) && IndexAgrees(env.cfg) && p in s.net && s.net[p].up != [] && s.net[p].up[0] == Req(r)
    requires Proxy.ReadRequest(env.cfg.owner, s.px, r).1.Cached?
    ensures !OwnBacklogs(S.ReadRequest(env, PopUp(s, p), p, r, true).px)
  {
    hide *;
    PopUpSame(s, p, p);
    RequestHead(env, s, p);
    ReadIs(env, s, p, r);
    ReadShape(env, s, p, r);
    NodeName(env, s, p);
    NodeAt(env, s, p);
    RequesterJob(env, s.px, s.net, p, s.net[p]);
    InvListed(env, s);
    SoundRoot(s.px, r.callId, p);
    var px2 := Proxy.Root(s.px, r.callId, p);
    var x := Proxy.Route(env.cfg.owner, px2, r);
    CachedIs(env, px2, r);
    CalleeDiffers(env, px2, p, s.net[p], r, x.1.callee);
    DispatchedPx(Held(s, p, r).(hist := s.hist.(read := s.hist.read + multiset{r})), p, x);
    CachedBreaks(env, S.ReadRequest(env, PopUp(s, p), p, r, true), px2, r, x.1.callee);
  }

  lemma SoundRoot(px: Proxy.State, c: Text, p: nat)
    requires Registry.Sound(px) && p in px.infos
    ensures Registry.Registered(Proxy.Root(px, c, p)) && Proxy.Root(px, c, p).infos == px.infos
  {
    Registry.RootKeeps(px, c, p);
    hide Registry.Registered, Registry.Resolved, Proxy.Root;
  }

  lemma CachedIs(env: Env, px: Proxy.State, r: Request)
    requires Proxy.Route(env.cfg.owner, px, r).1.Cached?
    ensures Proxy.Route(env.cfg.owner, px, r).1 == Proxy.Cached(r, Proxy.Route(env.cfg.owner, px, r).1.callee)
  {
    hide Proxy.Least, Proxy.Loops;
  }

  lemma FreedSound(env: Env, s: Sys, h: nat, a: nat, c: Text)
    requires Inv(env, s) && Answers(s, h, a)
    ensures Registry.Registered(Freed(s.px, a, c))
    ensures a in Freed(s.px, a, c).infos && Freed(s.px, a, c).infos[a].name == s.px.infos[a].name
  {
    ReleasedListed(env, s, h, a, c);
    hide Inv, Registry.Registered, Registry.Resolved, Answers;
  }

  lemma ReleasedListed(env: Env, s: Sys, h: nat, a: nat, c: Text)
    requires Inv(env, s) && Answers(s, h, a)
    ensures Registry.Sound(Freed(s.px, a, c))
  {
    hide Inv, Registry.Sound, Directory.NodeListed, NodeOK, ChainOK;
    FreedParts(env, s, h, a, c);
  }

  lemma WakeCached(env: Env, s: Sys, h: nat, a: nat)
    requires Inv(env, s) && IndexAgrees(env.cfg) && Answers(s, h, a)
    requires WakeOutcome(env, s.px, s.net[h].pc.callId).Cached?
    ensures !OwnBacklogs(WakeCaller(env, s, h, s.net[h].pc.callId, true).px)
  {
    AnswersParts(s, h, a);
    var c := s.net[h].pc.callId;
    hide *;
    if s.px.infos[a].queue == [] {
      WakeNothing(env, s.px, a, c);
    } else {
      var r := s.px.infos[a].queue[0];
      FreedReady(env, s, h, a, c);
      WakeBusyIs(env, s, h, a, c, r);
      BacklogWaits(env, s, a);
      NodeAt(env, s, a);
      NodeName(env, s, a);
      RequesterJob(env, s.px, s.net, a, s.net[a]);
      FreedSound(env, s, h, a, c);
      var px := Freed(s.px, a, c);
      CachedIs(env, px, r);
      CalleeDiffers(env, px, a, s.net[a], r, Proxy.Route(env.cfg.owner, px, r).1.callee);
      DispatchedPx(s, h, Proxy.Route(env.cfg.owner, px, r));
      CachedBreaks(env, WakeCaller(env, s, h, c, true), px, r, Proxy.Route(env.cfg.owner, px, r).1.callee);
    }
  }

  lemma BacklogWaits(env: Env, s: Sys, a: nat)
    requires Inv(env, s) && a in s.net && a in s.px.infos && s.px.infos[a].queue != []
    ensures s.net[a].proc.wait == Some(s.px.infos[a].queue[0])
  {
    hide Inv, UpOK, QueueOK, DownOK, JobOK, OweOK, AnswersOK, PcOK, Free, IsTop, Awaited, Responding, NoAnswer;
    NodeAt(env, s, a);
  }

  lemma ResumeCached(env: Env, s: Sys, h: nat)
    requires Inv(env, s) && IndexAgrees(env.cfg) && Enabled(env, s, Resume(h, true)) && !Direct(env, s, Resume(h, true))
    ensures !OwnBacklogs(ResumeStep(env, s, h, true).px)
  {
    hide *;
    ResumeCachedIs(env, s, h);
    var u := s.(px := Proxy.Update(s.px, h, [], false));
    LowerStep(env, s, h, []);
    AnswersTop(env, u, h);
    var ch := u.px.chains[u.net[h].pc.callId];
    WakeCached(env, u, h, ch[|ch| - 1]);
  }

  lemma NotDirectMeans(env: Env, s: Sys, h: nat, out: Proxy.Outcome)
    requires Enabled(env, s, Resume(h, true)) && !Direct(env, s, Resume(h, true))
    requires Outcomes(env, s, Resume(h, true)) == [Proxy.Quiet, out]
    ensures out.Cached?
  {
    hide Outcomes;
  }

  lemma NoOutcomes(env: Env, s: Sys, h: nat)
    requires h in s.net && s.net[h].pc.Sending? && s.net[h].pc.after.Done?
    ensures Enabled(env, s, Resume(h, true)) && Direct(env, s, Resume(h, true))
  {
  }

  lemma ResumeCachedIs(env: Env, s: Sys, h: nat)
    requires Inv(env, s) && Enabled(env, s, Resume(h, true)) && !Direct(env, s, Resume(h, true))
    ensures h in s.net && s.net[h].pc.Answering? && h in s.px.infos
    ensures WakeOutcome(env, Proxy.Update(s.px, h, [], false), s.net[h].pc.callId).Cached?
    ensures ResumeStep(env, s, h, true) ==
            WakeCaller(env, s.(px := Proxy.Update(s.px, h, [], false)), h, s.net[h].pc.callId, true)
  {
    ResumableAt(env, s, h);
    hide *;
    if s.net[h].pc.Sending? {
      NotAlone(env, s, h);
      NoOutcomes(env, s, h);
    } else {
      AnsweringAt(env, s, h);
      AnsweringOutcomes(env, s, h);
      NotDirectMeans(env, s, h, WakeOutcome(env, Proxy.Update(s.px, h, [], false), s.net[h].pc.callId));
      WakeSelfIs(env, s, h);
    }
  }

  lemma ResumableAt(env: Env, s: Sys, h: nat)
    requires Enabled(env, s, Resume(h, true))
    ensures h in s.net && !s.net[h].pc.Reading?
  {
  }

  lemma NotAlone(env: Env, s: Sys, h: nat)
    requires Inv(env, s) && h in s.net && s.net[h].pc.Sending?
    ensures s.net[h].pc.after.Done?
  {
    hide Inv, NodeOK;
    NodeAt(env, s, h);
  }

  // ----------------------------------------------------------------- the theorem

  lemma ReadUpCached(env: Env, s: Sys, p: nat)
    requires Inv(env, s) && IndexAgrees(env.cfg) && Enabled(env, s, ReadUp(p, true)) && !Direct(env, s, ReadUp(p, true))
    ensures !OwnBacklogs(ReadUpStep(env, s, p, true).px)
  {
    hide Inv, IndexAgrees, S.ReadRequest, S.ReadResponse, PopUp, Proxy.ReadRequest, OwnBacklogs;
    match s.net[p].up[0]
    case Req(r) =>
      assert Outcomes(env, s, ReadUp(p, true)) == [Proxy.ReadRequest(env.cfg.owner, s.px, r).1];
      ReadCached(env, s, p, r);
    case Resp(_) =>
  }

  lemma OthersDirect(env: Env, s: Sys, e: Event)
    requires Enabled(env, s, e) && !e.ReadUp? && !e.Resume?
    ensures Direct(env, s, e)
  {
  }

  lemma CachingShows(env: Env, s: Sys, e: Event)
    requires Inv(env, s) && IndexAgrees(env.cfg) && Enabled(env, s, e) && FaultFree(e) && !Direct(env, s, e)
    ensures !OwnBacklogs(Apply(env, s, e).px)
  {
    hide Inv, IndexAgrees, Direct, ReadUpStep, ResumeStep, OwnBacklogs;
    match e {
      case ReadUp(p, ok) => ReadUpCached(env, s, p);
      case Resume(p, ok) => ResumeCached(env, s, p);
      case _ => OthersDirect(env, s, e);
    }
  }

  /** From a state of a smooth run, a fault-free step keeps every request in the backlog
      of its own actor, and with that the invariant, if and only if it is direct. */
  lemma DirectIsExact(env: Env, s: Sys, e: Event)
    requires Inv(env, s) && IndexAgrees(env.cfg) && Enabled(env, s, e) && FaultFree(e) && NoWrap(s, e)
    ensures OwnBacklogs(Apply(env, s, e).px) <==> Direct(env, s, e)
    ensures Inv(env, Apply(env, s, e)) <==> Direct(env, s, e)
  {
    hide Inv, IndexAgrees, Direct, FaultFree, NoWrap, Enabled, Apply, OwnBacklogs;
    var t := Apply(env, s, e);
    if Inv(env, t) {
      InvOwnBacklogs(env, t);
    }
    if Direct(env, s, e) {
      InvKept(env, s, e);
    } else {
      CachingShows(env, s, e);
    }
  }

  /** A run whose writes all succeed and whose call ids do not wrap around. */
  ghost predicate FaultFreeRun(env: Env, states: seq<Sys>, events: seq<Event>) {
    && Run(env, states, events)
    && forall i :: 0 <= i < |events| ==>
         Enabled(env, states[i], events[i]) && FaultFree(events[i]) && NoWrap(states[i], events[i])
  }

  lemma FaultFreeAt(env: Env, states: seq<Sys>, events: seq<Event>, i: nat)
    requires FaultFreeRun(env, states, events) && i < |events|
    ensures |states| == |events| + 1 && states[0] == Init && states[i + 1] == Apply(env, states[i], events[i])
    ensures Enabled(env, states[i], events[i]) && FaultFree(events[i]) && NoWrap(states[i], events[i])
  {
    hide Apply, Enabled, FaultFree, NoWrap;
  }

  /** As long as no request is cached the invariant holds, and the other way round. */
  lemma {:induction false} InvWhileDirect(env: Env, states: seq<Sys>, events: seq<Event>, i: nat)
    requires IndexAgrees(env.cfg) && FaultFreeRun(env, states, events) && i < |states| == |events| + 1
    requires || (forall j :: 0 <= j < i ==> Enabled(env, states[j], events[j]) && Direct(env, states[j], events[j]))
             || (forall j :: 0 <= j <= i ==> OwnBacklogs(states[j].px))
    ensures Inv(env, states[i])
  {
    hide Inv, IndexAgrees, Direct, FaultFree, NoWrap, Enabled, Apply, OwnBacklogs, FaultFreeRun;
    if i == 0 {
      if events != [] {
        FaultFreeAt(env, states, events, 0);
      } else {
        StartsAtInit(env, states, events);
      }
      InvInit(env);
    } else {
      InvWhileDirect(env, states, events, i - 1);
      FaultFreeAt(env, states, events, i - 1);
      DirectIsExact(env, states[i - 1], events[i - 1]);
    }
  }

  lemma StartsAtInit(env: Env, states: seq<Sys>, events: seq<Event>)
    requires FaultFreeRun(env, states, events)
    ensures |states| == |events| + 1 && states[0] == Init
  {
  }

  ghost predicate AllDirect(env: Env, states: seq<Sys>, events: seq<Event>)
    requires |states| == |events| + 1
  {
    forall i :: 0 <= i < |events| ==> Enabled(env, states[i], events[i]) && Direct(env, states[i], events[i])
  }

  /** In a fault-free run no request is ever cached if and only if in every state every
      backlog holds requests of its own actor only. */
  lemma OwnBacklogsIsExact(env: Env, states: seq<Sys>, events: seq<Event>)
    requires IndexAgrees(env.cfg) && FaultFreeRun(env, states, events)
    ensures |states| == |events| + 1
    ensures (forall i :: 0 <= i < |states| ==> OwnBacklogs(states[i].px)) <==> AllDirect(env, states, events)
  {
    StartsAtInit(env, states, events);
    hide Inv, IndexAgrees, Direct, FaultFree, NoWrap, Enabled, Apply, OwnBacklogs, FaultFreeRun;
    if AllDirect(env, states, events) {
      forall i | 0 <= i < |states| ensures OwnBacklogs(states[i].px) {
        InvWhileDirect(env, states, events, i);
        InvOwnBacklogs(env, states[i]);
      }
    }
    if forall i :: 0 <= i < |states| ==> OwnBacklogs(states[i].px) {
      forall i | 0 <= i < |events| ensures Enabled(env, states[i], events[i]) && Direct(env, states[i], events[i]) {
        InvWhileDirect(env, states, events, i);
        FaultFreeAt(env, states, events, i);
        DirectIsExact(env, states[i], events[i]);
      }
    }
  }
}
