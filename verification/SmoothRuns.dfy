/** Smooth steps: direct (no request is cached behind a waiting callee), fault-free
    and without a call-id wrap-around. Timely steps: no wake-up comes too late. */
module SmoothRuns {
  import opened Protocol
  import opened S = System
  import opened Invariant
  import Proxy

  function WakeOutcome(env: Env, px: Proxy.State, c: Text): Proxy.Outcome {
    var chain := Proxy.Chain(px, c);
    if chain == [] then Proxy.Quiet else
      var q := chain[|chain| - 1];
      Proxy.Dispatch(env.cfg.owner, Proxy.Update(px, q, c, false), q).1
  }

  /** How the dispatches of a step end, in order. */
  function Outcomes(env: Env, s: Sys, e: Event): seq<Proxy.Outcome>
    requires Enabled(env, s, e)
  {
    match e
    case ReadUp(p, _) =>
      (match s.net[p].up[0]
       case Req(req) => [Proxy.ReadRequest(env.cfg.owner, s.px, req).1]
       case Resp(_) => [])
    case Resume(p, _) =>
      (match s.net[p].pc
       case Reading => []
       case Answering(self, c) =>
         var r := Proxy.Dispatch(env.cfg.owner, Proxy.Update(s.px, self, [], false), self);
         if r.1.Sent? then [r.1] else [r.1, WakeOutcome(env, r.0, c)]
       case Sending(req, callee, sent, after) =>
         if after.Done? then []
         else [WakeOutcome(env, if sent then s.px else Proxy.WriteFailed(s.px, req, callee), after.callId)])
    case _ => []
  }

  function WakeFinds(px: Proxy.State, c: Text): Proxy.State {
    var chain := Proxy.Chain(px, c);
    if chain == [] then px else Proxy.Update(px, chain[|chain| - 1], c, false)
  }

  /** The proxy's records as each of these dispatches finds them. */
  function Found(env: Env, s: Sys, e: Event): (found: seq<Proxy.State>)
    requires Enabled(env, s, e)
    ensures |found| == |Outcomes(env, s, e)|
  {
    match e
    case ReadUp(p, _) =>
      (match s.net[p].up[0]
       case Req(req) => [Proxy.Enqueue(Proxy.Root(s.px, req.callId, req.pid), req.pid, req)]
       case Resp(_) => [])
    case Resume(p, _) =>
      (match s.net[p].pc
       case Reading => []
       case Answering(self, c) =>
         var px1 := Proxy.Update(s.px, self, [], false);
         var r := Proxy.Dispatch(env.cfg.owner, px1, self);
         if r.1.Sent? then [px1] else [px1, WakeFinds(r.0, c)]
       case Sending(req, callee, sent, after) =>
         if after.Done? then []
         else [WakeFinds(if sent then s.px else Proxy.WriteFailed(s.px, req, callee), after.callId)])
    case _ => []
  }

  /** How the last dispatch of a step ends. */
  function LastOutcome(env: Env, s: Sys, e: Event): Proxy.Outcome
    requires Enabled(env, s, e)
  {
    var outs := Outcomes(env, s, e);
    if outs == [] then Proxy.Quiet else outs[|outs| - 1]
  }

  /** The branch at src/coro_actor.cpp:679 is not taken. */
  predicate Direct(env: Env, s: Sys, e: Event)
    requires Enabled(env, s, e)
  {
    forall i :: 0 <= i < |Outcomes(env, s, e)| ==> !Outcomes(env, s, e)[i].Cached?
  }

  lemma DirectRead(env: Env, s: Sys, p: nat)
    requires Enabled(env, s, ReadUp(p, true)) && Direct(env, s, ReadUp(p, true))
    ensures p in s.net && s.net[p].up != [] && s.net[p].pc.Reading?
    ensures s.net[p].up[0].Req? ==>
              var out := Proxy.ReadRequest(env.cfg.owner, s.px, s.net[p].up[0].req).1;
              !out.Cached? && LastOutcome(env, s, ReadUp(p, true)) == out
    ensures s.net[p].up[0].Resp? ==> LastOutcome(env, s, ReadUp(p, true)).Quiet?
  {
    hide Proxy.ReadRequest;
    if s.net[p].up[0].Req? {
      assert !Outcomes(env, s, ReadUp(p, true))[0].Cached?;
    }
  }

  /** The write of the proxy that the step starts, if any, succeeds. Those of the actors
      may fail: the answer to a client that hung up, or a request to the proxy. */
  predicate FaultFree(e: Event) {
    match e
    case ReadUp(_, ok) => ok
    case Resume(_, ok) => ok
    case _ => true
  }

  /** Fewer than 2^32 root calls per process. */
  predicate NoWrap(s: Sys, e: Event) {
    e.Act? && e.p in s.net ==> s.net[e.p].proc.seq_ + 1 < 0x1_0000_0000
  }

  ghost predicate Smooth(env: Env, s: Sys, e: Event)
    requires Enabled(env, s, e)
  {
    Direct(env, s, e) && FaultFree(e) && NoWrap(s, e)
  }

  ghost predicate SmoothRun(env: Env, states: seq<Sys>, events: seq<Event>) {
    && Run(env, states, events)
    && forall i :: 0 <= i < |events| ==> Enabled(env, states[i], events[i]) && Smooth(env, states[i], events[i])
  }

  /** The end of chain `c` may be let go: its record does not count as waiting, under
      another id, below the end of the chain of that id. */
  predicate MayLetGo(px: Proxy.State, c: Text) {
    var chain := Proxy.Chain(px, c);
    chain == [] ||
    var q := chain[|chain| - 1];
    !(q in px.infos && px.infos[q].waiting && px.infos[q].callId != c && InBody(px, px.infos[q].callId, q))
  }

  /** Whom line 614 lets go does not wait on another call. */
  predicate Timely(s: Sys, e: Event) {
    match e
    case Resume(p, _) =>
      p in s.net && s.net[p].pc.Answering? ==>
        MayLetGo(Proxy.Update(s.px, s.net[p].pc.self, [], false), s.net[p].pc.callId)
    case _ => true
  }

  ghost predicate TimelyRun(env: Env, states: seq<Sys>, events: seq<Event>) {
    SmoothRun(env, states, events) && forall i :: 0 <= i < |events| ==> Timely(states[i], events[i])
  }
}
