/** Every frame above the root of a chain was pushed for the request that the actor
    below it is suspended in: so a response goes back to precisely the process whose
    request pushed the frame it pops. */
module Provenance {
  import opened Protocol
  import opened S = System
  import opened Invariant
  import opened ActorSteps
  import opened ActorNodes
  import opened ReplySteps
  import opened SmoothRuns
  import opened SmoothInvariant
  import opened Moves
  import opened CallSemantics
  import Foreign
  import Proxy

  /** The step from `s` to `t` sent `r` and so made chain `r.callId` into `stack`. */
  ghost predicate Pushes(s: Sys, t: Sys, r: Request, stack: seq<nat>) {
    && |stack| >= 2 && PushMove(s, t, r, stack[|stack| - 1]) && r.pid == stack[|stack| - 2]
    && r.callId in t.px.chains && t.px.chains[r.callId] == stack
  }

  /** Frame `k` of the chain `ch` of call `c` was pushed by the step from `s` to `t`
      for what the actor below it waits for. */
  ghost predicate PushedFor(s: Sys, t: Sys, net: map<nat, Node>, c: Text, ch: seq<nat>, k: nat) {
    && 1 <= k < |ch| && ch[k - 1] in net && net[ch[k - 1]].proc.wait.Some?
    && net[ch[k - 1]].proc.wait.value.callId == c
    && Pushes(s, t, net[ch[k - 1]].proc.wait.value, ch[..k + 1])
  }

  /** Step `j` pushed frame `k` of chain `c` of state `i`. */
  ghost predicate Owned(states: seq<Sys>, i: nat, j: nat, c: Text, k: nat)
    requires i < |states|
  {
    && j < i && c in states[i].px.chains
    && PushedFor(states[j], states[j + 1], states[i].net, c, states[i].px.chains[c], k)
  }

  // ------------------------------------------------------------ waits that last

  lemma ReceiveWait(n: Node)
    requires n.down != [] && NoAnswer(n.down)
    ensures ReceiveNode(n).proc.wait == n.proc.wait
  {
  }

  lemma ActorWait(env: Env, s: Sys, e: Event, p: nat)
    requires Enabled(env, s, e) && (e.Connect? || e.Arrive? || e.HangUp? || e.Receive? || e.Take? || e.Act?)
    requires p in s.net && s.net[p].proc.wait.Some? && NoAnswer(s.net[p].down)
    ensures p in Apply(env, s, e).net && Apply(env, s, e).net[p].proc.wait == s.net[p].proc.wait
  {
    hide ActNode, TakeNode, ReceiveNode, NoAnswer;
    if e.Receive? && e.p == p {
      ReceiveWait(s.net[p]);
    }
    if e.Take? && e.p == p {
      TakeFields(env, s.net[p]);
    }
  }

  lemma ProxyWait(env: Env, s: Sys, e: Event)
    requires Enabled(env, s, e) && (e.ReadUp? || e.Resume?)
    ensures var t := Apply(env, s, e);
            t.net.Keys == s.net.Keys && forall p :: p in s.net ==> t.net[p].proc == s.net[p].proc
  {
    hide S.ReadRequest, ReadResponse, ResumeStep;
    match e
    case ReadUp(p, ok) =>
      match s.net[p].up[0] {
        case Req(r) => Foreign.ReadRequestUntouched(env, PopUp(s, p), p, r, ok);
        case Resp(r) => Foreign.ReadResponseUntouched(PopUp(s, p), p, r, ok);
      }
    case Resume(p, ok) => Foreign.ResumeUntouched(env, s, p, ok);
  }

  /** The send of an actor below the top of a chain stays pending. */
  lemma SuspendedWait(env: Env, s: Sys, e: Event, c: Text, p: nat)
    requires Enabled(env, s, e) && Suspended(s.px, s.net, c, p)
    ensures p in Apply(env, s, e).net && Apply(env, s, e).net[p].proc.wait == s.net[p].proc.wait
  {
    hide Apply, NoAnswer, Enabled;
    if e.ReadUp? || e.Resume? {
      ProxyWait(env, s, e);
    } else {
      ActorWait(env, s, e, p);
    }
  }

  /** Requests are sent by the proxy's own steps only. */
  lemma ActorSendsNothing(env: Env, s: Sys, e: Event)
    requires Enabled(env, s, e) && (e.Connect? || e.Arrive? || e.HangUp? || e.Receive? || e.Take? || e.Act?)
    ensures Apply(env, s, e).hist == s.hist
  {
    hide ActNode, TakeNode, ReceiveNode;
  }

  lemma PushWait(env: Env, s: Sys, e: Event, r: Request, callee: nat)
    requires Enabled(env, s, e) && PushMove(s, Apply(env, s, e), r, callee)
    ensures var t := Apply(env, s, e); r.pid in t.net && t.net[r.pid].proc.wait == Some(r)
  {
    PushSent(s, Apply(env, s, e), r, callee);
    hide Apply, Enabled, PushMove;
    if e.ReadUp? || e.Resume? {
      ProxyWait(env, s, e);
    } else {
      ActorSendsNothing(env, s, e);
    }
  }

  lemma PushSent(s: Sys, t: Sys, r: Request, callee: nat)
    requires PushMove(s, t, r, callee)
    ensures r.pid in s.net && s.net[r.pid].proc.wait == Some(r) && t.hist.sent != s.hist.sent
  {
    assert t.hist.sent[r] == s.hist.sent[r] + 1;
  }

  // ------------------------------------------------------------ frames that last

  lemma PushedChainIs(s: Sys, t: Sys, r: Request, callee: nat)
    requires PushMove(s, t, r, callee)
    ensures r.callId in t.px.chains
    ensures var ch := t.px.chains[r.callId];
            && |ch| >= 2 && ch[|ch| - 1] == callee && ch[|ch| - 2] == r.pid
            && (|ch| > 2 ==> r.callId in s.px.chains && s.px.chains[r.callId] == ch[..|ch| - 1])
    ensures forall d :: d != r.callId ==>
              (d in t.px.chains <==> d in s.px.chains) && Proxy.Chain(t.px, d) == Proxy.Chain(s.px, d)
  {
  }

  /** Chain `c` up to frame `k` is the same in both states. */
  predicate SamePrefix(s: Sys, t: Sys, c: Text, k: nat) {
    && c in s.px.chains && k < |s.px.chains[c]| && c in t.px.chains && k < |t.px.chains[c]|
    && t.px.chains[c][..k + 1] == s.px.chains[c][..k + 1]
  }

  /** A frame that was there before keeps its owner. */
  lemma OwnedLasts(env: Env, s: Sys, e: Event, s0: Sys, t0: Sys, c: Text, k: nat)
    requires Enabled(env, s, e) && Inv(env, s) && c in s.px.chains
    requires PushedFor(s0, t0, s.net, c, s.px.chains[c], k)
    requires SamePrefix(s, Apply(env, s, e), c, k)
    ensures var t := Apply(env, s, e); PushedFor(s0, t0, t.net, c, t.px.chains[c], k)
  {
    var t := Apply(env, s, e);
    var p := s.px.chains[c][k - 1];
    assert t.px.chains[c][k - 1] == t.px.chains[c][..k + 1][k - 1] == s.px.chains[c][..k + 1][k - 1] == p;
    hide Inv, Pushes, Apply, Enabled, Suspended;
    InBodyAt(s.px, c, k - 1);
    SuspendedAt(env, s, c, p);
    SuspendedWait(env, s, e, c, p);
  }

  lemma PushesNow(s: Sys, t: Sys, r: Request, callee: nat)
    requires PushMove(s, t, r, callee)
    ensures r.callId in t.px.chains && Pushes(s, t, r, t.px.chains[r.callId])
    ensures r.pid in s.net
  {
    PushedChainIs(s, t, r, callee);
    PushSent(s, t, r, callee);
    hide PushMove;
  }

  lemma OwnedNow(env: Env, s: Sys, e: Event, r: Request, callee: nat)
    requires Enabled(env, s, e) && PushMove(s, Apply(env, s, e), r, callee)
    ensures var t := Apply(env, s, e);
            && r.callId in t.px.chains && t.px.chains[r.callId] != []
            && PushedFor(s, t, t.net, r.callId, t.px.chains[r.callId], |t.px.chains[r.callId]| - 1)
  {
    var t := Apply(env, s, e);
    hide PushMove, Apply, Enabled;
    PushWait(env, s, e, r, callee);
    PushesNow(s, t, r, callee);
    var ch := t.px.chains[r.callId];
    assert ch[..|ch|] == ch;
  }

  lemma PopPrefix(s: Sys, t: Sys, r: Response, a: nat, b: nat, c: Text, k: nat)
    requires PopMove(s, t, r, a, b) && c in t.px.chains && k < |t.px.chains[c]|
    ensures c in s.px.chains && k < |s.px.chains[c]| && t.px.chains[c][..k + 1] == s.px.chains[c][..k + 1]
  {
  }

  lemma StillPrefix(s: Sys, t: Sys, c: Text, k: nat)
    requires StillMove(s, t) && c in t.px.chains && 1 <= k < |t.px.chains[c]|
    ensures c in s.px.chains && t.px.chains[c] == s.px.chains[c]
  {
    hide FewerAnswering;
  }

  lemma PushPrefix(s: Sys, t: Sys, r: Request, callee: nat, c: Text, k: nat)
    requires PushMove(s, t, r, callee) && c in t.px.chains && 1 <= k < |t.px.chains[c]|
    requires !(c == r.callId && k == |t.px.chains[c]| - 1)
    ensures c in s.px.chains && k < |s.px.chains[c]| && t.px.chains[c][..k + 1] == s.px.chains[c][..k + 1]
  {
    PushedChainIs(s, t, r, callee);
    hide PushMove;
  }

  lemma MovedPrefix(s: Sys, t: Sys, woken: set<nat>, out: Proxy.Outcome, c: Text, k: nat)
    requires Moved(s, t, woken, out) && c in t.px.chains && 1 <= k < |t.px.chains[c]|
    ensures SamePrefix(s, t, c, k)
         || exists r, callee :: PushMove(s, t, r, callee) && c == r.callId && k == |t.px.chains[c]| - 1
  {
    hide StillMove, PushMove, PopMove, FlagsStay, FlagsPush;
    if out.Sent? {
      if !(c == out.req.callId && k == |t.px.chains[c]| - 1) {
        PushPrefix(s, t, out.req, out.callee, c, k);
      }
    } else if StillMove(s, t) {
      StillPrefix(s, t, c, k);
    } else {
      var r, a, b :| PopMove(s, t, r, a, b);
      PopPrefix(s, t, r, a, b, c, k);
    }
  }

  lemma SmoothAt(env: Env, states: seq<Sys>, events: seq<Event>, i: nat)
    requires SmoothRun(env, states, events) && i < |events|
    ensures Run(env, states, events) && |states| == |events| + 1
    ensures Enabled(env, states[i], events[i]) && Smooth(env, states[i], events[i])
    ensures states[i + 1] == Apply(env, states[i], events[i])
  {
    hide Apply, Enabled, Smooth;
  }

  /** A frame was there before the step, or the step pushed it. */
  lemma StepOwned(env: Env, s: Sys, e: Event, c: Text, k: nat)
    requires Inv(env, s) && IndexAgrees(env.cfg) && Enabled(env, s, e) && Smooth(env, s, e)
    requires c in Apply(env, s, e).px.chains && 1 <= k < |Apply(env, s, e).px.chains[c]|
    ensures var t := Apply(env, s, e); SamePrefix(s, t, c, k) || PushedFor(s, t, t.net, c, t.px.chains[c], k)
  {
    hide Inv, IndexAgrees, PushedFor, PushMove, Moved, Apply, Enabled, Smooth, SamePrefix, LastOutcome, Woken;
    var t := Apply(env, s, e);
    SmoothMoves(env, s, e);
    MovedPrefix(s, t, Woken(s, e), LastOutcome(env, s, e), c, k);
    if !SamePrefix(s, t, c, k) {
      var r, callee :| PushMove(s, t, r, callee) && c == r.callId && k == |t.px.chains[c]| - 1;
      OwnedNow(env, s, e, r, callee);
    }
  }

  lemma NotAtFirst(env: Env, states: seq<Sys>, events: seq<Event>, c: Text)
    requires SmoothRun(env, states, events)
    ensures |states| == |events| + 1 && c !in states[0].px.chains
  {
  }

  /** In every state of a smooth run, every frame above a root was pushed, at some
      step `j`, by the very request that the actor below it is suspended in. */
  lemma {:induction false} FramesOwned(env: Env, states: seq<Sys>, events: seq<Event>, i: nat, c: Text, k: nat)
    returns (j: nat)
    requires IndexAgrees(env.cfg) && SmoothRun(env, states, events) && i < |states|
    requires c in states[i].px.chains && 1 <= k < |states[i].px.chains[c]|
    ensures Owned(states, i, j, c, k)
    decreases i
  {
    hide Inv, IndexAgrees, PushedFor, Apply, Enabled, Smooth, SmoothRun, Run;
    NotAtFirst(env, states, events, c);
    InvAlways(env, states, events, i - 1);
    SmoothAt(env, states, events, i - 1);
    StepOwned(env, states[i - 1], events[i - 1], c, k);
    if SamePrefix(states[i - 1], states[i], c, k) {
      j := FramesOwned(env, states, events, i - 1, c, k);
      OwnedLasts(env, states[i - 1], events[i - 1], states[j], states[j + 1], c, k);
    } else {
      j := i - 1;
    }
  }

  /** The actor that a response returns to made, at step `j`, the request that
      pushed the frame popped by the response. */
  lemma RequesterPushed(env: Env, states: seq<Sys>, events: seq<Event>, i: nat, resp: Response, b: nat, a: nat)
    returns (r: Request, j: nat)
    requires IndexAgrees(env.cfg) && SmoothRun(env, states, events) && i < |states|
    requires EndsIn(states[i].px, resp.callId, a, b)
    ensures a in states[i].net && r.pid == a && states[i].net[a].proc.wait == Some(r)
    ensures j < i && Pushes(states[j], states[j + 1], r, states[i].px.chains[resp.callId])
  {
    hide *;
    EndsAt(states[i].px, resp.callId, a, b);
    j := FramesOwned(env, states, events, i, resp.callId, |states[i].px.chains[resp.callId]| - 1);
    OwnedTop(states, i, j, resp.callId, a);
    OwnedBefore(env, states, events, i, j, resp.callId, |states[i].px.chains[resp.callId]| - 1);
    r := states[i].net[a].proc.wait.value;
  }

  lemma EndsAt(px: Proxy.State, c: Text, a: nat, b: nat)
    requires EndsIn(px, c, a, b)
    ensures c in px.chains && |px.chains[c]| >= 2 && px.chains[c][|px.chains[c]| - 2] == a
  {
  }

  lemma OwnedBefore(env: Env, states: seq<Sys>, events: seq<Event>, i: nat, j: nat, c: Text, k: nat)
    requires i < |states| && Owned(states, i, j, c, k)
    ensures j + 1 < |states|
  {
    hide PushedFor;
  }

  /** A RESPONSE goes back to precisely the process whose request pushed, at step
      `j`, the frame it pops; and in that request the process is still suspended. */
  lemma ResponseGoesToRequester(env: Env, states: seq<Sys>, events: seq<Event>, i: nat, b: nat, resp: Response)
    returns (a: nat, r: Request, j: nat)
    requires IndexAgrees(env.cfg) && SmoothRun(env, states, events) && i < |events|
    requires events[i].ReadUp? && events[i].p == b && b in states[i].net
    requires states[i].net[b].up != [] && states[i].net[b].up[0] == Resp(resp)
    ensures ReturnsTo(env, states[i], states[i + 1], b, resp, a)
    ensures a in states[i].net && r.pid == a && states[i].net[a].proc.wait == Some(r)
    ensures j < i && Pushes(states[j], states[j + 1], r, states[i].px.chains[resp.callId])
  {
    hide *;
    SmoothAt(env, states, events, i);
    a := ResponseMatched(env, states, events, i, b);
    ReturnsChain(env, states[i], states[i + 1], b, resp, a);
    r, j := RequesterPushed(env, states, events, i, resp, b, a);
  }

  lemma OwnedTop(states: seq<Sys>, i: nat, j: nat, c: Text, a: nat)
    requires i < |states| && c in states[i].px.chains && |states[i].px.chains[c]| >= 2
    requires states[i].px.chains[c][|states[i].px.chains[c]| - 2] == a
    requires Owned(states, i, j, c, |states[i].px.chains[c]| - 1)
    ensures j < i && a in states[i].net && states[i].net[a].proc.wait.Some?
    ensures states[i].net[a].proc.wait.value.pid == a
    ensures Pushes(states[j], states[j + 1], states[i].net[a].proc.wait.value, states[i].px.chains[c])
  {
    hide PushMove;
    var ch := states[i].px.chains[c];
    assert ch[..|ch|] == ch;
  }

  lemma ReturnsChain(env: Env, s: Sys, t: Sys, b: nat, r: Response, a: nat)
    requires ReturnsTo(env, s, t, b, r, a)
    ensures EndsIn(s.px, r.callId, a, b) && r.callId in s.px.chains
  {
  }
}
