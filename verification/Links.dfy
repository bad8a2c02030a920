/** The links between the proxy and the actor processes, over whole runs: what is written
    on one, in order, is what has been read from it and what is still under way. And where
    the proxy's handlers are suspended (src/coro_actor.cpp:490-705, 856-920). */
module Links {
  import opened Protocol
  import opened S = System
  import opened SmoothRuns
  import opened Actions
  import Journal
  import Provenance
  import Proxy

  // ----------------------------------------------------- what a step writes and reads

  /** What the step writes on the link to `p`: a response for the process below the one
      that answered, or a request for the process it was routed to. */
  function WrittenTo(env: Env, s: Sys, e: Event, p: nat): seq<Frame>
    requires Enabled(env, s, e)
  {
    var out := LastOutcome(env, s, e);
    if p !in s.net then []
    else if out.Sent? && (e.ReadUp? || e.Resume?) then
      if e.ok && out.callee == p then [Req(out.req)] else []
    else if e.ReadUp? && e.ok && s.net[e.p].up[0].Resp? then
      var r := s.net[e.p].up[0].resp;
      var chain := Proxy.Chain(s.px, r.callId);
      if |chain| >= 2 && chain[|chain| - 2] == p then [Resp(r)] else []
    else []
  }

  /** What the service of `p` writes on the link from it. */
  function WrittenBy(env: Env, s: Sys, e: Event, p: nat): seq<Frame>
    requires Enabled(env, s, e)
  {
    if e.Act? && e.p == p && e.ok then
      var n := s.net[p];
      var msg, replies := n.proc.job.value.msg, n.proc.job.value.replies;
      match Due(env, n)
      case Call(service, arg) =>
        if CallsAway(env, n) && n.proc.linked then [Req(Request(p, IdFor(n.proc, p), service, arg))] else []
      case Return(reply) =>
        if msg.origin.Unix? && n.proc.linked && Refused !in replies then
          [Resp(Response(p, msg.callId, msg.service, reply))]
        else []
    else []
  }

  function ReadBy(env: Env, s: Sys, e: Event, p: nat): seq<Frame>
    requires Enabled(env, s, e)
  {
    if e.Receive? && e.p == p then [s.net[p].down[0]] else []
  }

  function ReadFrom(env: Env, s: Sys, e: Event, p: nat): seq<Frame>
    requires Enabled(env, s, e)
  {
    if e.ReadUp? && e.p == p then [s.net[p].up[0]] else []
  }

  function Down(s: Sys, p: nat): seq<Frame> {
    if p in s.net then s.net[p].down else []
  }

  function Up(s: Sys, p: nat): seq<Frame> {
    if p in s.net then s.net[p].up else []
  }

  // ----------------------------------------------------------- the proxy's writes

  /** A write to `q` and a suspension of the handler of `h`, and nothing else. */
  ghost predicate Wrote(s: Sys, t: Sys, h: nat, q: nat, frames: seq<Frame>, pc: Pc) {
    && h in s.net && t.net.Keys == s.net.Keys
    && forall p :: p in s.net ==>
         && t.net[p].proc == s.net[p].proc && t.net[p].up == s.net[p].up
         && t.net[p].down == s.net[p].down + (if p == q then frames else [])
         && t.net[p].pc == if p == h then pc else s.net[p].pc
  }

  function SentTo(out: Proxy.Outcome, ok: bool): seq<Frame> {
    if out.Sent? && ok then [Req(out.req)] else []
  }

  function Callee(out: Proxy.Outcome): nat {
    if out.Sent? then out.callee else 0
  }

  function Suspended(out: Proxy.Outcome, ok: bool, after: After): Pc {
    if out.Sent? then Sending(out.req, out.callee, ok, after) else Reading
  }

  lemma DispatchedWrote(s: Sys, h: nat, r: (Proxy.State, Proxy.Outcome), ok: bool, after: After)
    requires h in s.net
    ensures Wrote(s, Dispatched(s, h, r, ok, after), h, Callee(r.1), SentTo(r.1, ok), Suspended(r.1, ok, after))
  {
    hide Recorded;
    match r.1
    case Sent(_, _) =>
    case _ => assert Dispatched(s, h, r, ok, after).net == SetPc(s, h, Reading).net;
  }

  lemma WakeCallerWrote(env: Env, s: Sys, h: nat, c: Text, ok: bool)
    requires h in s.net
    ensures var out := WakeOutcome(env, s.px, c);
            Wrote(s, WakeCaller(env, s, h, c, ok), h, Callee(out), SentTo(out, ok), Suspended(out, ok, Done))
  {
    hide Dispatched, Proxy.Dispatch, Proxy.Update;
    var chain := Proxy.Chain(s.px, c);
    if chain != [] {
      hide Wrote, SentTo, Callee, Suspended;
      var q := chain[|chain| - 1];
      DispatchedWrote(s, h, Proxy.Dispatch(env.cfg.owner, Proxy.Update(s.px, q, c, false), q), ok, Done);
    }
  }

  lemma WakeSelfWrote(env: Env, s: Sys, h: nat, self: nat, c: Text, ok: bool)
    requires h in s.net
    ensures var r := Proxy.Dispatch(env.cfg.owner, Proxy.Update(s.px, self, [], false), self);
            var out := if r.1.Sent? then r.1 else WakeOutcome(env, r.0, c);
            Wrote(s, WakeSelf(env, s, h, self, c, ok), h, Callee(out), SentTo(out, ok),
                  Suspended(out, ok, if r.1.Sent? then Caller(c) else Done))
  {
    hide Dispatched, Proxy.Dispatch, Proxy.Update, WakeCaller, WakeOutcome, Recorded;
    var r := Proxy.Dispatch(env.cfg.owner, Proxy.Update(s.px, self, [], false), self);
    var s1 := s.(px := r.0, hist := Recorded(s.hist, r.1, ok));
    DispatchedWrote(s, h, r, ok, Caller(c));
    WakeCallerWrote(env, s1, h, c, ok);
    hide SentTo, Callee, Suspended;
  }

  lemma ReadRequestWrote(env: Env, s: Sys, p: nat, ok: bool)
    requires Enabled(env, s, ReadUp(p, ok)) && s.net[p].up[0].Req?
    ensures var out := LastOutcome(env, s, ReadUp(p, ok));
            Wrote(PopUp(s, p), Apply(env, s, ReadUp(p, ok)), p, Callee(out), SentTo(out, ok), Suspended(out, ok, Done))
  {
    hide Wrote, Callee, SentTo, Suspended, Dispatched, Proxy.ReadRequest;
    var r, s1 := s.net[p].up[0].req, PopUp(s, p);
    var s2 := s1.(hist := s1.hist.(read := s1.hist.read + multiset{r}));
    DispatchedWrote(s2, p, Proxy.ReadRequest(env.cfg.owner, s.px, r), ok, Done);
    var out := LastOutcome(env, s, ReadUp(p, ok));
    SameNetWrote(s2, s1, Apply(env, s, ReadUp(p, ok)), p, Callee(out), SentTo(out, ok), Suspended(out, ok, Done));
  }

  lemma SameNetWrote(s: Sys, u: Sys, t: Sys, h: nat, q: nat, frames: seq<Frame>, pc: Pc)
    requires Wrote(s, t, h, q, frames, pc) && s.net == u.net
    ensures Wrote(u, t, h, q, frames, pc)
  {
  }

  /** A response goes to the process below the end of its chain, and its handler is
      suspended in that write for the process at the end. */
  lemma ReadResponseWrote(env: Env, s: Sys, p: nat, ok: bool)
    requires Enabled(env, s, ReadUp(p, ok)) && s.net[p].up[0].Resp?
    ensures var r, t := s.net[p].up[0].resp, Apply(env, s, ReadUp(p, ok));
            var chain := Proxy.Chain(s.px, r.callId);
            if |chain| < 2 then t.net == PopUp(s, p).net else
              Wrote(PopUp(s, p), t, p, chain[|chain| - 2], if ok then [Resp(r)] else [],
                    Answering(chain[|chain| - 1], r.callId))
  {
    var r, s1 := s.net[p].up[0].resp, PopUp(s, p);
    assert s1.px == s.px && p in s1.net;
    hide Proxy.PopChain, Proxy.Chain, PopUp, Wrote, Enabled;
    AnsweredWrote(s1, p, r, ok);
  }

  lemma AnsweredWrote(s: Sys, p: nat, r: Response, ok: bool)
    requires p in s.net
    ensures var t, chain := ReadResponse(s, p, r, ok), Proxy.Chain(s.px, r.callId);
            if |chain| < 2 then t.net == s.net else
              Wrote(s, t, p, chain[|chain| - 2], if ok then [Resp(r)] else [], Answering(chain[|chain| - 1], r.callId))
  {
    hide Proxy.PopChain, Proxy.Chain;
  }

  /** Whether the handler still has to look at the end of a chain after the write that it
      starts when it resumes. */
  function AfterThat(env: Env, s: Sys, p: nat, ok: bool): After
    requires Enabled(env, s, Resume(p, ok))
  {
    if s.net[p].pc.Answering? && |Outcomes(env, s, Resume(p, ok))| == 1 then Caller(s.net[p].pc.callId) else Done
  }

  lemma ResumeWrote(env: Env, s: Sys, p: nat, ok: bool)
    requires Enabled(env, s, Resume(p, ok))
    ensures var out := LastOutcome(env, s, Resume(p, ok));
            Wrote(s, Apply(env, s, Resume(p, ok)), p, Callee(out), SentTo(out, ok),
                  Suspended(out, ok, AfterThat(env, s, p, ok)))
  {
    hide Wrote, Callee, SentTo, Proxy.Dispatch, Proxy.Update, Proxy.WriteFailed, WakeSelf, WakeCaller, WakeOutcome;
    match s.net[p].pc
    case Answering(self, c) =>
      WakeSelfWrote(env, s, p, self, c, ok);
    case Sending(r, q, sent, after) =>
      var s1 := if sent then s else s.(px := Proxy.WriteFailed(s.px, r, q));
      match after {
        case Done => PcWrote(s, s1, p, ok);
        case Caller(c) =>
          WakeCallerWrote(env, s1, p, c, ok);
          SameNetWrote(s1, s, WakeCaller(env, s1, p, c, ok), p, Callee(WakeOutcome(env, s1.px, c)),
                       SentTo(WakeOutcome(env, s1.px, c), ok), Suspended(WakeOutcome(env, s1.px, c), ok, Done));
      }
  }

  lemma PcWrote(s: Sys, s1: Sys, p: nat, ok: bool)
    requires p in s.net && s1.net == s.net
    ensures Wrote(s, SetPc(s1, p, Reading), p, Callee(Proxy.Quiet), SentTo(Proxy.Quiet, ok), Reading)
  {
  }

  // ------------------------------------------------------------------- one step

  /** What a link held and what was put on it is what was read and what it holds. */
  ghost predicate Flows(env: Env, s: Sys, e: Event, t: Sys, p: nat)
    requires Enabled(env, s, e)
  {
    && Down(s, p) + WrittenTo(env, s, e, p) == ReadBy(env, s, e, p) + Down(t, p)
    && Up(s, p) + WrittenBy(env, s, e, p) == ReadFrom(env, s, e, p) + Up(t, p)
  }

  lemma Headed<T>(xs: seq<T>)
    requires xs != []
    ensures xs + [] == [xs[0]] + xs[1..]
  {
  }

  /** A step of the proxy that has written `frames` to `q`. */
  lemma ProxyFlows(env: Env, s: Sys, e: Event, u: Sys, t: Sys, q: nat, frames: seq<Frame>, pc: Pc, p: nat)
    requires Enabled(env, s, e) && p in s.net && Wrote(u, t, e.p, q, frames, pc)
    requires p in u.net && u.net[p].down == s.net[p].down && s.net[p].up == ReadFrom(env, s, e, p) + u.net[p].up
    requires WrittenTo(env, s, e, p) == (if p == q then frames else [])
    requires ReadBy(env, s, e, p) == [] && WrittenBy(env, s, e, p) == []
    ensures Flows(env, s, e, t, p)
  {
    hide Enabled, ReadFrom, WrittenTo, ReadBy, WrittenBy;
    assert s.net[p].up + [] == s.net[p].up;
  }

  lemma PoppedUp(env: Env, s: Sys, p: nat, ok: bool, q: nat)
    requires Enabled(env, s, ReadUp(p, ok)) && q in s.net
    ensures var u := PopUp(s, p);
            q in u.net && u.net[q].down == s.net[q].down
            && s.net[q].up == ReadFrom(env, s, ReadUp(p, ok), q) + u.net[q].up
    ensures ReadBy(env, s, ReadUp(p, ok), q) == [] && WrittenBy(env, s, ReadUp(p, ok), q) == []
  {
    Headed(s.net[p].up);
  }

  lemma RequestWritten(env: Env, s: Sys, p: nat, ok: bool, q: nat)
    requires Enabled(env, s, ReadUp(p, ok)) && s.net[p].up[0].Req? && q in s.net
    ensures var out := LastOutcome(env, s, ReadUp(p, ok));
            WrittenTo(env, s, ReadUp(p, ok), q) == if q == Callee(out) then SentTo(out, ok) else []
  {
    hide LastOutcome;
  }

  lemma ResponseWritten(env: Env, s: Sys, p: nat, ok: bool, q: nat)
    requires Enabled(env, s, ReadUp(p, ok)) && s.net[p].up[0].Resp? && q in s.net
    ensures var r := s.net[p].up[0].resp;
            var chain := Proxy.Chain(s.px, r.callId);
            WrittenTo(env, s, ReadUp(p, ok), q) ==
            if |chain| >= 2 && q == chain[|chain| - 2] && ok then [Resp(r)] else []
  {
    NoOutcome(env, s, p, ok);
    hide LastOutcome, Outcomes, Proxy.Chain;
  }

  /** Only the frame is read. */
  lemma UnwrittenIs(u: Sys, t: Sys, p: nat, q: nat)
    requires u.net == t.net && p in u.net
    ensures Wrote(u, t, p, q, [], u.net[p].pc)
  {
  }

  lemma ReadUpFlows(env: Env, s: Sys, p: nat, ok: bool, q: nat)
    requires Enabled(env, s, ReadUp(p, ok)) && q in s.net
    ensures Flows(env, s, ReadUp(p, ok), Apply(env, s, ReadUp(p, ok)), q)
  {
    assert p in s.net && s.net[p].up != [] && p in PopUp(s, p).net;
    hide *;
    var e, u := ReadUp(p, ok), PopUp(s, p);
    var t := Apply(env, s, e);
    PoppedUp(env, s, p, ok, q);
    if s.net[p].up[0].Req? {
      var out := LastOutcome(env, s, e);
      ReadRequestWrote(env, s, p, ok);
      RequestWritten(env, s, p, ok, q);
      ProxyFlows(env, s, e, u, t, Callee(out), SentTo(out, ok), Suspended(out, ok, Done), q);
    } else {
      var r := s.net[p].up[0].resp;
      var chain := Proxy.Chain(s.px, r.callId);
      ReadResponseWrote(env, s, p, ok);
      ResponseWritten(env, s, p, ok, q);
      if |chain| >= 2 {
        ProxyFlows(env, s, e, u, t, chain[|chain| - 2], if ok then [Resp(r)] else [],
                   Answering(chain[|chain| - 1], r.callId), q);
      } else {
        UnwrittenIs(u, t, p, q);
        ProxyFlows(env, s, e, u, t, q, [], u.net[p].pc, q);
      }
    }
  }

  lemma NoOutcome(env: Env, s: Sys, p: nat, ok: bool)
    requires Enabled(env, s, ReadUp(p, ok)) && s.net[p].up[0].Resp?
    ensures LastOutcome(env, s, ReadUp(p, ok)).Quiet?
  {
  }

  lemma ResumeWritten(env: Env, s: Sys, p: nat, ok: bool, q: nat)
    requires Enabled(env, s, Resume(p, ok)) && q in s.net
    ensures var e := Resume(p, ok);
            var out := LastOutcome(env, s, e);
            && WrittenTo(env, s, e, q) == (if q == Callee(out) then SentTo(out, ok) else [])
            && ReadFrom(env, s, e, q) == [] && ReadBy(env, s, e, q) == [] && WrittenBy(env, s, e, q) == []
  {
    hide LastOutcome;
  }

  lemma ResumeFlows(env: Env, s: Sys, p: nat, ok: bool, q: nat)
    requires Enabled(env, s, Resume(p, ok)) && q in s.net
    ensures Flows(env, s, Resume(p, ok), Apply(env, s, Resume(p, ok)), q)
  {
    hide *;
    var e := Resume(p, ok);
    var t, out := Apply(env, s, e), LastOutcome(env, s, e);
    ResumeWrote(env, s, p, ok);
    ResumeWritten(env, s, p, ok, q);
    assert s.net[q].up == [] + s.net[q].up;
    ProxyFlows(env, s, e, s, t, Callee(out), SentTo(out, ok), Suspended(out, ok, AfterThat(env, s, p, ok)), q);
  }

  lemma ActFlows(env: Env, s: Sys, e: Event, p: nat)
    requires Enabled(env, s, e) && e.Act? && p in s.net && Heard(s.net[p].proc)
    ensures Flows(env, s, e, Apply(env, s, e), p)
  {
    assert e == Act(e.p, e.ok) && LastOutcome(env, s, e).Quiet?;
    var n := s.net[e.p];
    if e.p == p {
      if Due(env, n).Return? {
        CompleteEnds(p, n, n.proc.job.value, Due(env, n).reply, e.ok);
        hide Apply, LastOutcome, Complete, Heard;
        ReturnsAs(env, s, p, e.ok);
      } else if CallsAway(env, n) {
        hide Apply, LastOutcome, IdFor, Heard;
        AwaySends(env, s, p, e.ok);
      } else {
        hide Apply, LastOutcome, Heard;
        OwnServiceRefused(env, s, p, e.ok);
      }
    }
  }

  lemma ReturnsAs(env: Env, s: Sys, p: nat, ok: bool)
    requires Enabled(env, s, Act(p, ok)) && Due(env, s.net[p]).Return?
    ensures var n := s.net[p];
            Apply(env, s, Act(p, ok)).net == s.net[p := Complete(p, n, n.proc.job.value, Due(env, n).reply, ok)]
    ensures Apply(env, s, Act(p, ok)).net[p].down == s.net[p].down
  {
    hide IsOpen;
  }

  lemma OtherFlows(env: Env, s: Sys, e: Event, p: nat)
    requires Enabled(env, s, e) && !e.ReadUp? && !e.Resume? && !e.Act? && p in Apply(env, s, e).net
    ensures Flows(env, s, e, Apply(env, s, e), p)
  {
    assert LastOutcome(env, s, e).Quiet?;
    hide LastOutcome, Outcomes, IsOpen, Offers;
    if e.Receive? {
      Headed(s.net[e.p].down);
    }
  }

  lemma NothingFlows(env: Env, s: Sys, e: Event, p: nat)
    requires Enabled(env, s, e) && p !in Apply(env, s, e).net
    ensures p !in s.net && Flows(env, s, e, Apply(env, s, e), p)
  {
    if p in s.net {
      StaysConnected(env, s, e, p);
    }
    hide Apply;
  }

  lemma KnownBefore(env: Env, s: Sys, e: Event, p: nat)
    requires Enabled(env, s, e) && (e.ReadUp? || e.Resume? || e.Act?) && p in Apply(env, s, e).net
    ensures p in s.net
  {
    hide ReadUpStep, ResumeStep, ActNode;
    if !e.Act? {
      Provenance.ProxyWait(env, s, e);
    }
  }

  lemma StepFlows(env: Env, s: Sys, e: Event, p: nat)
    requires Enabled(env, s, e) && (p in s.net ==> Heard(s.net[p].proc))
    ensures Flows(env, s, e, Apply(env, s, e), p)
  {
    if p !in Apply(env, s, e).net {
      NothingFlows(env, s, e, p);
    } else {
      hide Flows, Apply;
      if e.ReadUp? {
        KnownBefore(env, s, e, p);
        ReadUpFlows(env, s, e.p, e.ok, p);
      } else if e.Resume? {
        KnownBefore(env, s, e, p);
        ResumeFlows(env, s, e.p, e.ok, p);
      } else if e.Act? {
        KnownBefore(env, s, e, p);
        ActFlows(env, s, e, p);
      } else {
        OtherFlows(env, s, e, p);
      }
    }
  }

  // ---------------------------------------------------------------- whole runs

  ghost function AllWrittenTo(env: Env, states: seq<Sys>, events: seq<Event>, i: nat, p: nat): seq<Frame>
    requires Run(env, states, events) && i <= |events|
  {
    if i == 0 then [] else
      AllWrittenTo(env, states, events, i - 1, p) + WrittenTo(env, states[i - 1], events[i - 1], p)
  }

  ghost function AllReadBy(env: Env, states: seq<Sys>, events: seq<Event>, i: nat, p: nat): seq<Frame>
    requires Run(env, states, events) && i <= |events|
  {
    if i == 0 then [] else AllReadBy(env, states, events, i - 1, p) + ReadBy(env, states[i - 1], events[i - 1], p)
  }

  ghost function AllWrittenBy(env: Env, states: seq<Sys>, events: seq<Event>, i: nat, p: nat): seq<Frame>
    requires Run(env, states, events) && i <= |events|
  {
    if i == 0 then [] else
      AllWrittenBy(env, states, events, i - 1, p) + WrittenBy(env, states[i - 1], events[i - 1], p)
  }

  ghost function AllReadFrom(env: Env, states: seq<Sys>, events: seq<Event>, i: nat, p: nat): seq<Frame>
    requires Run(env, states, events) && i <= |events|
  {
    if i == 0 then [] else AllReadFrom(env, states, events, i - 1, p) + ReadFrom(env, states[i - 1], events[i - 1], p)
  }

  lemma RunFlows(env: Env, states: seq<Sys>, events: seq<Event>, i: nat, p: nat)
    requires Run(env, states, events) && i < |events|
    ensures Flows(env, states[i], events[i], states[i + 1], p)
  {
    hide Flows, Heard, Enabled, Apply;
    if p in states[i].net {
      HeardAlways(env, states, events, i, p);
    }
    StepFlows(env, states[i], events[i], p);
  }

  ghost predicate InOrder(env: Env, states: seq<Sys>, events: seq<Event>, i: nat, p: nat)
    requires Run(env, states, events) && i <= |events|
  {
    && AllWrittenTo(env, states, events, i, p) == AllReadBy(env, states, events, i, p) + Down(states[i], p)
    && AllWrittenBy(env, states, events, i, p) == AllReadFrom(env, states, events, i, p) + Up(states[i], p)
  }

  lemma InOrderOn(env: Env, states: seq<Sys>, events: seq<Event>, i: nat, p: nat)
    requires Run(env, states, events) && i < |events| && InOrder(env, states, events, i, p)
    requires Flows(env, states[i], events[i], states[i + 1], p)
    ensures InOrder(env, states, events, i + 1, p)
  {
    var s, e := states[i], events[i];
    hide Run, Enabled, WrittenTo, WrittenBy, ReadBy, ReadFrom, Down, Up;
    Journal.Queue([], AllWrittenTo(env, states, events, i, p), WrittenTo(env, s, e, p),
                  AllReadBy(env, states, events, i, p), ReadBy(env, s, e, p), Down(s, p), Down(states[i + 1], p));
    Journal.Queue([], AllWrittenBy(env, states, events, i, p), WrittenBy(env, s, e, p),
                  AllReadFrom(env, states, events, i, p), ReadFrom(env, s, e, p), Up(s, p), Up(states[i + 1], p));
  }

  lemma InOrderFirst(env: Env, states: seq<Sys>, events: seq<Event>, p: nat)
    requires Run(env, states, events)
    ensures |states| == |events| + 1 && InOrder(env, states, events, 0, p)
  {
    hide Enabled, Apply;
  }

  lemma {:induction false} InOrderAlways(env: Env, states: seq<Sys>, events: seq<Event>, i: nat, p: nat)
    requires Run(env, states, events) && i <= |events|
    ensures InOrder(env, states, events, i, p)
  {
    hide *;
    InOrderFirst(env, states, events, p);
    if i > 0 {
      InOrderAlways(env, states, events, i - 1, p);
      RunFlows(env, states, events, i - 1, p);
      InOrderOn(env, states, events, i - 1, p);
    }
  }

  /** In every run, with failed writes and caching: the proxy's frames for `p` reach it in
      the order in which they were written, each once, and so do those of `p` the proxy. */
  lemma LinksInOrder(env: Env, states: seq<Sys>, events: seq<Event>, i: nat, p: nat)
    requires Run(env, states, events) && i <= |events|
    ensures |states| == |events| + 1
    ensures AllWrittenTo(env, states, events, i, p) == AllReadBy(env, states, events, i, p) + Down(states[i], p)
    ensures AllWrittenBy(env, states, events, i, p) == AllReadFrom(env, states, events, i, p) + Up(states[i], p)
  {
    InOrderAlways(env, states, events, i, p);
    hide Enabled, Apply, AllWrittenTo, AllWrittenBy, AllReadBy, AllReadFrom, Down, Up;
  }

  // ----------------------------------------------------------- where handlers are

  /** After a step of the proxy, the handler that took it is in the write of the request it
      sent out, and knows whether that fails and whether a chain is still to be looked at;
      or in the write of a response, for the one who answered; or it reads on. */
  ghost predicate Halts(env: Env, s: Sys, e: Event, pc: Pc)
    requires Enabled(env, s, e) && (e.ReadUp? || e.Resume?)
  {
    var out, was := LastOutcome(env, s, e), s.net[e.p].pc;
    if out.Sent? then
      && pc.Sending? && pc.req == out.req && pc.callee == out.callee && pc.ok == e.ok
      && (pc.after.Caller? <==> e.Resume? && was.Answering? && |Outcomes(env, s, e)| == 1)
      && (pc.after.Caller? ==> pc.after.callId == was.callId)
    else if e.ReadUp? && s.net[e.p].up[0].Resp? then
      var r := s.net[e.p].up[0].resp;
      var chain := Proxy.Chain(s.px, r.callId);
      if |chain| >= 2 then pc.Answering? && pc.self == chain[|chain| - 1] && pc.callId == r.callId else pc.Reading?
    else pc.Reading?
  }

  lemma HandlersHalt(env: Env, s: Sys, e: Event)
    requires Enabled(env, s, e) && (e.ReadUp? || e.Resume?)
    ensures var t := Apply(env, s, e);
            && e.p in t.net && Halts(env, s, e, t.net[e.p].pc)
            && forall q :: q in s.net && q != e.p ==> q in t.net && t.net[q].pc == s.net[q].pc
  {
    hide Apply, Outcomes;
    if e.Resume? {
      assert e == Resume(e.p, e.ok);
      hide LastOutcome;
      ResumeWrote(env, s, e.p, e.ok);
    } else {
      assert e == ReadUp(e.p, e.ok);
      if s.net[e.p].up[0].Req? {
        ReadRequestWrote(env, s, e.p, e.ok);
      } else {
        NoOutcome(env, s, e.p, e.ok);
        ReadResponseWrote(env, s, e.p, e.ok);
      }
    }
  }
}
