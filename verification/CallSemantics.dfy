/** What a smooth run computes: a send returns what running its service in process
    would return, every response pops the frame of its sender and goes to the actor
    suspended below it, and no request is left in a backlog. */
module CallSemantics {
  import opened Protocol
  import opened S = System
  import opened Meaning
  import opened Invariant
  import opened ActorNodes
  import opened ProxySteps
  import opened ForwardSteps
  import opened ReplySteps
  import opened RecordSteps
  import opened SmoothSteps
  import opened SmoothRuns
  import opened SmoothInvariant
  import opened Moves
  import opened ResumeSteps
  import Proxy

  // ------------------------------------------------------ meaning preservation

  lemma AnswersHold(env: Env, s: Sys, p: nat)
    requires Inv(env, s) && p in s.net
    ensures AnswersOK(env, s.net[p].proc.answers) && JobOK(env, s.px, s.net, p, s.net[p].proc)
  {
    hide Inv, UpOK, QueueOK, DownOK, JobOK, BacklogOK, OweOK, AnswersOK, PcOK;
    NodeAt(env, s, p);
  }

  /** A service that runs to its end answers with the value of its request. */
  lemma AnswersAreValues(env: Env, states: seq<Sys>, events: seq<Event>, i: nat, p: nat, k: nat)
    requires IndexAgrees(env.cfg) && SmoothRun(env, states, events) && i < |states|
    requires p in states[i].net && k < |states[i].net[p].proc.answers|
    ensures var a := states[i].net[p].proc.answers[k]; Evaluates(env, a.msg.service, a.msg.pack, a.reply)
    ensures var a := states[i].net[p].proc.answers[k];
            forall v :: Evaluates(env, a.msg.service, a.msg.pack, v) ==> v == a.reply
  {
    InvAlways(env, states, events, i);
    hide Inv, SmoothRun, Evaluates, IndexAgrees;
    AnswersHold(env, states[i], p);
    var a := states[i].net[p].proc.answers[k];
    forall v | Evaluates(env, a.msg.service, a.msg.pack, v) ensures v == a.reply {
      EvaluatesUnique(env, a.msg.service, a.msg.pack, v, a.reply);
    }
  }

  /** Every send that has completed returned the value of the call it made, at any
      nesting depth. */
  lemma SendsReturnValues(env: Env, states: seq<Sys>, events: seq<Event>, i: nat, p: nat, k: nat)
    requires IndexAgrees(env.cfg) && SmoothRun(env, states, events) && i < |states|
    requires p in states[i].net && states[i].net[p].proc.job.Some?
    requires k < |states[i].net[p].proc.job.value.replies| && states[i].net[p].proc.job.value.replies[k].Got?
    ensures var job := states[i].net[p].proc.job.value;
            var a := env.body(job.msg.service, job.msg.pack, job.replies[..k]);
            a.Call? && forall v :: Evaluates(env, a.service, a.arg, v) <==> v == job.replies[k].pack
  {
    InvAlways(env, states, events, i);
    hide Inv, SmoothRun, Evaluates, IndexAgrees, IsTop, MsgOK, WaitOK, Ours;
    AnswersHold(env, states[i], p);
    var job := states[i].net[p].proc.job.value;
    var a := env.body(job.msg.service, job.msg.pack, job.replies[..k]);
    forall v | Evaluates(env, a.service, a.arg, v) ensures v == job.replies[k].pack {
      EvaluatesUnique(env, a.service, a.arg, v, job.replies[k].pack);
    }
  }

  // ------------------------------------------------------ call/return matching

  /** From `s` to `t` the response `r` of `b` returns to `a`: `b` is the end of the
      chain and is popped; `a`, just below, and nobody else, is written to; it is
      suspended in a send on that call to that service, whose value `r` brings. */
  ghost predicate ReturnsTo(env: Env, s: Sys, t: Sys, b: nat, r: Response, a: nat) {
    && EndsIn(s.px, r.callId, a, b) && a != b
    && t.px.chains == s.px.chains[r.callId := s.px.chains[r.callId][..|s.px.chains[r.callId]| - 1]]
    && a in s.net && t.net.Keys == s.net.Keys
    && (forall h :: h in s.net ==> t.net[h].down == if h == a then s.net[h].down + [Resp(r)] else s.net[h].down)
    && s.net[a].proc.wait.Some? && s.net[a].proc.wait.value.callId == r.callId
    && s.net[a].proc.wait.value.service == r.service
    && forall v :: Evaluates(env, r.service, s.net[a].proc.wait.value.pack, v) <==> v == r.pack
  }

  lemma OneValue(env: Env, service: Text, arg: Pack, u: Pack)
    requires Evaluates(env, service, arg, u)
    ensures forall v :: Evaluates(env, service, arg, v) <==> v == u
  {
    hide Evaluates;
    forall v | Evaluates(env, service, arg, v) ensures v == u {
      EvaluatesUnique(env, service, arg, v, u);
    }
  }

  lemma ReturnsAt(env: Env, s: Sys, b: nat, r: Response, a: nat)
    requires EndsIn(s.px, r.callId, a, b) && b in s.net && s.net[b].up != [] && a in s.net && a != b
    requires Suspended(s.px, s.net, r.callId, a) && Answered(env, s.net[a].proc.wait, r.service, r.pack)
    ensures ReturnsTo(env, s, ReadResponse(PopUp(s, b), b, r, true), b, r, a)
  {
    AnsweredMoves(s, a, b, r);
    OneValue(env, r.service, s.net[a].proc.wait.value.pack, r.pack);
    hide ReadResponse, PopUp, Evaluates, NoAnswer;
  }

  lemma MatchedAt(env: Env, s: Sys, b: nat) returns (a: nat)
    requires Inv(env, s) && b in s.net && s.net[b].up != [] && s.net[b].up[0].Resp?
    ensures ReturnsTo(env, s, ReadResponse(PopUp(s, b), b, s.net[b].up[0].resp, true), b, s.net[b].up[0].resp, a)
  {
    var r := s.net[b].up[0].resp;
    hide Inv, Suspended, ReadResponse, PopUp, Answered, EndsIn, ReturnsTo, Free, NoAnswer;
    ResponseHead(env, s, b);
    ResponderIdle(env, s, b);
    a := Below(s.px, r.callId);
    CallerSuspended(env, s, a, b, r.callId);
    ReturnsAt(env, s, b, r, a);
  }

  /** A RESPONSE read from `b` returns to the one actor suspended below `b`. */
  lemma ResponseMatched(env: Env, states: seq<Sys>, events: seq<Event>, i: nat, b: nat) returns (a: nat)
    requires IndexAgrees(env.cfg) && SmoothRun(env, states, events) && i < |events|
    requires events[i].ReadUp? && events[i].p == b && b in states[i].net
    requires states[i].net[b].up != [] && states[i].net[b].up[0].Resp?
    ensures ReturnsTo(env, states[i], states[i + 1], b, states[i].net[b].up[0].resp, a)
  {
    assert Enabled(env, states[i], events[i]) && Smooth(env, states[i], events[i]);
    assert states[i + 1] == ReadResponse(PopUp(states[i], b), b, states[i].net[b].up[0].resp, true);
    InvAlways(env, states, events, i);
    hide *;
    a := MatchedAt(env, states[i], b);
  }

  // ------------------------------------------------------ no stranded request

  /** A non-empty backlog has a pending handler that will look at it: one that has
      answered its owner and is suspended in that write. */
  lemma BacklogAwaited(env: Env, states: seq<Sys>, events: seq<Event>, i: nat, p: nat)
    requires IndexAgrees(env.cfg) && SmoothRun(env, states, events) && i < |states|
    requires p in states[i].px.infos && states[i].px.infos[p].queue != []
    ensures |states[i].px.infos[p].queue| == 1
    ensures exists h :: Answers(states[i], h, p)
  {
    InvAlways(env, states, events, i);
    hide Inv, SmoothRun, IndexAgrees, UpOK, QueueOK, DownOK, JobOK, OweOK;
    hide AnswersOK, PcOK, IsTop, Free, Responding, NoAnswer;
    var s := states[i];
    NodeNamed(env, s, p);
    NodeAt(env, s, p);
    var h :| h in s.net && s.net[h].pc.Answering? && IsTop(s.px, s.net[h].pc.callId, p);
    assert Answers(s, h, p);
  }

  /** The backlog of `a` is gone, and its request `r` sent or dropped. */
  ghost predicate Drained(s: Sys, t: Sys, a: nat, r: Request) {
    && a in t.px.infos && t.px.infos[a].queue == []
    && t.hist.sent + t.hist.dropped == s.hist.sent + s.hist.dropped + multiset{r}
  }

  lemma DispatchedDrains(s: Sys, h: nat, a: nat, r: Request, x: (Proxy.State, Proxy.Outcome))
    requires h in s.net && a in x.0.infos && x.0.infos[a].queue == [] && (x.1.Sent? || x.1.Dropped?) && x.1.req == r
    ensures Drained(s, Dispatched(s, h, x, true, Done), a, r)
  {
  }

  lemma WakeDrains(env: Env, s: Sys, h: nat, a: nat)
    requires Inv(env, s) && Answers(s, h, a) && s.px.infos[a].queue != []
    requires !WakeOutcome(env, s.px, s.net[h].pc.callId).Cached?
    ensures s.px.infos[a].queue[0].pid == a
    ensures Drained(s, WakeCaller(env, s, h, s.net[h].pc.callId, true), a, s.px.infos[a].queue[0])
  {
    var c, r := s.net[h].pc.callId, s.px.infos[a].queue[0];
    FreedReady(env, s, h, a, c);
    assert a in Freed(s.px, a, c).infos && Freed(s.px, a, c).infos[a].queue == [];
    hide Inv, IsTop, WakeCaller, WakeOutcome, Proxy.Route, Ready, Freed, SetPc, Drained, Dispatched;
    WakeBusyIs(env, s, h, a, c, r);
    RouteKeepsBacklog(env, Freed(s.px, a, c), a, r);
    DispatchedDrains(s, h, a, r, Proxy.Route(env.cfg.owner, Freed(s.px, a, c), r));
  }

  /** Routing a request drops or forwards that request, and queues nothing. */
  lemma RouteKeepsBacklog(env: Env, px: Proxy.State, a: nat, r: Request)
    requires a in px.infos && !Proxy.Route(env.cfg.owner, px, r).1.Cached?
    ensures var (py, out) := Proxy.Route(env.cfg.owner, px, r);
            a in py.infos && py.infos[a].queue == px.infos[a].queue && (out.Sent? || out.Dropped?) && out.req == r
  {
    hide Proxy.Least, Proxy.Loops;
  }

  lemma UpdatedAnswers(s: Sys, h: nat, p: nat)
    requires Answers(s, h, p) && h in s.px.infos
    ensures var u := s.(px := Proxy.Update(s.px, h, [], false));
            Answers(u, h, p) && u.px.infos[p].queue == s.px.infos[p].queue && u.hist == s.hist && u.net == s.net
  {
  }

  lemma ResumeDrainsBacklog(env: Env, s: Sys, h: nat, p: nat)
    requires Inv(env, s) && Answers(s, h, p) && s.px.infos[p].queue != []
    requires Enabled(env, s, Resume(h, true)) && Direct(env, s, Resume(h, true)) && s.net[h].pc.Answering?
    ensures Drained(s, ResumeStep(env, s, h, true), p, s.px.infos[p].queue[0])
  {
    DirectWake(env, s, h);
    hide Inv, ResumeStep, WakeCaller, WakeOutcome, Direct, Proxy.Update, Answers, Drained, Free;
    UpdatedAnswers(s, h, p);
    LowerStep(env, s, h, []);
    var u := s.(px := Proxy.Update(s.px, h, [], false));
    WakeDrains(env, u, h, p);
    DrainedFrom(s, u, ResumeStep(env, s, h, true), p, s.px.infos[p].queue[0]);
  }

  lemma DrainedFrom(s: Sys, u: Sys, t: Sys, p: nat, r: Request)
    requires Drained(u, t, p, r) && u.hist == s.hist
    ensures Drained(s, t, p, r)
  {
  }

  /** A request left in a backlog goes out, or is dropped for a stated reason, as
      soon as the handler that answered its sender resumes. */
  lemma NoStrandedRequest(env: Env, states: seq<Sys>, events: seq<Event>, i: nat, h: nat, p: nat)
    requires IndexAgrees(env.cfg) && SmoothRun(env, states, events) && i < |events|
    requires p in states[i].px.infos && states[i].px.infos[p].queue != []
    requires events[i].Resume? && events[i].p == h && Answers(states[i], h, p)
    ensures Drained(states[i], states[i + 1], p, states[i].px.infos[p].queue[0])
  {
    assert Enabled(env, states[i], events[i]) && Smooth(env, states[i], events[i]);
    assert events[i] == Resume(h, true);
    assert states[i + 1] == ResumeStep(env, states[i], h, true);
    InvAlways(env, states, events, i);
    hide Inv, IsTop, ResumeStep, Direct, NoWrap, Drained, SmoothRun, IndexAgrees;
    ResumeDrainsBacklog(env, states[i], h, p);
  }
}
