/** Resuming a handler after its write: the actor it answered is let go and the
    backlog of that actor looked at (src/coro_actor.cpp:611-615, 697-704). */
module ResumeSteps {
  import opened Protocol
  import opened S = System
  import opened Invariant
  import opened ActorNodes
  import opened ProxySteps
  import opened ForwardSteps
  import opened ReplySteps
  import opened RecordSteps
  import opened SmoothSteps
  import opened SmoothRuns
  import Directory
  import Proxy

  lemma AnsweringAt(env: Env, s: Sys, h: nat)
    requires Inv(env, s) && h in s.net && s.net[h].pc.Answering?
    ensures h in s.px.infos && s.px.infos[h].queue == [] && s.net[h].pc.self == h && Free(s.px, h)
    ensures s.net[h].pc.callId in s.px.chains && s.px.chains[s.net[h].pc.callId] != []
    ensures var ch := s.px.chains[s.net[h].pc.callId]; ch[|ch| - 1] in s.px.infos && ch[|ch| - 1] in s.net
  {
    hide Inv, NodeOK, Free;
    NodeAt(env, s, h);
    var ch := s.px.chains[s.net[h].pc.callId];
    ChainKnown(env, s, s.net[h].pc.callId);
    NodeNamed(env, s, ch[|ch| - 1]);
  }

  lemma ChainKnown(env: Env, s: Sys, c: Text)
    requires Inv(env, s) && c in s.px.chains
    ensures forall i :: 0 <= i < |s.px.chains[c]| ==> s.px.chains[c][i] in s.px.infos
  {
    hide Inv, LinksOK, Generated;
    ChainIs(env, s, c);
  }

  /** The handler's own backlog is empty, so waking itself does nothing more. */
  lemma WakeSelfIs(env: Env, s: Sys, h: nat)
    requires h in s.net && s.net[h].pc.Answering? && s.net[h].pc.self == h
    requires h in s.px.infos && s.px.infos[h].queue == []
    ensures ResumeStep(env, s, h, true) ==
            WakeCaller(env, s.(px := Proxy.Update(s.px, h, [], false)), h, s.net[h].pc.callId, true)
    ensures WakeOutcome(env, Proxy.Update(s.px, h, [], false), s.net[h].pc.callId) in Outcomes(env, s, Resume(h, true))
  {
    assert Proxy.Dispatch(env.cfg.owner, Proxy.Update(s.px, h, [], false), h) ==
           (Proxy.Update(s.px, h, [], false), Proxy.Quiet);
    hide WakeCaller, WakeOutcome, Proxy.Dispatch, Proxy.Update;
    var px1 := Proxy.Update(s.px, h, [], false);
    assert Outcomes(env, s, Resume(h, true))[1] == WakeOutcome(env, px1, s.net[h].pc.callId);
  }

  /** The answered actor has nothing queued: it is let go. */
  lemma WakeQuietIs(env: Env, s: Sys, h: nat, a: nat, c: Text)
    requires h in s.net && a in s.px.infos && s.px.infos[a].queue == [] && IsTop(s.px, c, a)
    ensures WakeCaller(env, s, h, c, true) == SetPc(s.(px := Freed(s.px, a, c)), h, Reading)
  {
    assert Proxy.Update(s.px, a, c, false) == Freed(s.px, a, c);
  }

  /** It has a request queued: that request is routed once it has been let go. */
  lemma WakeBusyIs(env: Env, s: Sys, h: nat, a: nat, c: Text, r: Request)
    requires h in s.net && a in s.px.infos && s.px.infos[a].queue == [r] && IsTop(s.px, c, a)
    ensures WakeCaller(env, s, h, c, true) ==
            Dispatched(s, h, Proxy.Route(env.cfg.owner, Freed(s.px, a, c), r), true, Done)
    ensures WakeOutcome(env, s.px, c) == Proxy.Route(env.cfg.owner, Freed(s.px, a, c), r).1
  {
    var px1 := Proxy.Update(s.px, a, c, false);
    assert [r][1..] == [];
    assert Proxy.Dequeue(px1, a) == Freed(s.px, a, c) by {
      assert px1.infos[a].(queue := []) == s.px.infos[a].(callId := c, waiting := false, queue := []);
      assert px1.infos[a := px1.infos[a].(queue := [])] == s.px.infos[a := px1.infos[a].(queue := [])];
    }
    hide Proxy.Route, Proxy.Dequeue, Freed, Dispatched;
  }

  lemma DispatchedOverPc(s: Sys, px: Proxy.State, h: nat, pc: Pc, r: (Proxy.State, Proxy.Outcome))
    requires h in s.net
    ensures var t := SetPc(s.(px := px), h, pc);
            h in t.net && Dispatched(t, h, r, true, Done) == Dispatched(s, h, r, true, Done)
  {
    hide S.Recorded;
    var t := SetPc(s.(px := px), h, pc);
    match r.1
    case Sent(req, callee) =>
      var x, y := Deliver(t.(px := r.0), callee, Req(req)), Deliver(s.(px := r.0), callee, Req(req));
      assert SetPc(x, h, Sending(req, callee, true, Done)).net == SetPc(y, h, Sending(req, callee, true, Done)).net;
    case _ =>
      assert SetPc(t, h, Reading).net == SetPc(s, h, Reading).net;
  }

  lemma BacklogHead(px: Proxy.State, net: map<nat, Node>, a: nat, n: Node)
    requires BacklogOK(px, net, a, n.proc.wait, n.up, n.down) && px.infos[a].queue != []
    ensures var r := px.infos[a].queue[0];
            && px.infos[a].queue == [r] && n.proc.wait == Some(r) && n.up == [] && NoAnswer(n.down)
            && IsTop(px, r.callId, a)
  {
    hide Free, Awaited, Responding, NoAnswer, IsTop;
  }

  lemma ReadyOnceFreed(s: Sys, h: nat, a: nat, c: Text, r: Request)
    requires h in s.net && a in s.net && a in s.px.infos && a != h && !s.net[a].pc.Answering? && Free(s.px, a)
    requires s.net[a].proc.wait == Some(r) && s.net[a].up == [] && NoAnswer(s.net[a].down) && IsTop(s.px, r.callId, a)
    ensures Ready(SetPc(s.(px := Freed(s.px, a, c)), h, Reading), a, r)
  {
    SameTops(s.px, Freed(s.px, a, c));
    hide NoAnswer, Free;
  }

  lemma HandlersHold(env: Env, s: Sys)
    requires Inv(env, s)
    ensures HandlersOK(s)
  {
    hide NodesOK, ChainsOK, HandlersOK, Directory.Listed;
  }

  lemma FreedReady(env: Env, s: Sys, h: nat, a: nat, c: Text)
    requires Inv(env, s) && Answers(s, h, a) && s.px.infos[a].queue != []
    ensures var r := s.px.infos[a].queue[0];
            s.px.infos[a].queue == [r] && r.pid == a && Ready(SetPc(s.(px := Freed(s.px, a, c)), h, Reading), a, r)
  {
    var n := s.net[a];
    HandlersHold(env, s);
    hide Inv, UpOK, QueueOK, DownOK, JobOK, BacklogOK, OweOK, AnswersOK;
    hide PcOK, NoAnswer, HandlersOK, IsTop, Free, Ready, Freed;
    NodeAt(env, s, a);
    FreeUnlessSuspended(env, s, a);
    ReleasedHandlers(s, h, a, s.px.infos[a].(queue := []));
    BacklogHead(s.px, s.net, a, n);
    RequesterJob(env, s.px, s.net, a, n);
    ReadyOnceFreed(s, h, a, c, s.px.infos[a].queue[0]);
  }

  lemma WakeStep(env: Env, s: Sys, h: nat, a: nat)
    requires Inv(env, s) && IndexAgrees(env.cfg) && Answers(s, h, a) && h in s.px.infos && !s.px.infos[h].waiting
    requires !WakeOutcome(env, s.px, s.net[h].pc.callId).Cached?
    ensures Inv(env, WakeCaller(env, s, h, s.net[h].pc.callId, true))
  {
    var c := s.net[h].pc.callId;
    hide Inv, IndexAgrees, IsTop, WakeCaller, WakeOutcome, Proxy.Route, Dispatched, Ready, Freed;
    ReleaseStep(env, s, h, a, c);
    if s.px.infos[a].queue == [] {
      WakeQuietIs(env, s, h, a, c);
    } else {
      var r := s.px.infos[a].queue[0];
      FreedReady(env, s, h, a, c);
      WakeBusyIs(env, s, h, a, c, r);
      var px1 := Freed(s.px, a, c);
      RouteStep(env, SetPc(s.(px := px1), h, Reading), a, r, h);
      DispatchedOverPc(s, px1, h, Reading, Proxy.Route(env.cfg.owner, px1, r));
    }
  }

  lemma AnswersTop(env: Env, s: Sys, h: nat)
    requires Inv(env, s) && h in s.net && s.net[h].pc.Answering?
    ensures s.net[h].pc.callId in s.px.chains && s.px.chains[s.net[h].pc.callId] != []
    ensures Answers(s, h, s.px.chains[s.net[h].pc.callId][|s.px.chains[s.net[h].pc.callId]| - 1])
  {
    AnsweringAt(env, s, h);
    hide Inv;
  }

  lemma ResumeSent(env: Env, s: Sys, h: nat)
    requires Inv(env, s) && h in s.net && s.net[h].pc.Sending?
    ensures Inv(env, ResumeStep(env, s, h, true))
  {
    hide Inv, NodeOK;
    NodeAt(env, s, h);
    PcStep(env, s, h, Reading);
  }

  lemma DirectWake(env: Env, s: Sys, h: nat)
    requires Inv(env, s) && Enabled(env, s, Resume(h, true)) && Direct(env, s, Resume(h, true))
    requires s.net[h].pc.Answering?
    ensures !WakeOutcome(env, Proxy.Update(s.px, h, [], false), s.net[h].pc.callId).Cached?
    ensures h in s.px.infos && Free(s.px, h)
    ensures ResumeStep(env, s, h, true) ==
            WakeCaller(env, s.(px := Proxy.Update(s.px, h, [], false)), h, s.net[h].pc.callId, true)
  {
    hide Inv, ResumeStep, WakeCaller, WakeOutcome, Outcomes, Free;
    AnsweringAt(env, s, h);
    WakeSelfIs(env, s, h);
  }

  lemma WakeTop(env: Env, s: Sys, h: nat)
    requires Inv(env, s) && IndexAgrees(env.cfg) && h in s.net && s.net[h].pc.Answering?
    requires h in s.px.infos && !s.px.infos[h].waiting
    requires !WakeOutcome(env, s.px, s.net[h].pc.callId).Cached?
    ensures Inv(env, WakeCaller(env, s, h, s.net[h].pc.callId, true))
  {
    hide Inv, IndexAgrees, WakeCaller, Answers, WakeOutcome;
    AnswersTop(env, s, h);
    var ch := s.px.chains[s.net[h].pc.callId];
    WakeStep(env, s, h, ch[|ch| - 1]);
  }

  lemma UpdatedHandler(s: Sys, h: nat)
    requires h in s.px.infos
    ensures h in Proxy.Update(s.px, h, [], false).infos && !Proxy.Update(s.px, h, [], false).infos[h].waiting
  {
  }

  lemma ResumeAnswered(env: Env, s: Sys, h: nat)
    requires Inv(env, s) && IndexAgrees(env.cfg) && Enabled(env, s, Resume(h, true)) && Direct(env, s, Resume(h, true))
    requires s.net[h].pc.Answering?
    ensures Inv(env, ResumeStep(env, s, h, true))
  {
    DirectWake(env, s, h);
    UpdatedHandler(s, h);
    hide Inv, IndexAgrees, ResumeStep, WakeCaller, WakeOutcome, Direct, Proxy.Update, Free;
    LowerStep(env, s, h, []);
    WakeTop(env, s.(px := Proxy.Update(s.px, h, [], false)), h);
  }

  lemma SmoothResume(env: Env, s: Sys, h: nat)
    requires Inv(env, s) && IndexAgrees(env.cfg) && Enabled(env, s, Resume(h, true)) && Direct(env, s, Resume(h, true))
    ensures Inv(env, ResumeStep(env, s, h, true))
  {
    hide Inv, IndexAgrees, ResumeStep, Direct;
    if s.net[h].pc.Sending? {
      ResumeSent(env, s, h);
    } else {
      ResumeAnswered(env, s, h);
    }
  }

  lemma WakeNothing(env: Env, px: Proxy.State, a: nat, c: Text)
    requires a in px.infos && px.infos[a].queue == [] && IsTop(px, c, a)
    ensures WakeOutcome(env, px, c).Quiet?
  {
  }

  lemma AnsweringOutcomes(env: Env, s: Sys, h: nat)
    requires h in s.net && s.net[h].pc.Answering? && s.net[h].pc.self == h
    requires h in s.px.infos && s.px.infos[h].queue == []
    ensures Outcomes(env, s, Resume(h, true)) ==
            [Proxy.Quiet, WakeOutcome(env, Proxy.Update(s.px, h, [], false), s.net[h].pc.callId)]
  {
    assert Proxy.Dispatch(env.cfg.owner, Proxy.Update(s.px, h, [], false), h) ==
           (Proxy.Update(s.px, h, [], false), Proxy.Quiet);
    hide WakeOutcome, Proxy.Dispatch, Proxy.Update;
  }
}
