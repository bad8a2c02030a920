/** What an actor process's own steps do to the invariant of its node. */
module ActorNodes {
  import opened Protocol
  import opened CallIds
  import opened S = System
  import opened Meaning
  import opened Invariant
  import opened ActorSteps
  import opened SmoothRuns
  import Proxy
  import Accounting
  import Directory

  /** A change that nothing on the links shows. */
  lemma InnerChange(env: Env, px: Proxy.State, net: map<nat, Node>, p: nat, n: Node, m: Node)
    requires NodeOK(env, px, net, p, n)
    requires m.up == n.up && m.down == n.down && m.proc.wait == n.proc.wait
    requires UpOK(env, px, net, p, m.up, m.proc.wait, m.proc.seq_)
    requires QueueOK(px, net, p, m.proc.queue) && JobOK(env, px, net, p, m.proc) && AnswersOK(env, m.proc.answers)
    requires Accounting.Owed(m) <= Accounting.Owed(n)
    ensures NodeOK(env, px, net, p, m)
  {
    hide UpOK, QueueOK, DownOK, JobOK, BacklogOK, OweOK, AnswersOK;
    OweLess(px, p, n, m);
  }

  lemma NodeParts(env: Env, px: Proxy.State, net: map<nat, Node>, p: nat, n: Node)
    requires NodeOK(env, px, net, p, n)
    ensures UpOK(env, px, net, p, n.up, n.proc.wait, n.proc.seq_) && QueueOK(px, net, p, n.proc.queue)
    ensures JobOK(env, px, net, p, n.proc) && AnswersOK(env, n.proc.answers)
  {
    hide UpOK, QueueOK, DownOK, JobOK, BacklogOK, OweOK, AnswersOK;
  }

  lemma QueueTail(px: Proxy.State, net: map<nat, Node>, p: nat, queue: seq<Msg>)
    requires QueueOK(px, net, p, queue) && queue != []
    ensures QueueOK(px, net, p, queue[1..]) && MsgOK(px, net, p, queue[0])
  {
    hide MsgOK;
  }

  lemma QueueSnoc(px: Proxy.State, net: map<nat, Node>, p: nat, queue: seq<Msg>, msg: Msg)
    requires QueueOK(px, net, p, queue) && MsgOK(px, net, p, msg)
    ensures QueueOK(px, net, p, queue + [msg])
  {
    hide MsgOK;
  }

  lemma ArriveOK(env: Env, px: Proxy.State, net: map<nat, Node>, p: nat, n: Node, msg: Msg)
    requires NodeOK(env, px, net, p, n) && msg.origin.Tcp? && msg.callId == []
    ensures NodeOK(env, px, net, p, n.(proc := n.proc.(queue := n.proc.queue + [msg])))
  {
    var m := n.(proc := n.proc.(queue := n.proc.queue + [msg]));
    Accounting.ArriveOwed(n, msg);
    hide UpOK, DownOK, BacklogOK, OweOK, Accounting.Owed, Faithful, IsTop, WaitOK, Ours, AnswersOK;
    InnerChange(env, px, net, p, n, m);
  }

  lemma DownTail(env: Env, px: Proxy.State, net: map<nat, Node>, p: nat, n: Node, m: Node)
    requires DownOK(env, px, net, p, n.down, n.proc.wait, n.up) && n.down != [] && m.down == n.down[1..]
    requires n.down[0].Req? ==> m.up == n.up && m.proc.wait == n.proc.wait
    ensures DownOK(env, px, net, p, m.down, m.proc.wait, m.up)
    ensures DownItemOK(env, px, net, p, n.down[0], n.proc.wait, n.up)
    ensures n.down[0].Resp? ==> NoAnswer(m.down)
    ensures NoAnswer(n.down) ==> NoAnswer(m.down)
  {
    hide Wanted, IsTop, Evaluates, Asked, AnswerOK;
    assert forall i :: 0 <= i < |m.down| ==> m.down[i] == n.down[i + 1];
  }

  lemma CallIdCleared(env: Env, px: Proxy.State, net: map<nat, Node>, p: nat, proc: Proc, queue: seq<Msg>)
    requires JobOK(env, px, net, p, proc)
    ensures JobOK(env, px, net, p, proc.(callId := [], queue := queue))
  {
    hide IsTop, MsgOK, Faithful, Ours;
  }

  lemma ReceiveReqOK(env: Env, px: Proxy.State, net: map<nat, Node>, p: nat, n: Node)
    requires NodeOK(env, px, net, p, n) && n.down != [] && n.down[0].Req?
    ensures NodeOK(env, px, net, p, ReceiveNode(n))
  {
    hide UpOK, QueueOK, DownOK, OweOK, JobOK, AnswersOK, Accounting.Owed, NoAnswer, Awaited, InBody, IsTop;
    var m := ReceiveNode(n);
    var r := n.down[0].req;
    DownTail(env, px, net, p, n, m);
    Accounting.ReceiveOwed(n);
    OweLess(px, p, n, m);
    QueueSnoc(px, net, p, n.proc.queue, Msg(r.service, r.callId, r.pack, Unix));
    CallIdCleared(env, px, net, p, n.proc, m.proc.queue);
  }

  lemma ReceiveRespOK(env: Env, px: Proxy.State, net: map<nat, Node>, p: nat, n: Node)
    requires NodeOK(env, px, net, p, n) && n.down != [] && n.down[0].Resp? && IndexAgrees(env.cfg)
    ensures NodeOK(env, px, net, p, ReceiveNode(n)) && NoAnswer(ReceiveNode(n).down)
  {
    var m := ReceiveNode(n);
    DownTail(env, px, net, p, n, m);
    Accounting.ReceiveOwed(n);
    OweLess(px, p, n, m);
    var r, q, job := n.down[0].resp, n.proc.wait.value, n.proc.job.value;
    assert env.cfg.owner[job.msg.service] == n.proc.name;
    FaithfulAppend(env, job.msg.service, job.msg.pack, job.replies, Got(r.pack));
    hide IsTop, Wanted, InBody, Awaited, QueueOK, DownOK, OweOK, NoAnswer, Faithful, MsgOK, Ours, AnswersOK, Evaluates;
    assert JobOK(env, px, net, p, m.proc);
  }

  lemma TakeJobOK(env: Env, px: Proxy.State, net: map<nat, Node>, p: nat, n: Node)
    requires JobOK(env, px, net, p, n.proc) && n.proc.queue != [] && n.proc.job.None?
    requires MsgOK(px, net, p, n.proc.queue[0])
    ensures JobOK(env, px, net, p, TakeNode(env, n).proc)
  {
    var msg := n.proc.queue[0];
    WantedOnlyTop(px, net, msg.callId, p);
    assert Faithful(env, msg.service, msg.pack, []);
    hide Wanted, Faithful, WaitOK, IsOpen, Generated, IsTop;
  }

  lemma TakeFields(env: Env, n: Node)
    requires n.proc.queue != []
    ensures var m := TakeNode(env, n);
            && m.up == n.up && m.down == n.down && m.pc == n.pc && m.proc.wait == n.proc.wait
            && m.proc.seq_ == n.proc.seq_ && m.proc.queue == n.proc.queue[1..] && m.proc.answers == n.proc.answers
  {
  }

  lemma TakeOK(env: Env, px: Proxy.State, net: map<nat, Node>, p: nat, n: Node)
    requires NodeOK(env, px, net, p, n) && n.proc.queue != [] && n.proc.job.None?
    ensures NodeOK(env, px, net, p, TakeNode(env, n))
  {
    var m := TakeNode(env, n);
    TakeFields(env, n);
    hide UpOK, DownOK, QueueOK, BacklogOK, OweOK, Accounting.Owed, JobOK, AnswersOK, MsgOK, TakeNode;
    QueueTail(px, net, p, n.proc.queue);
    TakeJobOK(env, px, net, p, n);
    Accounting.TakeOwed(env, n);
    InnerChange(env, px, net, p, n, m);
  }

  lemma RefuseOK(env: Env, px: Proxy.State, net: map<nat, Node>, p: nat, n: Node, job: Job)
    requires NodeOK(env, px, net, p, n) && n.proc.job == Some(job) && n.proc.wait.None?
    ensures NodeOK(env, px, net, p, RefuseSend(n, job))
  {
    FaithfulAppend(env, job.msg.service, job.msg.pack, job.replies, Refused);
    Accounting.RefuseSendOwed(n, job);
    hide UpOK, DownOK, QueueOK, BacklogOK, OweOK, Accounting.Owed, Faithful, IsTop, WaitOK, MsgOK, Ours, AnswersOK;
    InnerChange(env, px, net, p, n, RefuseSend(n, job));
  }

  /** An actor that is not suspended has nothing pending anywhere. */
  lemma NotPending(env: Env, px: Proxy.State, net: map<nat, Node>, p: nat, n: Node)
    requires NodeOK(env, px, net, p, n) && n.proc.wait.None?
    ensures forall i :: 0 <= i < |n.up| ==> n.up[i].Resp?
    ensures px.infos[p].queue == [] && NoAnswer(n.down)
  {
    hide IsTop, Wanted, InBody, Awaited, Asked, Answered, IdReady, QueueOK, OweOK, JobOK, AnswersOK;
    forall i | 0 <= i < |n.up| ensures n.up[i].Resp? {
      assert UpItemOK(env, px, net, p, n.up[i], i == |n.up| - 1, n.proc.wait, n.proc.seq_);
    }
    forall i | 0 <= i < |n.down| ensures n.down[i].Req? {
      assert DownItemOK(env, px, net, p, n.down[i], n.proc.wait, n.up);
    }
  }

  /** An actor without a pending request writes one more frame. */
  lemma UpSnoc(env: Env, px: Proxy.State, net: map<nat, Node>, p: nat, up: seq<Frame>, f: Frame,
               wait: Option<Request>, seq_: nat, more: nat)
    requires UpOK(env, px, net, p, up, None, seq_)
    requires UpItemOK(env, px, net, p, f, true, wait, more)
    ensures UpOK(env, px, net, p, up + [f], wait, more)
  {
    hide Wanted, IsTop, Evaluates, Asked, Answered, IdReady;
    forall i | 0 <= i < |up|
      ensures UpItemOK(env, px, net, p, (up + [f])[i], i == |up + [f]| - 1, wait, more) {
      assert UpItemOK(env, px, net, p, up[i], i == |up| - 1, None, seq_);
    }
  }

  /** The id a process sends on is its own and may be routed. */
  lemma SendId(env: Env, px: Proxy.State, net: map<nat, Node>, p: nat, proc: Proc, job: Job)
    requires JobOK(env, px, net, p, proc) && proc.job == Some(job) && proc.wait.None?
    requires proc.seq_ + 1 < SEQ_LIMIT && MakeCallId(p, proc.seq_ + 1) !in px.chains
    ensures var more := if proc.callId == [] then proc.seq_ + 1 else proc.seq_;
            Ours(p, job.msg, more, Sent(proc, p)) && IdReady(px, p, more, Sent(proc, p))
  {
    hide IsTop, Faithful, MsgOK;
    assert proc.callId == [] ==> Generated(MakeCallId(p, proc.seq_ + 1), p, proc.seq_ + 1);
  }

  lemma SendFields(env: Env, px: Proxy.State, net: map<nat, Node>, p: nat, n: Node, job: Job, service: Text, arg: Pack)
    requires JobOK(env, px, net, p, n.proc) && n.proc.job == Some(job) && n.proc.wait.None?
    requires env.body(job.msg.service, job.msg.pack, job.replies) == Call(service, arg)
    requires !Offers(env.cfg, n.proc.name, service) && n.proc.seq_ + 1 < SEQ_LIMIT
    requires var more := if n.proc.callId == [] then n.proc.seq_ + 1 else n.proc.seq_;
             Ours(p, job.msg, more, Sent(n.proc, p)) && IdReady(px, p, more, Sent(n.proc, p))
    ensures var m := StartSend(p, n, job, service, arg, true);
            && JobOK(env, px, net, p, m.proc) && m.proc.wait.Some? && m.up == n.up + [Req(m.proc.wait.value)]
            && m.down == n.down && m.proc.queue == n.proc.queue && m.proc.answers == n.proc.answers
            && UpItemOK(env, px, net, p, Req(m.proc.wait.value), true, m.proc.wait, m.proc.seq_)
  {
    hide Tops, IsTop, MsgOK, IdReady, Faithful, Ours, MakeCallId, Offers;
  }

  lemma SendOK(env: Env, px: Proxy.State, net: map<nat, Node>, p: nat, n: Node, job: Job, service: Text, arg: Pack)
    requires NodeOK(env, px, net, p, n) && n.proc.job == Some(job) && n.proc.wait.None?
    requires env.body(job.msg.service, job.msg.pack, job.replies) == Call(service, arg)
    requires !Offers(env.cfg, n.proc.name, service)
    requires n.proc.seq_ + 1 < SEQ_LIMIT && MakeCallId(p, n.proc.seq_ + 1) !in px.chains
    ensures NodeOK(env, px, net, p, StartSend(p, n, job, service, arg, true))
  {
    var m := StartSend(p, n, job, service, arg, true);
    hide JobOK, UpOK, DownOK, QueueOK, OweOK, AnswersOK, UpItemOK, Ours, IdReady, StartSend, Sent, MakeCallId;
    hide IsTop, Awaited, Responding, Free, NoAnswer, Offers;
    Accounting.StartSendOwed(p, n, job, service, arg, true);
    OweLess(px, p, n, m);
    NotPending(env, px, net, p, n);
    SendId(env, px, net, p, n.proc, job);
    SendFields(env, px, net, p, n, job, service, arg);
    UpSnoc(env, px, net, p, n.up, Req(m.proc.wait.value), m.proc.wait, n.proc.seq_, m.proc.seq_);
    DownUnasked(env, px, net, p, n.down, n.proc.wait, n.up, m.proc.wait, m.up);
  }

  /** Without an answer on it, the link from the proxy depends on neither. */
  lemma DownUnasked(env: Env, px: Proxy.State, net: map<nat, Node>, p: nat, down: seq<Frame>,
                    wait: Option<Request>, up: seq<Frame>, later: Option<Request>, more: seq<Frame>)
    requires DownOK(env, px, net, p, down, wait, up) && NoAnswer(down)
    ensures DownOK(env, px, net, p, down, later, more)
  {
    hide Asked, Wanted, AnswerOK;
  }

  /** A send whose write fails leaves the id it would have gone out on. */
  lemma FailedFields(env: Env, px: Proxy.State, net: map<nat, Node>, p: nat, n: Node, job: Job, service: Text,
                     arg: Pack)
    requires JobOK(env, px, net, p, n.proc) && n.proc.job == Some(job) && n.proc.wait.None?
    requires n.proc.seq_ + 1 < SEQ_LIMIT
    requires Faithful(env, job.msg.service, job.msg.pack, job.replies + [Refused])
    requires var more := if n.proc.callId == [] then n.proc.seq_ + 1 else n.proc.seq_;
             Ours(p, job.msg, more, Sent(n.proc, p)) && IdReady(px, p, more, Sent(n.proc, p))
    ensures var m := StartSend(p, n, job, service, arg, false);
            && JobOK(env, px, net, p, m.proc) && m.proc.wait == None && m.up == n.up && m.down == n.down
            && m.proc.queue == n.proc.queue && m.proc.answers == n.proc.answers && n.proc.seq_ <= m.proc.seq_
  {
    hide Tops, IsTop, MsgOK, IdReady, Faithful, Ours, MakeCallId, Offers;
  }

  lemma UpMore(env: Env, px: Proxy.State, net: map<nat, Node>, p: nat, up: seq<Frame>, seq_: nat, more: nat)
    requires UpOK(env, px, net, p, up, None, seq_)
    ensures UpOK(env, px, net, p, up, None, more)
  {
    hide Wanted, IsTop, Evaluates, Asked, Answered, IdReady;
    forall i | 0 <= i < |up| ensures UpItemOK(env, px, net, p, up[i], i == |up| - 1, None, more) {
      assert UpItemOK(env, px, net, p, up[i], i == |up| - 1, None, seq_);
    }
  }

  lemma FailedOK(env: Env, px: Proxy.State, net: map<nat, Node>, p: nat, n: Node, job: Job, service: Text, arg: Pack)
    requires NodeOK(env, px, net, p, n) && n.proc.job == Some(job) && n.proc.wait.None?
    requires n.proc.seq_ + 1 < SEQ_LIMIT && MakeCallId(p, n.proc.seq_ + 1) !in px.chains
    ensures NodeOK(env, px, net, p, StartSend(p, n, job, service, arg, false))
  {
    hide *;
    var m := StartSend(p, n, job, service, arg, false);
    NodeParts(env, px, net, p, n);
    FaithfulSoFar(env, px, net, p, n.proc, job);
    FaithfulAppend(env, job.msg.service, job.msg.pack, job.replies, Refused);
    Accounting.StartSendOwed(p, n, job, service, arg, false);
    SendId(env, px, net, p, n.proc, job);
    FailedFields(env, px, net, p, n, job, service, arg);
    UpMore(env, px, net, p, n.up, n.proc.seq_, m.proc.seq_);
    InnerChange(env, px, net, p, n, m);
  }

  lemma FaithfulSoFar(env: Env, px: Proxy.State, net: map<nat, Node>, p: nat, proc: Proc, job: Job)
    requires JobOK(env, px, net, p, proc) && proc.job == Some(job)
    ensures Faithful(env, job.msg.service, job.msg.pack, job.replies)
  {
    hide Faithful, MsgOK, WaitOK, IdReady, Ours, Tops;
  }

  lemma AnswersSnoc(env: Env, answers: seq<Answer>, a: Answer)
    requires AnswersOK(env, answers) && Evaluates(env, a.msg.service, a.msg.pack, a.reply)
    ensures AnswersOK(env, answers + [a])
  {
    hide Evaluates;
  }

  /** A service that got all it sent for returns its value, and the frame it is
      to pop is its own. */
  lemma CompleteSays(env: Env, px: Proxy.State, net: map<nat, Node>, p: nat, proc: Proc, job: Job, reply: Pack)
    requires JobOK(env, px, net, p, proc) && proc.job == Some(job) && IndexAgrees(env.cfg)
    requires env.body(job.msg.service, job.msg.pack, job.replies) == Return(reply)
    requires job.msg.origin.Unix? ==> Tops(px, job.msg.callId, p)
    ensures !proc.err ==> Evaluates(env, job.msg.service, job.msg.pack, reply)
    ensures !proc.err && job.msg.origin.Unix? ==>
              Answered(env, Wanted(px, net, job.msg.callId, p), job.msg.service, reply)
  {
    assert job.msg.service in env.cfg.owner;
    if !proc.err {
      FaithfulEvaluates(env, job.msg.service, job.msg.pack, job.replies, reply);
    }
    hide Tops, Wanted, Faithful, Evaluates, WaitOK, Ours;
  }

  lemma CompleteJobOK(env: Env, px: Proxy.State, net: map<nat, Node>, p: nat, n: Node, job: Job, reply: Pack,
                      ok: bool)
    requires n.proc.wait.None?
    ensures JobOK(env, px, net, p, Complete(p, n, job, reply, ok).proc)
  {
    hide IsOpen;
  }

  lemma CompleteOK(env: Env, px: Proxy.State, net: map<nat, Node>, p: nat, n: Node, job: Job, reply: Pack, ok: bool)
    requires NodeOK(env, px, net, p, n) && n.proc.job == Some(job) && n.proc.wait.None? && IndexAgrees(env.cfg)
    requires env.body(job.msg.service, job.msg.pack, job.replies) == Return(reply)
    requires job.msg.origin.Unix? ==> Tops(px, job.msg.callId, p)
    ensures NodeOK(env, px, net, p, Complete(p, n, job, reply, ok))
  {
    hide UpOK, DownOK, QueueOK, JobOK, OweOK, AnswersOK, Accounting.Owed;
    hide Evaluates, Offers, Tops, Awaited, Free, NoAnswer;
    var m := Complete(p, n, job, reply, ok);
    Accounting.CompleteOwed(p, n, job, reply, ok);
    OweLess(px, p, n, m);
    NotPending(env, px, net, p, n);
    CompleteSays(env, px, net, p, n.proc, job, reply);
    assert m.up == n.up || m.up == n.up + [Resp(Response(p, job.msg.callId, job.msg.service, reply))];
    if m.up != n.up {
      UpSnoc(env, px, net, p, n.up, m.up[|n.up|], None, n.proc.seq_, n.proc.seq_);
    }
    assert m.proc.answers == n.proc.answers || m.proc.answers == n.proc.answers + [Answer(job.msg, reply)];
    if m.proc.answers != n.proc.answers {
      AnswersSnoc(env, n.proc.answers, Answer(job.msg, reply));
    }
    DownUnasked(env, px, net, p, n.down, n.proc.wait, n.up, n.proc.wait, m.up);
    CompleteJobOK(env, px, net, p, n, job, reply, ok);
  }

  // ------------------------------------------------------- in the whole system

  /** No chain waits for an actor whose send is not pending, or pending somewhere
      else than in a chain. */
  lemma FreeUnlessSuspended(env: Env, s: Sys, p: nat)
    requires Inv(env, s) && p in s.net && p in s.px.infos
    requires s.net[p].proc.wait.None? || s.net[p].up != [] || !NoAnswer(s.net[p].down) || s.px.infos[p].queue != []
    ensures Free(s.px, p)
  {
    hide Inv, InBody, Awaited, NoAnswer;
    forall c ensures !InBody(s.px, c, p) {
      if InBody(s.px, c, p) {
        SuspendedAt(env, s, c, p);
      }
    }
  }

  lemma SuspendedAt(env: Env, s: Sys, c: Text, p: nat)
    requires Inv(env, s) && InBody(s.px, c, p)
    ensures Suspended(s.px, s.net, c, p)
  {
    hide Directory.Listed, NodesOK, HandlersOK, Distinct, Generated, Serving, Suspended;
    var ch := Proxy.Chain(s.px, c);
    var i :| 0 <= i < |ch| - 1 && ch[i] == p;
    assert ChainOK(s.px, s.net, c, ch);
  }

  /** A newly generated id is not yet the key of a chain. */
  lemma FreshId(env: Env, s: Sys, p: nat)
    requires Inv(env, s) && p in s.net
    ensures MakeCallId(p, s.net[p].proc.seq_ + 1) !in s.px.chains
  {
    hide Directory.Listed, NodesOK, HandlersOK, Distinct, LinksOK, MakeCallId;
    var c := MakeCallId(p, s.net[p].proc.seq_ + 1);
    if c in s.px.chains {
      assert ChainOK(s.px, s.net, c, s.px.chains[c]);
      var root := s.px.chains[c][0];
      var n: nat :| 1 <= n <= s.net[root].proc.seq_ && c == MakeCallId(root, n);
      MakeCallIdInjective(root, n, p, s.net[p].proc.seq_ + 1);
    }
  }

  lemma FramesHas(px: Proxy.State, c: Text, p: nat)
    requires Frames(px, c, p) > 0
    ensures IsTop(px, c, p) || InBody(px, c, p)
  {
    var ch := Proxy.Chain(px, c);
    assert p in ch[1..];
    var i :| 0 <= i < |ch[1..]| && ch[1..][i] == p;
    assert ch[i + 1] == p;
  }

  /** An actor that runs a service for the proxy is the top of its chain, and waits
      nowhere on it. */
  lemma RunnerIsTop(env: Env, s: Sys, p: nat)
    requires Inv(env, s) && p in s.net && p in s.px.infos && s.net[p].proc.wait.None?
    requires s.net[p].proc.job.Some? && s.net[p].proc.job.value.msg.origin.Unix?
    ensures Tops(s.px, s.net[p].proc.job.value.msg.callId, p)
  {
    FreeUnlessSuspended(env, s, p);
    hide Directory.Listed, ChainsOK, HandlersOK, UpOK, DownOK, QueueOK, JobOK;
    hide BacklogOK, AnswersOK, Frames, IsTop, InBody;
    var n, c := s.net[p], s.net[p].proc.job.value.msg.callId;
    assert NodeOK(env, s.px, s.net, p, n);
    assert Accounting.Owed(n)[c] >= 1;
    FramesHas(s.px, c, p);
  }

  lemma ArriveStep(env: Env, s: Sys, p: nat, msg: Msg)
    requires Inv(env, s) && Enabled(env, s, Arrive(p, msg))
    requires Directory.Listed(env.cfg, Apply(env, s, Arrive(p, msg)))
    ensures Inv(env, Apply(env, s, Arrive(p, msg)))
  {
    hide NodeOK, ChainsOK, HandlersOK, Directory.Listed, Inv, Free, NoAnswer;
    NodeAt(env, s, p);
    ArriveOK(env, s.px, s.net, p, s.net[p], msg);
    ActorStep(env, s, p, Apply(env, s, Arrive(p, msg)).net[p]);
  }

  lemma NodeAt(env: Env, s: Sys, p: nat)
    requires Inv(env, s) && p in s.net
    ensures NodeOK(env, s.px, s.net, p, s.net[p]) && p in s.px.infos && PcOK(s.px, p, s.net[p].pc)
  {
    hide NodeOK, ChainsOK, PcOK, Directory.Listed;
    ListedHas(env.cfg, s, p);
  }

  lemma CloseJobOK(env: Env, px: Proxy.State, net: map<nat, Node>, p: nat, proc: Proc, conn: nat)
    requires JobOK(env, px, net, p, proc)
    ensures JobOK(env, px, net, p, Close(proc, Tcp(conn)))
  {
    hide Faithful, MsgOK, IdReady, Ours, Tops;
  }

  lemma HangUpOK(env: Env, px: Proxy.State, net: map<nat, Node>, p: nat, n: Node, conn: nat)
    requires NodeOK(env, px, net, p, n)
    ensures NodeOK(env, px, net, p, n.(proc := Close(n.proc, Tcp(conn))))
  {
    Accounting.CloseOwed(n, Tcp(conn));
    hide UpOK, DownOK, QueueOK, JobOK, BacklogOK, OweOK, Accounting.Owed, AnswersOK;
    CloseJobOK(env, px, net, p, n.proc, conn);
    InnerChange(env, px, net, p, n, n.(proc := Close(n.proc, Tcp(conn))));
  }

  lemma HangUpStep(env: Env, s: Sys, p: nat, conn: nat)
    requires Inv(env, s) && Enabled(env, s, HangUp(p, conn))
    requires Directory.Listed(env.cfg, Apply(env, s, HangUp(p, conn)))
    ensures Inv(env, Apply(env, s, HangUp(p, conn)))
  {
    hide NodeOK, ChainsOK, HandlersOK, Directory.Listed, Inv, Free, NoAnswer;
    NodeAt(env, s, p);
    HangUpOK(env, s.px, s.net, p, s.net[p], conn);
    ActorStep(env, s, p, s.net[p].(proc := Close(s.net[p].proc, Tcp(conn))));
  }

  lemma ReceiveStep(env: Env, s: Sys, p: nat)
    requires Inv(env, s) && Enabled(env, s, Receive(p)) && IndexAgrees(env.cfg)
    requires Directory.Listed(env.cfg, Apply(env, s, Receive(p)))
    ensures Inv(env, Apply(env, s, Receive(p)))
  {
    hide NodeOK, ChainsOK, HandlersOK, Directory.Listed, Inv, Free, NoAnswer, IndexAgrees;
    NodeAt(env, s, p);
    var n := s.net[p];
    if n.down[0].Req? {
      ReceiveReqOK(env, s.px, s.net, p, n);
      ReceiveReqUnseen(n);
    } else {
      ReceiveRespOK(env, s.px, s.net, p, n);
      AnswerSeen(n.down);
      FreeUnlessSuspended(env, s, p);
    }
    ActorStep(env, s, p, ReceiveNode(n));
  }

  lemma ReceiveReqUnseen(n: Node)
    requires n.down != [] && n.down[0].Req?
    ensures NoAnswer(n.down) ==> NoAnswer(ReceiveNode(n).down)
  {
  }

  lemma AnswerSeen(down: seq<Frame>)
    requires down != [] && down[0].Resp?
    ensures !NoAnswer(down)
  {
  }

  lemma TakeStep(env: Env, s: Sys, p: nat)
    requires Inv(env, s) && Enabled(env, s, Take(p))
    requires Directory.Listed(env.cfg, Apply(env, s, Take(p)))
    ensures Inv(env, Apply(env, s, Take(p)))
  {
    hide NodeOK, ChainsOK, HandlersOK, Directory.Listed, Inv, Free, NoAnswer, TakeNode;
    NodeAt(env, s, p);
    TakeOK(env, s.px, s.net, p, s.net[p]);
    NoJobNoWait(env, s.px, s.net, p, s.net[p]);
    FreeUnlessSuspended(env, s, p);
    TakeFields(env, s.net[p]);
    ActorStep(env, s, p, TakeNode(env, s.net[p]));
  }

  lemma NoJobNoWait(env: Env, px: Proxy.State, net: map<nat, Node>, p: nat, n: Node)
    requires NodeOK(env, px, net, p, n) && n.proc.job.None?
    ensures n.proc.wait.None?
  {
    hide UpOK, DownOK, QueueOK, BacklogOK, OweOK, AnswersOK;
  }

  lemma ActStep(env: Env, s: Sys, p: nat, ok: bool)
    requires Inv(env, s) && Enabled(env, s, Act(p, ok)) && IndexAgrees(env.cfg)
    requires NoWrap(s, Act(p, ok))
    requires Directory.Listed(env.cfg, Apply(env, s, Act(p, ok)))
    ensures Inv(env, Apply(env, s, Act(p, ok)))
  {
    hide NodeOK, ChainsOK, HandlersOK, Directory.Listed, Inv, Free, NoAnswer;
    hide IndexAgrees, Offers, Complete, StartSend, MakeCallId;
    NodeAt(env, s, p);
    var n, job := s.net[p], s.net[p].proc.job.value;
    FreeUnlessSuspended(env, s, p);
    match env.body(job.msg.service, job.msg.pack, job.replies) {
      case Return(reply) =>
        if job.msg.origin.Unix? {
          RunnerIsTop(env, s, p);
        }
        CompleteOK(env, s.px, s.net, p, n, job, reply, ok);
      case Call(service, arg) =>
        FreshId(env, s, p);
        if Offers(env.cfg, n.proc.name, service) {
          RefuseOK(env, s.px, s.net, p, n, job);
        } else {
          if ok && n.proc.linked {
            SendOK(env, s.px, s.net, p, n, job, service, arg);
          } else {
            FailedOK(env, s.px, s.net, p, n, job, service, arg);
          }
        }
    }
    ActFields(env, p, n, ok);
    ActorStep(env, s, p, ActNode(env, p, n, ok));
  }

  lemma ActFields(env: Env, p: nat, n: Node, ok: bool)
    requires n.proc.job.Some? && n.proc.seq_ + 1 < SEQ_LIMIT
    ensures var m := ActNode(env, p, n, ok); m.pc == n.pc && n.proc.seq_ <= m.proc.seq_
  {
    hide Offers, IsOpen, MakeCallId;
  }

  /** On a chain it is the one top of, an actor sends either on the message it
      serves, or on an id of its own, and then it is the root. */
  lemma OwnIdIsRoot(env: Env, s: Sys, p: nat, msg: Msg, seq_: nat, c: Text)
    requires Inv(env, s) && c in s.px.chains && !InBody(s.px, c, p) && Ours(p, msg, seq_, c)
    ensures (msg.origin.Unix? && msg.callId == c) || Frames(s.px, c, p) == 0
  {
    if !(msg.origin.Unix? && msg.callId == c) {
      RootHasNoFrames(env, s, p, seq_, c);
    }
  }

  /** The maker of an id is the root of its chain, and alone there if it does not wait. */
  lemma RootHasNoFrames(env: Env, s: Sys, p: nat, seq_: nat, c: Text)
    requires Inv(env, s) && c in s.px.chains && !InBody(s.px, c, p) && Generated(c, p, seq_)
    ensures Frames(s.px, c, p) == 0 && s.px.chains[c] == [p]
  {
    hide Directory.Listed, NodesOK, HandlersOK, LinksOK, MakeCallId;
    var ch := s.px.chains[c];
    assert ChainOK(s.px, s.net, c, ch);
    var m: nat :| 1 <= m <= s.net[ch[0]].proc.seq_ && c == MakeCallId(ch[0], m);
    var n: nat :| 1 <= n <= seq_ && c == MakeCallId(p, n);
    MakeCallIdInjective(ch[0], m, p, n);
    assert Proxy.Chain(s.px, c)[0] == p;
  }

  /** An actor that does not wait on a chain was pushed on it at most once. */
  lemma FramesAtMostOne(px: Proxy.State, c: Text, p: nat)
    requires !InBody(px, c, p)
    ensures Frames(px, c, p) <= 1
  {
    var ch := Proxy.Chain(px, c);
    if ch != [] {
      OnlyLast(ch[1..], p) by {
        forall i | 0 <= i < |ch[1..]| - 1 ensures ch[1..][i] != p {
          assert ch[1..][i] == ch[i + 1];
        }
      }
    }
  }

  lemma OnlyLast(xs: seq<nat>, p: nat)
    requires forall i :: 0 <= i < |xs| - 1 ==> xs[i] != p
    ensures multiset(xs)[p] <= 1
  {
    if xs != [] {
      var last := |xs| - 1;
      assert xs == xs[..last] + [xs[last]];
      assert p !in xs[..last];
    }
  }

  /** A node that owes nothing on `c`, its running job apart, mentions `c` nowhere. */
  lemma OwesNothingElse(n: Node, c: Text)
    requires Accounting.Owed(n)[c] <= Accounting.JobToken(n.proc.job)[c]
    ensures forall i :: 0 <= i < |n.up| && n.up[i].Resp? ==> n.up[i].resp.callId != c
    ensures forall i :: 0 <= i < |n.proc.queue| ==> AvoidsMsg(n.proc.queue[i], Some(c))
    ensures forall i :: 0 <= i < |n.down| && n.down[i].Req? ==> n.down[i].req.callId != c
  {
    forall i | 0 <= i < |n.up| && n.up[i].Resp? ensures n.up[i].resp.callId != c {
      Accounting.UpTokenIn(n.up, i, c);
    }
    forall i | 0 <= i < |n.proc.queue| ensures AvoidsMsg(n.proc.queue[i], Some(c)) {
      Accounting.MsgTokenIn(n.proc.queue, i, c);
    }
    forall i | 0 <= i < |n.down| && n.down[i].Req? ensures n.down[i].req.callId != c {
      Accounting.DownTokenIn(n.down, i, c);
    }
  }
}
