/** The context object of an actor process, whose fields its methods and its worker
    coroutine update in place (include/coro_actor_ctx.h, src/coro_actor_ctx.cpp:32-203).
    Every method is proved against module Worker or states what it does to the link. */
module ActorCtx {
  import opened Protocol
  import opened CallIds
  import S = System
  import W = Worker

  /** The composed system's node after a send: the same id and sequence number, the same
      frames written, and a pending request if it was sent; otherwise the error, and false
      handed back to the service. */
  ghost predicate Sends(m: S.Node, n: S.Node, job: S.Job, seq_: nat, callId: Text, written: seq<Frame>, sent: bool) {
    && m.proc.seq_ == seq_ && m.proc.callId == callId && m.up == n.up + written
    && (if sent then m.proc.wait.Some? && written == [Req(m.proc.wait.value)] && m.proc.job == n.proc.job
        else m.proc.wait == n.proc.wait && m.proc.err
             && m.proc.job == Some(S.Job(job.msg, job.replies + [S.Refused])))
  }

  class ActorCtx {
    const pid: nat
    const services: set<Text>
    var seq_: nat
    var errorMsg: Text
    var callId: Text
    var queue: seq<S.Msg>
    var msgTimer: W.Timer
    var serviceTimer: W.Timer
    var responseTimer: W.Timer
    var response: Pack
    var isWaiting: bool
    var reply: Pack
    var stage: W.Stage
    var shut: set<S.Origin>
    var link: seq<Frame>
    ghost var arrived: seq<S.Msg>
    ghost var taken: seq<S.Msg>
    ghost var fates: seq<W.Fate>
    ghost var written: seq<S.Answer>
    ghost var dropped: set<S.Origin>

    ghost function Abs(): W.Ctx
      reads this
    {
      W.Ctx(services, queue, callId, errorMsg != [], isWaiting, reply, stage, msgTimer, serviceTimer, shut,
            arrived, taken, fates, written, dropped)
    }

    constructor (pid: nat, services: set<Text>)
      ensures Abs() == W.Fresh(services) && this.pid == pid && seq_ == 0 && link == [] && responseTimer.Idle?
    {
      this.pid, this.services := pid, services;
      seq_, errorMsg, callId, queue, isWaiting := 0, [], [], [], false;
      reply, stage, shut, link := Pack(0, []), W.Top, {}, [];
      msgTimer, serviceTimer, responseTimer, response := W.Idle, W.Idle, W.Idle, Pack(0, []);
      arrived, taken, fates, written, dropped := [], [], [], [], {};
    }

    method SetCallId(c: Text)
      modifies this`callId
      ensures callId == c
    {
      callId := c;
    }

    /** `push_msg`: it signals the worker only when the queue was empty. */
    method PushMsg(msg: S.Msg)
      modifies this`queue, this`msgTimer, this`arrived
      ensures Abs() == W.PushMsg(old(Abs()), msg)
    {
      queue := queue + [msg];
      arrived := arrived + [msg];
      if |queue| == 1 {
        msgTimer := W.Cancel(msgTimer);
      }
    }

    /** `notify_complete`, called by a service that has filled in its reply. */
    method NotifyComplete(pack: Pack)
      modifies this`isWaiting, this`callId, this`reply, this`serviceTimer
      ensures Abs() == W.NotifyComplete(old(Abs()), pack)
    {
      reply := pack;
      isWaiting := false;
      callId := [];
      serviceTimer := W.Cancel(serviceTimer);
    }

    // ------------------------------------------------------------------- sends

    /** `send`, up to its wait: refused for a service of this process; otherwise a
        fresh id if there is none, and the request on the link, unless the write
        fails. Exactly a sent request leaves the caller parked. */
    method Send(service: Text, arg: Pack, ok: bool) returns (sent: bool)
      modifies this`errorMsg, this`callId, this`seq_, this`link, this`responseTimer
      ensures sent <==> service !in services && ok
      ensures if service in services then seq_ == old(seq_) && callId == old(callId)
              else seq_ == (if old(callId) == [] then (old(seq_) + 1) % 0x1_0000_0000 else old(seq_))
                   && callId == if old(callId) == [] then MakeCallId(pid, seq_) else old(callId)
      ensures link == old(link) + if sent then [Req(Request(pid, callId, service, arg))] else []
      ensures if sent then responseTimer.Parked? && errorMsg == old(errorMsg)
              else responseTimer == old(responseTimer) && errorMsg != []
      ensures forall n: S.Node, job: S.Job {:trigger S.StartSend(pid, n, job, service, arg, ok)}
                {:trigger S.RefuseSend(n, job)} ::
                n.proc.seq_ == old(seq_) && n.proc.callId == old(callId) ==>
                Sends(if service in services then S.RefuseSend(n, job)
                      else S.StartSend(pid, n, job, service, arg, ok),
                      n, job, seq_, callId, link[|old(link)|..], sent)
    {
      if service in services {
        errorMsg := [1];
        return false;
      }
      if callId == [] {
        seq_ := (seq_ + 1) % S.SEQ_LIMIT;
        callId := MakeCallId(pid, seq_);
      }
      if !ok {
        errorMsg := [2];
        return false;
      }
      link := link + [Req(Request(pid, callId, service, arg))];
      responseTimer := W.Parked;
      return true;
    }

    /** `set_response_pack`: the answer is stored and the pending send woken. */
    method SetResponsePack(r: Response)
      modifies this`response, this`responseTimer
      ensures response == r.pack && responseTimer == W.Cancel(old(responseTimer))
    {
      response := r.pack;
      responseTimer := W.Cancel(responseTimer);
    }

    // -------------------------------------------------------------- the worker

    /** Lines 154-163: an error closes the connection of its message, otherwise the
        reply is about to be written. */
    method AfterService(msg: S.Msg)
      modifies this`errorMsg, this`shut, this`stage, this`fates
      ensures Abs() == W.AfterService(old(Abs()), msg)
    {
      if errorMsg != [] {
        errorMsg := [];
        shut := shut + {msg.origin};
        stage := W.Top;
        fates := fates + [W.Failed];
      } else {
        stage := W.Writing(msg, reply);
      }
    }

    method Pop() returns (msg: S.Msg)
      requires queue != []
      modifies this`queue, this`taken, this`msgTimer
      ensures Abs() == W.Popped(old(Abs())) && msg == old(queue)[0]
    {
      msg := queue[0];
      queue := queue[1..];
      taken := taken + [msg];
      msgTimer := W.Idle;
    }

    method Settle(fate: W.Fate)
      modifies this`stage, this`fates
      ensures Abs() == W.Settled(old(Abs()), fate)
    {
      stage := W.Top;
      fates := fates + [fate];
    }

    /** Lines 137-151: the call id is passed on and the service called. */
    method Call(msg: S.Msg, sync: W.Sync)
      modifies this`callId, this`isWaiting, this`errorMsg, this`reply, this`stage, this`serviceTimer, this`shut,
               this`fates
      ensures Abs() == W.Called(old(Abs()), msg, sync)
    {
      callId := msg.callId;
      isWaiting := true;
      hide W.AfterService, W.Cancel, W.NotifyComplete;
      match sync {
        case Later =>
        case Now(pack, failed) =>
          if failed {
            errorMsg := [1];
          }
          NotifyComplete(pack);
      }
      if isWaiting {
        stage := W.AwaitService(msg);
        serviceTimer := W.Parked;
      } else {
        AfterService(msg);
      }
    }

    /** Lines 124-151: the next message is taken and, if its connection is open and
        its service known, the service called. */
    method TakeNext(sync: W.Sync)
      requires queue != []
      modifies this`queue, this`taken, this`msgTimer, this`callId, this`isWaiting, this`errorMsg, this`reply,
               this`stage, this`serviceTimer, this`shut, this`fates
      ensures Abs() == W.TakeNext(old(Abs()), sync)
    {
      hide W.Settled, W.Called;
      var msg := Pop();
      if msg.origin in shut {
        Settle(W.Skipped);
      } else if msg.service !in services {
        shut := shut + {msg.origin};
        Settle(W.NotFound);
      } else {
        Call(msg, sync);
      }
    }

    /** `handle_message` from a wake-up to its next suspension: the loop goes on over
        messages that need no waiting. */
    method HandleMessage(behave: S.Msg -> W.Sync)
      requires W.Runnable(Abs())
      modifies this`queue, this`taken, this`msgTimer, this`callId, this`isWaiting, this`errorMsg, this`reply,
               this`stage, this`serviceTimer, this`shut, this`fates
      ensures Abs() == W.Resume(old(Abs()), behave)
    {
      hide W.AfterService, W.TakeNext, W.Resume;
      ghost var x := Abs();
      ghost var goal := W.Resume(x, behave);
      if stage.AwaitService? {
        W.ResumeFinishes(x, behave);
        var msg := stage.msg;
        serviceTimer := W.Idle;
        AfterService(msg);
        if !stage.Top? {
          return;
        }
      }
      while queue != []
        invariant stage.Top? || stage.AwaitMsg?
        invariant W.Runnable(Abs()) && W.Resume(Abs(), behave) == goal
        decreases |queue|
      {
        W.ResumeTakes(Abs(), behave);
        TakeNext(behave(queue[0]));
        if !stage.Top? {
          return;
        }
      }
      W.ResumeParks(Abs(), behave);
      stage := W.AwaitMsg;
      msgTimer := W.Parked;
    }

    /** The reply has been written, or the write has failed. */
    method WriteDone(ok: bool)
      requires stage.Writing?
      modifies this`stage, this`fates, this`written
      ensures Abs() == W.WriteDone(old(Abs()), ok)
    {
      var msg, pack := stage.msg, stage.reply;
      stage := W.Top;
      if ok && msg.origin !in shut {
        written := written + [S.Answer(msg, pack)];
        fates := fates + [W.Answered(pack)];
      } else {
        fates := fates + [W.Lost];
      }
    }
  }
}
