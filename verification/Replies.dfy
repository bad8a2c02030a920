/** What a worker answers and when it fails (src/coro_actor_ctx.cpp:104-198): how a turn
    ends, field by field; and in every run, that the answer to a message is the reply its
    service gave last, in its call or later, and that a message fails exactly if an error
    has been recorded since the last one that failed. */
module Replies {
  import opened Protocol
  import opened S = System
  import W = Worker

  // --------------------------------------------------------------- how turns end

  /** The next message can be served: its connection is open and its service known. */
  predicate Servable(x: W.Ctx) {
    x.queue != [] && x.queue[0].origin !in x.shut && x.queue[0].service in x.services
  }

  /** `x` but for what a turn may change while it takes a message. */
  ghost predicate Takes(x: W.Ctx, y: W.Ctx) {
    && x.queue != [] && y.queue == x.queue[1..] && y.taken == x.taken + [x.queue[0]] && y.msgTimer.Idle?
    && y.services == x.services && y.arrived == x.arrived && y.dropped == x.dropped && y.written == x.written
  }

  /** A message is done with: it got `fate`, its connection is closed or left. */
  ghost predicate Done(x: W.Ctx, y: W.Ctx, fate: W.Fate, closed: set<Origin>) {
    y.stage.Top? && y.fates == x.fates + [fate] && y.shut == x.shut + closed
  }

  /** Nothing has become of a message yet. */
  ghost predicate Open(x: W.Ctx, y: W.Ctx, stage: W.Stage) {
    y.stage == stage && y.fates == x.fates && y.shut == x.shut
  }

  lemma CallEnds(x: W.Ctx, msg: Msg, sync: W.Sync)
    ensures var y := W.Called(x, msg, sync);
            && y.queue == x.queue && y.taken == x.taken && y.msgTimer == x.msgTimer && y.services == x.services
            && y.arrived == x.arrived && y.dropped == x.dropped && y.written == x.written
            && match sync
               case Later =>
                 Open(x, y, W.AwaitService(msg)) && y.isWaiting && y.serviceTimer.Parked? && y.err == x.err
                 && y.callId == msg.callId
               case Now(reply, failed) =>
                 && !y.isWaiting && y.callId == [] && !y.err
                 && if failed || x.err then Done(x, y, W.Failed, {msg.origin}) else Open(x, y, W.Writing(msg, reply))
  {
  }

  /** The turn that takes a message: passed over if its connection is closed, its
      connection closed if its service is unknown; otherwise its service is waited for, or
      its reply is about to be written, unless an error has been recorded. */
  lemma TakeEnds(x: W.Ctx, sync: W.Sync)
    requires W.Runnable(x) && !x.stage.AwaitService? && x.queue != []
    ensures var y, msg := W.TurnOnce(x, sync), x.queue[0];
            && Takes(x, y)
            && (msg.origin in x.shut ==> Done(x, y, W.Skipped, {}) && y.err == x.err)
            && (msg.origin !in x.shut && msg.service !in x.services ==>
                  Done(x, y, W.NotFound, {msg.origin}) && y.err == x.err)
            && (Servable(x) ==>
                  match sync
                  case Later =>
                    Open(x, y, W.AwaitService(msg)) && y.isWaiting && y.serviceTimer.Parked? && y.err == x.err
                    && y.callId == msg.callId
                  case Now(reply, failed) =>
                    && !y.isWaiting && y.callId == [] && !y.err
                    && if failed || x.err then Done(x, y, W.Failed, {msg.origin})
                       else Open(x, y, W.Writing(msg, reply)))
  {
    W.TakingTurn(x, sync);
    hide W.TurnOnce, W.Called, W.Runnable;
    CallEnds(W.Popped(x), x.queue[0], sync);
  }

  /** The turn after a service that was waited for has completed. */
  lemma ServiceEnds(x: W.Ctx, msg: Msg, reply: Pack, sync: W.Sync)
    requires x.stage == W.AwaitService(msg) && x.serviceTimer.Parked?
    ensures var z := W.NotifyComplete(x, reply);
            && !z.isWaiting && z.callId == [] && z.stage == x.stage && W.Runnable(z)
            && var y := W.TurnOnce(z, sync);
               && y.queue == x.queue && y.taken == x.taken && y.written == x.written && !y.err && y.serviceTimer.Idle?
               && if x.err then Done(x, y, W.Failed, {msg.origin}) else Open(x, y, W.Writing(msg, reply))
  {
  }

  /** The end of a write: an answer on a connection that is still open, or none. */
  lemma WriteEnds(x: W.Ctx, msg: Msg, reply: Pack, ok: bool)
    requires x.stage == W.Writing(msg, reply)
    ensures var y := W.WriteDone(x, ok);
            && y.queue == x.queue && y.taken == x.taken && y.err == x.err
            && if ok && msg.origin !in x.shut then
                 Done(x, y, W.Answered(reply), {}) && y.written == x.written + [Answer(msg, reply)]
               else Done(x, y, W.Lost, {}) && y.written == x.written
  {
  }

  /** So a stretch of the worker that finds a message whose service replies at once comes
      to the write of that very reply. */
  lemma ResumeWrites(x: W.Ctx, behave: Msg -> W.Sync, reply: Pack)
    requires W.Runnable(x) && !x.stage.AwaitService? && Servable(x) && !x.err
    requires behave(x.queue[0]) == W.Now(reply, false)
    ensures W.Resume(x, behave).stage == W.Writing(x.queue[0], reply)
  {
    W.ResumeTurn(x, behave);
    TakeEnds(x, behave(x.queue[0]));
    hide W.TurnOnce, W.Resume;
  }

  // -------------------------------------------------------- replies, over whole runs

  /** The reply that the step gives to the message number `k` of those taken. */
  function Gives(x: W.Ctx, e: W.Event, k: nat): Option<Pack> {
    match e
    case Notify(reply) => if x.stage.AwaitService? && |x.fates| == k then Some(reply) else None
    case Turn(sync) =>
      if W.Runnable(x) && !x.stage.AwaitService? && Servable(x) && |x.fates| == k && sync.Now? then Some(sync.reply)
      else None
    case _ => None
  }

  /** The last reply that message number `k` has got in the first `i` steps. */
  ghost function Given(xs: seq<W.Ctx>, events: seq<W.Event>, i: nat, k: nat): Option<Pack>
    requires i <= |events| <= |xs|
  {
    if i == 0 then None else
      var given := Gives(xs[i - 1], events[i - 1], k);
      if given.Some? then given else Given(xs, events, i - 1, k)
  }

  /** What the worker writes, or will, is the reply given. */
  ghost predicate Replied(x: W.Ctx, given: nat -> Option<Pack>) {
    && (forall k :: 0 <= k < |x.fates| && x.fates[k].Answered? ==> given(k) == Some(x.fates[k].reply))
    && (x.stage.Writing? ==> given(|x.fates|) == Some(x.stage.reply))
    && (x.stage.AwaitService? && !x.isWaiting ==> given(|x.fates|) == Some(x.reply))
  }

  lemma StepReplied(x: W.Ctx, e: W.Event, before: nat -> Option<Pack>, after: nat -> Option<Pack>)
    requires W.Awake(x) && W.Enabled(x, e) && Replied(x, before)
    requires forall k :: after(k) == if Gives(x, e, k).Some? then Gives(x, e, k) else before(k)
    ensures Replied(W.Step(x, e), after)
  {
    hide W.TurnOnce, W.WriteDone;
    match e
    case Turn(sync) =>
      if x.stage.AwaitService? {
        W.TakingTurn(x, sync);
      } else if x.queue != [] {
        TakeEnds(x, sync);
      } else {
        W.TakingTurn(x, sync);
      }
    case Written(ok) => WriteEnds(x, x.stage.msg, x.stage.reply, ok);
    case _ =>
  }

  lemma {:induction false} RepliedAlways(services: set<Text>, xs: seq<W.Ctx>, events: seq<W.Event>, i: nat)
    requires W.Run(services, xs, events) && i <= |events|
    ensures Replied(xs[i], (k: nat) => Given(xs, events, i, k))
  {
    hide W.Awake, W.Sequential, W.Enabled, W.Step, Gives, Replied;
    if i == 0 {
      FirstReplied(services, (k: nat) => Given(xs, events, 0, k));
    } else {
      RepliedAlways(services, xs, events, i - 1);
      W.WorkerAlways(services, xs, events, i - 1);
      StepReplied(xs[i - 1], events[i - 1],
                  (k: nat) => Given(xs, events, i - 1, k), (k: nat) => Given(xs, events, i, k));
    }
  }

  lemma FirstReplied(services: set<Text>, given: nat -> Option<Pack>)
    ensures Replied(W.Fresh(services), given)
  {
  }

  /** In every run, a message that was answered was answered with the last reply its own
      service gave, in the call or with its completion. */
  lemma AnsweredAsGiven(services: set<Text>, xs: seq<W.Ctx>, events: seq<W.Event>, i: nat, k: nat)
    requires W.Run(services, xs, events) && i <= |events|
    requires k < |xs[i].fates| && xs[i].fates[k].Answered?
    ensures Given(xs, events, i, k) == Some(xs[i].fates[k].reply)
  {
    RepliedAlways(services, xs, events, i);
    hide W.Run, Given;
  }

  // --------------------------------------------------------- errors, over whole runs

  /** An error has been recorded, and no message has failed since. */
  ghost function Erred(xs: seq<W.Ctx>, events: seq<W.Event>, i: nat): bool
    requires i <= |events| < |xs|
  {
    i > 0 && (events[i - 1].Fail? || (Erred(xs, events, i - 1) && !FailsNow(xs[i - 1], xs[i])))
  }

  predicate FailsNow(x: W.Ctx, y: W.Ctx) {
    |y.fates| > |x.fates| && y.fates[|y.fates| - 1].Failed?
  }

  lemma StepErred(x: W.Ctx, e: W.Event)
    requires W.Enabled(x, e)
    ensures W.Step(x, e).err == (e.Fail? || (x.err && !FailsNow(x, W.Step(x, e))))
    ensures FailsNow(x, W.Step(x, e)) ==>
              e.Turn? && (x.err || (e.sync.Now? && e.sync.failed))
  {
    hide W.TurnOnce, W.WriteDone;
    match e
    case Turn(sync) =>
      W.TakingTurn(x, sync);
      if !x.stage.AwaitService? && x.queue != [] {
        hide W.TakeNext;
        TakeEnds(x, sync);
      }
    case Written(ok) => WriteEnds(x, x.stage.msg, x.stage.reply, ok);
    case _ =>
  }

  /** In every run the worker's error is one that was recorded since a message failed last;
      a message that fails, in a turn, does so on it or on one of its own call. */
  lemma {:induction false} ErredAlways(services: set<Text>, xs: seq<W.Ctx>, events: seq<W.Event>, i: nat)
    requires W.Run(services, xs, events) && i <= |events|
    ensures xs[i].err == Erred(xs, events, i)
    ensures i < |events| && FailsNow(xs[i], xs[i + 1]) ==>
              events[i].Turn? && (Erred(xs, events, i) || (events[i].sync.Now? && events[i].sync.failed))
  {
    hide W.Enabled, W.Step, FailsNow;
    if i > 0 {
      ErredAlways(services, xs, events, i - 1);
      StepErred(xs[i - 1], events[i - 1]);
    }
    if i < |events| {
      StepErred(xs[i], events[i]);
    }
  }
}
