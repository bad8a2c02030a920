/** The worker of an actor process (`coro_actor_ctx`, src/coro_actor_ctx.cpp:94-203):
    one coroutine that takes messages one at a time, and timers that never expire and
    serve as condition variables. Here as values, with what every interleaving of
    arrivals, completions and turns of the worker keeps. */
module Worker {
  import opened Protocol
  import opened S = System

  /** A timer at the end of time: nobody waits, somebody does, or the wake-up of the
      one who waits is scheduled. */
  datatype Timer = Idle | Parked | Woken

  /** `cancel_one`. */
  function Cancel(t: Timer): Timer {
    if t.Parked? then Woken else t
  }

  /** Where the worker is suspended; `Top` is the head of its loop. */
  datatype Stage = Top | AwaitMsg | AwaitService(msg: Msg) | Writing(msg: Msg, reply: Pack)

  /** What became of a message that was taken. */
  datatype Fate = Skipped | NotFound | Failed | Lost | Answered(reply: Pack)

  /** How a service behaves inside the call of its function: it completes later, or
      right away, perhaps after recording an error. */
  datatype Sync = Later | Now(reply: Pack, failed: bool)

  /** The context. The last fields are history: what arrived, what was taken and what
      became of it, what was written where, and which connections the peers closed. */
  datatype Ctx = Ctx(services: set<Text>, queue: seq<Msg>, callId: Text, err: bool, isWaiting: bool,
                     reply: Pack, stage: Stage, msgTimer: Timer, serviceTimer: Timer, shut: set<Origin>,
                     arrived: seq<Msg>, taken: seq<Msg>, fates: seq<Fate>, written: seq<Answer>, dropped: set<Origin>)

  function Fresh(services: set<Text>): Ctx {
    Ctx(services, [], [], false, false, Pack(0, []), Top, Idle, Idle, {}, [], [], [], [], {})
  }

  datatype Event =
    | Push(msg: Msg)
    | SetCallId(c: Text)
    | Fail
    | Notify(reply: Pack)
    | Drop(origin: Origin)
    | Turn(sync: Sync)
    | Written(ok: bool)

  // -------------------------------------------------------------- operations

  /** `push_msg`: the worker is notified only when the queue was empty. */
  function PushMsg(x: Ctx, msg: Msg): Ctx {
    x.(queue := x.queue + [msg], arrived := x.arrived + [msg],
       msgTimer := if |x.queue + [msg]| == 1 then Cancel(x.msgTimer) else x.msgTimer)
  }

  /** `notify_complete`, the service having filled in its reply. */
  function NotifyComplete(x: Ctx, reply: Pack): Ctx {
    x.(isWaiting := false, callId := [], reply := reply, serviceTimer := Cancel(x.serviceTimer))
  }

  function Settled(x: Ctx, fate: Fate): Ctx {
    x.(stage := Top, fates := x.fates + [fate])
  }

  /** After the service: an error closes the connection of its message, otherwise
      the reply is written there. */
  function AfterService(x: Ctx, msg: Msg): Ctx {
    if x.err then Settled(x.(err := false, shut := x.shut + {msg.origin}), Failed)
    else x.(stage := Writing(msg, x.reply))
  }

  function Popped(x: Ctx): Ctx
    requires x.queue != []
  {
    x.(queue := x.queue[1..], taken := x.taken + [x.queue[0]], msgTimer := Idle)
  }

  /** Calls the service of a message, and waits for it if it has not completed. */
  function Called(x: Ctx, msg: Msg, sync: Sync): Ctx {
    var x1 := x.(callId := msg.callId, isWaiting := true);
    match sync
    case Later => x1.(stage := AwaitService(msg), serviceTimer := Parked)
    case Now(reply, failed) => AfterService(NotifyComplete(x1.(err := x.err || failed), reply), msg)
  }

  /** Takes the next message and, if it can be served, calls its service. */
  function TakeNext(x: Ctx, sync: Sync): Ctx
    requires x.queue != []
  {
    var msg := x.queue[0];
    if msg.origin in x.shut then Settled(Popped(x), Skipped)
    else if msg.service !in x.services then Settled(Popped(x).(shut := x.shut + {msg.origin}), NotFound)
    else Called(Popped(x), msg, sync)
  }

  predicate Runnable(x: Ctx) {
    match x.stage
    case Top => true
    case AwaitMsg => x.msgTimer.Woken?
    case AwaitService(_) => x.serviceTimer.Woken?
    case Writing(_, _) => false
  }

  /** One turn of the loop. */
  function TurnOnce(x: Ctx, sync: Sync): Ctx
    requires Runnable(x)
  {
    match x.stage
    case AwaitService(msg) => AfterService(x.(serviceTimer := Idle), msg)
    case _ => if x.queue == [] then x.(stage := AwaitMsg, msgTimer := Parked) else TakeNext(x, sync)
  }

  function WriteDone(x: Ctx, ok: bool): Ctx
    requires x.stage.Writing?
  {
    var msg := x.stage.msg;
    if ok && msg.origin !in x.shut then
      Settled(x.(written := x.written + [Answer(msg, x.stage.reply)]), Answered(x.stage.reply))
    else Settled(x, Lost)
  }

  predicate Enabled(x: Ctx, e: Event) {
    match e
    case Turn(_) => Runnable(x)
    case Written(_) => x.stage.Writing?
    case _ => true
  }

  function Step(x: Ctx, e: Event): Ctx
    requires Enabled(x, e)
  {
    match e
    case Push(msg) => PushMsg(x, msg)
    case SetCallId(c) => x.(callId := c)
    case Fail => x.(err := true)
    case Notify(reply) => NotifyComplete(x, reply)
    case Drop(origin) => x.(shut := x.shut + {origin}, dropped := x.dropped + {origin})
    case Turn(sync) => TurnOnce(x, sync)
    case Written(ok) => WriteDone(x, ok)
  }

  ghost predicate Run(services: set<Text>, xs: seq<Ctx>, events: seq<Event>) {
    && |xs| == |events| + 1 && xs[0] == Fresh(services)
    && forall i :: 0 <= i < |events| ==> Enabled(xs[i], events[i]) && xs[i + 1] == Step(xs[i], events[i])
  }

  // ------------------------------------------------------- what every run keeps

  /** No lost wake-up. */
  predicate Awake(x: Ctx) {
    && (x.stage.AwaitMsg? ==> (x.msgTimer.Parked? && x.queue == []) || x.msgTimer.Woken?)
    && (x.stage.AwaitService? ==> (x.serviceTimer.Parked? && x.isWaiting) || (x.serviceTimer.Woken? && !x.isWaiting))
    && (!x.stage.AwaitMsg? ==> x.msgTimer.Idle?) && (!x.stage.AwaitService? ==> x.serviceTimer.Idle?)
  }

  /** The message being served, or whose reply is being written. */
  function Serving(x: Ctx): seq<Msg> {
    match x.stage
    case AwaitService(msg) => [msg]
    case Writing(msg, _) => [msg]
    case _ => []
  }

  /** The answers to the messages that got one, in the order of the messages. */
  function AnswersTo(msgs: seq<Msg>, fates: seq<Fate>): seq<Answer>
    requires |msgs| == |fates|
  {
    if msgs == [] then [] else
      var last := |msgs| - 1;
      AnswersTo(msgs[..last], fates[..last]) +
      if fates[last].Answered? then [Answer(msgs[last], fates[last].reply)] else []
  }

  /** The connections of the messages that failed or named no service. */
  function Blamed(msgs: seq<Msg>, fates: seq<Fate>): set<Origin>
    requires |msgs| == |fates|
  {
    set i | 0 <= i < |msgs| && (fates[i].Failed? || fates[i].NotFound?) :: msgs[i].origin
  }

  /** Messages are taken in arrival order, one at a time; all but the one being
      served are finished; answers are those of the finished messages, in order and
      each on its own connection; and a connection is closed by its peer or because
      of a message that came on it. */
  ghost predicate Sequential(x: Ctx) {
    && x.arrived == x.taken + x.queue
    && |x.fates| + |Serving(x)| == |x.taken|
    && x.taken == x.taken[..|x.fates|] + Serving(x)
    && x.written == AnswersTo(x.taken[..|x.fates|], x.fates)
    && x.shut == x.dropped + Blamed(x.taken[..|x.fates|], x.fates)
  }

  lemma SettledSequential(x: Ctx, finished: seq<Msg>, msg: Msg, fate: Fate)
    requires |finished| == |x.fates|
    ensures AnswersTo(finished + [msg], x.fates + [fate]) ==
            AnswersTo(finished, x.fates) + if fate.Answered? then [Answer(msg, fate.reply)] else []
    ensures Blamed(finished + [msg], x.fates + [fate]) ==
            Blamed(finished, x.fates) + if fate.Failed? || fate.NotFound? then {msg.origin} else {}
  {
    var msgs, fates := finished + [msg], x.fates + [fate];
    assert msgs[..|msgs| - 1] == finished && fates[..|msgs| - 1] == x.fates;
    var new_ := Blamed(finished, x.fates) + if fate.Failed? || fate.NotFound? then {msg.origin} else {};
    forall o ensures o in Blamed(msgs, fates) <==> o in new_ {
      if o in Blamed(finished, x.fates) {
        var i :| 0 <= i < |finished| && (x.fates[i].Failed? || x.fates[i].NotFound?) && finished[i].origin == o;
        assert msgs[i] == finished[i] && fates[i] == x.fates[i];
      }
      if o in new_ && o !in Blamed(finished, x.fates) {
        assert msgs[|finished|] == msg && fates[|finished|] == fate;
      }
    }
  }

  lemma TakeAwake(x: Ctx, sync: Sync)
    requires x.queue != [] && x.serviceTimer.Idle?
    ensures Awake(TakeNext(x, sync))
  {
  }

  lemma AwakeKept(x: Ctx, e: Event)
    requires Awake(x) && Enabled(x, e)
    ensures Awake(Step(x, e))
  {
    if e.Turn? && !x.stage.AwaitService? && x.queue != [] {
      hide TakeNext;
      TakeAwake(x, e.sync);
    } else {
      hide TakeNext;
    }
  }

  /** A message moves from the queue to the worker. */
  lemma TakenSequential(x: Ctx)
    requires Sequential(x) && Serving(x) == [] && x.queue != []
    ensures x.taken == x.taken[..|x.fates|] && |x.taken| == |x.fates|
    ensures x.arrived == (x.taken + [x.queue[0]]) + x.queue[1..]
    ensures (x.taken + [x.queue[0]])[..|x.fates|] == x.taken
    ensures (x.taken + [x.queue[0]])[..|x.fates| + 1] == x.taken + [x.queue[0]]
  {
  }

  /** `y` has taken the next message of `x`, and serves it or is done with it. */
  ghost predicate Took(x: Ctx, y: Ctx, msg: Msg) {
    && x.queue != [] && msg == x.queue[0] && y.queue == x.queue[1..] && y.taken == x.taken + [msg]
    && y.arrived == x.arrived && y.dropped == x.dropped && y.written == x.written
    && if Serving(y) == [msg] then y.fates == x.fates && y.shut == x.shut
       else
         && Serving(y) == [] && |y.fates| == |x.fates| + 1
         && var fate := y.fates[|x.fates|];
            && y.fates == x.fates + [fate] && !fate.Answered?
            && y.shut == x.shut + if fate.Failed? || fate.NotFound? then {msg.origin} else {}
  }

  lemma TookNext(x: Ctx, sync: Sync)
    requires x.queue != [] && Serving(x) == []
    ensures Took(x, TakeNext(x, sync), x.queue[0])
  {
    hide Cancel;
    var msg, y := x.queue[0], TakeNext(x, sync);
    assert y.queue == x.queue[1..] && y.taken == x.taken + [msg] && y.arrived == x.arrived;
    assert y.dropped == x.dropped && y.written == x.written;
    if msg.origin in x.shut || msg.service !in x.services || y.stage.Top? {
      assert Serving(y) == [];
    }
  }

  lemma TookSequential(x: Ctx, y: Ctx, msg: Msg)
    requires Sequential(x) && Serving(x) == [] && Took(x, y, msg)
    ensures Sequential(y)
  {
    TakenSequential(x);
    hide AnswersTo, Blamed;
    if Serving(y) == [] {
      SettledSequential(x, x.taken, msg, y.fates[|x.fates|]);
    }
  }

  lemma TakeSequential(x: Ctx, sync: Sync)
    requires Sequential(x) && Serving(x) == [] && x.queue != []
    ensures Sequential(TakeNext(x, sync))
  {
    hide Sequential, Took, TakeNext;
    TookNext(x, sync);
    TookSequential(x, TakeNext(x, sync), x.queue[0]);
  }

  /** `y` is done with the message that `x` was serving. */
  ghost predicate Finished(x: Ctx, y: Ctx, msg: Msg, fate: Fate) {
    && Serving(x) == [msg] && Serving(y) == [] && y.queue == x.queue && y.taken == x.taken && y.arrived == x.arrived
    && y.dropped == x.dropped && y.fates == x.fates + [fate]
    && y.written == x.written + (if fate.Answered? then [Answer(msg, fate.reply)] else [])
    && y.shut == x.shut + if fate.Failed? || fate.NotFound? then {msg.origin} else {}
  }

  lemma FinishedSequential(x: Ctx, y: Ctx, msg: Msg, fate: Fate)
    requires Sequential(x) && Finished(x, y, msg, fate)
    ensures Sequential(y)
  {
    hide AnswersTo, Blamed;
    SettledSequential(x, x.taken[..|x.fates|], msg, fate);
    assert y.taken[..|y.fates|] == y.taken;
  }

  lemma TurnSequential(x: Ctx, sync: Sync)
    requires Sequential(x) && Runnable(x)
    ensures Sequential(TurnOnce(x, sync))
  {
    if x.stage.AwaitService? {
      hide AnswersTo, Blamed;
      if x.err {
        FinishedSequential(x, TurnOnce(x, sync), x.stage.msg, Failed);
      }
    } else if x.queue != [] {
      hide Sequential, TakeNext;
      TakeSequential(x, sync);
    }
  }

  lemma WriteSequential(x: Ctx, ok: bool)
    requires Sequential(x) && x.stage.Writing?
    ensures Sequential(WriteDone(x, ok))
  {
    hide Sequential;
    FinishedSequential(x, WriteDone(x, ok), x.stage.msg,
                       if ok && x.stage.msg.origin !in x.shut then Answered(x.stage.reply) else Lost);
  }

  lemma SequentialKept(x: Ctx, e: Event)
    requires Sequential(x) && Enabled(x, e)
    ensures Sequential(Step(x, e))
  {
    match e
    case Turn(sync) => TurnSequential(x, sync);
    case Written(ok) => WriteSequential(x, ok);
    case _ => hide AnswersTo, Blamed;
  }

  /** In every run, whatever interleaves with the worker. */
  lemma {:induction false} WorkerAlways(services: set<Text>, xs: seq<Ctx>, events: seq<Event>, i: nat)
    requires Run(services, xs, events) && i < |xs|
    ensures Awake(xs[i]) && Sequential(xs[i])
  {
    if i == 0 {
      assert Blamed([], []) == {};
    } else {
      WorkerAlways(services, xs, events, i - 1);
      AwakeKept(xs[i - 1], events[i - 1]);
      SequentialKept(xs[i - 1], events[i - 1]);
    }
  }

  /** A queue that is not empty is being worked on, or will be: the worker runs, is in
      the middle of a message, or has its wake-up scheduled. */
  lemma NoLostWakeUp(services: set<Text>, xs: seq<Ctx>, events: seq<Event>, i: nat)
    requires Run(services, xs, events) && i < |xs|
    ensures xs[i].queue != [] && Serving(xs[i]) == [] ==> Runnable(xs[i])
    ensures xs[i].stage.AwaitService? && !xs[i].isWaiting ==> Runnable(xs[i])
  {
    hide Run;
    WorkerAlways(services, xs, events, i);
  }

  // -------------------------------------------------- from one await to the next

  /** The worker from a wake-up to its next suspension, when each service it calls
      behaves as `behave` says. */
  function Resume(x: Ctx, behave: Msg -> Sync): (y: Ctx)
    requires Runnable(x)
    ensures !y.stage.Top?
    decreases |x.queue| + if x.stage.AwaitService? then 1 else 0
  {
    var y := TurnOnce(x, if x.queue == [] then Later else behave(x.queue[0]));
    if y.stage.Top? then Resume(y, behave) else y
  }

  /** Resuming, one turn at a time. */
  lemma ResumeTurn(x: Ctx, behave: Msg -> Sync)
    requires Runnable(x)
    ensures var y := TurnOnce(x, if x.queue == [] then Later else behave(x.queue[0]));
            Resume(x, behave) == if y.stage.Top? then Resume(y, behave) else y
  {
    hide TurnOnce;
  }

  lemma TakingTurn(x: Ctx, sync: Sync)
    requires Runnable(x)
    ensures !x.stage.AwaitService? && x.queue != [] ==>
              TurnOnce(x, sync) == TakeNext(x, sync) && TakeNext(x, sync).queue == x.queue[1..]
    ensures !x.stage.AwaitService? && x.queue == [] ==> TurnOnce(x, sync) == x.(stage := AwaitMsg, msgTimer := Parked)
    ensures x.stage.AwaitService? ==> TurnOnce(x, sync) == AfterService(x.(serviceTimer := Idle), x.stage.msg)
  {
    hide Cancel;
  }

  /** A stretch that starts by taking a message. */
  lemma ResumeTakes(x: Ctx, behave: Msg -> Sync)
    requires Runnable(x) && !x.stage.AwaitService? && x.queue != []
    ensures var y := TakeNext(x, behave(x.queue[0]));
            y.queue == x.queue[1..] && Resume(x, behave) == if y.stage.Top? then Resume(y, behave) else y
  {
    ResumeTurn(x, behave);
    hide Resume, TurnOnce, TakeNext, Runnable;
    TakingTurn(x, behave(x.queue[0]));
  }

  lemma ResumeParks(x: Ctx, behave: Msg -> Sync)
    requires Runnable(x) && !x.stage.AwaitService? && x.queue == []
    ensures Resume(x, behave) == x.(stage := AwaitMsg, msgTimer := Parked)
  {
    ResumeTurn(x, behave);
    hide Resume, TurnOnce, TakeNext, Runnable;
    TakingTurn(x, Later);
  }

  lemma ResumeFinishes(x: Ctx, behave: Msg -> Sync)
    requires Runnable(x) && x.stage.AwaitService?
    ensures var y := AfterService(x.(serviceTimer := Idle), x.stage.msg);
            Resume(x, behave) == if y.stage.Top? then Resume(y, behave) else y
  {
    ResumeTurn(x, behave);
    hide Resume, TurnOnce, TakeNext, Runnable, AfterService;
    TakingTurn(x, if x.queue == [] then Later else behave(x.queue[0]));
  }

  lemma {:induction false} ResumeKeeps(x: Ctx, behave: Msg -> Sync)
    requires Runnable(x) && Awake(x) && Sequential(x)
    ensures Awake(Resume(x, behave)) && Sequential(Resume(x, behave))
    ensures Resume(x, behave).stage.AwaitMsg? ==> Resume(x, behave).queue == []
    decreases |x.queue| + if x.stage.AwaitService? then 1 else 0
  {
    hide *;
    var sync := if x.queue == [] then Later else behave(x.queue[0]);
    var y := TurnOnce(x, sync);
    ResumeTurn(x, behave);
    TurnKeeps(x, sync);
    TurnParks(x, sync);
    if y.stage.Top? {
      ResumeKeeps(y, behave);
    }
  }

  lemma TurnKeeps(x: Ctx, sync: Sync)
    requires Runnable(x) && Awake(x) && Sequential(x)
    ensures Awake(TurnOnce(x, sync)) && Sequential(TurnOnce(x, sync))
  {
    hide Awake, Sequential, TurnOnce;
    AwakeKept(x, Turn(sync));
    SequentialKept(x, Turn(sync));
  }

  lemma TakeParks(x: Ctx, sync: Sync)
    requires x.queue != []
    ensures TakeNext(x, sync).queue == x.queue[1..] && !TakeNext(x, sync).stage.AwaitMsg?
  {
    hide Cancel;
  }

  lemma TurnParks(x: Ctx, sync: Sync)
    requires Runnable(x)
    ensures TurnOnce(x, sync).stage.AwaitMsg? ==> TurnOnce(x, sync).queue == []
    ensures TurnOnce(x, sync).stage.Top? ==> Runnable(TurnOnce(x, sync))
    ensures var y := TurnOnce(x, sync);
            y.stage.Top? ==> |y.queue| < |x.queue| + if x.stage.AwaitService? then 1 else 0
  {
    hide TakeNext;
    if x.queue != [] {
      TakeParks(x, sync);
    }
  }

  // ------------------------------------------- the worker in the whole system

  /** The worker's context as the process of the composed system. */
  ghost predicate Shows(x: Ctx, cfg: Config, proc: Proc) {
    && x.queue == proc.queue && x.callId == proc.callId && x.err == proc.err
    && (forall o :: o in x.shut <==> !IsOpen(proc, o))
    && (forall s :: s in x.services <==> Offers(cfg, proc.name, s))
  }

  lemma CloseShows(proc: Proc, o: Origin)
    ensures forall q :: IsOpen(Close(proc, o), q) <==> IsOpen(proc, q) && q != o
  {
  }

  lemma ClosedShows(x: Ctx, y: Ctx, cfg: Config, proc: Proc, o: Origin)
    requires Shows(x, cfg, proc) && y.queue == x.queue && y.callId == x.callId && y.err == x.err
    requires y.services == x.services && y.shut == x.shut + {o}
    ensures Shows(y, cfg, Close(proc, o))
  {
    CloseShows(proc, o);
    hide Offers;
  }

  /** Whenever the composed system lets a process take a message the worker can do
      so, and takes the same one with the same outcome. */
  lemma TakeShown(env: Env, n: Node, x: Ctx)
    requires Shows(x, env.cfg, n.proc) && n.proc.queue != [] && n.proc.job.None? && Serving(x) == [] && Awake(x)
    ensures Runnable(x)
    ensures var y, m := TurnOnce(x, Later), TakeNode(env, n);
            && Shows(y, env.cfg, m.proc)
            && (m.proc.job.Some? <==> y.stage.AwaitService?)
            && (m.proc.job.Some? ==> m.proc.job.value == Job(y.stage.msg, []))
  {
    var msg, proc := n.proc.queue[0], n.proc.(queue := n.proc.queue[1..]);
    assert TurnOnce(x, Later) == TakeNext(x, Later);
    PopShown(x, env.cfg, n.proc);
    hide Offers, Close, IsOpen, TurnOnce;
    if msg.origin !in x.shut && msg.service !in x.services {
      ClosedShows(Popped(x), Popped(x).(shut := x.shut + {msg.origin}), env.cfg, proc, msg.origin);
      SettledShows(Popped(x).(shut := x.shut + {msg.origin}), NotFound, env.cfg, Close(proc, msg.origin));
    } else if msg.origin in x.shut {
      SettledShows(Popped(x), Skipped, env.cfg, proc);
    }
  }

  lemma PopShown(x: Ctx, cfg: Config, proc: Proc)
    requires Shows(x, cfg, proc) && proc.queue != []
    ensures Shows(Popped(x), cfg, proc.(queue := proc.queue[1..])) && Popped(x).shut == x.shut
    ensures forall o :: IsOpen(proc.(queue := proc.queue[1..]), o) <==> o !in x.shut
  {
    hide Offers;
    assert forall o :: IsOpen(proc.(queue := proc.queue[1..]), o) <==> IsOpen(proc, o);
  }

  lemma SettledShows(x: Ctx, fate: Fate, cfg: Config, proc: Proc)
    requires Shows(x, cfg, proc)
    ensures Shows(Settled(x, fate), cfg, proc) && Settled(x, fate).stage.Top?
  {
    hide Offers, IsOpen;
  }

  /** The worker from the completion of its service to the next message. */
  function RunOut(x: Ctx, reply: Pack, ok: bool): Ctx
    requires x.stage.AwaitService? && x.serviceTimer.Parked?
  {
    var y := TurnOnce(NotifyComplete(x, reply), Later);
    if y.stage.Writing? then WriteDone(y, ok) else y
  }

  /** And completes it alike: the same answer on the same connection, or the same
      connection closed. */
  lemma CompleteShown(env: Env, p: nat, n: Node, job: Job, reply: Pack, ok: bool, x: Ctx)
    requires Shows(x, env.cfg, n.proc) && n.proc.job == Some(job)
    requires x.stage == AwaitService(job.msg) && Awake(x) && x.isWaiting
    ensures var y, m := RunOut(x, reply, ok), S.Complete(p, n, job, reply, ok);
            && y.stage.Top? && Shows(y, env.cfg, m.proc)
            && (y.written == x.written + [Answer(job.msg, reply)]
                <==> m.proc.answers == n.proc.answers + [Answer(job.msg, reply)])
            && (y.written == x.written <==> m.proc.answers == n.proc.answers)
  {
    hide Offers;
    var proc := n.proc.(callId := [], job := None, err := false);
    CloseShows(proc, job.msg.origin);
    assert forall o :: IsOpen(proc, o) <==> IsOpen(n.proc, o);
  }
}
