/** Every process of the composed system is a worker: in each state of each run, what
    the process has queued, serves, has answered and has closed is what a run of the
    worker coroutine comes to that is fed what the run of the system brings to the
    process. So what the worker keeps, the processes keep. */
module WorkerShown {
  import opened Protocol
  import opened S = System
  import W = Worker
  import Provenance

  function ServicesOf(cfg: Config, name: Text): set<Text> {
    if name in cfg.services then cfg.services[name] else {}
  }

  /** A worker that is where the process is: between two messages, or waiting for the
      service of the one that the process serves. */
  ghost predicate Matches(x: W.Ctx, cfg: Config, proc: Proc) {
    && W.Shows(x, cfg, proc) && x.written == proc.answers
    && match proc.job
       case None => W.Serving(x) == []
       case Some(job) => x.stage == W.AwaitService(job.msg) && x.isWaiting
  }

  ghost predicate ReachedBy(services: set<Text>, xs: seq<W.Ctx>, events: seq<W.Event>, x: W.Ctx) {
    W.Run(services, xs, events) && xs[|events|] == x
  }

  /** Some run of the worker leads to `x`. */
  ghost predicate Reached(services: set<Text>, x: W.Ctx) {
    exists xs, events :: ReachedBy(services, xs, events, x)
  }

  /** What a step brings to `p`: a message of a client, or a REQUEST of the proxy. */
  function Brought(s: Sys, e: Event, p: nat): seq<Msg> {
    match e
    case Arrive(q, msg) => if q == p then [msg] else []
    case Receive(q) =>
      if q == p && p in s.net && s.net[p].down != [] && s.net[p].down[0].Req? then
        var r := s.net[p].down[0].req;
        [Msg(r.service, r.callId, r.pack, Unix)]
      else []
    case _ => []
  }

  /** Which connection of `p` the peer gives up in a step. */
  function GivenUp(e: Event, p: nat): set<Origin> {
    if e.HangUp? && e.p == p then {Tcp(e.conn)} else {}
  }

  /** What the first `i` steps of a run have brought to `p`, in order. */
  ghost function Arrived(states: seq<Sys>, events: seq<Event>, i: nat, p: nat): seq<Msg>
    requires i <= |events| <= |states|
  {
    if i == 0 then [] else Arrived(states, events, i - 1, p) + Brought(states[i - 1], events[i - 1], p)
  }

  /** The connections of `p` whose peers have hung up in them. */
  ghost function HungUp(events: seq<Event>, i: nat, p: nat): set<Origin>
    requires i <= |events|
  {
    if i == 0 then {} else HungUp(events, i - 1, p) + GivenUp(events[i - 1], p)
  }

  /** Some run of the worker, fed `arrived` and cut off from `dropped`, is where the
      process is. */
  ghost predicate Worked(cfg: Config, proc: Proc, arrived: seq<Msg>, dropped: set<Origin>) {
    exists x :: Reached(ServicesOf(cfg, proc.name), x) && Fed(x, arrived, dropped) && Matches(x, cfg, proc)
  }

  predicate Fed(x: W.Ctx, arrived: seq<Msg>, dropped: set<Origin>) {
    x.arrived == arrived && x.dropped == dropped
  }

  // ------------------------------------------------------- runs of the worker

  lemma Started(services: set<Text>)
    ensures Reached(services, W.Fresh(services))
  {
    assert ReachedBy(services, [W.Fresh(services)], [], W.Fresh(services));
  }

  lemma Onward(services: set<Text>, x: W.Ctx, e: W.Event)
    requires Reached(services, x) && W.Enabled(x, e)
    ensures Reached(services, W.Step(x, e))
  {
    hide W.Enabled, W.Step, W.Fresh;
    var xs, events :| ReachedBy(services, xs, events, x);
    var more, longer := xs + [W.Step(x, e)], events + [e];
    forall i | 0 <= i < |longer| ensures W.Enabled(more[i], longer[i]) && more[i + 1] == W.Step(more[i], longer[i]) {
      if i < |events| {
        assert more[i] == xs[i] && more[i + 1] == xs[i + 1] && longer[i] == events[i];
      }
    }
    assert ReachedBy(services, more, longer, W.Step(x, e));
  }

  lemma ReachedKeeps(services: set<Text>, x: W.Ctx)
    requires Reached(services, x)
    ensures W.Awake(x) && W.Sequential(x)
  {
    hide W.Run, W.Awake, W.Sequential;
    var xs, events :| ReachedBy(services, xs, events, x);
    RunLength(services, xs, events);
    W.WorkerAlways(services, xs, events, |events|);
  }

  lemma RunLength(services: set<Text>, xs: seq<W.Ctx>, events: seq<W.Event>)
    requires W.Run(services, xs, events)
    ensures |xs| == |events| + 1
  {
  }

  // ---------------------------------------------------- one step of a process

  lemma ConnectWorked(cfg: Config, name: Text)
    ensures Worked(cfg, Proc(name, 0, [], [], None, None, false, true, {}, []), [], {})
  {
    var services := ServicesOf(cfg, name);
    Started(services);
    hide Reached;
    assert Matches(W.Fresh(services), cfg, Proc(name, 0, [], [], None, None, false, true, {}, []));
  }

  lemma ArriveWorked(cfg: Config, proc: Proc, msg: Msg, arrived: seq<Msg>, dropped: set<Origin>)
    requires Worked(cfg, proc, arrived, dropped)
    ensures Worked(cfg, proc.(queue := proc.queue + [msg]), arrived + [msg], dropped)
  {
    hide Reached, Offers, ServicesOf, IsOpen;
    var x :| Reached(ServicesOf(cfg, proc.name), x) && Fed(x, arrived, dropped) && Matches(x, cfg, proc);
    Onward(ServicesOf(cfg, proc.name), x, W.Push(msg));
    var more := proc.(queue := proc.queue + [msg]);
    SameOpen(proc, more);
    assert Matches(W.PushMsg(x, msg), cfg, more);
  }

  lemma SameOpen(proc: Proc, more: Proc)
    requires proc.linked == more.linked && proc.shut == more.shut
    ensures forall o :: IsOpen(proc, o) <==> IsOpen(more, o)
  {
  }

  lemma HangUpWorked(cfg: Config, proc: Proc, conn: nat, arrived: seq<Msg>, dropped: set<Origin>)
    requires Worked(cfg, proc, arrived, dropped)
    ensures Worked(cfg, Close(proc, Tcp(conn)), arrived, dropped + {Tcp(conn)})
  {
    hide Reached, Offers, ServicesOf, IsOpen;
    var x :| Reached(ServicesOf(cfg, proc.name), x) && Fed(x, arrived, dropped) && Matches(x, cfg, proc);
    Onward(ServicesOf(cfg, proc.name), x, W.Drop(Tcp(conn)));
    W.CloseShows(proc, Tcp(conn));
    assert Matches(x.(shut := x.shut + {Tcp(conn)}, dropped := x.dropped + {Tcp(conn)}), cfg, Close(proc, Tcp(conn)));
  }

  /** `send` may set the call id and record an error. */
  lemma SetWorked(cfg: Config, proc: Proc, more: Proc, arrived: seq<Msg>, dropped: set<Origin>)
    requires Worked(cfg, proc, arrived, dropped) && (proc.err ==> more.err)
    requires more.name == proc.name && more.queue == proc.queue && more.linked == proc.linked && more.shut == proc.shut
    requires more.answers == proc.answers
    requires match proc.job
             case None => more.job == None
             case Some(job) => more.job.Some? && more.job.value.msg == job.msg
    ensures Worked(cfg, more, arrived, dropped)
  {
    hide Reached, Offers, ServicesOf, IsOpen;
    var services := ServicesOf(cfg, proc.name);
    var x :| Reached(services, x) && Fed(x, arrived, dropped) && Matches(x, cfg, proc);
    SameOpen(proc, more);
    Onward(services, x, W.SetCallId(more.callId));
    var y := x.(callId := more.callId);
    if more.err {
      Onward(services, y, W.Fail);
      y := y.(err := true);
    }
    assert Matches(y, cfg, more);
  }

  lemma ReceiveWorked(cfg: Config, s: Sys, p: nat, arrived: seq<Msg>, dropped: set<Origin>)
    requires p in s.net && s.net[p].down != [] && Worked(cfg, s.net[p].proc, arrived, dropped)
    ensures Worked(cfg, ReceiveNode(s.net[p]).proc, arrived + Brought(s, Receive(p), p), dropped)
  {
    hide Worked;
    var n := s.net[p];
    match n.down[0] {
      case Req(r) =>
        var cleared := n.proc.(callId := []);
        SetWorked(cfg, n.proc, cleared, arrived, dropped);
        ArriveWorked(cfg, cleared, Msg(r.service, r.callId, r.pack, Unix), arrived, dropped);
      case Resp(r) =>
        SetWorked(cfg, n.proc, ReceiveNode(n).proc, arrived, dropped);
        assert arrived + [] == arrived;
    }
  }

  lemma TakenStage(env: Env, n: Node, x: W.Ctx)
    requires W.Runnable(x) && n.proc.queue != [] && !x.stage.AwaitService? && x.queue != []
    ensures var y, m := W.TurnOnce(x, W.Later), TakeNode(env, n);
            && y.arrived == x.arrived && y.dropped == x.dropped
            && y.written == x.written && m.proc.answers == n.proc.answers && m.proc.name == n.proc.name
            && (y.stage.AwaitService? ==> y.isWaiting) && (!y.stage.AwaitService? ==> W.Serving(y) == [])
  {
    W.TakingTurn(x, W.Later);
    hide W.TurnOnce, W.Cancel, Offers, IsOpen;
  }

  lemma TakeWorked(env: Env, n: Node, arrived: seq<Msg>, dropped: set<Origin>)
    requires Worked(env.cfg, n.proc, arrived, dropped) && n.proc.job.None? && n.proc.queue != []
    ensures Worked(env.cfg, TakeNode(env, n).proc, arrived, dropped)
  {
    hide Reached, W.Shows, ServicesOf, TakeNode, W.TurnOnce, W.Awake, W.Sequential;
    var services := ServicesOf(env.cfg, n.proc.name);
    var x :| Reached(services, x) && Fed(x, arrived, dropped) && Matches(x, env.cfg, n.proc);
    ReachedKeeps(services, x);
    W.TakeShown(env, n, x);
    QueueShown(x, env.cfg, n.proc);
    TakenStage(env, n, x);
    Onward(services, x, W.Turn(W.Later));
    assert Matches(W.TurnOnce(x, W.Later), env.cfg, TakeNode(env, n).proc);
  }

  lemma QueueShown(x: W.Ctx, cfg: Config, proc: Proc)
    requires W.Shows(x, cfg, proc)
    ensures x.queue == proc.queue
  {
  }

  /** Completing, turn by turn. */
  lemma RunOutReached(services: set<Text>, x: W.Ctx, reply: Pack, ok: bool)
    requires Reached(services, x) && x.stage.AwaitService? && x.isWaiting
    ensures x.serviceTimer.Parked? && Reached(services, W.RunOut(x, reply, ok))
  {
    hide Reached;
    ReachedKeeps(services, x);
    Onward(services, x, W.Notify(reply));
    var y := W.NotifyComplete(x, reply);
    assert W.Runnable(y);
    Onward(services, y, W.Turn(W.Later));
    var z := W.TurnOnce(y, W.Later);
    hide W.TurnOnce, W.Awake, W.Sequential;
    if z.stage.Writing? {
      Onward(services, z, W.Written(ok));
    }
  }

  lemma RunOutWritten(x: W.Ctx, reply: Pack, ok: bool, job: Job)
    requires x.stage == W.AwaitService(job.msg) && x.serviceTimer.Parked?
    ensures var y := W.RunOut(x, reply, ok); y.written == x.written || y.written == x.written + [Answer(job.msg, reply)]
    ensures W.RunOut(x, reply, ok).stage.Top? ==> W.Serving(W.RunOut(x, reply, ok)) == []
    ensures W.RunOut(x, reply, ok).arrived == x.arrived && W.RunOut(x, reply, ok).dropped == x.dropped
  {
  }

  lemma CompleteAnswers(p: nat, n: Node, job: Job, reply: Pack, ok: bool)
    ensures var m := Complete(p, n, job, reply, ok);
            && m.proc.job == None && m.proc.name == n.proc.name
            && (m.proc.answers == n.proc.answers || m.proc.answers == n.proc.answers + [Answer(job.msg, reply)])
  {
    hide IsOpen;
  }

  lemma CompleteWorked(env: Env, p: nat, n: Node, job: Job, reply: Pack, ok: bool, arrived: seq<Msg>,
                       dropped: set<Origin>)
    requires Worked(env.cfg, n.proc, arrived, dropped) && n.proc.job == Some(job)
    ensures Worked(env.cfg, Complete(p, n, job, reply, ok).proc, arrived, dropped)
  {
    hide Reached, W.Shows, ServicesOf, Complete, W.RunOut, W.Awake, W.Sequential;
    var services := ServicesOf(env.cfg, n.proc.name);
    var x :| Reached(services, x) && Fed(x, arrived, dropped) && Matches(x, env.cfg, n.proc);
    ReachedKeeps(services, x);
    RunOutReached(services, x, reply, ok);
    RunOutWritten(x, reply, ok, job);
    CompleteAnswers(p, n, job, reply, ok);
    W.CompleteShown(env, p, n, job, reply, ok, x);
    assert Matches(W.RunOut(x, reply, ok), env.cfg, Complete(p, n, job, reply, ok).proc);
  }

  lemma ActWorked(env: Env, p: nat, n: Node, ok: bool, arrived: seq<Msg>, dropped: set<Origin>)
    requires Worked(env.cfg, n.proc, arrived, dropped) && n.proc.job.Some?
    ensures Worked(env.cfg, ActNode(env, p, n, ok).proc, arrived, dropped)
  {
    hide Worked, Complete, Offers;
    var job := n.proc.job.value;
    match env.body(job.msg.service, job.msg.pack, job.replies)
    case Return(reply) => CompleteWorked(env, p, n, job, reply, ok, arrived, dropped);
    case Call(service, arg) => SetWorked(env.cfg, n.proc, ActNode(env, p, n, ok).proc, arrived, dropped);
  }

  lemma StepWorked(env: Env, s: Sys, e: Event, p: nat, arrived: seq<Msg>, dropped: set<Origin>)
    requires Enabled(env, s, e) && p in Apply(env, s, e).net
    requires if p in s.net then Worked(env.cfg, s.net[p].proc, arrived, dropped) else arrived == [] && dropped == {}
    ensures Worked(env.cfg, Apply(env, s, e).net[p].proc, arrived + Brought(s, e, p), dropped + GivenUp(e, p))
  {
    hide Worked, ReceiveNode, TakeNode, ActNode, ReadUpStep, ResumeStep;
    assert arrived + [] == arrived && dropped + {} == dropped;
    match e
    case Connect(q, name) => if p == q { ConnectWorked(env.cfg, name); }
    case Arrive(q, msg) => if p == q { ArriveWorked(env.cfg, s.net[p].proc, msg, arrived, dropped); }
    case HangUp(q, conn) => if p == q { HangUpWorked(env.cfg, s.net[p].proc, conn, arrived, dropped); }
    case Receive(q) => if p == q { ReceiveWorked(env.cfg, s, p, arrived, dropped); }
    case Take(q) => if p == q { TakeWorked(env, s.net[p], arrived, dropped); }
    case Act(q, ok) => if p == q { ActWorked(env, p, s.net[p], ok, arrived, dropped); }
    case _ => Provenance.ProxyWait(env, s, e);
  }

  // --------------------------------------------------------------- whole runs

  /** A step brings nothing to a process that is not there after it. */
  lemma NothingBrought(env: Env, s: Sys, e: Event, p: nat)
    requires Enabled(env, s, e) && p !in Apply(env, s, e).net
    ensures p !in s.net && Brought(s, e, p) == [] && GivenUp(e, p) == {}
  {
    hide ReceiveNode, TakeNode, ActNode, ReadUpStep, ResumeStep;
    if e.ReadUp? || e.Resume? {
      Provenance.ProxyWait(env, s, e);
    }
  }

  lemma {:induction false} WorkedAlways(env: Env, states: seq<Sys>, events: seq<Event>, i: nat, p: nat)
    requires Run(env, states, events) && i < |states| == |events| + 1
    ensures if p in states[i].net then
              Worked(env.cfg, states[i].net[p].proc, Arrived(states, events, i, p), HungUp(events, i, p))
            else Arrived(states, events, i, p) == [] && HungUp(events, i, p) == {}
  {
    hide Worked, Apply, Enabled, Brought, GivenUp;
    if i > 0 {
      WorkedAlways(env, states, events, i - 1, p);
      if p in states[i].net {
        StepWorked(env, states[i - 1], events[i - 1], p, Arrived(states, events, i - 1, p), HungUp(events, i - 1, p));
      } else {
        NothingBrought(env, states[i - 1], events[i - 1], p);
      }
    }
  }

  /** In every state of every run of the composed system, with caching, failed writes and
      clients that hang up, each process is where a run of its worker is that is fed what
      the run has brought to the process. What it was brought is what it has taken and its
      queue; its answers are those of the messages it is done with, in arrival order and
      each on its own connection; the closed connections are those whose peers hung up or
      whose messages failed; and if it serves nothing while messages are queued the worker
      runs or its wake-up is scheduled. */
  lemma ProcessIsWorker(env: Env, states: seq<Sys>, events: seq<Event>, i: nat, p: nat) returns (x: W.Ctx)
    requires Run(env, states, events) && i < |states| && p in states[i].net
    ensures |states| == |events| + 1
    ensures var proc := states[i].net[p].proc;
            && Reached(ServicesOf(env.cfg, proc.name), x) && Matches(x, env.cfg, proc)
            && Arrived(states, events, i, p) == x.taken + proc.queue
            && |x.fates| + (if proc.job.Some? then 1 else 0) == |x.taken|
            && (proc.job.Some? ==> x.taken[|x.fates|] == proc.job.value.msg)
            && proc.answers == W.AnswersTo(x.taken[..|x.fates|], x.fates)
            && (forall o :: !IsOpen(proc, o) <==> o in HungUp(events, i, p) + W.Blamed(x.taken[..|x.fates|], x.fates))
            && (proc.job.None? && proc.queue != [] ==> W.Runnable(x))
  {
    WorkedAlways(env, states, events, i, p);
    var proc := states[i].net[p].proc;
    var arrived, dropped := Arrived(states, events, i, p), HungUp(events, i, p);
    x :| Reached(ServicesOf(env.cfg, proc.name), x) && Fed(x, arrived, dropped) && Matches(x, env.cfg, proc);
    hide Run, Reached, ServicesOf, Offers, IsOpen, W.AnswersTo, W.Blamed, Arrived, HungUp;
    ReachedKeeps(ServicesOf(env.cfg, proc.name), x);
    assert proc.job.Some? ==> x.taken == x.taken[..|x.fates|] + [proc.job.value.msg];
  }
}
