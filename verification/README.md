# coro_actor: the call protocol between actors and proxy

This project models the call protocol of coro_actor in Dafny and proves what it keeps.
Actor processes offer services; a service may call a service of another actor node with
`send`; one proxy process routes requests and responses, keeps a call stack per call id,
refuses circular calls and balances load between the processes of a node. Each process
runs single-threaded coroutines, so the system is a transition system whose atomic steps
run from one `co_await` to the next, with a FIFO link each way between the proxy and
every actor.

## How it is laid out

- `Protocol`, `CallIds`: the records on the links, the configuration index, call ids.
- `Proxy`: the routing state as a value, and each uninterrupted stretch of the proxy's
  handlers as a function. `Router` is the proxy's object, with maps that alias mutable
  records and an erase-while-iterating scan; every method is proved against `Proxy`.
- `Journal`, `Links`: what the proxy's maps and the links hold, told from what has
  happened: backlogs and links are first in, first out, chains are stacks, nodes list
  their processes in the order they connected, a record shows what was noted last.
- `Worker`: the worker coroutine and its timers as values, with all interleavings.
  `Replies` says how its turns end and ties every answer to the service that gave it.
  `ActorCtx` is the context object, proved against `Worker` and the composed system, and
  `WorkerShown` shows that every process of the composed system is such a worker.
- `System`: processes, links and proxy handlers composed. A handler is suspended in a
  write (`Answering`, `Sending`) between two of its steps, so responses are split at their
  awaits. Services are deterministic programs: the next action is a function of the
  request and of the replies so far.
- Every run: `Registry`, `Directory`, `Bags`, `Accounting`, `Foreign`, `Sequential`,
  `FreshIds`, `Actions` (how sends and messages end, and which ids calls get). These hold with caching, failed writes and handlers that race.
- Smooth runs: `Meaning`, `Invariant`, `SmoothRuns`, then `ActorSteps`, `ActorNodes`,
  `ProxySteps`, `ForwardSteps`, `ReplySteps`, `RecordSteps`, `SmoothSteps`, `ResumeSteps`
  and `SmoothInvariant`, which show that the invariant is kept, and `CallSemantics`,
  `Moves`, `Provenance` and `WaitGraph`, which draw the conclusions. `Exactness` says
  when a fault-free run is smooth.
- Timely runs: `CutOff`, and the end of `WaitGraph`. `Counterexamples`, on the proxy alone,
  and `ThreeActors`, `LateRun` and `CachedRun`, as whole runs, show what goes wrong outside
  of them.
- `Configuration`, `EndToEnd`, `Framing`, `ProcTitle`: the facts the protocol relies on.

## Smooth runs and timely runs

A step is *direct* if it does not cache a request behind a waiting callee (the branch at
src/coro_actor.cpp:679) and *fault-free* if the writes of the proxy that it starts succeed:
the forwarding of a request or of a response (lines 607 and 697-704). The writes of the
actors may fail in a fault-free step, the answer to a client that has hung up
(src/coro_actor_ctx.cpp:164-175) and the send of a request (line 78) alike, and clients may
close their connections at any time. A run is *smooth* if all its steps are direct and
fault-free and no process makes 2^32 ids. Distinct pids and one CONNECT a process are part
of the transition system. Handlers may overtake each other freely: a RESPONSE of an actor
may be read while the handler that answered that actor is still suspended in its write.

In every smooth run sends return the values of the in-process interpreter, responses pop
the frame of their sender and go to the process whose request pushed it, every backlog has
a handler that will look at it, and the waits that the proxy records never come round.
`Exactness.OwnBacklogsIsExact` says when a fault-free run is smooth: exactly if no backlog
ever holds a request of another actor. Caching does break it: in the run of
`CachedRun.CachingMisdelivers` all writes succeed, and the answer meant for process 3 ends
up on the link to process 1.

The cut-off of circular calls needs one thing more, which the code does not ensure. After
the write at line 607, lines 614-615 let go whoever ends the chain *by then*, and on the
call id of the old response. That is harmless to all of the above, since the invariant of
smooth runs never needs a record to show that its actor waits. But if that actor waits on a new
call by then, its record no longer shows it: the check at line 657 misses a circular call,
and two actors wait for each other along a chain, although nothing was cached and no write
failed (`Counterexamples.LateWakeUpDeadlocks` on the proxy alone, `LateRun.SmoothIsNotEnough`
as a whole run of the system). A step is *timely* if the record that line 614 is about to
clear does not count as waiting, under another call id, below the end of the chain of that
id; the guard `!is_waiting || call_id == this call` would be enough
(`Sequential.SameCallMayGo`). `CutOff.CutOffIsExact` proves that timely steps are exactly
what is needed: in a smooth run all chains of all states have pairwise distinct actor names
and show below their ends what they wait on, if and only if every step is timely. For the
distinct names alone `CutOff.DistinctNamesAreExact` has the condition: they hold in all
states if and only if no step forwards a request to a node that has a process below the end
of the chain of the request.

A process waits for another from the choice of its callee to the moment its record is let
go. The waits that the proxy records have no cycle in any smooth run
(`WaitGraph.RecordedWaitsAcyclic`), but a record that was let go too late no longer shows
its wait. The links of the chains always do. They come round, which is a deadlock, in no
timely run (`WaitGraph.NoDeadlock`), and in a smooth run if and only if some step forwards
a request to a process that already waits, along such links, for the requester
(`WaitGraph.DeadlockIsExact`). If one keeps the edges from answered to answering actors
after the answered ones have been let go, a way can come round, but in timely runs only
through such an actor (`WaitGraph.OnlyTheReleasedComeRound`).

With one call active at a time, a fault-free run is smooth and timely
(`Sequential.SequentialRunIsTimely`).

## Conventions

A `std::string` is a sequence of bytes. A record of the proxy is named by its pid. A write
appends to a FIFO link or fails, and the clean-up after a failed write happens when the
writer resumes. A REQUEST that arrives sets the context's call id to the text that has
already been moved out of the record (src/coro_actor.cpp:893 and 897), so to the empty one.
An error recorded by `send` closes the connection of the message being served.

## Model

| member | source | states |
|---|---|---|
| CallIds.MakeCallIdInjective | src/coro_actor_ctx.cpp:53-56 | two processes, or two sequence numbers, never make the same call id |
| CallIds.MakeCallIdReads | src/coro_actor_ctx.cpp:53-56 | an id is the pid, the only dash and the number, each in decimal |
| CallIds.DecimalIs | src/coro_actor_ctx.cpp:53-56 | each digit by its weight, the most significant one first, and none to spare |
| Router.Scan | src/coro_actor.cpp:648-670 | the erase-while-iterating loop stops exactly if an open entry carries the call id; otherwise the open entries remain in order, closed ones leave the pid map too, and the earliest smallest backlog is chosen |
| Router.ScanMeans | src/coro_actor.cpp:642-670 | with all sockets open, the scan's verdict and choice are those of the routing specification |
| Router.LeastIs | src/coro_actor.cpp:648-666 | the earliest entry with the smallest backlog is the one the specification selects |
| Router.Router.UpdateActorInfo | src/coro_actor.cpp:392-397 | one record gets a call id and a waiting flag in place; as values, exactly that record changes |
| Router.Router.Connect | src/coro_actor.cpp:519-536 | a new record is shared by the pid map and the list of its name |
| Router.Router.Select | src/coro_actor.cpp:644-670 | no choice exactly if the call is circular, otherwise the least backlogged process, and no value changes |
| Router.Router.Forward | src/coro_actor.cpp:672-684 | the requester waits, the callee joins the chain and gets the request or, if it waits, caches it |
| Router.Router.Route | src/coro_actor.cpp:634-684 | the in-place code computes the specified new state and outcome for every request |
| Router.Router.HandleRequest | src/coro_actor.cpp:621-684 | one call takes at most one request from the backlog, and as specified |
| Router.Router.ReadRequest | src/coro_actor.cpp:560-576 | a REQUEST roots an unknown call at its sender, is queued and dispatched |
| Router.Router.ReadResponse | src/coro_actor.cpp:602-609 | the end of the chain is popped, and the new end is whom to write to |
| Router.Router.Wake | src/coro_actor.cpp:611-615 | a record is let go and its backlog looked at |
| Router.Router.WriteFailed | src/coro_actor.cpp:699-704 | a failed write clears both ends and leaves the frame |
| Registry.GroupMembers | src/coro_actor.cpp:535-536 | a name's list holds exactly the records registered under that name |
| Registry.RouteOutcome | src/coro_actor.cpp:634-682 | each drop reason, and caching, exactly when; what the chain becomes; the callee owns the service and nobody of its name is on the call |
| Registry.RouteBalances | src/coro_actor.cpp:644-670 | a request that is not dropped goes to the first of the processes of its node with the fewest requests in their backlogs |
| Journal.BacklogInOrder | src/coro_actor.cpp:574-682 | in every run, what was put into the backlog of a process, in order, is what was taken from it, in order, and then what it holds |
| Journal.RecordsAreLastNotes | src/coro_actor.cpp:611-704 | in every run, a record's call id and flag are those of the last of: its request routed, a request sent to it, its own answer handled, the end of a chain woken, a write failed |
| Journal.ChainsAreStacks | src/coro_actor.cpp:569-676 | in every run, a chain is the stack of its root and the callees chosen on its call, less one for each response handled |
| Journal.GroupsInOrder | src/coro_actor.cpp:530-536 | in every run, the list of a node holds its processes in the order they connected |
| Journal.ReadLooks | src/coro_actor.cpp:574-631 | after a REQUEST is read the first request of its sender's backlog is taken, unless the sender counts as waiting |
| Journal.AnswerLooks | src/coro_actor.cpp:611-615 | after the write of a response the first request is taken from the backlog of who answered, and unless that one was sent out, one from that of the end of the chain |
| Journal.ReturnLooks | src/coro_actor.cpp:614-615 | after the write of a request that held it up, the handler takes the first request of whoever ends the chain by then |
| Links.LinksInOrder | src/coro_actor.cpp:490-511 | in every run, with failed writes, each link delivers what was written on it once and in order; which frames are written is stated by routing and by the action of the service |
| Links.HandlersHalt | src/coro_actor.cpp:602-705 | after a step of the proxy its handler is in the write of the request sent out or of the response, or reads on; no other handler moves |
| Directory.ListedKept | src/coro_actor.cpp:519-705 | every step of any process keeps the registry agreement |
| Directory.ListedAlways | src/coro_actor.cpp:530-536 | in every state of every run: pid map and lists hold the same records, every pid queued, in flight or chained resolves, what is sent to a process it offers |
| Directory.DispatchAddressed | src/coro_actor.cpp:634-684 | a request that goes out goes to a registered process that offers its service |
| Accounting.PopLeavesRoot | src/coro_actor.cpp:602-609 | when a RESPONSE is handled its chain has at least two entries, so the pop leaves the root |
| Accounting.AccountedKept | src/coro_actor.cpp:560-705 | every step, with caching and failed writes, keeps both ledgers |
| Accounting.AccountedAlways | src/coro_actor.cpp:570-682 | in every run: chain length is 1 + selections - responses handled; requests read are queued, sent, failed or dropped, each once; responses due are covered by frames |
| Accounting.ResponsesWithinSelections | src/coro_actor.cpp:602-676 | in every run, responses handled and still due never exceed selections, per call id |
| Foreign.HomesAlways | src/coro_actor_ctx.cpp:46-51 | in every run, only configured nodes connect and no process asks the proxy for a service of its own |
| Sequential.CachedOnlyBehindAnother | src/coro_actor.cpp:621-682 | in every run, with failed writes too: whenever a dispatch of a step caches a request, its callee waits on another call and is not the requester; whenever it sends one, the callee does not wait |
| Sequential.CachedBehindAnother | src/coro_actor.cpp:651-682 | a request is cached only behind another actor that waits on a different call, and sent only to one that does not wait |
| Sequential.SequentialStepIsDirect | src/coro_actor.cpp:657-682 | in every run, a step taken while one call is active is direct |
| Sequential.SequentialRunIsTimely | src/coro_actor.cpp:611-682 | a fault-free run with one call active at a time is smooth and timely |
| FreshIds.CallIdsAreFresh | src/coro_actor_ctx.cpp:53-56 | in every run in which no process makes 2^32 ids, the next id of a process keys no chain, and a chain is rooted at the process that made its id |
| Actions.OwnServiceRefused | src/coro_actor_ctx.cpp:46-51 | a send to a service of the own process records an error, hands back false and does nothing else |
| Actions.AwaySends | src/coro_actor_ctx.cpp:53-83 | a send to another node writes one request under its call id or a new one and waits for it; if the write fails an error is recorded and false handed back |
| Actions.FrameReceived | src/coro_actor.cpp:883-920 | a REQUEST is queued last, to be answered on the link, and clears the call id; a RESPONSE is what the pending send hands back |
| Actions.MessageTaken | src/coro_actor_ctx.cpp:124-146 | the first message is passed over, closes its connection or is served under its call id, in exactly these cases |
| Actions.HeardAlways | src/coro_actor_ctx.cpp:42-163 | in every run, a service has an error recorded if and only if a send handed it false, and between messages there is no error, no call id and no pending send |
| Actions.ReturnEnds | src/coro_actor_ctx.cpp:104-198 | in every run, a message whose service heard false gets no answer and loses its connection, any other gets its reply, if it can be written, and no connection is closed |
| Actions.IdsCount | src/coro_actor_ctx.cpp:53-56 | in every run, the n-th call a process starts on its own is under its pid and n modulo 2^32 |
| Actions.NextSendIsRoot | src/coro_actor.cpp:890-897 | in every run without wrap-around, after a REQUEST has been received the next send of the running service is under a new id, which no chain has before and whose chain is rooted at the sender |
| Meaning.EvaluatesUnique | example/calc/svc_calc.cpp:27-39 | a nested call has at most one value in the in-process interpreter |
| Meaning.FaithfulEvaluates | example/calc/svc_calc.cpp:27-39 | a service all of whose sends returned values of their calls returns the value of its own |
| ActorNodes.ReceiveStep | src/coro_actor.cpp:883-920 | receiving a request or an answer keeps the smooth invariant; an answer is the value of the pending send |
| ActorNodes.TakeStep | src/coro_actor_ctx.cpp:124-146 | taking a message keeps it; the call id is passed on |
| ActorNodes.ActStep | src/coro_actor_ctx.cpp:42-92 | sending, being refused and completing keep it, whether their writes succeed or fail; an answer that is written is the value of its call |
| ActorNodes.HangUpStep | src/coro_actor_session.cpp:34-38 | a client that closes its connection, at any time, keeps it |
| ActorNodes.RunnerIsTop | src/coro_actor_ctx.cpp:136-146 | only the end of a chain, which waits nowhere on it, runs a service on its call |
| ForwardSteps.PushStep | src/coro_actor.cpp:672-684 | pushing the callee chosen for the request of the end of a chain keeps the invariant; the requester waits below it |
| ReplySteps.AnswerStep | src/coro_actor.cpp:602-609 | popping the sender and answering the frame below keeps the invariant |
| RecordSteps.RootStep | src/coro_actor.cpp:569-572 | a new id roots a chain at its sender |
| RecordSteps.EnqueueStep | src/coro_actor.cpp:574-627 | the next request of an answered actor that still counts as waiting is queued |
| RecordSteps.ReleaseStep | src/coro_actor.cpp:614-615 | letting go whoever ends the chain when the handler resumes keeps the invariant, even if that is not the actor that was answered |
| SmoothSteps.ReadRequestStep | src/coro_actor.cpp:560-576 | reading a REQUEST keeps the invariant |
| SmoothSteps.ReadResponseStep | src/coro_actor.cpp:580-609 | reading any RESPONSE keeps it, up to the write, whichever handlers are still suspended |
| ResumeSteps.SmoothResume | src/coro_actor.cpp:611-615 | resuming after a write keeps it, with the dispatch of a backlog |
| SmoothInvariant.InvAlways | src/coro_actor.cpp:560-705 | the invariant holds in every state of every smooth run, whatever writes of the actors fail and whichever clients hang up |
| Moves.SmoothMoves | src/coro_actor.cpp:560-684 | a smooth step leaves the chains alone, roots one, pushes the callee of a request onto its requester, or pops the sender of a response; and which records it may clear or set |
| CallSemantics.AnswersAreValues | src/coro_actor_ctx.cpp:153-197 | in every smooth run, what a service answers is the one value the recursive interpreter gives |
| CallSemantics.SendsReturnValues | src/coro_actor_ctx.cpp:42-92 | in every smooth run, each completed send returned exactly the interpreter's value of the call it made, at any depth |
| CallSemantics.ResponseMatched | src/coro_actor.cpp:602-609 | in every smooth run, the popped frame is the sender's; the actor below, and no other, is written to, and is suspended in a send on that call to that service with that value |
| CutOff.CircularCallsCutOff | src/coro_actor.cpp:651-676 | in every timely run, names along a chain are pairwise distinct, frames below the top are recorded as waiting on this call, and no chain is longer than the number of configured nodes |
| CutOff.CutIsExact | src/coro_actor.cpp:611-676 | from a state of a smooth run with all chains so, a step keeps them so if and only if it is timely |
| CutOff.CutOffIsExact | src/coro_actor.cpp:611-676 | in a smooth run all chains of all states are so if and only if every step is timely |
| CutOff.NamesAreExact | src/coro_actor.cpp:651-676 | from a state of a smooth run in which the names along every chain differ, a step keeps them so if and only if it forwards no request to a node that has a process below the end of the request's chain |
| CutOff.DistinctNamesAreExact | src/coro_actor.cpp:651-676 | in a smooth run the names along all chains of all states differ if and only if no step forwards a request to such a node |
| CallSemantics.BacklogAwaited | src/coro_actor.cpp:607-615 | in every smooth run, a non-empty backlog has a suspended handler that will look at it when it resumes |
| CallSemantics.NoStrandedRequest | src/coro_actor.cpp:611-631 | in every smooth run, when that handler resumes the request is sent or dropped for a stated reason and the backlog is empty |
| Provenance.FramesOwned | src/coro_actor.cpp:673-676 | every frame above a root was pushed by the very request the actor below it is suspended in |
| Provenance.ResponseGoesToRequester | src/coro_actor.cpp:602-609 | a response goes to precisely the process whose request pushed the frame it pops |
| WaitGraph.WaitingHasEdge | src/coro_actor.cpp:614-673 | who counts as waiting waits for a registered process, unless its own handler is about to let it go |
| WaitGraph.RecordedWaitsAcyclic | src/coro_actor.cpp:611-684 | in every state of every smooth run, the waits that the proxy records, from the choice of the callee until the requester's record is let go, have a ranking |
| WaitGraph.NoCircularWait | src/coro_actor.cpp:611-684 | in every smooth run no actor waits by these records, however indirectly, for itself |
| WaitGraph.WaitsEnd | src/coro_actor.cpp:611-684 | in every smooth run, following these waits from any actor ends at one that does not wait or is let go by its own suspended handler |
| WaitGraph.NoDeadlock | src/coro_actor.cpp:611-684 | in every timely run no actors wait for each other: the links of the call chains, recorded or not, never come round |
| WaitGraph.LinksAreExact | src/coro_actor.cpp:611-684 | from a state of a smooth run in which the links do not come round, a step keeps them so if and only if it forwards no request to a process that waits, along links, for the requester |
| WaitGraph.DeadlockIsExact | src/coro_actor.cpp:611-684 | in a smooth run the links come round in no state if and only if no step forwards such a request |
| WaitGraph.OnlyTheReleasedComeRound | src/coro_actor.cpp:607-615 | in every timely run, a way along links and from answered to answering actors comes round only through an actor that has been let go |
| Exactness.DirectIsExact | src/coro_actor.cpp:625-684 | from a state of a smooth run, a fault-free step keeps every request in the backlog of its own actor, and the invariant, if and only if it is direct |
| Exactness.OwnBacklogsIsExact | src/coro_actor.cpp:625-684 | a fault-free run is direct if and only if in all its states every backlog holds requests of its own actor only |
| Counterexamples.CachedPushesTwice | src/coro_actor.cpp:675-682 | a request forwarded from the backlog it was cached in has two frames |
| Counterexamples.CachingMisdelivers | src/coro_actor.cpp:630-682 | concrete steps of the proxy after which the answer to 3 goes to 1 |
| Counterexamples.LateWakeUpDeadlocks | src/coro_actor.cpp:607-660 | concrete steps of the proxy, nothing cached and no write failed, after which 1 and 2 wait for each other |
| CachedRun.CachingMisdelivers | src/coro_actor.cpp:560-684 | a whole run from the initial state with one request cached, in which all writes succeed, and which ends with process 3 suspended in its send and the answer to it on the link to process 1, which waits for none |
| LateRun.SmoothIsNotEnough | src/coro_actor.cpp:580-684 | a whole smooth run from the initial state, in which all writes succeed, that ends with the chain 1, 2, 1, so that 1 and 2 wait for each other |
| LateRun.TimelyRunsExist | src/coro_actor.cpp:560-615 | a timely run in which nested calls have been answered and a RESPONSE was read from an actor whose own answer was still being written |
| Worker.AwakeKept | src/coro_actor_ctx.cpp:94-151 | every step, of the worker or of anyone else, keeps its wake-ups |
| Worker.SequentialKept | src/coro_actor_ctx.cpp:94-198 | every step keeps the order of service |
| Worker.WorkerAlways | src/coro_actor_ctx.cpp:115-198 | in every run: arrivals are the taken messages and the queue, at most one is unfinished, each finished one has at most one answer, on its own connection and in order; only its own connection is closed for an error |
| Worker.NoLostWakeUp | src/coro_actor_ctx.cpp:94-151 | a worker parked for a message has an empty queue or a scheduled wake-up; parked for a service, the service is not complete or the wake-up is scheduled |
| Worker.ResumeKeeps | src/coro_actor_ctx.cpp:119-200 | from a wake-up to the next suspension, likewise, and it parks only on an empty queue |
| Worker.TakeShown | src/coro_actor_ctx.cpp:124-146 | whenever the composed system lets a process take a message the worker can, with the same outcome |
| Worker.CompleteShown | src/coro_actor_ctx.cpp:104-198 | completion gives the same answer on the same connection, or closes the same one |
| WorkerShown.ProcessIsWorker | src/coro_actor_ctx.cpp:94-198 | in every state of every run of the composed system, each process is where some run of its worker is: what the run has brought to it is what it has taken and its queue, its answers are those of the finished messages in that order, the closed connections are exactly those whose clients hung up or whose messages failed, and no wake-up is lost |
| Replies.TakeEnds | src/coro_actor_ctx.cpp:124-176 | the turn that takes a message, in each case: passed over, connection closed, service waited for, its reply about to be written, or failed |
| Replies.ServiceEnds | src/coro_actor_ctx.cpp:149-176 | the turn after a completion writes the reply of that completion, or closes the connection after an error |
| Replies.ResumeWrites | src/coro_actor_ctx.cpp:124-176 | a stretch of the worker over a service that replies in its call comes to the write of that reply |
| Replies.AnsweredAsGiven | src/coro_actor_ctx.cpp:104-176 | in every run, a message was answered with the last reply its own service gave, in its call or with its completion |
| Replies.ErredAlways | src/coro_actor_ctx.cpp:154-163 | in every run, an error is pending if and only if one was recorded since a message last failed, and a message fails only on one |
| ActorCtx.ActorCtx.PushMsg | src/coro_actor_ctx.cpp:94-102 | a message is queued in place, and the worker signalled only at size one |
| ActorCtx.ActorCtx.NotifyComplete | src/coro_actor_ctx.cpp:104-108 | the waiting flag and the call id are cleared and the worker signalled |
| ActorCtx.ActorCtx.Send | src/coro_actor_ctx.cpp:42-83 | refused for an own service; otherwise a fresh or inherited id and one request on the link; in all cases with the outcome for the service of the composed system |
| ActorCtx.ActorCtx.SetResponsePack | src/coro_actor_ctx.cpp:110-113 | the answer is stored and the pending send woken |
| ActorCtx.ActorCtx.HandleMessage | src/coro_actor_ctx.cpp:115-161 | the worker's loop, from a wake-up to its next suspension, does what its specification does |
| ActorCtx.ActorCtx.WriteDone | src/coro_actor_ctx.cpp:164-198 | a message gets one answer, if its connection is open and the write succeeds |
| Configuration.AcceptedAgrees | src/coro_actor_config.cpp:74-89 | service s is owned by n if and only if s is in the table of n |
| Configuration.AcceptedCovers | src/coro_actor_config.cpp:74-89 | exactly the listed services have an owner, exactly the listed names a table |
| Configuration.AcceptableIs | src/coro_actor_config.cpp:35-86 | a file is acceptable if and only if all entries are readable to the end, no two have the same name and no service is listed twice |
| Configuration.AcceptedIs | src/coro_actor_config.cpp:74-89 | in an accepted file each service listed by an entry is owned by its name, and the table of the name holds exactly these services |
| Configuration.Loader.Load | src/coro_actor_config.cpp:35-98 | succeeds if and only if all entries are readable to the end of their service lists and no name or service repeats; then the maps are what the file describes, otherwise they hold what came before the first item refused |
| EndToEnd.ForwardedIsSupported | src/coro_actor.cpp:634-684 | with the index of an accepted file, in every run, what the proxy forwards its receiver offers |
| EndToEnd.NotFoundOnlyForClients | src/coro_actor_ctx.cpp:130-133 | so the not-found branch is never taken for a message of the proxy |
| Framing.OrderReadsBack | src/coro_actor.cpp:505-690 | k bytes in network order bring back the number without its higher bytes |
| Framing.NetworkOrderIs | src/coro_actor.cpp:688-690 | byte i of k is the number over 256^(k-1-i) modulo 256: the most significant byte is in front |
| Framing.HostOrderIs | src/coro_actor.cpp:505-506 | the byte in front of n others weighs 256^n |
| Framing.LayoutBytes | src/coro_actor.cpp:688-698 | the five bytes in front of a payload one by one, and the payload |
| Framing.FrontBytes | src/coro_actor.cpp:490-511 | when a frame is complete, its tag and the number of bytes of its payload, from the first five bytes |
| Framing.CallBytes | src/coro_actor_session.cpp:30-94 | where each part of a client request is, byte by byte |
| Framing.FrontCallBytes | src/coro_actor_session.cpp:30-94 | which bytes of a stream a client request is read from |
| Framing.FrameReadsBack | src/coro_actor.cpp:688-698 | one frame is read back, and exactly it consumed, if and only if its payload is below 2^32 bytes |
| Framing.FramesReadBack | src/coro_actor.cpp:490-511 | any list of frames is read back as that list |
| Framing.ReadFrames | src/coro_actor.cpp:856-881 | the reader loop returns exactly the complete frames of its stream |
| Framing.CallReadsBack | src/coro_actor_session.cpp:30-94 | one client request is read back, and exactly it consumed, if and only if its lengths fit their fields |
| Framing.CallsReadBack | src/coro_actor_session.cpp:30-94 | any list of such requests is read back as that list |
| Framing.HandleRemotePack | src/coro_actor_session.cpp:22-96 | the session's loop queues exactly the complete requests of its stream |
| ProcTitle.CpyStrN | src/coro_actor.cpp:11-29 | copies a string cut to n - 1 bytes and its terminator, and writes nothing else |
| ProcTitle.NameIs | include/coro_actor.h:7-8 | a title starts with the bytes of the program's name and of the separator |
| ProcTitle.CutChain | src/coro_actor.cpp:295-299 | cutting what is copied piece by piece cuts the whole |
| ProcTitle.ReachAll | src/coro_actor.cpp:266-285 | of strings without a gap between them the walk over those that follow each other reaches the end of the last |
| ProcTitle.Title.FindLast | src/coro_actor.cpp:266-271 | exactly where the command-line strings end that follow each other from the first, with no environment string before it |
| ProcTitle.Title.MoveAway | src/coro_actor.cpp:276-284 | an adjacent environment string is copied whole into the block, its pointer and no other set there, and the title's space extended by exactly that string |
| ProcTitle.Title.InitSetProcTitle | src/coro_actor.cpp:257-288 | the title's space is all that follows without a gap from the command line on, less one byte; exactly the environment strings in it are moved, the block has room for them, and every environment string reads as before |
| ProcTitle.Title.SetProcTitle | src/coro_actor.cpp:290-304 | only [argv[0], last) is written, with the title cut to the space less one and zeros; every environment string reads as before |

## Left out

- Sockets, accept loops, signals, daemonising, the pid file, logging and option parsing: plumbing over libraries; links are FIFO sequences.
- `dlopen`, `dlsym` and the bodies of services: a service is any deterministic program that sends one request at a time and completes once, as its last act.
- `struct_pack` and YAML: a payload is opaque bytes and the configuration an already parsed list; ports, addresses, process counts and libraries are not part of the model.
- Waiting for an answer is part of the send's write step, so the order in which Asio runs the completion of the write and an early answer is not modelled.
- Timing and the scheduler: any enabled step may come next; that a step eventually comes, and so that every call is answered, is not claimed. A refused request has no reply.
- Restarting processes: the source returns before doing so.
- Router.Router.Select: nothing in the proxy closes a socket, so the methods of the router keep all of them open; closed ones are covered by Router.Scan alone.
- The not-found branch for a proxy message closes the link instead of dereferencing a null socket; it is proved unreachable.
- Reusing a pid, or a second CONNECT of a process, is not modelled.
- Configuration.Loader.Load: starts from empty maps, as the one call of the program does.
- ProcTitle.Title.InitSetProcTitle: the strings of the command line and the environment are taken to be disjoint and terminated, as the operating system lays them out.
- Router.Router.ReadResponse: takes a chain of at least two entries, which Accounting.PopLeavesRoot proves for every response.
- CutOff.CircularCallsCutOff: for timely runs only, because a late wake-up can defeat the check (LateRun.SmoothIsNotEnough); CutOff.CutOffIsExact gives the exact condition.
- WaitGraph.NoDeadlock: for timely runs only, for the same reason; WaitGraph.DeadlockIsExact gives the exact condition, and WaitGraph.RecordedWaitsAcyclic covers the waits that the proxy records in all smooth runs.
