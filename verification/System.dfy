/** The proxy, the actor processes and the links between them, as one
    transition system. A step runs from one `co_await` to the next; a write
    appends to a FIFO channel or fails; a read removes from one. */
module System {
  import opened Protocol
  import opened CallIds
  import Proxy

  // ---------------------------------------------------------------- services

  datatype Action = Return(reply: Pack) | Call(service: Text, arg: Pack)

  /** What `send` hands back: the reply, or false for a service of this process. */
  datatype Reply = Got(pack: Pack) | Refused

  /** A deterministic service: its next action is a function of the request and
      of the replies its sends have had so far. */
  type Body = (Text, Pack, seq<Reply>) -> Action

  datatype Env = Env(cfg: Config, body: Body)

  // --------------------------------------------------------- actor processes

  datatype Origin = Tcp(conn: nat) | Unix

  /** `coro_actor_msg_t`. */
  datatype Msg = Msg(service: Text, callId: Text, pack: Pack, origin: Origin)

  /** The message being served and the replies its service has had. */
  datatype Job = Job(msg: Msg, replies: seq<Reply>)

  /** A message and the answer written for it. */
  datatype Answer = Answer(msg: Msg, reply: Pack)

  /** An actor process: `coro_actor_ctx` and the service it is running. `wait`
      is the request of a `send` that has not been answered, `linked` says
      whether the link to the proxy is open, `shut` holds the TCP connections
      closed so far and `answers` what was written to any connection. */
  datatype Proc = Proc(name: Text, seq_: nat, callId: Text, queue: seq<Msg>,
                       job: Option<Job>, wait: Option<Request>, err: bool,
                       linked: bool, shut: set<nat>, answers: seq<Answer>)

  predicate IsOpen(proc: Proc, origin: Origin) {
    match origin
    case Tcp(conn) => conn !in proc.shut
    case Unix => proc.linked
  }

  function Close(proc: Proc, origin: Origin): Proc {
    match origin
    case Tcp(conn) => proc.(shut := proc.shut + {conn})
    case Unix => proc.(linked := false)
  }

  // -------------------------------------------------------------- the system

  datatype After = Done | Caller(callId: Text)

  /** Where the proxy's handler of one link is suspended. */
  datatype Pc =
    | Reading
    | Answering(self: nat, callId: Text)
    | Sending(req: Request, callee: nat, ok: bool, after: After)

  datatype Node = Node(pc: Pc, up: seq<Frame>, down: seq<Frame>, proc: Proc)

  /** What has happened so far, as bags. */
  datatype History = History(read: multiset<Request>, sent: multiset<Request>, failed: multiset<Request>,
                             dropped: multiset<Request>, selected: multiset<Text>, answered: multiset<Text>)

  datatype Sys = Sys(px: Proxy.State, net: map<nat, Node>, hist: History)

  const Init := Sys(Proxy.Empty, map[], History(multiset{}, multiset{}, multiset{}, multiset{}, multiset{}, multiset{}))

  /** `ok` says whether the write that the step makes or starts succeeds. A peer that
      hangs up makes the session close its connection (src/coro_actor_session.cpp:37). */
  datatype Event =
    | Connect(p: nat, name: Text)
    | Arrive(p: nat, msg: Msg)
    | HangUp(p: nat, conn: nat)
    | Receive(p: nat)
    | Take(p: nat)
    | Act(p: nat, ok: bool)
    | ReadUp(p: nat, ok: bool)
    | Resume(p: nat, ok: bool)

  const SEQ_LIMIT: nat := 0x1_0000_0000

  function SetProc(s: Sys, p: nat, proc: Proc): Sys
    requires p in s.net
  {
    s.(net := s.net[p := s.net[p].(proc := proc)])
  }

  function SetPc(s: Sys, p: nat, pc: Pc): Sys
    requires p in s.net
  {
    s.(net := s.net[p := s.net[p].(pc := pc)])
  }

  /** A write to the link of `p`. */
  function Deliver(s: Sys, p: nat, f: Frame): Sys {
    if p in s.net then s.(net := s.net[p := s.net[p].(down := s.net[p].down + [f])]) else s
  }

  // ------------------------------------------------------ actor-side actions

  function Sent(proc: Proc, p: nat): Text {
    if proc.callId == [] then MakeCallId(p, (proc.seq_ + 1) % SEQ_LIMIT) else proc.callId
  }

  /** `send` on a service of another process (src/coro_actor_ctx.cpp:53-83). */
  function StartSend(p: nat, n: Node, job: Job, service: Text, arg: Pack, ok: bool): Node {
    var c := Sent(n.proc, p);
    var q := if n.proc.callId == [] then (n.proc.seq_ + 1) % SEQ_LIMIT else n.proc.seq_;
    var req := Request(p, c, service, arg);
    if ok then
      n.(up := n.up + [Req(req)], proc := n.proc.(seq_ := q, callId := c, wait := Some(req)))
    else
      n.(proc := n.proc.(seq_ := q, callId := c, err := true, job := Some(job.(replies := job.replies + [Refused]))))
  }

  /** `send` on a service of this process (src/coro_actor_ctx.cpp:46-51). */
  function RefuseSend(n: Node, job: Job): Node {
    n.(proc := n.proc.(err := true, job := Some(job.(replies := job.replies + [Refused]))))
  }

  /** `notify_complete`, then the answer or, after an error, the closing of the
      connection the message came on (src/coro_actor_ctx.cpp:104-198). */
  function Complete(p: nat, n: Node, job: Job, reply: Pack, ok: bool): Node {
    var proc := n.proc.(callId := [], job := None, err := false);
    if n.proc.err then n.(proc := Close(proc, job.msg.origin))
    else if !ok || !IsOpen(n.proc, job.msg.origin) then n.(proc := proc)
    else
      var n1 := n.(proc := proc.(answers := proc.answers + [Answer(job.msg, reply)]));
      if job.msg.origin.Tcp? then n1
      else n1.(up := n.up + [Resp(Response(p, job.msg.callId, job.msg.service, reply))])
  }

  function ActNode(env: Env, p: nat, n: Node, ok: bool): Node
    requires n.proc.job.Some?
  {
    var job := n.proc.job.value;
    match env.body(job.msg.service, job.msg.pack, job.replies)
    case Return(reply) => Complete(p, n, job, reply, ok)
    case Call(service, arg) =>
      if Offers(env.cfg, n.proc.name, service) then RefuseSend(n, job)
      else StartSend(p, n, job, service, arg, ok && n.proc.linked)
  }

  /** The worker takes the next message; one whose connection is closed is
      passed over, and one for a service this process does not have closes its
      connection (src/coro_actor_ctx.cpp:124-137). */
  function TakeNode(env: Env, n: Node): Node
    requires n.proc.queue != []
  {
    var msg := n.proc.queue[0];
    var proc := n.proc.(queue := n.proc.queue[1..]);
    if !IsOpen(proc, msg.origin) then n.(proc := proc)
    else if !Offers(env.cfg, n.proc.name, msg.service) then n.(proc := Close(proc, msg.origin))
    else n.(proc := proc.(callId := msg.callId, job := Some(Job(msg, []))))
  }

  /** `handle_actor_internal`: a REQUEST is queued, and sets the context's call
      id to the one already moved out of the record, the empty text; a RESPONSE
      wakes the pending `send`. */
  function ReceiveNode(n: Node): Node
    requires n.down != []
  {
    var n1 := n.(down := n.down[1..]);
    match n.down[0]
    case Req(r) =>
      n1.(proc := n.proc.(callId := [], queue := n.proc.queue + [Msg(r.service, r.callId, r.pack, Unix)]))
    case Resp(r) =>
      if n.proc.wait.Some? && n.proc.job.Some? then
        n1.(proc := n.proc.(wait := None,
                            job := Some(n.proc.job.value.(replies := n.proc.job.value.replies + [Got(r.pack)]))))
      else n1
  }

  // ------------------------------------------------------ proxy-side actions

  function Recorded(h: History, out: Proxy.Outcome, ok: bool): History {
    match out
    case Quiet => h
    case Dropped(req, _) => h.(dropped := h.dropped + multiset{req})
    case Cached(req, _) => h.(selected := h.selected + multiset{req.callId})
    case Sent(req, _) =>
      if ok then h.(selected := h.selected + multiset{req.callId}, sent := h.sent + multiset{req})
      else h.(selected := h.selected + multiset{req.callId}, failed := h.failed + multiset{req})
  }

  /** A dispatch by the handler of `h`: it suspends in the write of a request
      that goes out. */
  function Dispatched(s: Sys, h: nat, r: (Proxy.State, Proxy.Outcome), ok: bool, after: After): Sys
    requires h in s.net
  {
    var s1 := s.(px := r.0, hist := Recorded(s.hist, r.1, ok));
    match r.1
    case Sent(req, callee) =>
      SetPc(if ok then Deliver(s1, callee, Req(req)) else s1, h, Sending(req, callee, ok, after))
    case _ => SetPc(s1, h, Reading)
  }

  /** Lines 614-615: whoever is at the end of the chain by now stops waiting
      and has its backlog looked at. */
  function WakeCaller(env: Env, s: Sys, h: nat, c: Text, ok: bool): Sys
    requires h in s.net
  {
    var chain := Proxy.Chain(s.px, c);
    if chain == [] then SetPc(s, h, Reading) else
      var q := chain[|chain| - 1];
      Dispatched(s, h, Proxy.Dispatch(env.cfg.owner, Proxy.Update(s.px, q, c, false), q), ok, Done)
  }

  /** Lines 611-612, and on to 614 unless the dispatch suspends. */
  function WakeSelf(env: Env, s: Sys, h: nat, self: nat, c: Text, ok: bool): Sys
    requires h in s.net
  {
    var r := Proxy.Dispatch(env.cfg.owner, Proxy.Update(s.px, self, [], false), self);
    if r.1.Sent? then Dispatched(s, h, r, ok, Caller(c))
    else WakeCaller(env, s.(px := r.0, hist := Recorded(s.hist, r.1, ok)), h, c, ok)
  }

  /** A RESPONSE read from a link: pop the chain, write to its new end
      (lines 602-609). */
  function ReadResponse(s: Sys, h: nat, resp: Response, ok: bool): Sys
    requires h in s.net
  {
    var chain := Proxy.Chain(s.px, resp.callId);
    if |chain| < 2 then s else
      var self, caller := chain[|chain| - 1], chain[|chain| - 2];
      var s1 := s.(px := Proxy.PopChain(s.px, resp.callId),
                   hist := s.hist.(answered := s.hist.answered + multiset{resp.callId}));
      SetPc(if ok then Deliver(s1, caller, Resp(resp)) else s1, h, Answering(self, resp.callId))
  }

  /** A REQUEST read from a link (lines 560-576). */
  function ReadRequest(env: Env, s: Sys, h: nat, req: Request, ok: bool): Sys
    requires h in s.net
  {
    Dispatched(s.(hist := s.hist.(read := s.hist.read + multiset{req})), h,
               Proxy.ReadRequest(env.cfg.owner, s.px, req), ok, Done)
  }

  function PopUp(s: Sys, p: nat): Sys
    requires p in s.net && s.net[p].up != []
  {
    s.(net := s.net[p := s.net[p].(up := s.net[p].up[1..])])
  }

  function ReadUpStep(env: Env, s: Sys, p: nat, ok: bool): Sys
    requires p in s.net && s.net[p].up != []
  {
    match s.net[p].up[0]
    case Req(req) => ReadRequest(env, PopUp(s, p), p, req, ok)
    case Resp(resp) => ReadResponse(PopUp(s, p), p, resp, ok)
  }

  function ResumeStep(env: Env, s: Sys, p: nat, ok: bool): Sys
    requires p in s.net
  {
    match s.net[p].pc
    case Reading => s
    case Answering(self, c) => WakeSelf(env, s, p, self, c, ok)
    case Sending(req, callee, sent, after) =>
      var s1 := if sent then s else s.(px := Proxy.WriteFailed(s.px, req, callee));
      match after
      case Done => SetPc(s1, p, Reading)
      case Caller(c) => WakeCaller(env, s1, p, c, ok)
  }

  // ------------------------------------------------------------------- steps

  predicate Enabled(env: Env, s: Sys, e: Event) {
    match e
    case Connect(p, name) => p !in s.net && name in env.cfg.services
    case Arrive(p, msg) => p in s.net && msg.origin.Tcp? && msg.callId == []
    case HangUp(p, _) => p in s.net
    case Receive(p) => p in s.net && s.net[p].proc.linked && s.net[p].down != []
    case Take(p) => p in s.net && s.net[p].proc.job.None? && s.net[p].proc.queue != []
    case Act(p, ok) => p in s.net && s.net[p].proc.job.Some? && s.net[p].proc.wait.None?
    case ReadUp(p, ok) => p in s.net && s.net[p].pc.Reading? && s.net[p].up != []
    case Resume(p, ok) => p in s.net && !s.net[p].pc.Reading?
  }

  function Apply(env: Env, s: Sys, e: Event): Sys
    requires Enabled(env, s, e)
  {
    match e
    case Connect(p, name) =>
      s.(px := Proxy.Connect(s.px, p, name),
         net := s.net[p := Node(Reading, [], [], Proc(name, 0, [], [], None, None, false, true, {}, []))])
    case Arrive(p, msg) => SetProc(s, p, s.net[p].proc.(queue := s.net[p].proc.queue + [msg]))
    case HangUp(p, conn) => SetProc(s, p, Close(s.net[p].proc, Tcp(conn)))
    case Receive(p) => s.(net := s.net[p := ReceiveNode(s.net[p])])
    case Take(p) => s.(net := s.net[p := TakeNode(env, s.net[p])])
    case Act(p, ok) => s.(net := s.net[p := ActNode(env, p, s.net[p], ok)])
    case ReadUp(p, ok) => ReadUpStep(env, s, p, ok)
    case Resume(p, ok) => ResumeStep(env, s, p, ok)
  }

  /** Every state a run can reach, with the events that led there. */
  ghost predicate Run(env: Env, states: seq<Sys>, events: seq<Event>) {
    && |states| == |events| + 1
    && states[0] == Init
    && forall i :: 0 <= i < |events| ==>
         Enabled(env, states[i], events[i]) && states[i + 1] == Apply(env, states[i], events[i])
  }
}
