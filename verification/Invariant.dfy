/** What holds in every state of a smooth run: who may act on a chain, where the
    one pending request of a suspended actor is, and what every answer on its way
    is worth. */
module Invariant {
  import opened Protocol
  import opened CallIds
  import opened S = System
  import opened Meaning
  import Proxy
  import Accounting
  import Directory

  // --------------------------------------------------------- chain positions

  predicate IsTop(px: Proxy.State, c: Text, p: nat) {
    var ch := Proxy.Chain(px, c);
    ch != [] && ch[|ch| - 1] == p
  }

  /** `p` is on the chain below its top: it waits for the frame above it. */
  predicate InBody(px: Proxy.State, c: Text, p: nat) {
    var ch := Proxy.Chain(px, c);
    exists i :: 0 <= i < |ch| - 1 && ch[i] == p
  }

  /** `p` is the top of the chain and on it nowhere else. */
  ghost predicate Tops(px: Proxy.State, c: Text, p: nat) {
    IsTop(px, c, p) && !InBody(px, c, p)
  }

  /** No chain waits for `p`'s own pending send. */
  ghost predicate Free(px: Proxy.State, p: nat) {
    forall c :: !InBody(px, c, p)
  }

  /** How often `p` was pushed on the chain over its root. */
  ghost function Frames(px: Proxy.State, c: Text, p: nat): nat {
    var ch := Proxy.Chain(px, c);
    if ch == [] then 0 else multiset(ch[1..])[p]
  }

  /** What the actor below the top `p` of chain `c` waits for. */
  ghost function Wanted(px: Proxy.State, net: map<nat, Node>, c: Text, p: nat): Option<Request> {
    var ch := Proxy.Chain(px, c);
    if |ch| >= 2 && ch[|ch| - 1] == p && ch[|ch| - 2] in net then net[ch[|ch| - 2]].proc.wait else None
  }

  ghost predicate Asked(w: Option<Request>, service: Text, arg: Pack) {
    w.Some? && w.value.service == service && w.value.pack == arg
  }

  ghost predicate Answered(env: Env, w: Option<Request>, service: Text, reply: Pack) {
    && w.Some? && w.value.service == service
    && service in env.cfg.owner && Evaluates(env, service, w.value.pack, reply)
  }

  /** A handler is suspended that will let `p` go, as things are, when it resumes. */
  ghost predicate Awaited(px: Proxy.State, net: map<nat, Node>, p: nat) {
    exists h :: h in net && net[h].pc.Answering? && IsTop(px, net[h].pc.callId, p)
  }

  /** The handler of `p` has read a response of `p` and is suspended in its write:
      when it resumes it lets `p` go first of all. */
  predicate Responding(net: map<nat, Node>, p: nat) {
    p in net && net[p].pc.Answering?
  }

  predicate NoAnswer(frames: seq<Frame>) {
    forall i :: 0 <= i < |frames| ==> frames[i].Req?
  }

  // ------------------------------------------------------------ single nodes

  ghost predicate Generated(c: Text, p: nat, seq_: nat) {
    exists n: nat :: 1 <= n <= seq_ && c == MakeCallId(p, n)
  }

  /** The ids a process sends on: that of the message it serves, or its own. */
  ghost predicate Ours(p: nat, msg: Msg, seq_: nat, c: Text) {
    (msg.origin.Unix? && msg.callId == c) || Generated(c, p, seq_)
  }

  /** A request on `c` may be routed for `p`: it is the top, or the id is new. */
  ghost predicate IdReady(px: Proxy.State, p: nat, seq_: nat, c: Text) {
    IsTop(px, c, p) || (c !in px.chains && Generated(c, p, seq_))
  }

  ghost predicate UpItemOK(env: Env, px: Proxy.State, net: map<nat, Node>, p: nat, f: Frame,
                           isLast: bool, wait: Option<Request>, seq_: nat) {
    match f
    case Resp(r) => Answered(env, Wanted(px, net, r.callId, p), r.service, r.pack)
    case Req(r) => isLast && wait == Some(r) && IdReady(px, p, seq_, r.callId)
  }

  /** On the way to the proxy: true answers of the frames they pop, and last the
      request of a suspended actor. */
  ghost predicate UpOK(env: Env, px: Proxy.State, net: map<nat, Node>, p: nat,
                       up: seq<Frame>, wait: Option<Request>, seq_: nat) {
    forall i :: 0 <= i < |up| ==> UpItemOK(env, px, net, p, up[i], i == |up| - 1, wait, seq_)
  }

  ghost predicate MsgOK(px: Proxy.State, net: map<nat, Node>, p: nat, m: Msg) {
    if m.origin.Unix? then Asked(Wanted(px, net, m.callId, p), m.service, m.pack) else m.callId == []
  }

  ghost predicate QueueOK(px: Proxy.State, net: map<nat, Node>, p: nat, queue: seq<Msg>) {
    forall i :: 0 <= i < |queue| ==> MsgOK(px, net, p, queue[i])
  }

  /** An answer on the link to `p` is the value of the send `p` is suspended in. */
  ghost predicate AnswerOK(env: Env, px: Proxy.State, p: nat, r: Response, wait: Option<Request>, up: seq<Frame>) {
    && wait.Some? && up == [] && wait.value.callId == r.callId
    && Answered(env, wait, r.service, r.pack)
    && p in px.infos && px.infos[p].queue == [] && IsTop(px, r.callId, p)
  }

  ghost predicate DownItemOK(env: Env, px: Proxy.State, net: map<nat, Node>, p: nat, f: Frame,
                             wait: Option<Request>, up: seq<Frame>) {
    match f
    case Req(r) => Asked(Wanted(px, net, r.callId, p), r.service, r.pack)
    case Resp(r) => AnswerOK(env, px, p, r, wait, up)
  }

  predicate OneAnswer(down: seq<Frame>) {
    forall i, j :: 0 <= i < j < |down| ==> down[i].Req? || down[j].Req?
  }

  ghost predicate DownOK(env: Env, px: Proxy.State, net: map<nat, Node>, p: nat,
                         down: seq<Frame>, wait: Option<Request>, up: seq<Frame>) {
    (forall i :: 0 <= i < |down| ==> DownItemOK(env, px, net, p, down[i], wait, up)) && OneAnswer(down)
  }

  ghost predicate WaitOK(env: Env, p: nat, proc: Proc, job: Job, q: Request) {
    && q.pid == p
    && env.body(job.msg.service, job.msg.pack, job.replies) == Call(q.service, q.pack)
    && !Offers(env.cfg, proc.name, q.service)
    && Ours(p, job.msg, proc.seq_, q.callId)
    && (proc.callId == [] || proc.callId == q.callId)
  }

  ghost predicate JobOK(env: Env, px: Proxy.State, net: map<nat, Node>, p: nat, proc: Proc) {
    match proc.job
    case None => proc.wait == None && proc.callId == [] && !proc.err
    case Some(job) =>
      && Offers(env.cfg, proc.name, job.msg.service)
      && Faithful(env, job.msg.service, job.msg.pack, job.replies)
      && (proc.err || forall i :: 0 <= i < |job.replies| ==> job.replies[i].Got?)
      && (job.msg.origin.Unix? && Tops(px, job.msg.callId, p) ==> MsgOK(px, net, p, job.msg))
      && match proc.wait
         case Some(q) => WaitOK(env, p, proc, job, q)
         case None =>
           proc.callId != [] ==> IdReady(px, p, proc.seq_, proc.callId) && Ours(p, job.msg, proc.seq_, proc.callId)
  }

  /** Only the actor's own request is ever in its backlog, and then a handler will
      look at that backlog. A record that counts as waiting will be let go. */
  ghost predicate BacklogOK(px: Proxy.State, net: map<nat, Node>, p: nat,
                            wait: Option<Request>, up: seq<Frame>, down: seq<Frame>) {
    && p in px.infos
    && (px.infos[p].queue != [] ==>
        && |px.infos[p].queue| == 1 && wait == Some(px.infos[p].queue[0])
        && up == [] && NoAnswer(down) && IsTop(px, px.infos[p].queue[0].callId, p)
        && Awaited(px, net, p))
    && (px.infos[p].waiting ==> Awaited(px, net, p) || !Free(px, p) || Responding(net, p))
  }

  ghost predicate OweOK(px: Proxy.State, p: nat, n: Node) {
    forall c :: Accounting.Owed(n)[c] <= Frames(px, c, p)
  }

  ghost predicate AnswersOK(env: Env, answers: seq<Answer>) {
    forall i :: 0 <= i < |answers| ==> Evaluates(env, answers[i].msg.service, answers[i].msg.pack, answers[i].reply)
  }

  ghost predicate NodeOK(env: Env, px: Proxy.State, net: map<nat, Node>, p: nat, n: Node) {
    && UpOK(env, px, net, p, n.up, n.proc.wait, n.proc.seq_)
    && QueueOK(px, net, p, n.proc.queue)
    && DownOK(env, px, net, p, n.down, n.proc.wait, n.up)
    && JobOK(env, px, net, p, n.proc)
    && BacklogOK(px, net, p, n.proc.wait, n.up, n.down)
    && OweOK(px, p, n)
    && AnswersOK(env, n.proc.answers)
  }

  // ------------------------------------------------------------------ chains

  /** The state of an actor below the top of chain `c`. */
  ghost predicate Suspended(px: Proxy.State, net: map<nat, Node>, c: Text, p: nat) {
    && p in net && p in px.infos
    && net[p].proc.wait.Some? && net[p].proc.wait.value.callId == c
    && px.infos[p].queue == [] && net[p].up == [] && NoAnswer(net[p].down)
  }

  /** `p` serves what the frame below it asked for. */
  ghost predicate Serving(net: map<nat, Node>, c: Text, p: nat, below: nat) {
    && p in net && below in net && net[p].proc.job.Some?
    && net[p].proc.job.value.msg.origin.Unix? && net[p].proc.job.value.msg.callId == c
    && Asked(net[below].proc.wait, net[p].proc.job.value.msg.service, net[p].proc.job.value.msg.pack)
  }

  /** An actor waits at one place of a chain only; it may recur at the top. */
  ghost predicate Distinct(px: Proxy.State, ch: seq<nat>) {
    && (forall i :: 0 <= i < |ch| ==> ch[i] in px.infos)
    && (forall i, j :: 0 <= i < j < |ch| - 1 ==> ch[i] != ch[j])
  }

  ghost predicate LinksOK(px: Proxy.State, net: map<nat, Node>, c: Text, ch: seq<nat>) {
    && (forall i :: 0 <= i < |ch| - 1 ==> Suspended(px, net, c, ch[i]))
    && (forall i :: 1 <= i < |ch| - 1 ==> Serving(net, c, ch[i], ch[i - 1]))
  }

  ghost predicate ChainOK(px: Proxy.State, net: map<nat, Node>, c: Text, ch: seq<nat>) {
    && ch != [] && ch[0] in net && Generated(c, ch[0], net[ch[0]].proc.seq_)
    && Distinct(px, ch) && LinksOK(px, net, c, ch)
  }

  // ---------------------------------------------------------------- handlers

  ghost predicate PcOK(px: Proxy.State, h: nat, pc: Pc) {
    match pc
    case Reading => true
    case Sending(_, _, ok, after) => ok && after.Done?
    case Answering(self, c) =>
      && self == h && h in px.infos && px.infos[h].queue == [] && Free(px, h)
      && c in px.chains && px.chains[c] != []
  }

  ghost predicate NodesOK(env: Env, s: Sys) {
    forall p :: p in s.net ==> NodeOK(env, s.px, s.net, p, s.net[p])
  }

  ghost predicate ChainsOK(s: Sys) {
    forall c :: c in s.px.chains ==> ChainOK(s.px, s.net, c, s.px.chains[c])
  }

  ghost predicate HandlersOK(s: Sys) {
    forall h :: h in s.net ==> PcOK(s.px, h, s.net[h].pc)
  }

  ghost predicate Inv(env: Env, s: Sys) {
    Directory.Listed(env.cfg, s) && NodesOK(env, s) && ChainsOK(s) && HandlersOK(s)
  }

  // ------------------------------------------------------------------ frames

  /** What `p` owes, and to whom, reads the same in both states, chain `skip`
      apart: it is the top of the same chains and the actors below it want the same. */
  ghost predicate Reads(px: Proxy.State, net: map<nat, Node>, py: Proxy.State, ny: map<nat, Node>, p: nat,
                        skip: Option<Text>) {
    forall c :: IsTop(px, c, p) && Some(c) != skip ==>
      IsTop(py, c, p) && Wanted(py, ny, c, p) == Wanted(px, net, c, p)
  }

  /** Besides, `p` only becomes the one top of chains it was never pushed on. */
  ghost predicate Undisturbed(px: Proxy.State, net: map<nat, Node>, py: Proxy.State, ny: map<nat, Node>, p: nat,
                              skip: Option<Text>) {
    && Reads(px, net, py, ny, p, skip)
    && forall c :: Tops(py, c, p) && !Tops(px, c, p) ==> Frames(px, c, p) == 0
  }

  predicate AvoidsUp(f: Frame, skip: Option<Text>) {
    match f
    case Resp(r) => Some(r.callId) != skip
    case Req(r) => Some(r.callId) != skip
  }

  predicate AvoidsMsg(m: Msg, skip: Option<Text>) {
    m.origin.Unix? ==> Some(m.callId) != skip
  }

  /** Nothing in the node of `p` depends on chain `skip`. */
  predicate Avoids(py: Proxy.State, p: nat, n: Node, skip: Option<Text>) {
    && (forall i :: 0 <= i < |n.up| ==> AvoidsUp(n.up[i], skip))
    && (forall i :: 0 <= i < |n.proc.queue| ==> AvoidsMsg(n.proc.queue[i], skip))
    && (forall i :: 0 <= i < |n.down| ==> AvoidsUp(n.down[i], skip))
    && (n.proc.job.Some? && !AvoidsMsg(n.proc.job.value.msg, skip) ==> !IsTop(py, n.proc.job.value.msg.callId, p))
    && (n.proc.wait.None? ==> Some(n.proc.callId) != skip)
  }

  lemma AvoidsNone(py: Proxy.State, p: nat, n: Node)
    ensures Avoids(py, p, n, None)
  {
  }

  /** An answer on its way to `p` stays the only thing pending for `p`. */
  ghost predicate StillAlone(px: Proxy.State, py: Proxy.State, p: nat, down: seq<Frame>) {
    p in px.infos && p in py.infos && (NoAnswer(down) || (px.infos[p].queue == [] ==> py.infos[p].queue == []))
  }

  /** Ids that become known are not ones `p` could have in its outgoing link, or send
      on next. */
  ghost predicate NoNewIds(px: Proxy.State, py: Proxy.State, p: nat, n: Node) {
    (n.up == [] && n.proc.wait.Some?) || forall c :: c in py.chains && c !in px.chains ==> !Generated(c, p, n.proc.seq_)
  }

  lemma WantedOnlyTop(px: Proxy.State, net: map<nat, Node>, c: Text, p: nat)
    ensures Wanted(px, net, c, p).Some? ==> IsTop(px, c, p)
  {
  }

  lemma UpItemKept(env: Env, px: Proxy.State, net: map<nat, Node>, py: Proxy.State, ny: map<nat, Node>, p: nat,
                   skip: Option<Text>, f: Frame, isLast: bool, wait: Option<Request>, seq_: nat)
    requires UpItemOK(env, px, net, p, f, isLast, wait, seq_) && Reads(px, net, py, ny, p, skip) && AvoidsUp(f, skip)
    requires forall c :: c in py.chains && c !in px.chains ==> !Generated(c, p, seq_)
    ensures UpItemOK(env, py, ny, p, f, isLast, wait, seq_)
  {
    hide IsTop, Wanted, Frames, Generated, Evaluates;
    if f.Resp? {
      WantedOnlyTop(px, net, f.resp.callId, p);
    }
  }

  lemma MsgKept(px: Proxy.State, net: map<nat, Node>, py: Proxy.State, ny: map<nat, Node>, p: nat,
                skip: Option<Text>, m: Msg)
    requires MsgOK(px, net, p, m) && Reads(px, net, py, ny, p, skip) && AvoidsMsg(m, skip)
    ensures MsgOK(py, ny, p, m)
  {
    hide IsTop, Wanted, Frames;
    WantedOnlyTop(px, net, m.callId, p);
  }

  lemma DownItemKept(env: Env, px: Proxy.State, net: map<nat, Node>, py: Proxy.State, ny: map<nat, Node>, p: nat,
                     skip: Option<Text>, f: Frame, wait: Option<Request>, up: seq<Frame>)
    requires DownItemOK(env, px, net, p, f, wait, up) && Reads(px, net, py, ny, p, skip) && AvoidsUp(f, skip)
    requires p in py.infos && (f.Req? || py.infos[p].queue == [])
    ensures DownItemOK(env, py, ny, p, f, wait, up)
  {
    hide IsTop, Wanted, Frames, Evaluates;
    if f.Req? {
      WantedOnlyTop(px, net, f.req.callId, p);
    }
  }

  lemma UpKept(env: Env, px: Proxy.State, net: map<nat, Node>, py: Proxy.State, ny: map<nat, Node>, p: nat,
               skip: Option<Text>, n: Node)
    requires UpOK(env, px, net, p, n.up, n.proc.wait, n.proc.seq_)
    requires Reads(px, net, py, ny, p, skip) && Avoids(py, p, n, skip) && NoNewIds(px, py, p, n)
    ensures UpOK(env, py, ny, p, n.up, n.proc.wait, n.proc.seq_)
  {
    hide UpItemOK, Reads, Generated, AvoidsUp, AvoidsMsg;
    forall i | 0 <= i < |n.up|
      ensures UpItemOK(env, py, ny, p, n.up[i], i == |n.up| - 1, n.proc.wait, n.proc.seq_) {
      UpItemKept(env, px, net, py, ny, p, skip, n.up[i], i == |n.up| - 1, n.proc.wait, n.proc.seq_);
    }
  }

  lemma QueueKept(px: Proxy.State, net: map<nat, Node>, py: Proxy.State, ny: map<nat, Node>, p: nat,
                  skip: Option<Text>, n: Node)
    requires QueueOK(px, net, p, n.proc.queue) && Reads(px, net, py, ny, p, skip) && Avoids(py, p, n, skip)
    ensures QueueOK(py, ny, p, n.proc.queue)
  {
    hide MsgOK, Reads, AvoidsUp, AvoidsMsg;
    forall i | 0 <= i < |n.proc.queue| ensures MsgOK(py, ny, p, n.proc.queue[i]) {
      MsgKept(px, net, py, ny, p, skip, n.proc.queue[i]);
    }
  }

  lemma DownKept(env: Env, px: Proxy.State, net: map<nat, Node>, py: Proxy.State, ny: map<nat, Node>, p: nat,
                 skip: Option<Text>, n: Node)
    requires DownOK(env, px, net, p, n.down, n.proc.wait, n.up) && Avoids(py, p, n, skip)
    requires Reads(px, net, py, ny, p, skip) && StillAlone(px, py, p, n.down)
    ensures DownOK(env, py, ny, p, n.down, n.proc.wait, n.up)
  {
    hide Reads, OneAnswer, Wanted, IsTop, Asked, Answered, AvoidsUp, AvoidsMsg;
    forall i | 0 <= i < |n.down| ensures DownItemOK(env, py, ny, p, n.down[i], n.proc.wait, n.up) {
      assert DownItemOK(env, px, net, p, n.down[i], n.proc.wait, n.up);
      DownItemKept(env, px, net, py, ny, p, skip, n.down[i], n.proc.wait, n.up);
    }
  }

  lemma JobToken(px: Proxy.State, p: nat, n: Node)
    requires OweOK(px, p, n) && n.proc.job.Some? && n.proc.job.value.msg.origin.Unix?
    ensures Frames(px, n.proc.job.value.msg.callId, p) >= Accounting.Owed(n)[n.proc.job.value.msg.callId] >= 1
  {
    hide Frames;
  }

  lemma JobKept(env: Env, px: Proxy.State, net: map<nat, Node>, py: Proxy.State, ny: map<nat, Node>, p: nat,
                skip: Option<Text>, n: Node)
    requires JobOK(env, px, net, p, n.proc) && OweOK(px, p, n) && Undisturbed(px, net, py, ny, p, skip)
    requires Avoids(py, p, n, skip) && NoNewIds(px, py, p, n)
    ensures JobOK(env, py, ny, p, n.proc)
  {
    hide InBody, Wanted, Frames, Faithful, WaitOK, MsgOK, Ours, OweOK, AvoidsUp, AvoidsMsg, Generated;
    assert forall c :: Tops(py, c, p) ==> IsTop(py, c, p);
    hide IsTop, Tops;
    if n.proc.job.Some? && n.proc.job.value.msg.origin.Unix? && Tops(py, n.proc.job.value.msg.callId, p) {
      JobToken(px, p, n);
      MsgKept(px, net, py, ny, p, skip, n.proc.job.value.msg);
    }
  }

  lemma OweKept(px: Proxy.State, py: Proxy.State, p: nat, n: Node)
    requires OweOK(px, p, n)
    requires forall c :: Frames(px, c, p) <= Frames(py, c, p) || Accounting.Owed(n)[c] == 0
    ensures OweOK(py, p, n)
  {
    hide Frames, Accounting.Owed;
    forall c ensures Accounting.Owed(n)[c] <= Frames(py, c, p) {
      assert Accounting.Owed(n)[c] <= Frames(px, c, p);
    }
  }

  lemma NodeFrameBut(env: Env, px: Proxy.State, net: map<nat, Node>, py: Proxy.State, ny: map<nat, Node>, p: nat,
                     skip: Option<Text>, n: Node)
    requires NodeOK(env, px, net, p, n) && Reads(px, net, py, ny, p, skip) && Avoids(py, p, n, skip)
    requires StillAlone(px, py, p, n.down) && NoNewIds(px, py, p, n)
    requires BacklogOK(py, ny, p, n.proc.wait, n.up, n.down) && JobOK(env, py, ny, p, n.proc)
    requires forall c :: Frames(px, c, p) <= Frames(py, c, p) || Accounting.Owed(n)[c] == 0
    ensures NodeOK(env, py, ny, p, n)
  {
    hide Reads, StillAlone, NoNewIds, JobOK, UpOK, DownOK, QueueOK, AnswersOK, OweOK, BacklogOK;
    hide Frames, Accounting.Owed, Avoids;
    UpKept(env, px, net, py, ny, p, skip, n);
    QueueKept(px, net, py, ny, p, skip, n);
    DownKept(env, px, net, py, ny, p, skip, n);
    OweKept(px, py, p, n);
  }

  lemma NodeFrame(env: Env, px: Proxy.State, net: map<nat, Node>, py: Proxy.State, ny: map<nat, Node>, p: nat,
                  skip: Option<Text>, n: Node)
    requires NodeOK(env, px, net, p, n) && Undisturbed(px, net, py, ny, p, skip) && Avoids(py, p, n, skip)
    requires StillAlone(px, py, p, n.down) && NoNewIds(px, py, p, n)
    requires BacklogOK(py, ny, p, n.proc.wait, n.up, n.down)
    requires forall c :: Frames(px, c, p) <= Frames(py, c, p) || Accounting.Owed(n)[c] == 0
    ensures NodeOK(env, py, ny, p, n)
  {
    hide Reads, StillAlone, NoNewIds, JobOK, UpOK, DownOK, QueueOK, AnswersOK, OweOK, BacklogOK;
    hide Frames, Accounting.Owed, Avoids;
    JobKept(env, px, net, py, ny, p, skip, n);
    NodeFrameBut(env, px, net, py, ny, p, skip, n);
  }

  /** The backlog part, when the record does not change. */
  lemma BacklogKept(px: Proxy.State, net: map<nat, Node>, py: Proxy.State, ny: map<nat, Node>, p: nat, n: Node)
    requires BacklogOK(px, net, p, n.proc.wait, n.up, n.down) && p in py.infos && py.infos[p] == px.infos[p]
    requires px.infos[p].queue != [] ==> IsTop(py, px.infos[p].queue[0].callId, p)
    requires !Free(px, p) ==> !Free(py, p)
    requires Awaited(px, net, p) ==> Awaited(py, ny, p)
    requires Responding(net, p) ==> Responding(ny, p)
    ensures BacklogOK(py, ny, p, n.proc.wait, n.up, n.down)
  {
    hide IsTop, Free, Awaited, NoAnswer, Responding;
  }
}
