/** What a process does when its service acts, stated on its fields and for every run:
    how a send ends, refused, failed or under way; how a message ends, answered, lost or
    with its connection closed; and which ids calls get (src/coro_actor_ctx.cpp:42-198). */
module Actions {
  import opened Protocol
  import opened CallIds
  import opened S = System
  import opened SmoothRuns
  import opened FreshIds
  import Journal
  import Provenance

  // ------------------------------------------------------------ what is due next

  /** The next action of the service that `n` runs. */
  function Due(env: Env, n: Node): Action
    requires n.proc.job.Some?
  {
    var job := n.proc.job.value;
    env.body(job.msg.service, job.msg.pack, job.replies)
  }

  /** It is a call, for the proxy to route, of a service of another actor node. */
  predicate CallsAway(env: Env, n: Node) {
    n.proc.job.Some? && Due(env, n).Call? && !Offers(env.cfg, n.proc.name, Due(env, n).service)
  }

  /** Nothing but the state of the process that acts, and its link to the proxy. */
  ghost predicate OnlyActs(s: Sys, t: Sys, p: nat) {
    && p in s.net && t.px == s.px && t.hist == s.hist && t.net.Keys == s.net.Keys
    && (forall q :: q in s.net && q != p ==> t.net[q] == s.net[q])
    && t.net[p].pc == s.net[p].pc && t.net[p].down == s.net[p].down
    && t.net[p].proc.name == s.net[p].proc.name && t.net[p].proc.queue == s.net[p].proc.queue
  }

  /** `m` has the connections and the answers of `n`. */
  ghost predicate SameConnections(n: Node, m: Node) {
    m.proc.answers == n.proc.answers && forall o :: IsOpen(m.proc, o) <==> IsOpen(n.proc, o)
  }

  /** The service of `m` is that of `n` after a send that handed back false. */
  ghost predicate HeardFalse(n: Node, m: Node) {
    && n.proc.job.Some? && m.proc.job.Some? && m.proc.job.value.msg == n.proc.job.value.msg
    && m.proc.job.value.replies == n.proc.job.value.replies + [Refused]
    && m.proc.err && m.proc.wait == n.proc.wait && m.up == n.up
  }

  // -------------------------------------------------------------- the three acts

  /** A send to a service of the own process records an error, hands back false and does
      nothing else: no id is made and nothing is written. */
  lemma OwnServiceRefused(env: Env, s: Sys, p: nat, ok: bool)
    requires Enabled(env, s, Act(p, ok)) && Due(env, s.net[p]).Call? && !CallsAway(env, s.net[p])
    ensures var t := Apply(env, s, Act(p, ok));
            && OnlyActs(s, t, p) && SameConnections(s.net[p], t.net[p]) && HeardFalse(s.net[p], t.net[p])
            && t.net[p].proc.callId == s.net[p].proc.callId && t.net[p].proc.seq_ == s.net[p].proc.seq_
  {
  }

  /** The id that a send of `proc` uses: the one of the call that is being served, and
      without one the next number, modulo 2^32, behind the pid. */
  function IdFor(proc: Proc, p: nat): Text {
    if proc.callId != [] then proc.callId else MakeCallId(p, (proc.seq_ + 1) % 0x1_0000_0000)
  }

  /** A send to another node. If its write succeeds one request is behind what was on the
      link and the service waits for that request; otherwise an error is recorded and the
      service hears false. An id that was made stays with the service in both cases. */
  lemma AwaySends(env: Env, s: Sys, p: nat, ok: bool)
    requires Enabled(env, s, Act(p, ok)) && CallsAway(env, s.net[p])
    ensures var n, t, action := s.net[p], Apply(env, s, Act(p, ok)), Due(env, s.net[p]);
            var m, req := t.net[p], Request(p, IdFor(n.proc, p), action.service, action.arg);
            && OnlyActs(s, t, p) && SameConnections(n, m) && m.proc.callId == req.callId
            && m.proc.seq_ == (if n.proc.callId != [] then n.proc.seq_ else (n.proc.seq_ + 1) % 0x1_0000_0000)
            && (if ok && n.proc.linked then
                  m.proc.wait == Some(req) && m.up == n.up + [Req(req)] && m.proc.job == n.proc.job
                  && m.proc.err == n.proc.err
                else HeardFalse(n, m))
  {
    hide MakeCallId;
  }

  /** A REQUEST that is received is queued behind the others, for an answer on the link it
      came on, and leaves the process without an id; a RESPONSE is what the pending send
      hands back. */
  lemma FrameReceived(env: Env, s: Sys, p: nat)
    requires Enabled(env, s, Receive(p))
    ensures var n, m := s.net[p], Apply(env, s, Receive(p)).net[p];
            && m.down == n.down[1..] && m.up == n.up && m.pc == n.pc && SameConnections(n, m)
            && m.proc.err == n.proc.err && m.proc.seq_ == n.proc.seq_ && m.proc.name == n.proc.name
            && match n.down[0]
               case Req(r) =>
                 && m.proc.queue == n.proc.queue + [Msg(r.service, r.callId, r.pack, Unix)]
                 && m.proc.callId == [] && m.proc.job == n.proc.job && m.proc.wait == n.proc.wait
               case Resp(r) =>
                 && m.proc.queue == n.proc.queue && m.proc.callId == n.proc.callId
                 && (n.proc.wait.Some? && n.proc.job.Some? ==>
                       m.proc.wait.None? && m.proc.job.Some? && m.proc.job.value.msg == n.proc.job.value.msg
                       && m.proc.job.value.replies == n.proc.job.value.replies + [Got(r.pack)])
                 && (n.proc.wait.None? || n.proc.job.None? ==>
                       m.proc.job == n.proc.job && m.proc.wait == n.proc.wait)
  {
  }

  /** The first message of the queue is taken: passed over if its connection is closed,
      its connection closed if the process has no such service; otherwise its service
      starts, with no replies yet and under the call id of the message. */
  lemma MessageTaken(env: Env, s: Sys, p: nat)
    requires Enabled(env, s, Take(p))
    ensures var n, m, msg := s.net[p], Apply(env, s, Take(p)).net[p], s.net[p].proc.queue[0];
            var served := IsOpen(n.proc, msg.origin) && Offers(env.cfg, n.proc.name, msg.service);
            && m.proc.queue == n.proc.queue[1..] && m.down == n.down && m.up == n.up
            && m.proc.answers == n.proc.answers && m.proc.err == n.proc.err && m.proc.seq_ == n.proc.seq_
            && m.proc.job == (if served then Some(Job(msg, [])) else None)
            && m.proc.callId == (if served then msg.callId else n.proc.callId)
            && forall o :: IsOpen(m.proc, o) <==> IsOpen(n.proc, o) && (o == msg.origin ==> served)
  {
    hide Offers;
  }

  // -------------------------------------------------- errors, over whole runs

  /** A service has an error recorded exactly if a send has handed it false, and between
      two messages there is no error, no id and no pending send. */
  ghost predicate Heard(proc: Proc) {
    match proc.job
    case None => !proc.err && proc.callId == [] && proc.wait.None?
    case Some(job) => proc.err <==> Refused in job.replies
  }

  lemma ActHeard(env: Env, p: nat, n: Node, ok: bool)
    requires Heard(n.proc) && n.proc.job.Some? && n.proc.wait.None?
    ensures Heard(ActNode(env, p, n, ok).proc)
  {
    hide MakeCallId, IsOpen, Offers;
  }

  lemma OtherHeard(env: Env, n: Node)
    requires Heard(n.proc)
    ensures n.down != [] ==> Heard(ReceiveNode(n).proc)
    ensures n.proc.queue != [] && n.proc.job.None? ==> Heard(TakeNode(env, n).proc)
  {
    hide IsOpen, Offers;
  }

  lemma FirstHeard(name: Text)
    ensures Heard(Proc(name, 0, [], [], None, None, false, true, {}, []))
  {
  }

  lemma SameHeard(proc: Proc, more: Proc)
    requires Heard(proc) && more.job == proc.job && more.err == proc.err && more.callId == proc.callId
    requires more.wait == proc.wait
    ensures Heard(more)
  {
  }

  lemma StepHeard(env: Env, s: Sys, e: Event, p: nat)
    requires Enabled(env, s, e) && p in Apply(env, s, e).net && (p in s.net ==> Heard(s.net[p].proc))
    ensures Heard(Apply(env, s, e).net[p].proc)
  {
    hide Heard, ReceiveNode, TakeNode, ActNode, ReadUpStep, ResumeStep;
    match e
    case Connect(q, name) => FirstHeard(name);
    case Arrive(q, msg) => if p == q { SameHeard(s.net[p].proc, s.net[p].proc.(queue := s.net[p].proc.queue + [msg])); }
    case HangUp(q, conn) => if p == q { SameHeard(s.net[p].proc, Close(s.net[p].proc, Tcp(conn))); }
    case Receive(q) => if p == q { OtherHeard(env, s.net[p]); }
    case Take(q) => if p == q { OtherHeard(env, s.net[p]); }
    case Act(q, ok) => if p == q { ActHeard(env, p, s.net[p], ok); }
    case _ => Provenance.ProxyWait(env, s, e);
  }

  lemma {:induction false} HeardAlways(env: Env, states: seq<Sys>, events: seq<Event>, i: nat, p: nat)
    requires Run(env, states, events) && i < |states| && p in states[i].net
    ensures Heard(states[i].net[p].proc)
  {
    hide Heard, Apply, Enabled;
    if i > 0 {
      if p in states[i - 1].net {
        HeardAlways(env, states, events, i - 1, p);
      }
      StepHeard(env, states[i - 1], events[i - 1], p);
    }
  }

  /** How the message of `n` ends in `m`. If a send has handed its service false, its
      connection is closed and nothing is written; otherwise no connection is closed, and
      if its own is still open and the write succeeds, the reply, and no other, is
      answered there. No error and no id is left for the next message. */
  ghost predicate Ends(p: nat, n: Node, m: Node, reply: Pack, ok: bool) {
    n.proc.job.Some? &&
    var msg, refused := n.proc.job.value.msg, Refused in n.proc.job.value.replies;
    var written := !refused && ok && IsOpen(n.proc, msg.origin);
    && m.proc.job.None? && !m.proc.err && m.proc.callId == [] && m.proc.wait.None? && m.proc.seq_ == n.proc.seq_
    && (forall o :: IsOpen(m.proc, o) <==> IsOpen(n.proc, o) && !(refused && o == msg.origin))
    && m.proc.answers == n.proc.answers + (if written then [Answer(msg, reply)] else [])
    && m.up == n.up + if written && msg.origin.Unix? then [Resp(Response(p, msg.callId, msg.service, reply))] else []
  }

  lemma CompleteEnds(p: nat, n: Node, job: Job, reply: Pack, ok: bool)
    requires Heard(n.proc) && n.proc.job == Some(job) && n.proc.wait.None?
    ensures Ends(p, n, Complete(p, n, job, reply, ok), reply, ok)
  {
  }

  /** In every run, whenever a service returns. */
  lemma ReturnEnds(env: Env, states: seq<Sys>, events: seq<Event>, i: nat, p: nat, ok: bool)
    requires Run(env, states, events) && i < |events| && events[i] == Act(p, ok)
    requires p in states[i].net && states[i].net[p].proc.job.Some? && Due(env, states[i].net[p]).Return?
    ensures i + 1 < |states| && OnlyActs(states[i], states[i + 1], p)
    ensures Ends(p, states[i].net[p], states[i + 1].net[p], Due(env, states[i].net[p]).reply, ok)
  {
    HeardAlways(env, states, events, i, p);
    var n := states[i].net[p];
    assert states[i + 1] == Apply(env, states[i], Act(p, ok)) && n.proc.wait.None?;
    hide Heard, Ends, IsOpen;
    CompleteEnds(p, n, n.proc.job.value, Due(env, n).reply, ok);
  }

  // ----------------------------------------------------------------- call ids

  /** The steps among the first `i` in which `p` calls away without an id to go on. */
  ghost function RootCalls(env: Env, states: seq<Sys>, events: seq<Event>, i: nat, p: nat): nat
    requires i <= |events| <= |states|
  {
    if i == 0 then 0 else
      RootCalls(env, states, events, i - 1, p) +
      if MakesId(env, states[i - 1], events[i - 1], p) then 1 else 0
  }

  predicate MakesId(env: Env, s: Sys, e: Event, p: nat) {
    e.Act? && e.p == p && p in s.net && CallsAway(env, s.net[p]) && s.net[p].proc.callId == []
  }

  lemma NoIdBefore(env: Env, s: Sys, e: Event, p: nat)
    ensures p !in s.net ==> !MakesId(env, s, e, p)
  {
  }

  lemma StepCounts(env: Env, s: Sys, e: Event, p: nat)
    requires Enabled(env, s, e) && p in Apply(env, s, e).net
    ensures Apply(env, s, e).net[p].proc.seq_ ==
            if p !in s.net then 0
            else if MakesId(env, s, e, p) then (s.net[p].proc.seq_ + 1) % 0x1_0000_0000
            else s.net[p].proc.seq_
  {
    hide ReadUpStep, ResumeStep, MakeCallId, IsOpen, Offers;
    if e.ReadUp? || e.Resume? {
      Provenance.ProxyWait(env, s, e);
    }
  }

  lemma Counted(n: nat, q: nat)
    requires q == n % 0x1_0000_0000
    ensures (q + 1) % 0x1_0000_0000 == (n + 1) % 0x1_0000_0000
  {
  }

  lemma StaysConnected(env: Env, s: Sys, e: Event, p: nat)
    requires Enabled(env, s, e) && p in s.net
    ensures p in Apply(env, s, e).net
  {
    hide ReadUpStep, ResumeStep, ReceiveNode, TakeNode, ActNode;
    if e.ReadUp? || e.Resume? {
      Provenance.ProxyWait(env, s, e);
    }
  }

  lemma RunPart(env: Env, states: seq<Sys>, events: seq<Event>, i: nat)
    requires Run(env, states, events) && i <= |events|
    ensures |states| == |events| + 1 && states[0].net == map[]
    ensures i < |events| ==> Enabled(env, states[i], events[i]) && states[i + 1] == Apply(env, states[i], events[i])
  {
    hide Enabled, Apply;
  }

  /** The number of ids that `p` has made, if it is there, and none before. */
  ghost predicate HasMade(s: Sys, p: nat, n: nat) {
    if p in s.net then s.net[p].proc.seq_ == n % 0x1_0000_0000 else n == 0
  }

  lemma StepMakes(env: Env, s: Sys, e: Event, p: nat, n: nat)
    requires Enabled(env, s, e) && HasMade(s, p, n)
    ensures HasMade(Apply(env, s, e), p, n + if MakesId(env, s, e, p) then 1 else 0)
  {
    hide Apply, Enabled, MakesId;
    NoIdBefore(env, s, e, p);
    if p in s.net {
      StaysConnected(env, s, e, p);
    }
    if p in Apply(env, s, e).net {
      StepCounts(env, s, e, p);
      Counted(n, n % 0x1_0000_0000);
    }
  }

  lemma {:induction false} MadeAlways(env: Env, states: seq<Sys>, events: seq<Event>, i: nat, p: nat)
    requires Run(env, states, events) && i < |states|
    ensures i <= |events| && HasMade(states[i], p, RootCalls(env, states, events, i, p))
  {
    hide Run, Enabled, Apply, MakesId;
    RunPart(env, states, events, 0);
    if i > 0 {
      RunPart(env, states, events, i - 1);
      MadeAlways(env, states, events, i - 1, p);
      hide HasMade;
      StepMakes(env, states[i - 1], events[i - 1], p, RootCalls(env, states, events, i - 1, p));
    }
  }

  /** In every run, the n-th call a process makes of its own accord gets the number n,
      modulo 2^32, behind its pid. */
  lemma IdsCount(env: Env, states: seq<Sys>, events: seq<Event>, i: nat, p: nat)
    requires Run(env, states, events) && i < |events| && MakesId(env, states[i], events[i], p)
    ensures i + 1 < |states| && p in states[i + 1].net
    ensures states[i + 1].net[p].proc.callId
            == MakeCallId(p, (RootCalls(env, states, events, i, p) + 1) % 0x1_0000_0000)
  {
    hide MakeCallId, RootCalls, CallsAway;
    var s := states[i];
    RunPart(env, states, events, i);
    MadeAlways(env, states, events, i, p);
    hide Run, Enabled, Apply;
    AwaySends(env, s, p, events[i].ok);
    Counted(RootCalls(env, states, events, i, p), s.net[p].proc.seq_);
  }

  // ------------------------------------- calls after a REQUEST has come in between

  /** `p` neither takes a message nor acts. */
  predicate Passive(e: Event, p: nat) {
    !(e.Take? && e.p == p) && !(e.Act? && e.p == p)
  }

  lemma StaysIdless(env: Env, s: Sys, e: Event, p: nat)
    requires Enabled(env, s, e) && Passive(e, p) && p in s.net && s.net[p].proc.callId == []
    ensures var t := Apply(env, s, e);
            p in t.net && t.net[p].proc.callId == [] && t.net[p].proc.seq_ == s.net[p].proc.seq_
  {
    hide ReadUpStep, ResumeStep, TakeNode, ActNode;
    if e.ReadUp? || e.Resume? {
      Provenance.ProxyWait(env, s, e);
    }
  }

  /** A REQUEST that is received makes the process forget the id it serves under. */
  lemma {:induction false} Forgotten(env: Env, states: seq<Sys>, events: seq<Event>, i: nat, j: nat, p: nat)
    requires Run(env, states, events) && i < j <= |events| && events[i] == Receive(p)
    requires p in states[i].net && states[i].net[p].down != [] && states[i].net[p].down[0].Req?
    requires forall k :: i < k < j ==> Passive(events[k], p)
    ensures p in states[j].net && states[j].net[p].proc.callId == []
    ensures states[j].net[p].proc.seq_ == states[i].net[p].proc.seq_
  {
    hide Enabled, Passive;
    if j == i + 1 {
      assert states[j] == Apply(env, states[i], Receive(p));
    } else {
      hide Apply;
      Forgotten(env, states, events, i, j - 1, p);
      StaysIdless(env, states[j - 1], events[j - 1], p);
    }
  }

  lemma NewId(s: Sys, p: nat)
    requires NoWrap(s, Act(p, true)) && p in s.net && s.net[p].proc.callId == []
    ensures IdFor(s.net[p].proc, p) == MakeCallId(p, s.net[p].proc.seq_ + 1)
  {
    hide MakeCallId;
  }

  /** So the next send of its service, whatever the service was called under, makes a new
      id. The proxy knows no such call until then, and once it does the process that made
      it is at the root. */
  lemma NextSendIsRoot(env: Env, states: seq<Sys>, events: seq<Event>, i: nat, j: nat, p: nat)
    requires IndexAgrees(env.cfg) && Run(env, states, events) && NeverWraps(states, events)
    requires i < j < |events| && events[i] == Receive(p) && events[j] == Act(p, true)
    requires p in states[i].net && states[i].net[p].down != [] && states[i].net[p].down[0].Req?
    requires forall k :: i < k < j ==> Passive(events[k], p)
    requires p in states[j].net && states[j].net[p].proc.linked && CallsAway(env, states[j].net[p])
    ensures |states| == |events| + 1
    ensures var n, c := states[j].net[p], MakeCallId(p, states[i].net[p].proc.seq_ + 1);
            && p in states[j + 1].net
            && states[j + 1].net[p].up == n.up + [Req(Request(p, c, Due(env, n).service, Due(env, n).arg))]
            && (forall k :: 0 <= k < |states| && c in states[k].px.chains ==>
                  j < k && states[k].px.chains[c] != [] && states[k].px.chains[c][0] == p)
  {
    hide *;
    RunPart(env, states, events, j);
    var c := MakeCallId(p, states[i].net[p].proc.seq_ + 1);
    RunAt(env, states, events, j);
    StaysConnected(env, states[j], events[j], p);
    Forgotten(env, states, events, i, j, p);
    NewId(states[j], p);
    AwaySends(env, states[j], p, true);
    CallIdsAreFresh(env, states, events, j);
    forall k | 0 <= k < |states| && c in states[k].px.chains
      ensures j < k && states[k].px.chains[c] != [] && states[k].px.chains[c][0] == p {
      CallIdsAreFresh(env, states, events, k);
      if k <= j {
        Journal.ChainsKept(env, states, events, k, j);
      }
    }
  }
}
