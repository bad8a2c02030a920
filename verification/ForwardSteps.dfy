/** Forwarding a request: the requester becomes a waiting frame below its callee. */
module ForwardSteps {
  import opened Protocol
  import opened S = System
  import opened Meaning
  import opened Invariant
  import opened ActorSteps
  import opened ActorNodes
  import Accounting
  import Directory
  import Proxy
  import Registry

  /** Actor `a` is suspended in the send of `r`, which is nowhere but in the
      proxy's hands. */
  ghost predicate Ready(s: Sys, a: nat, r: Request) {
    && a in s.net && a in s.px.infos
    && s.net[a].proc.wait == Some(r) && s.net[a].up == [] && NoAnswer(s.net[a].down)
    && s.px.infos[a].queue == [] && IsTop(s.px, r.callId, a) && Free(s.px, a)
    && !s.net[a].pc.Answering?
  }

  /** `callee` may take a request of `a` on chain `c`: it does not wait and no
      actor of its name is known to work on `c`, the requester included. */
  ghost predicate Takes(s: Sys, a: nat, c: Text, callee: nat) {
    && callee in s.px.infos && a in s.px.infos && callee in s.net
    && !s.px.infos[callee].waiting
    && s.px.infos[callee].name != s.px.infos[a].name
    && !Registry.Engaged(s.px, s.px.infos[callee].name, c)
  }

  function Pushed(px: Proxy.State, a: nat, c: Text, callee: nat): Proxy.State {
    Proxy.Push(Proxy.Update(px, a, c, true), c, callee)
  }

  function PushedNet(net: map<nat, Node>, callee: nat, r: Request): map<nat, Node>
    requires callee in net
  {
    net[callee := net[callee].(down := net[callee].down + [Req(r)])]
  }

  // --------------------------------------------------------- chain positions

  lemma PushedChain(px: Proxy.State, a: nat, c: Text, callee: nat, d: Text)
    ensures Proxy.Chain(Pushed(px, a, c, callee), d) ==
              if d == c then Proxy.Chain(px, c) + [callee] else Proxy.Chain(px, d)
  {
  }

  lemma PushedTop(px: Proxy.State, a: nat, c: Text, callee: nat, d: Text, q: nat)
    requires Proxy.Chain(px, c) != []
    ensures IsTop(Pushed(px, a, c, callee), d, q) <==> if d == c then q == callee else IsTop(px, d, q)
    ensures InBody(px, d, q) || (d == c && IsTop(px, c, q)) ==> InBody(Pushed(px, a, c, callee), d, q)
    ensures InBody(Pushed(px, a, c, callee), d, q) ==> InBody(px, d, q) || (d == c && IsTop(px, c, q))
    ensures Frames(Pushed(px, a, c, callee), d, q) == Frames(px, d, q) + if d == c && q == callee then 1 else 0
  {
    hide Pushed;
    PushedChain(px, a, c, callee, d);
    var ch, more := Proxy.Chain(px, d), Proxy.Chain(Pushed(px, a, c, callee), d);
    if d == c {
      assert more[1..] == ch[1..] + [callee];
      if InBody(px, d, q) {
        var i :| 0 <= i < |ch| - 1 && ch[i] == q;
        assert more[i] == q;
      }
      if IsTop(px, d, q) {
        assert more[|ch| - 1] == q;
      }
    }
  }

  lemma PushedAwaited(s: Sys, a: nat, c: Text, callee: nat, r: Request, q: nat)
    requires IsTop(s.px, c, a) && callee in s.net && q != a && Awaited(s.px, s.net, q)
    ensures Awaited(Pushed(s.px, a, c, callee), PushedNet(s.net, callee, r), q)
  {
    var py, ny := Pushed(s.px, a, c, callee), PushedNet(s.net, callee, r);
    var h :| h in s.net && s.net[h].pc.Answering? && IsTop(s.px, s.net[h].pc.callId, q);
    assert Proxy.Chain(s.px, c) != [] && s.net[h].pc.callId != c;
    hide IsTop, InBody, Frames, Pushed;
    PushedTop(s.px, a, c, callee, s.net[h].pc.callId, q);
    assert h in ny && ny[h].pc.Answering? && IsTop(py, ny[h].pc.callId, q);
  }

  lemma PushedResponding(net: map<nat, Node>, callee: nat, r: Request, q: nat)
    requires callee in net
    ensures Responding(net, q) <==> Responding(PushedNet(net, callee, r), q)
  {
  }

  lemma PushedFree(px: Proxy.State, a: nat, c: Text, callee: nat, q: nat)
    requires IsTop(px, c, a)
    ensures q != a ==> (Free(Pushed(px, a, c, callee), q) <==> Free(px, q))
    ensures !Free(Pushed(px, a, c, callee), a)
  {
    var py := Pushed(px, a, c, callee);
    assert Proxy.Chain(px, c) != [] && (IsTop(px, c, q) ==> q == a);
    hide IsTop, InBody, Frames, Pushed;
    PushedTop(px, a, c, callee, c, a);
    assert InBody(py, c, a);
    forall d ensures q != a ==> (InBody(py, d, q) <==> InBody(px, d, q)) {
      PushedTop(px, a, c, callee, d, q);
    }
  }

  lemma PushedWanted(s: Sys, a: nat, c: Text, callee: nat, r: Request, d: Text, q: nat)
    requires callee in s.net && (d != c || q != callee)
    ensures Wanted(Pushed(s.px, a, c, callee), PushedNet(s.net, callee, r), d, q) ==
              if d == c then None else Wanted(s.px, s.net, d, q)
  {
    hide Pushed;
    PushedChain(s.px, a, c, callee, d);
  }

  // ------------------------------------------------------------------- nodes

  lemma PushedRecords(px: Proxy.State, a: nat, c: Text, callee: nat)
    requires c in px.chains && a in px.infos
    ensures var py := Pushed(px, a, c, callee);
            && py.infos == px.infos[a := px.infos[a].(callId := c, waiting := true)]
            && py.chains.Keys == px.chains.Keys && py.groups == px.groups
  {
  }

  lemma BystanderUndisturbed(s: Sys, a: nat, c: Text, r: Request, callee: nat, q: nat)
    requires IsTop(s.px, c, a) && callee in s.net && q != a && q != callee
    ensures Undisturbed(s.px, s.net, Pushed(s.px, a, c, callee), PushedNet(s.net, callee, r), q, None)
    ensures forall d :: Frames(s.px, d, q) <= Frames(Pushed(s.px, a, c, callee), d, q)
    ensures forall d :: IsTop(s.px, d, q) ==> IsTop(Pushed(s.px, a, c, callee), d, q)
  {
    var py, ny := Pushed(s.px, a, c, callee), PushedNet(s.net, callee, r);
    assert Proxy.Chain(s.px, c) != [] && !IsTop(s.px, c, q);
    hide IsTop, InBody, Frames, Wanted, Pushed, PushedNet;
    forall d ensures (IsTop(py, d, q) <==> IsTop(s.px, d, q)) && (InBody(py, d, q) <==> InBody(s.px, d, q))
                     && Frames(py, d, q) == Frames(s.px, d, q)
                     && (IsTop(s.px, d, q) ==> Wanted(py, ny, d, q) == Wanted(s.px, s.net, d, q)) {
      PushedTop(s.px, a, c, callee, d, q);
      PushedWanted(s, a, c, callee, r, d, q);
    }
  }

  lemma BystanderFrame(env: Env, s: Sys, a: nat, c: Text, r: Request, callee: nat, q: nat, n: Node)
    requires IsTop(s.px, c, a) && callee in s.net && a in s.px.infos && c in s.px.chains
    requires q != a && q != callee && NodeOK(env, s.px, s.net, q, n)
    ensures NodeOK(env, Pushed(s.px, a, c, callee), PushedNet(s.net, callee, r), q, n)
  {
    var py, ny := Pushed(s.px, a, c, callee), PushedNet(s.net, callee, r);
    PushedRecords(s.px, a, c, callee);
    hide Pushed, PushedNet, UpOK, QueueOK, DownOK, JobOK, OweOK, AnswersOK, NoAnswer;
    hide IsTop, InBody, Free, Awaited, Responding, Wanted, Frames;
    BystanderUndisturbed(s, a, c, r, callee, q);
    PushedBacklog(s, a, c, r, callee, q, n);
    hide Undisturbed, BacklogOK;
    NodeFrame(env, s.px, s.net, py, ny, q, None, n);
  }

  lemma PushedBacklog(s: Sys, a: nat, c: Text, r: Request, callee: nat, q: nat, n: Node)
    requires IsTop(s.px, c, a) && callee in s.net && a in s.px.infos && c in s.px.chains && q != a
    requires BacklogOK(s.px, s.net, q, n.proc.wait, n.up, n.down)
    requires forall d :: IsTop(s.px, d, q) ==> IsTop(Pushed(s.px, a, c, callee), d, q)
    ensures BacklogOK(Pushed(s.px, a, c, callee), PushedNet(s.net, callee, r), q, n.proc.wait, n.up, n.down)
  {
    var py, ny := Pushed(s.px, a, c, callee), PushedNet(s.net, callee, r);
    PushedRecords(s.px, a, c, callee);
    hide Pushed, PushedNet, NoAnswer, IsTop, Free, Awaited, Responding;
    if Awaited(s.px, s.net, q) {
      PushedAwaited(s, a, c, callee, r, q);
    }
    PushedFree(s.px, a, c, callee, q);
    PushedResponding(s.net, callee, r, q);
    BacklogKept(s.px, s.net, py, ny, q, n);
  }

  /** All the top of a chain with a pending send owes on it is what it serves. */
  lemma RequesterOwes(env: Env, s: Sys, a: nat, c: Text)
    requires Inv(env, s) && a in s.net && c in s.px.chains && !InBody(s.px, c, a)
    requires s.net[a].proc.wait.Some? && s.net[a].proc.wait.value.callId == c
    ensures Accounting.Owed(s.net[a])[c] <= Accounting.JobToken(s.net[a].proc.job)[c]
  {
    var n := s.net[a];
    NodeAt(env, s, a);
    RequesterJob(env, s.px, s.net, a, n);
    OwedFramed(env, s.px, s.net, a, n, c);
    OwedAtLeastJob(n, c);
    hide Inv, NodeOK, InBody, Frames, Accounting.Owed, Ours;
    OwnIdIsRoot(env, s, a, n.proc.job.value.msg, n.proc.seq_, c);
    FramesAtMostOne(s.px, c, a);
  }

  lemma OwedFramed(env: Env, px: Proxy.State, net: map<nat, Node>, p: nat, n: Node, c: Text)
    requires NodeOK(env, px, net, p, n)
    ensures Accounting.Owed(n)[c] <= Frames(px, c, p)
  {
    hide UpOK, QueueOK, DownOK, JobOK, BacklogOK, AnswersOK, Frames, Accounting.Owed;
  }

  /** The requester stops being the top of its chain; nothing else it has to do
      is on that chain. */
  lemma RequesterAvoids(py: Proxy.State, a: nat, n: Node, c: Text)
    requires Accounting.Owed(n)[c] <= Accounting.JobToken(n.proc.job)[c]
    requires n.up == [] && NoAnswer(n.down) && n.proc.wait.Some? && !IsTop(py, c, a)
    ensures Avoids(py, a, n, Some(c))
  {
    hide IsTop, Accounting.Owed;
    OwesNothingElse(n, c);
  }

  lemma OwedAtLeastJob(n: Node, c: Text)
    ensures Accounting.JobToken(n.proc.job)[c] <= Accounting.Owed(n)[c]
    ensures n.proc.job.Some? && n.proc.job.value.msg.origin.Unix? && n.proc.job.value.msg.callId == c ==>
              Accounting.JobToken(n.proc.job)[c] == 1
  {
  }

  lemma RequesterJob(env: Env, px: Proxy.State, net: map<nat, Node>, a: nat, n: Node)
    requires NodeOK(env, px, net, a, n) && n.proc.wait.Some?
    ensures n.proc.job.Some? && Ours(a, n.proc.job.value.msg, n.proc.seq_, n.proc.wait.value.callId)
    ensures !Offers(env.cfg, n.proc.name, n.proc.wait.value.service) && n.proc.wait.value.pid == a
  {
    hide UpOK, QueueOK, DownOK, BacklogOK, OweOK, AnswersOK;
  }

  lemma RequesterUndisturbed(s: Sys, a: nat, c: Text, r: Request, callee: nat)
    requires IsTop(s.px, c, a) && callee in s.net && callee != a
    ensures Undisturbed(s.px, s.net, Pushed(s.px, a, c, callee), PushedNet(s.net, callee, r), a, Some(c))
    ensures forall d :: Frames(s.px, d, a) <= Frames(Pushed(s.px, a, c, callee), d, a)
    ensures !IsTop(Pushed(s.px, a, c, callee), c, a)
  {
    var py, ny := Pushed(s.px, a, c, callee), PushedNet(s.net, callee, r);
    assert Proxy.Chain(s.px, c) != [];
    hide IsTop, InBody, Frames, Wanted, Pushed, PushedNet;
    forall d ensures (d != c ==> (IsTop(py, d, a) <==> IsTop(s.px, d, a)) && (InBody(py, d, a) <==> InBody(s.px, d, a)))
                     && Frames(py, d, a) == Frames(s.px, d, a)
                     && (d != c ==> Wanted(py, ny, d, a) == Wanted(s.px, s.net, d, a)) {
      PushedTop(s.px, a, c, callee, d, a);
      PushedWanted(s, a, c, callee, r, d, a);
    }
    PushedTop(s.px, a, c, callee, c, a);
  }

  lemma RequesterFrame(env: Env, s: Sys, a: nat, r: Request, callee: nat)
    requires Inv(env, s) && Ready(s, a, r) && Takes(s, a, r.callId, callee) && r.callId in s.px.chains
    ensures NodeOK(env, Pushed(s.px, a, r.callId, callee), PushedNet(s.net, callee, r), a, s.net[a])
  {
    var c, n := r.callId, s.net[a];
    var py, ny := Pushed(s.px, a, c, callee), PushedNet(s.net, callee, r);
    PushedRecords(s.px, a, c, callee);
    NodeAt(env, s, a);
    assert callee != a;
    hide Inv, Takes, NodeOK, Pushed, PushedNet, UpOK, QueueOK, DownOK, JobOK, OweOK, AnswersOK, NoAnswer;
    hide IsTop, InBody, Awaited, Responding, Wanted, Frames, Undisturbed, Avoids, Generated, Accounting.Owed;
    RequesterOwes(env, s, a, c);
    RequesterUndisturbed(s, a, c, r, callee);
    PushedFree(s.px, a, c, callee, a);
    RequesterAvoids(py, a, n, c);
    NodeFrame(env, s.px, s.net, py, ny, a, Some(c), n);
  }

  lemma CalleeUndisturbed(s: Sys, a: nat, c: Text, r: Request, callee: nat)
    requires IsTop(s.px, c, a) && callee in s.net && callee != a
    ensures Undisturbed(s.px, s.net, Pushed(s.px, a, c, callee), PushedNet(s.net, callee, r), callee, None)
    ensures forall d :: Frames(s.px, d, callee) <= Frames(Pushed(s.px, a, c, callee), d, callee)
    ensures forall d :: IsTop(s.px, d, callee) ==> IsTop(Pushed(s.px, a, c, callee), d, callee)
    ensures Frames(Pushed(s.px, a, c, callee), c, callee) == Frames(s.px, c, callee) + 1
  {
    var py, ny := Pushed(s.px, a, c, callee), PushedNet(s.net, callee, r);
    assert Proxy.Chain(s.px, c) != [] && !IsTop(s.px, c, callee);
    hide IsTop, InBody, Frames, Wanted, Pushed, PushedNet;
    if Frames(s.px, c, callee) > 0 {
      FramesHas(s.px, c, callee);
    }
    forall d ensures (if d == c then IsTop(py, d, callee) else IsTop(py, d, callee) <==> IsTop(s.px, d, callee))
                     && (InBody(s.px, d, callee) <==> InBody(py, d, callee))
                     && Frames(py, d, callee) == Frames(s.px, d, callee) + (if d == c then 1 else 0)
                     && (d != c ==> Wanted(py, ny, d, callee) == Wanted(s.px, s.net, d, callee)) {
      PushedTop(s.px, a, c, callee, d, callee);
      if d != c {
        PushedWanted(s, a, c, callee, r, d, callee);
      }
    }
  }

  /** The callee below whom `a` now waits is asked for just what `a` sent. */
  lemma CalleeAsked(s: Sys, a: nat, r: Request, callee: nat)
    requires Ready(s, a, r) && callee in s.net && callee != a
    ensures Asked(Wanted(Pushed(s.px, a, r.callId, callee), PushedNet(s.net, callee, r), r.callId, callee),
                  r.service, r.pack)
  {
    hide Pushed;
    PushedChain(s.px, a, r.callId, callee, r.callId);
  }

  lemma OweReq(px: Proxy.State, p: nat, n: Node, r: Request)
    requires OweOK(px, p, n) && Accounting.Owed(n)[r.callId] < Frames(px, r.callId, p)
    ensures OweOK(px, p, n.(down := n.down + [Req(r)]))
  {
    hide Frames;
    var m := n.(down := n.down + [Req(r)]);
    Accounting.ReqOwed(n, r);
    forall c ensures Accounting.Owed(m)[c] <= Frames(px, c, p) {
      assert Accounting.Owed(n)[c] <= Frames(px, c, p);
    }
  }

  lemma DownReq(env: Env, px: Proxy.State, net: map<nat, Node>, p: nat, n: Node, r: Request)
    requires NodeOK(env, px, net, p, n) && Asked(Wanted(px, net, r.callId, p), r.service, r.pack)
    requires Accounting.Owed(n)[r.callId] < Frames(px, r.callId, p)
    ensures NodeOK(env, px, net, p, n.(down := n.down + [Req(r)]))
  {
    hide UpOK, QueueOK, JobOK, AnswersOK, OweOK, IsTop, Free, Awaited;
    hide Responding, Wanted, Frames, Asked, AnswerOK, Accounting.Owed;
    OweReq(px, p, n, r);
  }

  lemma CalleeKept(env: Env, s: Sys, a: nat, c: Text, r: Request, callee: nat, n: Node)
    requires IsTop(s.px, c, a) && callee in s.net && a in s.px.infos && c in s.px.chains
    requires callee != a && NodeOK(env, s.px, s.net, callee, n)
    ensures NodeOK(env, Pushed(s.px, a, c, callee), PushedNet(s.net, callee, r), callee, n)
  {
    var py, ny := Pushed(s.px, a, c, callee), PushedNet(s.net, callee, r);
    PushedRecords(s.px, a, c, callee);
    hide Pushed, PushedNet, UpOK, QueueOK, DownOK, JobOK, OweOK, AnswersOK, NoAnswer;
    hide IsTop, InBody, Free, Awaited, Responding, Wanted, Frames, Undisturbed;
    CalleeUndisturbed(s, a, c, r, callee);
    AvoidsNone(py, callee, n);
    hide Avoids, Generated, Accounting.Owed;
    PushedBacklog(s, a, c, r, callee, callee, n);
    hide BacklogOK;
    NodeFrame(env, s.px, s.net, py, ny, callee, None, n);
  }

  lemma CalleeFrame(env: Env, s: Sys, a: nat, r: Request, callee: nat)
    requires Inv(env, s) && Ready(s, a, r) && Takes(s, a, r.callId, callee) && r.callId in s.px.chains
    ensures var ny := PushedNet(s.net, callee, r);
            NodeOK(env, Pushed(s.px, a, r.callId, callee), ny, callee, ny[callee])
  {
    var c, n := r.callId, s.net[callee];
    var py, ny := Pushed(s.px, a, c, callee), PushedNet(s.net, callee, r);
    assert ny[callee] == n.(down := n.down + [Req(r)]) && callee != a;
    CalleeAsked(s, a, r, callee);
    hide Inv, NodeOK, Takes, Pushed, PushedNet, IsTop, Free, Wanted, Frames, Undisturbed, Accounting.Owed, NoAnswer;
    NodeAt(env, s, callee);
    OwedFramed(env, s.px, s.net, callee, n, c);
    CalleeUndisturbed(s, a, c, r, callee);
    CalleeKept(env, s, a, c, r, callee, n);
    DownReq(env, py, ny, callee, n, r);
  }

  // ------------------------------------------------------------------ chains

  /** What the rest of the proof needs of a push: nobody waits for the requester. */
  ghost predicate Idle(s: Sys, a: nat, c: Text, callee: nat) {
    && a in s.net && a in s.px.infos && callee in s.net && callee in s.px.infos && callee != a
    && IsTop(s.px, c, a) && Free(s.px, a) && !s.net[a].pc.Answering? && c in s.px.chains
  }

  lemma IdleEnds(env: Env, s: Sys, a: nat, r: Request, callee: nat)
    requires Inv(env, s) && Ready(s, a, r) && Takes(s, a, r.callId, callee) && r.callId in s.px.chains
    ensures Idle(s, a, r.callId, callee)
  {
    hide Inv, IsTop, Free, NoAnswer;
  }

  lemma PushedSuspended(s: Sys, a: nat, c: Text, r: Request, callee: nat, d: Text, q: nat)
    requires Idle(s, a, c, callee) && q != a && Suspended(s.px, s.net, d, q)
    ensures Suspended(Pushed(s.px, a, c, callee), PushedNet(s.net, callee, r), d, q)
  {
    PushedRecords(s.px, a, c, callee);
    hide Pushed, IsTop, Free, NoAnswer;
  }

  lemma PushedDistinct(px: Proxy.State, a: nat, c: Text, callee: nat, ch: seq<nat>)
    requires c in px.chains && a in px.infos && Distinct(px, ch)
    ensures Distinct(Pushed(px, a, c, callee), ch)
  {
    PushedRecords(px, a, c, callee);
    hide Pushed;
  }

  lemma PushedLinks(s: Sys, a: nat, c: Text, r: Request, callee: nat, d: Text, ch: seq<nat>)
    requires Idle(s, a, c, callee) && LinksOK(s.px, s.net, d, ch)
    requires forall i :: 0 <= i < |ch| - 1 ==> ch[i] != a
    ensures LinksOK(Pushed(s.px, a, c, callee), PushedNet(s.net, callee, r), d, ch)
  {
    var py, ny := Pushed(s.px, a, c, callee), PushedNet(s.net, callee, r);
    hide Pushed, Suspended, Free, IsTop;
    forall i | 0 <= i < |ch| - 1 ensures Suspended(py, ny, d, ch[i]) {
      assert Suspended(s.px, s.net, d, ch[i]);
      PushedSuspended(s, a, c, r, callee, d, ch[i]);
    }
    forall i | 1 <= i < |ch| - 1 ensures Serving(ny, d, ch[i], ch[i - 1]) {
      assert Serving(s.net, d, ch[i], ch[i - 1]);
    }
  }

  lemma OtherChain(env: Env, s: Sys, a: nat, r: Request, callee: nat, d: Text)
    requires Inv(env, s) && Idle(s, a, r.callId, callee) && d in s.px.chains && d != r.callId
    ensures ChainOK(Pushed(s.px, a, r.callId, callee), PushedNet(s.net, callee, r), d, s.px.chains[d])
  {
    var ch := s.px.chains[d];
    ChainAt(env, s, d);
    forall i | 0 <= i < |ch| - 1 ensures ch[i] != a {
      InBodyAt(s.px, d, i);
    }
    PushedRoot(s.net, callee, r, ch[0]);
    hide Inv, Idle, Pushed, PushedNet, LinksOK, Distinct, Generated;
    PushedLinks(s, a, r.callId, r, callee, d, ch);
    PushedDistinct(s.px, a, r.callId, callee, ch) by {
      assert Idle(s, a, r.callId, callee);
      IdleFacts(s, a, r.callId, callee);
    }
  }

  lemma IdleFacts(s: Sys, a: nat, c: Text, callee: nat)
    requires Idle(s, a, c, callee)
    ensures c in s.px.chains && a in s.px.infos && callee in s.net
  {
  }

  lemma PushedRoot(net: map<nat, Node>, callee: nat, r: Request, p: nat)
    requires callee in net && p in net
    ensures p in PushedNet(net, callee, r) && PushedNet(net, callee, r)[p].proc == net[p].proc
  {
  }

  lemma ChainAt(env: Env, s: Sys, d: Text)
    requires Inv(env, s) && d in s.px.chains
    ensures ChainOK(s.px, s.net, d, s.px.chains[d])
  {
    hide NodesOK, HandlersOK, Directory.Listed, ChainOK;
  }

  lemma TopFramed(px: Proxy.State, c: Text, p: nat)
    requires c in px.chains && IsTop(px, c, p) && |px.chains[c]| >= 2
    ensures Frames(px, c, p) > 0
  {
    var ch := px.chains[c];
    assert ch[1..][|ch| - 2] == p;
  }

  /** Unless it is the root, the top of a chain that sends on it serves on it. */
  lemma RequesterServes(env: Env, s: Sys, a: nat, c: Text)
    requires Inv(env, s) && a in s.net && c in s.px.chains && IsTop(s.px, c, a) && |s.px.chains[c]| >= 2
    requires s.net[a].proc.wait.Some? && s.net[a].proc.wait.value.callId == c && Free(s.px, a)
    ensures Serving(s.net, c, a, s.px.chains[c][|s.px.chains[c]| - 2])
  {
    hide Inv, NodeOK, Ours, Frames;
    var n := s.net[a];
    NodeAt(env, s, a);
    RequesterJob(env, s.px, s.net, a, n);
    OwnIdIsRoot(env, s, a, n.proc.job.value.msg, n.proc.seq_, c);
    TopFramed(s.px, c, a);
    assert Tops(s.px, c, a);
    TopServes(env, s.px, s.net, a, n, c);
  }

  lemma TopServes(env: Env, px: Proxy.State, net: map<nat, Node>, a: nat, n: Node, c: Text)
    requires NodeOK(env, px, net, a, n) && c in px.chains && Tops(px, c, a) && |px.chains[c]| >= 2
    requires a in net && net[a] == n
    requires n.proc.job.Some? && n.proc.job.value.msg.origin.Unix? && n.proc.job.value.msg.callId == c
    ensures Serving(net, c, a, px.chains[c][|px.chains[c]| - 2])
  {
    hide UpOK, QueueOK, DownOK, BacklogOK, OweOK, AnswersOK, Faithful, WaitOK, Ours;
  }

  lemma OwnLinks(s: Sys, a: nat, r: Request, callee: nat)
    requires Ready(s, a, r) && Idle(s, a, r.callId, callee) && LinksOK(s.px, s.net, r.callId, s.px.chains[r.callId])
    requires forall i :: 0 <= i < |s.px.chains[r.callId]| - 1 ==> s.px.chains[r.callId][i] != a
    requires |s.px.chains[r.callId]| >= 2 ==>
               Serving(s.net, r.callId, a, s.px.chains[r.callId][|s.px.chains[r.callId]| - 2])
    ensures LinksOK(Pushed(s.px, a, r.callId, callee), PushedNet(s.net, callee, r), r.callId,
                    s.px.chains[r.callId] + [callee])
  {
    var c, ch := r.callId, s.px.chains[r.callId];
    var py, ny := Pushed(s.px, a, c, callee), PushedNet(s.net, callee, r);
    PushedLinks(s, a, c, r, callee, c, ch);
    PushedRecords(s.px, a, c, callee);
    assert ch[|ch| - 1] == a;
    assert Suspended(py, ny, c, a) by {
      hide Pushed, IsTop, NoAnswer, Free, LinksOK;
    }
    assert |ch| >= 2 ==> Serving(ny, c, a, ch[|ch| - 2]) by {
      hide Pushed, IsTop, NoAnswer, Free, LinksOK;
    }
    hide Pushed, PushedNet, Suspended, Serving, Ready, Idle;
    var more := ch + [callee];
    forall i | 0 <= i < |more| - 1 ensures Suspended(py, ny, c, more[i]) {
      assert more[i] == ch[i];
    }
    forall i | 1 <= i < |more| - 1 ensures Serving(ny, c, more[i], more[i - 1]) {
      assert more[i] == ch[i] && more[i - 1] == ch[i - 1];
    }
  }

  lemma DistinctSnoc(px: Proxy.State, ch: seq<nat>, callee: nat)
    requires Distinct(px, ch) && callee in px.infos && ch != []
    requires forall i :: 0 <= i < |ch| - 1 ==> ch[i] != ch[|ch| - 1]
    ensures Distinct(px, ch + [callee])
  {
  }

  lemma OwnDistinct(env: Env, s: Sys, a: nat, c: Text, callee: nat)
    requires Inv(env, s) && Idle(s, a, c, callee)
    ensures Distinct(s.px, s.px.chains[c] + [callee])
  {
    hide Inv, LinksOK, Generated, Distinct, Free;
    ChainAt(env, s, c);
    NotInOwnBody(s, a, c, callee);
    DistinctSnoc(s.px, s.px.chains[c], callee);
  }

  lemma NotInOwnBody(s: Sys, a: nat, c: Text, callee: nat)
    requires Idle(s, a, c, callee)
    ensures forall i :: 0 <= i < |s.px.chains[c]| - 1 ==> s.px.chains[c][i] != a
  {
    forall i | 0 <= i < |s.px.chains[c]| - 1 ensures s.px.chains[c][i] != a {
      InBodyAt(s.px, c, i);
    }
  }

  lemma ReadyFacts(s: Sys, a: nat, r: Request)
    requires Ready(s, a, r)
    ensures a in s.net && a in s.px.infos && IsTop(s.px, r.callId, a) && s.net[a].proc.wait == Some(r)
    ensures r.callId in s.px.chains && s.px.chains[r.callId] != []
  {
  }

  lemma ChainParts(px: Proxy.State, net: map<nat, Node>, c: Text, ch: seq<nat>, root: nat)
    requires ch != [] && ch[0] == root && root in net && Generated(c, root, net[root].proc.seq_)
    requires Distinct(px, ch) && LinksOK(px, net, c, ch)
    ensures ChainOK(px, net, c, ch)
  {
  }

  lemma OwnChain(env: Env, s: Sys, a: nat, r: Request, callee: nat)
    requires Inv(env, s) && Ready(s, a, r) && Takes(s, a, r.callId, callee) && Idle(s, a, r.callId, callee)
    ensures r.callId in s.px.chains
    ensures ChainOK(Pushed(s.px, a, r.callId, callee), PushedNet(s.net, callee, r), r.callId,
                    s.px.chains[r.callId] + [callee])
  {
    ReadyFacts(s, a, r);
    IdleFacts(s, a, r.callId, callee);
    ChainAt(env, s, r.callId);
    var c, ch := r.callId, s.px.chains[r.callId];
    assert LinksOK(s.px, s.net, c, ch) && Distinct(s.px, ch) && Generated(c, ch[0], s.net[ch[0]].proc.seq_);
    PushedRoot(s.net, callee, r, ch[0]);
    hide *;
    IdleTop(s, a, c, callee);
    if |ch| >= 2 {
      RequesterServes(env, s, a, c);
    }
    NotInOwnBody(s, a, c, callee);
    OwnLinks(s, a, r, callee);
    OwnDistinct(env, s, a, c, callee);
    PushedDistinct(s.px, a, c, callee, ch + [callee]);
    ChainParts(Pushed(s.px, a, c, callee), PushedNet(s.net, callee, r), c, ch + [callee], ch[0]);
  }

  // ---------------------------------------------------------------- handlers

  lemma PushedPc(s: Sys, a: nat, c: Text, r: Request, callee: nat, h: nat)
    requires Idle(s, a, c, callee) && h in s.net && PcOK(s.px, h, s.net[h].pc)
    ensures PcOK(Pushed(s.px, a, c, callee), h, s.net[h].pc)
  {
    PushedRecords(s.px, a, c, callee);
    PushedFree(s.px, a, c, callee, h);
    if s.net[h].pc.Answering? {
      PushedChain(s.px, a, c, callee, s.net[h].pc.callId);
      hide Pushed, Free, IsTop;
    }
  }

  lemma PushedHandlers(s: Sys, a: nat, c: Text, r: Request, callee: nat)
    requires HandlersOK(s) && Idle(s, a, c, callee)
    ensures HandlersOK(s.(px := Pushed(s.px, a, c, callee), net := PushedNet(s.net, callee, r)))
  {
    var py, ny := Pushed(s.px, a, c, callee), PushedNet(s.net, callee, r);
    hide Pushed, IsTop, Free, PcOK;
    forall h | h in ny ensures PcOK(py, h, ny[h].pc) {
      assert ny[h].pc == s.net[h].pc;
      PushedPc(s, a, c, r, callee, h);
    }
  }

  // --------------------------------------------------------------- the push

  lemma PushedNetIs(net: map<nat, Node>, callee: nat, r: Request)
    requires callee in net
    ensures PushedNet(net, callee, r).Keys == net.Keys
    ensures forall q :: q in net && q != callee ==> PushedNet(net, callee, r)[q] == net[q]
  {
  }

  lemma PushedNode(env: Env, s: Sys, a: nat, r: Request, callee: nat, q: nat)
    requires Inv(env, s) && Ready(s, a, r) && Takes(s, a, r.callId, callee) && Idle(s, a, r.callId, callee)
    requires q in s.net
    ensures callee in s.net
    ensures var ny := PushedNet(s.net, callee, r);
            q in ny && NodeOK(env, Pushed(s.px, a, r.callId, callee), ny, q, ny[q])
  {
    hide *;
    IdleFacts(s, a, r.callId, callee);
    PushedNetIs(s.net, callee, r);
    if q == callee {
      CalleeFrame(env, s, a, r, callee);
    } else if q == a {
      RequesterFrame(env, s, a, r, callee);
    } else {
      NodeAt(env, s, q);
      IdleTop(s, a, r.callId, callee);
      BystanderFrame(env, s, a, r.callId, r, callee, q, s.net[q]);
    }
  }

  lemma IdleTop(s: Sys, a: nat, c: Text, callee: nat)
    requires Idle(s, a, c, callee)
    ensures IsTop(s.px, c, a) && a in s.net && a in s.px.infos && Free(s.px, a)
  {
  }

  lemma PushNodes(env: Env, s: Sys, a: nat, r: Request, callee: nat)
    requires Inv(env, s) && Ready(s, a, r) && Takes(s, a, r.callId, callee) && Idle(s, a, r.callId, callee)
    ensures NodesOK(env, s.(px := Pushed(s.px, a, r.callId, callee), net := PushedNet(s.net, callee, r)))
  {
    hide Inv, Ready, Takes, Idle, NodeOK, Pushed, PushedNet;
    IdleFacts(s, a, r.callId, callee);
    PushedNetIs(s.net, callee, r);
    forall q | q in s.net
      ensures var ny := PushedNet(s.net, callee, r); NodeOK(env, Pushed(s.px, a, r.callId, callee), ny, q, ny[q]) {
      PushedNode(env, s, a, r, callee, q);
    }
  }

  lemma PushChains(env: Env, s: Sys, a: nat, r: Request, callee: nat)
    requires Inv(env, s) && Ready(s, a, r) && Takes(s, a, r.callId, callee) && Idle(s, a, r.callId, callee)
    ensures ChainsOK(s.(px := Pushed(s.px, a, r.callId, callee), net := PushedNet(s.net, callee, r)))
  {
    var py, ny := Pushed(s.px, a, r.callId, callee), PushedNet(s.net, callee, r);
    PushedRecords(s.px, a, r.callId, callee);
    hide Inv, Ready, Takes, ChainOK, Pushed, PushedNet, IsTop, Free;
    forall d | d in py.chains ensures ChainOK(py, ny, d, py.chains[d]) {
      PushedChain(s.px, a, r.callId, callee, d);
      if d == r.callId {
        OwnChain(env, s, a, r, callee);
      } else {
        OtherChain(env, s, a, r, callee, d);
      }
    }
  }

  /** The requester becomes a waiting frame, the callee the new top. */
  lemma PushStep(env: Env, s: Sys, a: nat, r: Request, callee: nat)
    requires Inv(env, s) && Ready(s, a, r) && Takes(s, a, r.callId, callee) && r.callId in s.px.chains
    requires Directory.Listed(env.cfg, s.(px := Pushed(s.px, a, r.callId, callee), net := PushedNet(s.net, callee, r)))
    ensures Inv(env, s.(px := Pushed(s.px, a, r.callId, callee), net := PushedNet(s.net, callee, r)))
  {
    hide NodesOK, ChainsOK, HandlersOK, Directory.Listed, Ready, Takes, Idle, Pushed, PushedNet;
    IdleEnds(env, s, a, r, callee);
    PushNodes(env, s, a, r, callee);
    PushChains(env, s, a, r, callee);
    PushedHandlers(s, a, r.callId, r, callee);
  }
}
