/** Reading a response: the frame of its sender is popped and the frame below is
    answered (src/coro_actor.cpp:600-609). */
module ReplySteps {
  import opened Protocol
  import opened S = System
  import opened Meaning
  import opened Invariant
  import opened ActorSteps
  import opened ActorNodes
  import opened ProxySteps
  import Accounting
  import Directory
  import Proxy

  /** `b`, the top of chain `c`, has nothing left to do on it. */
  ghost predicate Finished(s: Sys, b: nat, c: Text) {
    && b in s.net && b in s.px.infos && IsTop(s.px, c, b)
    && s.px.infos[b].queue == [] && !s.net[b].pc.Answering?
    && Accounting.Owed(s.net[b])[c] == 0 && Avoids(s.px, b, s.net[b], Some(c))
    && Free(s.px, b)
  }

  /** `a`, just below, waits for the value that `r` brings. */
  ghost predicate Expects(env: Env, s: Sys, a: nat, b: nat, r: Response) {
    && a in s.net && a in s.px.infos && a != b && r.callId in s.px.chains
    && |s.px.chains[r.callId]| >= 2 && s.px.chains[r.callId][|s.px.chains[r.callId]| - 2] == a
    && s.px.chains[r.callId][|s.px.chains[r.callId]| - 1] == b
    && Suspended(s.px, s.net, r.callId, a)
    && Answered(env, s.net[a].proc.wait, r.service, r.pack)
  }

  function AnsweredNet(net: map<nat, Node>, a: nat, b: nat, r: Response): map<nat, Node>
    requires a in net && b in net
  {
    net[a := net[a].(down := net[a].down + [Resp(r)])][b := net[b].(pc := Answering(b, r.callId))]
  }

  // --------------------------------------------------------- chain positions

  lemma PoppedChain(px: Proxy.State, c: Text, d: Text)
    requires c in px.chains && |px.chains[c]| >= 2
    ensures Proxy.Chain(Proxy.PopChain(px, c), d) ==
              if d == c then px.chains[c][..|px.chains[c]| - 1] else Proxy.Chain(px, d)
  {
  }

  /** The chain of `c` ends in `a`, `b`. */
  predicate EndsIn(px: Proxy.State, c: Text, a: nat, b: nat) {
    && c in px.chains && |px.chains[c]| >= 2
    && px.chains[c][|px.chains[c]| - 2] == a && px.chains[c][|px.chains[c]| - 1] == b
  }

  lemma PoppedTop(px: Proxy.State, c: Text, a: nat, b: nat, d: Text, q: nat)
    requires EndsIn(px, c, a, b)
    ensures IsTop(Proxy.PopChain(px, c), d, q) <==> if d == c then q == a else IsTop(px, d, q)
    ensures InBody(Proxy.PopChain(px, c), d, q) ==> InBody(px, d, q)
    ensures InBody(px, d, q) && (d != c || q != a) ==> InBody(Proxy.PopChain(px, c), d, q)
    ensures Frames(px, d, q) == Frames(Proxy.PopChain(px, c), d, q) + if d == c && q == b then 1 else 0
  {
    PoppedChain(px, c, d);
    hide Proxy.PopChain;
    var ch, less := Proxy.Chain(px, d), Proxy.Chain(Proxy.PopChain(px, c), d);
    if d == c {
      assert ch[1..] == less[1..] + [b];
      if InBody(px, d, q) && q != a {
        var i :| 0 <= i < |ch| - 1 && ch[i] == q;
        assert less[i] == q;
      }
    }
  }

  lemma PoppedWanted(net: map<nat, Node>, px: Proxy.State, a: nat, b: nat, r: Response, d: Text, q: nat)
    requires EndsIn(px, r.callId, a, b) && a in net && b in net && (d != r.callId || q != a)
    ensures Wanted(Proxy.PopChain(px, r.callId), AnsweredNet(net, a, b, r), d, q) ==
              if d == r.callId then None else Wanted(px, net, d, q)
  {
    PoppedChain(px, r.callId, d);
    hide Proxy.PopChain;
  }

  lemma PoppedAwaited(s: Sys, a: nat, b: nat, r: Response, q: nat)
    requires EndsIn(s.px, r.callId, a, b) && a in s.net && b in s.net && a != b && !s.net[b].pc.Answering?
    ensures Awaited(Proxy.PopChain(s.px, r.callId), AnsweredNet(s.net, a, b, r), a)
    ensures Awaited(s.px, s.net, q) && q != b ==>
              Awaited(Proxy.PopChain(s.px, r.callId), AnsweredNet(s.net, a, b, r), q)
    ensures Responding(AnsweredNet(s.net, a, b, r), q) <==> Responding(s.net, q) || q == b
  {
    var c := r.callId;
    var py, ny := Proxy.PopChain(s.px, c), AnsweredNet(s.net, a, b, r);
    assert IsTop(s.px, c, b) && (q != b ==> !IsTop(s.px, c, q));
    assert ny.Keys == s.net.Keys && ny[b].pc == Answering(b, c);
    assert forall h :: h in ny && h != b ==> ny[h].pc == s.net[h].pc;
    hide IsTop, InBody, Frames, Proxy.PopChain, AnsweredNet;
    PoppedTop(s.px, c, a, b, c, a);
    assert b in ny && ny[b].pc.Answering? && IsTop(py, ny[b].pc.callId, a);
    if Awaited(s.px, s.net, q) && q != b {
      var h :| h in s.net && s.net[h].pc.Answering? && IsTop(s.px, s.net[h].pc.callId, q);
      PoppedTop(s.px, c, a, b, s.net[h].pc.callId, q);
      assert h in ny && ny[h].pc.Answering? && IsTop(py, ny[h].pc.callId, q);
    }
  }

  lemma PoppedFree(px: Proxy.State, c: Text, a: nat, b: nat, q: nat)
    requires EndsIn(px, c, a, b)
    ensures Free(px, q) ==> Free(Proxy.PopChain(px, c), q)
    ensures q != a && Free(Proxy.PopChain(px, c), q) ==> Free(px, q)
  {
    hide IsTop, InBody, Frames, EndsIn, Proxy.PopChain;
    forall d ensures InBody(Proxy.PopChain(px, c), d, q) ==> InBody(px, d, q)
      ensures InBody(px, d, q) && q != a ==> InBody(Proxy.PopChain(px, c), d, q) {
      PoppedTop(px, c, a, b, d, q);
    }
  }

  // ------------------------------------------------------------------- nodes

  lemma OthersRead(s: Sys, a: nat, b: nat, r: Response, q: nat)
    requires EndsIn(s.px, r.callId, a, b) && a in s.net && b in s.net && a != b && q != a
    ensures Undisturbed(s.px, s.net, Proxy.PopChain(s.px, r.callId), AnsweredNet(s.net, a, b, r), q,
                        if q == b then Some(r.callId) else None)
    ensures forall d :: Frames(s.px, d, q) <= Frames(Proxy.PopChain(s.px, r.callId), d, q) || (q == b && d == r.callId)
    ensures forall d :: IsTop(s.px, d, q) && (q != b || d != r.callId) ==> IsTop(Proxy.PopChain(s.px, r.callId), d, q)
    ensures !IsTop(Proxy.PopChain(s.px, r.callId), r.callId, q)
  {
    var c := r.callId;
    var py, ny := Proxy.PopChain(s.px, c), AnsweredNet(s.net, a, b, r);
    assert q != b ==> !IsTop(s.px, c, q);
    hide IsTop, InBody, Frames, Wanted, Proxy.PopChain, AnsweredNet, EndsIn;
    forall d ensures (if d == c then !IsTop(py, d, q) else IsTop(py, d, q) <==> IsTop(s.px, d, q))
                     && (InBody(s.px, d, q) <==> InBody(py, d, q))
                     && Frames(s.px, d, q) == Frames(py, d, q) + (if d == c && q == b then 1 else 0)
                     && (d != c ==> Wanted(py, ny, d, q) == Wanted(s.px, s.net, d, q)) {
      PoppedTop(s.px, c, a, b, d, q);
      PoppedWanted(s.net, s.px, a, b, r, d, q);
    }
  }

  lemma PoppedRecords(px: Proxy.State, c: Text)
    ensures Proxy.PopChain(px, c).infos == px.infos && Proxy.PopChain(px, c).groups == px.groups
    ensures Proxy.PopChain(px, c).chains.Keys == px.chains.Keys
  {
  }

  lemma OtherNode(env: Env, s: Sys, a: nat, b: nat, r: Response, q: nat, n: Node)
    requires EndsIn(s.px, r.callId, a, b) && a in s.net && b in s.net && a != b && q != a && q != b
    requires !s.net[b].pc.Answering? && NodeOK(env, s.px, s.net, q, n)
    ensures NodeOK(env, Proxy.PopChain(s.px, r.callId), AnsweredNet(s.net, a, b, r), q, n)
  {
    var py, ny := Proxy.PopChain(s.px, r.callId), AnsweredNet(s.net, a, b, r);
    PoppedRecords(s.px, r.callId);
    hide Proxy.PopChain, AnsweredNet, EndsIn, UpOK, QueueOK, DownOK, JobOK, OweOK, AnswersOK, NoAnswer;
    hide IsTop, Free, Awaited, Responding, Wanted, Frames, Undisturbed, Avoids, Generated, Accounting.Owed;
    OthersRead(s, a, b, r, q);
    PoppedAwaited(s, a, b, r, q);
    PoppedFree(s.px, r.callId, a, b, q);
    AvoidsNone(py, q, n);
    BacklogKept(s.px, s.net, py, ny, q, n);
    hide BacklogOK;
    NodeFrame(env, s.px, s.net, py, ny, q, None, n);
  }

  lemma AvoidsAlike(px: Proxy.State, py: Proxy.State, p: nat, n: Node, c: Text)
    requires Avoids(px, p, n, Some(c)) && !IsTop(py, c, p)
    ensures Avoids(py, p, n, Some(c))
  {
    hide IsTop;
  }

  lemma ResponderNode(env: Env, s: Sys, a: nat, b: nat, r: Response)
    requires EndsIn(s.px, r.callId, a, b) && a in s.net && b in s.net && a != b
    requires Finished(s, b, r.callId) && NodeOK(env, s.px, s.net, b, s.net[b])
    ensures var ny := AnsweredNet(s.net, a, b, r); NodeOK(env, Proxy.PopChain(s.px, r.callId), ny, b, ny[b])
  {
    var n := s.net[b];
    var py, ny := Proxy.PopChain(s.px, r.callId), AnsweredNet(s.net, a, b, r);
    PoppedRecords(s.px, r.callId);
    assert ny[b] == n.(pc := Answering(b, r.callId));
    hide Proxy.PopChain, AnsweredNet, EndsIn, UpOK, QueueOK, DownOK, JobOK, OweOK, AnswersOK, NoAnswer;
    hide IsTop, Awaited, Responding, Wanted, Frames, Undisturbed, Avoids, Generated, Accounting.Owed, Free;
    OthersRead(s, a, b, r, b);
    PoppedAwaited(s, a, b, r, b);
    AvoidsAlike(s.px, py, b, n, r.callId);
    NodeFrame(env, s.px, s.net, py, ny, b, Some(r.callId), n);
    hide NodeOK;
    SetPcOK(env, py, ny, b, n, Answering(b, r.callId));
  }

  lemma CallerReads(s: Sys, a: nat, b: nat, r: Response)
    requires EndsIn(s.px, r.callId, a, b) && a in s.net && b in s.net && a != b
    ensures Reads(s.px, s.net, Proxy.PopChain(s.px, r.callId), AnsweredNet(s.net, a, b, r), a, None)
    ensures forall d :: Frames(s.px, d, a) <= Frames(Proxy.PopChain(s.px, r.callId), d, a)
    ensures forall d :: d != r.callId ==> (Tops(Proxy.PopChain(s.px, r.callId), d, a) <==> Tops(s.px, d, a))
    ensures IsTop(Proxy.PopChain(s.px, r.callId), r.callId, a)
  {
    var c := r.callId;
    var py, ny := Proxy.PopChain(s.px, c), AnsweredNet(s.net, a, b, r);
    assert !IsTop(s.px, c, a);
    hide IsTop, InBody, Frames, Wanted, Proxy.PopChain, AnsweredNet, EndsIn;
    forall d ensures (if d == c then IsTop(py, d, a) else IsTop(py, d, a) <==> IsTop(s.px, d, a))
                     && Frames(s.px, d, a) == Frames(py, d, a)
                     && (d != c ==> (InBody(py, d, a) <==> InBody(s.px, d, a)))
                     && (d != c ==> Wanted(py, ny, d, a) == Wanted(s.px, s.net, d, a)) {
      PoppedTop(s.px, c, a, b, d, a);
      if d != c {
        PoppedWanted(s.net, s.px, a, b, r, d, a);
      }
    }
  }

  lemma RootUnframed(px: Proxy.State, c: Text, a: nat, b: nat)
    requires EndsIn(px, c, a, b) && a != b && |px.chains[c]| == 2
    ensures Frames(px, c, a) == 0
  {
    assert px.chains[c][1..] == [b];
  }

  /** Back at the top, the caller still serves what the frame below it asked for. */
  lemma CallerMsg(env: Env, s: Sys, a: nat, b: nat, r: Response, msg: Msg)
    requires EndsIn(s.px, r.callId, a, b) && a in s.net && b in s.net && a != b
    requires ChainOK(s.px, s.net, r.callId, s.px.chains[r.callId])
    requires msg.origin.Unix? && msg.callId == r.callId && Frames(s.px, r.callId, a) > 0
    requires s.net[a].proc.job.Some? && s.net[a].proc.job.value.msg == msg
    ensures MsgOK(Proxy.PopChain(s.px, r.callId), AnsweredNet(s.net, a, b, r), a, msg)
  {
    var c, ch := r.callId, s.px.chains[r.callId];
    PoppedChain(s.px, c, c);
    hide Proxy.PopChain, Suspended, Generated;
    if |ch| == 2 {
      RootUnframed(s.px, c, a, b);
    }
    assert |ch| > 2 ==> Serving(s.net, c, ch[|ch| - 2], ch[|ch| - 3]);
  }

  lemma CallerJob(env: Env, s: Sys, a: nat, b: nat, r: Response)
    requires EndsIn(s.px, r.callId, a, b) && a in s.net && b in s.net && a != b
    requires NodeOK(env, s.px, s.net, a, s.net[a]) && s.net[a].proc.wait.Some?
    requires ChainOK(s.px, s.net, r.callId, s.px.chains[r.callId])
    ensures JobOK(env, Proxy.PopChain(s.px, r.callId), AnsweredNet(s.net, a, b, r), a, s.net[a].proc)
  {
    var n := s.net[a];
    var py, ny := Proxy.PopChain(s.px, r.callId), AnsweredNet(s.net, a, b, r);
    hide Proxy.PopChain, AnsweredNet, EndsIn, ChainOK, UpOK, QueueOK, DownOK, OweOK, AnswersOK, BacklogOK;
    hide IsTop, Tops, Wanted, Frames, Reads, MsgOK, WaitOK, Ours, Faithful, Accounting.Owed;
    CallerReads(s, a, b, r);
    if n.proc.job.Some? && n.proc.job.value.msg.origin.Unix? && Tops(py, n.proc.job.value.msg.callId, a) {
      if n.proc.job.value.msg.callId == r.callId {
        JobToken(s.px, a, n);
        CallerMsg(env, s, a, b, r, n.proc.job.value.msg);
      } else {
        MsgKept(s.px, s.net, py, ny, a, None, n.proc.job.value.msg);
      }
    }
  }

  lemma DownResp(env: Env, px: Proxy.State, net: map<nat, Node>, p: nat, n: Node, r: Response)
    requires NodeOK(env, px, net, p, n) && NoAnswer(n.down) && AnswerOK(env, px, p, r, n.proc.wait, n.up)
    ensures NodeOK(env, px, net, p, n.(down := n.down + [Resp(r)]))
  {
    Accounting.RespOwed(n, r);
    hide UpOK, QueueOK, JobOK, AnswersOK, IsTop, Free, Awaited;
    hide Responding, Wanted, Frames, Asked, Answered, Accounting.Owed;
  }

  lemma CallerNode(env: Env, s: Sys, a: nat, b: nat, r: Response)
    requires EndsIn(s.px, r.callId, a, b) && a in s.net && b in s.net && a != b
    requires NodeOK(env, s.px, s.net, a, s.net[a]) && Expects(env, s, a, b, r) && !s.net[b].pc.Answering?
    requires ChainOK(s.px, s.net, r.callId, s.px.chains[r.callId])
    ensures var ny := AnsweredNet(s.net, a, b, r); NodeOK(env, Proxy.PopChain(s.px, r.callId), ny, a, ny[a])
  {
    var n := s.net[a];
    var py, ny := Proxy.PopChain(s.px, r.callId), AnsweredNet(s.net, a, b, r);
    PoppedRecords(s.px, r.callId);
    assert ny[a] == n.(down := n.down + [Resp(r)]);
    hide Proxy.PopChain, AnsweredNet, EndsIn, ChainOK, UpOK, QueueOK, DownOK, JobOK, OweOK, AnswersOK, NoAnswer;
    hide IsTop, Free, Awaited, Responding, Wanted, Frames, Reads, Avoids, Generated, Accounting.Owed, Answered;
    CallerReads(s, a, b, r);
    CallerJob(env, s, a, b, r);
    PoppedAwaited(s, a, b, r, a);
    AvoidsNone(py, a, n);
    NodeFrameBut(env, s.px, s.net, py, ny, a, None, n);
    hide NodeOK;
    DownResp(env, py, ny, a, n, r);
  }

  // ------------------------------------------------------------------ chains

  lemma PoppedSuspended(s: Sys, a: nat, b: nat, r: Response, d: Text, q: nat)
    requires EndsIn(s.px, r.callId, a, b) && a in s.net && b in s.net && a != b && q != a && q != b
    requires Suspended(s.px, s.net, d, q)
    ensures Suspended(Proxy.PopChain(s.px, r.callId), AnsweredNet(s.net, a, b, r), d, q)
  {
    PoppedRecords(s.px, r.callId);
    hide Proxy.PopChain, NoAnswer;
  }

  lemma PoppedLinks(s: Sys, a: nat, b: nat, r: Response, d: Text, ch: seq<nat>)
    requires EndsIn(s.px, r.callId, a, b) && a in s.net && b in s.net && a != b
    requires LinksOK(s.px, s.net, d, ch)
    requires forall i :: 0 <= i < |ch| - 1 ==> ch[i] != a && ch[i] != b
    ensures LinksOK(Proxy.PopChain(s.px, r.callId), AnsweredNet(s.net, a, b, r), d, ch)
  {
    var py, ny := Proxy.PopChain(s.px, r.callId), AnsweredNet(s.net, a, b, r);
    hide Proxy.PopChain, Suspended, EndsIn;
    forall i | 0 <= i < |ch| - 1 ensures Suspended(py, ny, d, ch[i]) {
      assert Suspended(s.px, s.net, d, ch[i]);
      PoppedSuspended(s, a, b, r, d, ch[i]);
    }
    forall i | 1 <= i < |ch| - 1 ensures Serving(ny, d, ch[i], ch[i - 1]) {
      assert Serving(s.net, d, ch[i], ch[i - 1]);
    }
  }

  lemma LinksPrefix(px: Proxy.State, net: map<nat, Node>, c: Text, ch: seq<nat>)
    requires LinksOK(px, net, c, ch) && Distinct(px, ch) && ch != []
    ensures LinksOK(px, net, c, ch[..|ch| - 1]) && Distinct(px, ch[..|ch| - 1])
  {
    hide Suspended, Serving;
  }

  lemma AnsweredRoot(net: map<nat, Node>, a: nat, b: nat, r: Response, p: nat)
    requires a in net && b in net && a != b && p in net
    ensures var ny := AnsweredNet(net, a, b, r); p in ny && ny[p].proc == net[p].proc
  {
  }

  /** Chain `d` without `a` and `b` below its top is as good as before. */
  lemma PoppedChainOK(s: Sys, a: nat, b: nat, r: Response, d: Text, ch: seq<nat>)
    requires EndsIn(s.px, r.callId, a, b) && a in s.net && b in s.net && a != b
    requires ChainOK(s.px, s.net, d, ch)
    requires forall i :: 0 <= i < |ch| - 1 ==> ch[i] != a && ch[i] != b
    ensures ChainOK(Proxy.PopChain(s.px, r.callId), AnsweredNet(s.net, a, b, r), d, ch)
  {
    PoppedRecords(s.px, r.callId);
    AnsweredRoot(s.net, a, b, r, ch[0]);
    hide Proxy.PopChain, AnsweredNet, EndsIn, LinksOK, Generated;
    PoppedLinks(s, a, b, r, d, ch);
  }

  lemma OwnChainPopped(s: Sys, a: nat, b: nat, r: Response)
    requires EndsIn(s.px, r.callId, a, b) && a in s.net && b in s.net && a != b && Free(s.px, b)
    requires ChainOK(s.px, s.net, r.callId, s.px.chains[r.callId])
    ensures var ch := s.px.chains[r.callId];
            ChainOK(Proxy.PopChain(s.px, r.callId), AnsweredNet(s.net, a, b, r), r.callId, ch[..|ch| - 1])
  {
    var ch := s.px.chains[r.callId];
    var less := ch[..|ch| - 1];
    LinksPrefix(s.px, s.net, r.callId, ch);
    forall i | 0 <= i < |less| - 1 ensures less[i] != a && less[i] != b {
      InBodyAt(s.px, r.callId, i);
    }
    hide Proxy.PopChain, AnsweredNet, LinksOK, Generated, Free;
    PoppedChainOK(s, a, b, r, r.callId, less);
  }

  lemma OtherChainPopped(env: Env, s: Sys, a: nat, b: nat, r: Response, d: Text)
    requires Inv(env, s) && Expects(env, s, a, b, r) && Finished(s, b, r.callId) && d in s.px.chains && d != r.callId
    ensures ChainOK(Proxy.PopChain(s.px, r.callId), AnsweredNet(s.net, a, b, r), d, s.px.chains[d])
  {
    var ch := s.px.chains[d];
    ChainIs(env, s, d);
    forall i | 0 <= i < |ch| - 1 ensures ch[i] != a && ch[i] != b {
      InBodyAt(s.px, d, i);
      assert Suspended(s.px, s.net, d, ch[i]);
    }
    assert EndsIn(s.px, r.callId, a, b);
    hide Inv, Free, Avoids, ChainOK, Suspended, Answered, Accounting.Owed, AnsweredNet;
    PoppedChainOK(s, a, b, r, d, ch);
  }

  lemma ChainIs(env: Env, s: Sys, d: Text)
    requires Inv(env, s) && d in s.px.chains
    ensures ChainOK(s.px, s.net, d, s.px.chains[d])
  {
    hide NodesOK, HandlersOK, Directory.Listed, ChainOK;
  }

  // ---------------------------------------------------------------- handlers

  lemma PoppedPc(s: Sys, a: nat, b: nat, r: Response, h: nat)
    requires EndsIn(s.px, r.callId, a, b) && h in s.net && PcOK(s.px, h, s.net[h].pc)
    ensures PcOK(Proxy.PopChain(s.px, r.callId), h, s.net[h].pc)
  {
    PoppedRecords(s.px, r.callId);
    PoppedFree(s.px, r.callId, a, b, h);
    if s.net[h].pc.Answering? {
      PoppedChain(s.px, r.callId, s.net[h].pc.callId);
      hide Proxy.PopChain, Free;
    }
  }

  lemma ResponderPc(s: Sys, a: nat, b: nat, r: Response)
    requires EndsIn(s.px, r.callId, a, b) && b in s.px.infos && s.px.infos[b].queue == [] && Free(s.px, b)
    ensures PcOK(Proxy.PopChain(s.px, r.callId), b, Answering(b, r.callId))
  {
    PoppedRecords(s.px, r.callId);
    PoppedFree(s.px, r.callId, a, b, b);
    PoppedChain(s.px, r.callId, r.callId);
    hide Proxy.PopChain, Free;
  }

  lemma PoppedHandlers(s: Sys, a: nat, b: nat, r: Response)
    requires HandlersOK(s) && EndsIn(s.px, r.callId, a, b) && a in s.net && a != b && Finished(s, b, r.callId)
    ensures HandlersOK(s.(px := Proxy.PopChain(s.px, r.callId), net := AnsweredNet(s.net, a, b, r)))
  {
    var py, ny := Proxy.PopChain(s.px, r.callId), AnsweredNet(s.net, a, b, r);
    ResponderPc(s, a, b, r);
    assert ny[b].pc == Answering(b, r.callId);
    assert forall h :: h in ny && h != b ==> h in s.net && ny[h].pc == s.net[h].pc;
    hide Proxy.PopChain, AnsweredNet, EndsIn, Finished, PcOK;
    forall h | h in ny ensures PcOK(py, h, ny[h].pc) {
      if h != b {
        PoppedPc(s, a, b, r, h);
      }
    }
  }

  // ------------------------------------------------------------- the answer

  lemma AnswerFacts(env: Env, s: Sys, a: nat, b: nat, r: Response)
    requires Expects(env, s, a, b, r) && Finished(s, b, r.callId)
    ensures a in s.net && b in s.net && a != b && r.callId in s.px.chains
    ensures !s.net[b].pc.Answering? && Free(s.px, b)
    ensures var ny := AnsweredNet(s.net, a, b, r);
            ny.Keys == s.net.Keys && forall q :: q in s.net && q != a && q != b ==> ny[q] == s.net[q]
  {
  }

  lemma PoppedNode(env: Env, s: Sys, a: nat, b: nat, r: Response, q: nat)
    requires Inv(env, s) && EndsIn(s.px, r.callId, a, b) && Expects(env, s, a, b, r) && Finished(s, b, r.callId)
    requires q in s.net
    ensures a in s.net && b in s.net
    ensures var ny := AnsweredNet(s.net, a, b, r); q in ny && NodeOK(env, Proxy.PopChain(s.px, r.callId), ny, q, ny[q])
  {
    hide *;
    AnswerFacts(env, s, a, b, r);
    ChainIs(env, s, r.callId);
    NodeAt(env, s, q);
    if q == b {
      ResponderNode(env, s, a, b, r);
    } else if q == a {
      CallerNode(env, s, a, b, r);
    } else {
      OtherNode(env, s, a, b, r, q, s.net[q]);
    }
  }

  lemma PoppedNodes(env: Env, s: Sys, a: nat, b: nat, r: Response)
    requires Inv(env, s) && EndsIn(s.px, r.callId, a, b) && Expects(env, s, a, b, r) && Finished(s, b, r.callId)
    ensures a in s.net && b in s.net
    ensures NodesOK(env, s.(px := Proxy.PopChain(s.px, r.callId), net := AnsweredNet(s.net, a, b, r)))
  {
    AnswerFacts(env, s, a, b, r);
    hide Inv, EndsIn, Expects, Finished, NodeOK, Proxy.PopChain, AnsweredNet;
    forall q | q in s.net
      ensures var ny := AnsweredNet(s.net, a, b, r); NodeOK(env, Proxy.PopChain(s.px, r.callId), ny, q, ny[q]) {
      PoppedNode(env, s, a, b, r, q);
    }
  }

  lemma PoppedChains(env: Env, s: Sys, a: nat, b: nat, r: Response)
    requires Inv(env, s) && EndsIn(s.px, r.callId, a, b) && Expects(env, s, a, b, r) && Finished(s, b, r.callId)
    ensures ChainsOK(s.(px := Proxy.PopChain(s.px, r.callId), net := AnsweredNet(s.net, a, b, r)))
  {
    var py, ny := Proxy.PopChain(s.px, r.callId), AnsweredNet(s.net, a, b, r);
    PoppedRecords(s.px, r.callId);
    ChainIs(env, s, r.callId);
    hide Inv, NodeOK, ChainOK, Proxy.PopChain, AnsweredNet, IsTop, Free, Avoids, Accounting.Owed, Suspended, Answered;
    forall d | d in py.chains ensures ChainOK(py, ny, d, py.chains[d]) {
      PoppedChain(s.px, r.callId, d);
      if d == r.callId {
        OwnChainPopped(s, a, b, r);
      } else {
        OtherChainPopped(env, s, a, b, r, d);
      }
    }
  }

  /** The frame of the sender goes, the one below is answered and the sender's
      handler is suspended in that write. */
  lemma AnswerStep(env: Env, s: Sys, a: nat, b: nat, r: Response)
    requires Inv(env, s) && EndsIn(s.px, r.callId, a, b) && Expects(env, s, a, b, r) && Finished(s, b, r.callId)
    requires Directory.Listed(env.cfg, s.(px := Proxy.PopChain(s.px, r.callId), net := AnsweredNet(s.net, a, b, r)))
    ensures Inv(env, s.(px := Proxy.PopChain(s.px, r.callId), net := AnsweredNet(s.net, a, b, r)))
  {
    hide NodesOK, ChainsOK, HandlersOK, Directory.Listed, Expects, Finished, EndsIn, Proxy.PopChain, AnsweredNet;
    PoppedNodes(env, s, a, b, r);
    PoppedChains(env, s, a, b, r);
    AnswerFacts(env, s, a, b, r);
    PoppedHandlers(s, a, b, r);
  }
}
