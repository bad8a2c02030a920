/** Every smooth step, of any actor or of the proxy, keeps the invariant. */
module SmoothSteps {
  import opened Protocol
  import opened S = System
  import opened Meaning
  import opened Invariant
  import opened ActorSteps
  import opened ActorNodes
  import opened ProxySteps
  import opened ForwardSteps
  import opened ReplySteps
  import opened RecordSteps
  import Accounting
  import Directory
  import Proxy
  import Registry

  // ------------------------------------------------------- taking a message

  lemma UpTail(env: Env, px: Proxy.State, net: map<nat, Node>, p: nat, up: seq<Frame>, wait: Option<Request>, seq_: nat)
    requires UpOK(env, px, net, p, up, wait, seq_) && up != []
    ensures UpOK(env, px, net, p, up[1..], wait, seq_)
    ensures UpItemOK(env, px, net, p, up[0], |up| == 1, wait, seq_)
  {
    hide UpItemOK;
    forall i | 0 <= i < |up[1..]|
      ensures UpItemOK(env, px, net, p, up[1..][i], i == |up[1..]| - 1, wait, seq_) {
      assert UpItemOK(env, px, net, p, up[i + 1], i + 1 == |up| - 1, wait, seq_);
    }
    assert UpItemOK(env, px, net, p, up[0], 0 == |up| - 1, wait, seq_);
  }

  /** While something is on its way to the proxy, nothing comes back. */
  lemma UpMeansNoAnswer(env: Env, px: Proxy.State, net: map<nat, Node>, p: nat, n: Node)
    requires NodeOK(env, px, net, p, n) && n.up != []
    ensures NoAnswer(n.down) && px.infos[p].queue == []
    ensures DownOK(env, px, net, p, n.down, n.proc.wait, n.up[1..])
  {
    hide UpOK, QueueOK, JobOK, OweOK, AnswersOK, IsTop, Free, Awaited, Responding, Wanted, Asked, Answered;
    forall i | 0 <= i < |n.down| ensures n.down[i].Req? {
      assert DownItemOK(env, px, net, p, n.down[i], n.proc.wait, n.up);
    }
    forall i | 0 <= i < |n.down| ensures DownItemOK(env, px, net, p, n.down[i], n.proc.wait, n.up[1..]) {
      assert DownItemOK(env, px, net, p, n.down[i], n.proc.wait, n.up);
    }
  }

  lemma PopUpNode(env: Env, px: Proxy.State, net: map<nat, Node>, p: nat, n: Node)
    requires NodeOK(env, px, net, p, n) && n.up != []
    ensures NodeOK(env, px, net, p, n.(up := n.up[1..]))
  {
    hide UpOK, QueueOK, DownOK, JobOK, OweOK, AnswersOK, IsTop, Free, Awaited, Responding, NoAnswer, Accounting.Owed;
    UpTail(env, px, net, p, n.up, n.proc.wait, n.proc.seq_);
    UpMeansNoAnswer(env, px, net, p, n);
    Accounting.UpPopOwed(n);
    OweLess(px, p, n, n.(up := n.up[1..]));
  }

  lemma PopUpStep(env: Env, s: Sys, p: nat)
    requires Inv(env, s) && p in s.net && s.net[p].up != []
    ensures Inv(env, PopUp(s, p)) && Free(s.px, p)
  {
    hide Inv, NodeOK, PcOK, Directory.Listed, Free, NodesOK, ChainsOK, HandlersOK, NoAnswer, Registry.Sound;
    NodeAt(env, s, p);
    PopUpNode(env, s.px, s.net, p, s.net[p]);
    FreeUnlessSuspended(env, s, p);
    InvListed(env, s);
    Directory.PoppedListed(env.cfg, s, p);
    ActorStep(env, s, p, s.net[p].(up := s.net[p].up[1..]));
  }

  // ---------------------------------------------------------------- routing

  lemma HistoryFree(env: Env, s: Sys, h: History)
    requires Inv(env, s)
    ensures Inv(env, s.(hist := h))
  {
    hide NodeOK, ChainOK, PcOK, Registry.Sound, Directory.NodeListed;
  }

  lemma SentTakes(env: Env, s: Sys, a: nat, r: Request, callee: nat)
    requires Inv(env, s) && Ready(s, a, r) && IndexAgrees(env.cfg) && r.pid == a
    requires Proxy.Route(env.cfg.owner, s.px, r).1 == Proxy.Sent(r, callee)
    ensures Takes(s, a, r.callId, callee) && Offers(env.cfg, s.px.infos[callee].name, r.service)
  {
    hide Inv, NodeOK, PcOK, IsTop, NoAnswer, Registry.Registered;
    hide Registry.Resolved, Registry.Engaged, Proxy.Route, Ours;
    InvListed(env, s);
    hide Directory.Listed;
    NodeAt(env, s, a);
    NodeName(env, s, a);
    RequesterJob(env, s.px, s.net, a, s.net[a]);
    Registry.RouteOutcome(env.cfg.owner, s.px, r);
    NodeNamed(env, s, callee);
  }

  lemma NodeName(env: Env, s: Sys, a: nat)
    requires Inv(env, s) && a in s.net
    ensures a in s.px.infos && s.px.infos[a].name == s.net[a].proc.name
  {
    hide NodesOK, ChainsOK, HandlersOK, Directory.Listed;
    ListedHas(env.cfg, s, a);
  }

  lemma NodeNamed(env: Env, s: Sys, q: nat)
    requires Inv(env, s) && q in s.px.infos
    ensures q in s.net
  {
    hide NodesOK, ChainsOK, HandlersOK, Registry.Sound, Directory.NodeListed;
  }

  lemma PushedSound(px: Proxy.State, a: nat, c: Text, callee: nat)
    requires Registry.Sound(px) && c in px.chains && callee in px.infos
    ensures Registry.Sound(Pushed(px, a, c, callee)) && Registry.Extends(px, Pushed(px, a, c, callee))
  {
    hide Registry.Registered;
    var px1 := Proxy.Update(px, a, c, true);
    Registry.UpdateKeeps(px, a, c, true);
    Registry.ChainKeeps(px1, c, px1.chains[c] + [callee]);
  }

  lemma PushedListed(env: Env, s: Sys, a: nat, r: Request, callee: nat)
    requires Inv(env, s) && r.callId in s.px.chains && callee in s.px.infos && callee in s.net
    requires Offers(env.cfg, s.px.infos[callee].name, r.service)
    ensures Directory.Listed(env.cfg, s.(px := Pushed(s.px, a, r.callId, callee), net := PushedNet(s.net, callee, r)))
  {
    var py := Pushed(s.px, a, r.callId, callee);
    hide Inv, Registry.Sound, Directory.Listed, NodesOK, ChainsOK, HandlersOK, Pushed, Offers;
    InvListed(env, s);
    PushedSound(s.px, a, r.callId, callee);
    Directory.ProxyKeeps(env.cfg, s, py);
    Directory.DeliverKeeps(env.cfg, s.(px := py), callee, Req(r));
  }

  /** A request in the proxy's hands is routed: dropped, or sent to its callee. */
  lemma RouteStep(env: Env, s: Sys, a: nat, r: Request, h: nat)
    requires Inv(env, s) && Ready(s, a, r) && IndexAgrees(env.cfg) && r.pid == a
    requires h in s.net && s.net[h].pc.Reading?
    requires !Proxy.Route(env.cfg.owner, s.px, r).1.Cached?
    ensures Inv(env, Dispatched(s, h, Proxy.Route(env.cfg.owner, s.px, r), true, Done))
  {
    var (py, out) := Proxy.Route(env.cfg.owner, s.px, r);
    ReadyFacts(s, a, r);
    InvListed(env, s);
    Registry.RouteOutcome(env.cfg.owner, s.px, r);
    hide Inv, Ready, Directory.Listed, Registry.Registered, Registry.Resolved, Registry.Engaged;
    if out.Sent? {
      SentStep(env, s, a, r, h, out.callee);
    } else {
      assert py == s.px;
      ReadingAgain(s, h);
      HistoryFree(env, s, S.Recorded(s.hist, out, true));
    }
  }

  lemma ReadingAgain(s: Sys, h: nat)
    requires h in s.net && s.net[h].pc.Reading?
    ensures SetPc(s, h, Reading) == s
  {
    assert s.net[h].(pc := Reading) == s.net[h];
    assert s.net[h := s.net[h]] == s.net;
  }

  /** The system once `callee` has been sent `r`, but for the handler. */
  function AfterSend(s: Sys, a: nat, r: Request, callee: nat): Sys
    requires callee in s.net
  {
    s.(px := Proxy.Update(Pushed(s.px, a, r.callId, callee), callee, r.callId, false),
       net := PushedNet(s.net, callee, r),
       hist := S.Recorded(s.hist, Proxy.Sent(r, callee), true))
  }

  /** The system once `a` waits below `callee`. */
  function AfterPush(s: Sys, a: nat, r: Request, callee: nat): Sys
    requires callee in s.net
  {
    s.(px := Pushed(s.px, a, r.callId, callee), net := PushedNet(s.net, callee, r))
  }

  lemma AfterPushInv(env: Env, s: Sys, a: nat, r: Request, callee: nat)
    requires Inv(env, s) && Ready(s, a, r) && Takes(s, a, r.callId, callee) && r.callId in s.px.chains
    requires Offers(env.cfg, s.px.infos[callee].name, r.service)
    ensures Inv(env, AfterPush(s, a, r, callee)) && callee in AfterPush(s, a, r, callee).px.infos
  {
    TakesFacts(s, a, r.callId, callee);
    assert AfterPush(s, a, r, callee) ==
           s.(px := Pushed(s.px, a, r.callId, callee), net := PushedNet(s.net, callee, r));
    hide *;
    PushedListed(env, s, a, r, callee);
    PushStep(env, s, a, r, callee);
  }

  lemma TakesFacts(s: Sys, a: nat, c: Text, callee: nat)
    requires Takes(s, a, c, callee) && c in s.px.chains
    ensures callee in s.net && callee in s.px.infos
    ensures callee in Pushed(s.px, a, c, callee).infos
  {
    PushedRecords(s.px, a, c, callee);
    hide Pushed;
  }

  lemma AfterSendInv(env: Env, s: Sys, a: nat, r: Request, callee: nat)
    requires Inv(env, s) && Ready(s, a, r) && Takes(s, a, r.callId, callee) && r.callId in s.px.chains
    requires Offers(env.cfg, s.px.infos[callee].name, r.service)
    ensures Inv(env, AfterSend(s, a, r, callee))
  {
    TakesFacts(s, a, r.callId, callee);
    hide Inv, Ready, Takes, Pushed, PushedNet, Offers, Proxy.Update, S.Recorded;
    var s1 := AfterPush(s, a, r, callee);
    AfterPushInv(env, s, a, r, callee);
    LowerStep(env, s1, callee, r.callId);
    var s2 := s1.(px := Proxy.Update(s1.px, callee, r.callId, false));
    HistoryFree(env, s2, S.Recorded(s.hist, Proxy.Sent(r, callee), true));
  }

  lemma AfterSendIs(env: Env, s: Sys, a: nat, r: Request, h: nat, callee: nat)
    requires h in s.net && callee in s.net && r.pid == a
    requires Proxy.Route(env.cfg.owner, s.px, r).1 == Proxy.Sent(r, callee)
    ensures h in AfterSend(s, a, r, callee).net && AfterSend(s, a, r, callee).net[h].pc == s.net[h].pc
    ensures Dispatched(s, h, Proxy.Route(env.cfg.owner, s.px, r), true, Done) ==
            SetPc(AfterSend(s, a, r, callee), h, Sending(r, callee, true, Done))
  {
    ForwardIs(env, s, a, r, callee);
    hide Proxy.Route, Pushed, Proxy.Update, S.Recorded;
  }

  lemma SentStep(env: Env, s: Sys, a: nat, r: Request, h: nat, callee: nat)
    requires Inv(env, s) && Ready(s, a, r) && IndexAgrees(env.cfg) && r.pid == a
    requires h in s.net && s.net[h].pc.Reading? && r.callId in s.px.chains
    requires Proxy.Route(env.cfg.owner, s.px, r).1 == Proxy.Sent(r, callee)
    ensures Inv(env, Dispatched(s, h, Proxy.Route(env.cfg.owner, s.px, r), true, Done))
  {
    hide Inv, Proxy.Route, AfterSend, IndexAgrees, Registry.Engaged, IsTop, NoAnswer, Offers;
    SentTakes(env, s, a, r, callee);
    AfterSendInv(env, s, a, r, callee);
    AfterSendIs(env, s, a, r, h, callee);
    AfterSendRecords(s, a, r, callee);
    hide Ready, Takes;
    PcStep(env, AfterSend(s, a, r, callee), h, Sending(r, callee, true, Done));
  }

  lemma AfterSendRecords(s: Sys, a: nat, r: Request, callee: nat)
    requires a in s.px.infos && callee in s.px.infos && callee in s.net
    ensures a in AfterSend(s, a, r, callee).px.infos && callee in AfterSend(s, a, r, callee).px.infos
  {
  }

  lemma ForwardIs(env: Env, s: Sys, a: nat, r: Request, callee: nat)
    requires Proxy.Route(env.cfg.owner, s.px, r).1 == Proxy.Sent(r, callee) && r.pid == a
    ensures Proxy.Route(env.cfg.owner, s.px, r).0
            == Proxy.Update(Pushed(s.px, a, r.callId, callee), callee, r.callId, false)
  {
    hide Proxy.Loops, Proxy.Least, Proxy.Update, Proxy.Push;
  }

  // -------------------------------------------------------- reading a request

  /** A request at the head of a link is the last thing on it, and its sender is
      suspended in it and idle otherwise. */
  lemma RequestHead(env: Env, s: Sys, p: nat)
    requires Inv(env, s) && p in s.net && s.net[p].up != [] && s.net[p].up[0].Req?
    ensures var r := s.net[p].up[0].req;
            && s.net[p].proc.wait == Some(r) && r.pid == p && s.net[p].up[1..] == []
            && IdReady(s.px, p, s.net[p].proc.seq_, r.callId)
            && NoAnswer(s.net[p].down) && p in s.px.infos && s.px.infos[p].queue == []
  {
    hide Inv, JobOK, DownOK, QueueOK, BacklogOK, OweOK, AnswersOK, UpItemOK, PcOK, IdReady, Ours, IsTop, NoAnswer;
    var n := s.net[p];
    NodeAt(env, s, p);
    UpTail(env, s.px, s.net, p, n.up, n.proc.wait, n.proc.seq_);
    RequestItem(env, s.px, s.net, p, n.up[0], |n.up| == 1, n.proc.wait, n.proc.seq_);
    UpMeansNoAnswer(env, s.px, s.net, p, n);
    RequesterJob(env, s.px, s.net, p, n);
  }

  lemma RequestItem(env: Env, px: Proxy.State, net: map<nat, Node>, p: nat, f: Frame, isLast: bool,
                    wait: Option<Request>, seq_: nat)
    requires UpItemOK(env, px, net, p, f, isLast, wait, seq_) && f.Req?
    ensures isLast && wait == Some(f.req) && IdReady(px, p, seq_, f.req.callId)
  {
  }

  /** The system in which the proxy holds the request it has read. */
  function Held(s: Sys, p: nat, r: Request): Sys
    requires p in s.net && s.net[p].up != []
  {
    PopUp(s, p).(px := Proxy.Root(s.px, r.callId, p))
  }

  lemma HeldFields(s: Sys, p: nat, r: Request)
    requires p in s.net && s.net[p].up != [] && s.net[p].up[1..] == []
    requires IdReady(s.px, p, s.net[p].proc.seq_, r.callId)
    ensures var t := Held(s, p, r);
            && IsTop(t.px, r.callId, p) && r.callId in t.px.chains
            && p in t.net && t.net[p].up == [] && t.net[p].proc == s.net[p].proc && t.net[p].pc == s.net[p].pc
            && t.net[p].down == s.net[p].down && t.px.infos == s.px.infos
            && t.px == Proxy.Root(s.px, r.callId, p) && t.hist == s.hist
  {
    hide Generated;
  }

  lemma RootFree(px: Proxy.State, c: Text, p: nat)
    requires Free(px, p)
    ensures Free(Proxy.Root(px, c, p), p)
  {
    hide InBody, Proxy.Root;
    if c !in px.chains {
      forall d ensures !InBody(Proxy.Root(px, c, p), d, p) {
        RootedTop(px, c, p, d, p);
      }
    } else {
      RootKnown(px, c, p);
    }
  }

  lemma RootKnown(px: Proxy.State, c: Text, p: nat)
    requires c in px.chains
    ensures Proxy.Root(px, c, p) == px
  {
  }

  lemma HeldInv(env: Env, s: Sys, p: nat)
    requires Inv(env, s) && p in s.net && s.net[p].up != [] && s.net[p].up[0].Req?
    ensures var r := s.net[p].up[0].req; Inv(env, Held(s, p, r)) && Free(Proxy.Root(s.px, r.callId, p), p)
  {
    var r := s.net[p].up[0].req;
    hide Inv, NoAnswer, Generated, Free, IsTop, Proxy.Root;
    RequestHead(env, s, p);
    PopUpStep(env, s, p);
    RootFree(s.px, r.callId, p);
    PopUpFields(s, p);
    var s1 := PopUp(s, p);
    if r.callId !in s.px.chains {
      RootStep(env, s1, r.callId, p);
    } else {
      RootKnown(s.px, r.callId, p);
      assert Held(s, p, r) == s1;
    }
  }

  lemma PopUpFields(s: Sys, p: nat)
    requires p in s.net && s.net[p].up != []
    ensures var t := PopUp(s, p);
            p in t.net && t.net[p].up == s.net[p].up[1..] && t.net[p].proc == s.net[p].proc && t.px == s.px
  {
  }

  lemma EnqueueDequeue(px: Proxy.State, p: nat, r: Request)
    requires p in px.infos && px.infos[p].queue == []
    ensures Proxy.Dequeue(Proxy.Enqueue(px, p, r), p) == px
    ensures Proxy.Enqueue(px, p, r).infos[p].queue == [r]
  {
    var info := px.infos[p];
    assert info.queue + [r] == [r] && [r][1..] == [];
    assert info.(queue := [r]).(queue := []) == info;
    assert px.infos[p := info.(queue := [r])][p := info] == px.infos;
  }

  /** What reading the request amounts to: routing it, or queuing it behind an
      answer that is still being written. */
  lemma ReadIs(env: Env, s: Sys, p: nat, r: Request)
    requires p in s.px.infos && s.px.infos[p].queue == [] && r.pid == p
    ensures var px2 := Proxy.Root(s.px, r.callId, p);
            Proxy.ReadRequest(env.cfg.owner, s.px, r) ==
              if s.px.infos[p].waiting then (Proxy.Enqueue(px2, p, r), Proxy.Quiet)
              else Proxy.Route(env.cfg.owner, px2, r)
  {
    var px2 := Proxy.Root(s.px, r.callId, p);
    assert px2.infos == s.px.infos;
    EnqueueDequeue(px2, p, r);
    hide Proxy.Route, Proxy.Root, Proxy.Dequeue;
  }

  /** The bookkeeping of a read request, however it is routed. */
  lemma ReadShape(env: Env, s: Sys, p: nat, r: Request)
    requires p in s.net && s.net[p].up != []
    ensures var h := s.hist.(read := s.hist.read + multiset{r});
            p in Held(s, p, r).net &&
            S.ReadRequest(env, PopUp(s, p), p, r, true) ==
            Dispatched(Held(s, p, r).(hist := h), p, Proxy.ReadRequest(env.cfg.owner, s.px, r), true, Done)
  {
    var h := s.hist.(read := s.hist.read + multiset{r});
    hide Proxy.ReadRequest, Proxy.Root, Dispatched;
    Accounting.DispatchedReplaces(PopUp(s, p).(hist := h), Proxy.Root(s.px, r.callId, p), p,
                                  Proxy.ReadRequest(env.cfg.owner, s.px, r), true);
  }

  lemma HeldQueues(env: Env, t: Sys, p: nat, r: Request)
    requires Inv(env, t) && p in t.net && p in t.px.infos && t.px.infos[p].waiting && t.px.infos[p].queue == []
    requires t.net[p].proc.wait == Some(r) && t.net[p].up == [] && NoAnswer(t.net[p].down) && r.pid == p
    requires IsTop(t.px, r.callId, p) && Free(t.px, p) && t.net[p].pc.Reading?
    ensures Inv(env, Dispatched(t, p, (Proxy.Enqueue(t.px, p, r), Proxy.Quiet), true, Done))
  {
    hide Inv, IsTop, Free, NoAnswer, Proxy.Enqueue;
    EnqueueStep(env, t, p, r);
    ReadingAgain(t.(px := Proxy.Enqueue(t.px, p, r)), p);
  }

  lemma ReadRequestStep(env: Env, s: Sys, p: nat)
    requires Inv(env, s) && IndexAgrees(env.cfg)
    requires p in s.net && s.net[p].up != [] && s.net[p].up[0].Req? && s.net[p].pc.Reading?
    requires !Proxy.ReadRequest(env.cfg.owner, s.px, s.net[p].up[0].req).1.Cached?
    ensures Inv(env, S.ReadRequest(env, PopUp(s, p), p, s.net[p].up[0].req, true))
  {
    var r := s.net[p].up[0].req;
    hide Inv, IndexAgrees, IsTop, Free, NoAnswer, Proxy.ReadRequest, Proxy.Route;
    hide Proxy.Root, Held, PopUp, IdReady, Proxy.Enqueue;
    hide Dispatched, S.ReadRequest;
    RequestHead(env, s, p);
    HeldFields(s, p, r);
    HeldInv(env, s, p);
    ReadIs(env, s, p, r);
    ReadShape(env, s, p, r);
    var t := Held(s, p, r).(hist := s.hist.(read := s.hist.read + multiset{r}));
    HistoryFree(env, Held(s, p, r), t.hist);
    if s.px.infos[p].waiting {
      HeldQueues(env, t, p, r);
    } else {
      RouteStep(env, t, p, r, p);
    }
  }

  // ------------------------------------------------------- reading a response

  function Below(px: Proxy.State, c: Text): nat
    requires c in px.chains && |px.chains[c]| >= 2
  {
    px.chains[c][|px.chains[c]| - 2]
  }

  /** A response at the head of a link is the value its caller, just below its
      sender on the chain, is suspended for. */
  lemma ResponseHead(env: Env, s: Sys, b: nat)
    requires Inv(env, s) && b in s.net && s.net[b].up != [] && s.net[b].up[0].Resp?
    ensures var r := s.net[b].up[0].resp;
            && r.callId in s.px.chains && |s.px.chains[r.callId]| >= 2
            && var a := Below(s.px, r.callId);
               && EndsIn(s.px, r.callId, a, b) && a in s.net
               && Answered(env, s.net[a].proc.wait, r.service, r.pack)
  {
    hide Inv, JobOK, DownOK, QueueOK, BacklogOK, OweOK, AnswersOK, UpItemOK, PcOK;
    var n := s.net[b];
    NodeAt(env, s, b);
    UpTail(env, s.px, s.net, b, n.up, n.proc.wait, n.proc.seq_);
    ResponseItem(env, s.px, s.net, b, n.up[0], |n.up| == 1, n.proc.wait, n.proc.seq_);
  }

  lemma ResponseItem(env: Env, px: Proxy.State, net: map<nat, Node>, p: nat, f: Frame, isLast: bool,
                     wait: Option<Request>, seq_: nat)
    requires UpItemOK(env, px, net, p, f, isLast, wait, seq_) && f.Resp?
    ensures Answered(env, Wanted(px, net, f.resp.callId, p), f.resp.service, f.resp.pack)
  {
  }

  lemma CallerSuspended(env: Env, s: Sys, a: nat, b: nat, c: Text)
    requires Inv(env, s) && EndsIn(s.px, c, a, b) && Free(s.px, b)
    ensures Suspended(s.px, s.net, c, a) && a != b
  {
    InBodyAt(s.px, c, |s.px.chains[c]| - 2);
    ChainIs(env, s, c);
    hide Inv, ChainOK, Suspended, InBody;
    SuspendedAt(env, s, c, a);
  }

  lemma ExpectsAt(env: Env, s: Sys, a: nat, b: nat, r: Response)
    requires Inv(env, s) && EndsIn(s.px, r.callId, a, b) && a in s.net && Free(s.px, b)
    requires Answered(env, s.net[a].proc.wait, r.service, r.pack)
    ensures Expects(env, s, a, b, r)
  {
    hide Inv, Answered, Free;
    CallerSuspended(env, s, a, b, r.callId);
    hide NoAnswer;
  }

  lemma OwesNoMore(env: Env, s: Sys, b: nat)
    requires Inv(env, s) && b in s.net && s.net[b].up != [] && s.net[b].up[0].Resp?
    requires s.net[b].up[0].resp.callId in s.px.chains
    ensures Accounting.Owed(PopUp(s, b).net[b])[s.net[b].up[0].resp.callId] == 0
  {
    var c := s.net[b].up[0].resp.callId;
    hide Inv, NodeOK, Frames, InBody, Accounting.Owed, NoAnswer;
    NodeAt(env, s, b);
    FreeUnlessSuspended(env, s, b);
    OwedFramed(env, s.px, s.net, b, s.net[b], c);
    FramesAtMostOne(s.px, c, b);
    Accounting.UpPopOwed(s.net[b]);
  }

  /** The one top of a chain that owes nothing more on it neither serves it nor
      sends on it. */
  lemma NotOursAnyMore(env: Env, s: Sys, b: nat, c: Text, d: Text)
    requires Inv(env, s) && b in s.net && c in s.px.chains && Tops(s.px, c, b) && |s.px.chains[c]| >= 2
    requires Accounting.Owed(s.net[b])[c] == 0 && s.net[b].proc.job.Some?
    requires Ours(b, s.net[b].proc.job.value.msg, s.net[b].proc.seq_, d)
    ensures d != c
  {
    hide Inv, IsTop, InBody, Accounting.Owed, Ours, Frames;
    if d == c {
      OwnIdIsRoot(env, s, b, s.net[b].proc.job.value.msg, s.net[b].proc.seq_, c);
      TopFramed(s.px, c, b);
      OwedAtLeastJob(s.net[b], c);
    }
  }

  /** No request on `c` is on its way from such a top of `c`. */
  lemma IdleUp(env: Env, px: Proxy.State, net: map<nat, Node>, p: nat, n: Node, i: nat)
    requires UpOK(env, px, net, p, n.up, n.proc.wait, n.proc.seq_) && i < |n.up| && n.up[i].Req?
    ensures n.proc.wait == Some(n.up[i].req)
  {
    hide Wanted, IdReady, Answered;
    assert UpItemOK(env, px, net, p, n.up[i], i == |n.up| - 1, n.proc.wait, n.proc.seq_);
  }

  lemma JobIdOurs(env: Env, px: Proxy.State, net: map<nat, Node>, p: nat, n: Node)
    requires JobOK(env, px, net, p, n.proc) && n.proc.wait.None? && n.proc.callId != []
    ensures n.proc.job.Some? && Ours(p, n.proc.job.value.msg, n.proc.seq_, n.proc.callId)
  {
    hide Wanted, MsgOK, Ours, Faithful, IsTop;
  }

  lemma AvoidsParts(px: Proxy.State, p: nat, n: Node, c: Text)
    requires Accounting.Owed(n)[c] == 0 && NoAnswer(n.down)
    requires forall i :: 0 <= i < |n.up| && n.up[i].Req? ==> n.up[i].req.callId != c
    requires n.proc.job.Some? ==> AvoidsMsg(n.proc.job.value.msg, Some(c))
    requires n.proc.wait.None? ==> n.proc.callId != c
    ensures Avoids(px, p, n, Some(c))
  {
    OwesNothingElse(n, c);
    hide Accounting.Owed, AvoidsMsg, IsTop;
  }

  lemma IdleAvoids(env: Env, s: Sys, b: nat, c: Text)
    requires Inv(env, s) && b in s.net && c in s.px.chains && Tops(s.px, c, b) && |s.px.chains[c]| >= 2
    requires Accounting.Owed(s.net[b])[c] == 0 && NoAnswer(s.net[b].down)
    ensures Avoids(s.px, b, s.net[b], Some(c))
  {
    var n := s.net[b];
    hide Inv, Tops, Accounting.Owed, UpOK, QueueOK, DownOK, OweOK, AnswersOK;
    hide BacklogOK, PcOK, JobOK, Ours, NoAnswer, Avoids;
    NodeAt(env, s, b);
    if n.proc.job.Some? {
      OwedAtLeastJob(n, c);
    }
    if n.proc.wait.None? {
      if n.proc.callId != [] {
        JobIdOurs(env, s.px, s.net, b, n);
        NotOursAnyMore(env, s, b, c, n.proc.callId);
      }
      ChainNamed(env, s, c);
    } else {
      RequesterJob(env, s.px, s.net, b, n);
      NotOursAnyMore(env, s, b, c, n.proc.wait.value.callId);
    }
    forall i | 0 <= i < |n.up| && n.up[i].Req? ensures n.up[i].req.callId != c {
      IdleUp(env, s.px, s.net, b, n, i);
      NotOursAnyMore(env, s, b, c, n.proc.wait.value.callId);
    }
    AvoidsParts(s.px, b, n, c);
  }

  lemma ChainNamed(env: Env, s: Sys, c: Text)
    requires Inv(env, s) && c in s.px.chains
    ensures c != []
  {
    hide NodesOK, HandlersOK, Directory.Listed, Distinct, LinksOK;
    assert ChainOK(s.px, s.net, c, s.px.chains[c]);
  }

  /** The sender of a response has nothing in its backlog, and no chain waits for it. */
  lemma ResponderIdle(env: Env, s: Sys, b: nat)
    requires Inv(env, s) && b in s.net && s.net[b].up != []
    ensures b in s.px.infos && s.px.infos[b].queue == [] && NoAnswer(s.net[b].down) && Free(s.px, b)
  {
    hide Inv, UpOK, QueueOK, DownOK, JobOK, OweOK, AnswersOK, PcOK, Free, IsTop, Awaited, Responding, NoAnswer;
    NodeAt(env, s, b);
    UpMeansNoAnswer(env, s.px, s.net, b, s.net[b]);
    FreeUnlessSuspended(env, s, b);
  }

  lemma ResponderFinished(env: Env, s: Sys, b: nat, r: Response)
    requires Inv(env, s) && b in s.net && s.net[b].up != [] && s.net[b].up[0] == Resp(r) && s.net[b].pc.Reading?
    requires r.callId in s.px.chains && IsTop(s.px, r.callId, b) && |s.px.chains[r.callId]| >= 2
    ensures Inv(env, PopUp(s, b)) && Finished(PopUp(s, b), b, r.callId)
  {
    var t := PopUp(s, b);
    assert t.net[b].pc == s.net[b].pc && t.net[b].down == s.net[b].down && t.px == s.px;
    hide Inv, IsTop, InBody, NoAnswer, Avoids, Accounting.Owed, PopUp;
    ResponderIdle(env, s, b);
    PopUpStep(env, s, b);
    OwesNoMore(env, s, b);
    IdleAvoids(env, t, b, r.callId);
  }

  lemma ReadResponseIs(s: Sys, a: nat, b: nat, r: Response)
    requires EndsIn(s.px, r.callId, a, b) && a in s.net && b in s.net && a != b
    ensures ReadResponse(s, b, r, true) ==
            s.(px := Proxy.PopChain(s.px, r.callId), net := AnsweredNet(s.net, a, b, r),
               hist := s.hist.(answered := s.hist.answered + multiset{r.callId}))
  {
  }

  lemma ListedFree(cfg: Config, s: Sys, h: History)
    requires Directory.Listed(cfg, s)
    ensures Directory.Listed(cfg, s.(hist := h))
  {
    hide Registry.Sound, Directory.NodeListed;
  }

  lemma ReadResponseAt(env: Env, s: Sys, a: nat, b: nat, r: Response)
    requires Inv(env, s) && EndsIn(s.px, r.callId, a, b) && Expects(env, s, a, b, r) && Finished(s, b, r.callId)
    ensures b in s.net && Inv(env, ReadResponse(s, b, r, true))
  {
    assert a in s.net && b in s.net && a != b;
    hide Inv, Finished, Expects, ReadResponse, Directory.Listed, Proxy.PopChain, AnsweredNet, EndsIn;
    InvListed(env, s);
    Directory.ReadResponseKeeps(env.cfg, s, b, r, true);
    ReadResponseIs(s, a, b, r);
    ListedFree(env.cfg, ReadResponse(s, b, r, true), s.hist);
    var u := s.(px := Proxy.PopChain(s.px, r.callId), net := AnsweredNet(s.net, a, b, r));
    AnswerStep(env, s, a, b, r);
    HistoryFree(env, u, s.hist.(answered := s.hist.answered + multiset{r.callId}));
  }

  lemma PopUpSame(s: Sys, b: nat, a: nat)
    requires b in s.net && s.net[b].up != [] && a in s.net
    ensures PopUp(s, b).px == s.px && a in PopUp(s, b).net && PopUp(s, b).net[a].proc == s.net[a].proc
  {
  }

  lemma ReadResponseStep(env: Env, s: Sys, b: nat)
    requires Inv(env, s) && b in s.net && s.net[b].up != [] && s.net[b].up[0].Resp? && s.net[b].pc.Reading?
    ensures Inv(env, ReadResponse(PopUp(s, b), b, s.net[b].up[0].resp, true))
  {
    var r := s.net[b].up[0].resp;
    hide *;
    ResponseHead(env, s, b);
    var a := Below(s.px, r.callId);
    EndsAtTop(s.px, r.callId, a, b);
    PopUpSame(s, b, a);
    ResponderIdle(env, s, b);
    ResponderFinished(env, s, b, r);
    ExpectsAt(env, PopUp(s, b), a, b, r);
    ReadResponseAt(env, PopUp(s, b), a, b, r);
  }

  lemma EndsAtTop(px: Proxy.State, c: Text, a: nat, b: nat)
    requires EndsIn(px, c, a, b)
    ensures IsTop(px, c, b)
  {
  }
}
