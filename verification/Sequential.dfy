/** When the branch at src/coro_actor.cpp:679 is taken: only behind an actor that
    waits on another call. So a workload with one call at a time never takes it, and
    lets nobody go too late either. */
module Sequential {
  import opened Protocol
  import opened S = System
  import opened SmoothRuns
  import opened Foreign
  import Accounting
  import Bags
  import Directory
  import Proxy
  import Registry

  /** The request comes from a process that does not offer its service. */
  ghost predicate Afar(cfg: Config, px: Proxy.State, r: Request) {
    r.pid in px.infos && !Offers(cfg, px.infos[r.pid].name, r.service)
  }

  ghost predicate ForeignQueues(cfg: Config, px: Proxy.State) {
    forall p, i :: p in px.infos && 0 <= i < |px.infos[p].queue| ==> Afar(cfg, px, px.infos[p].queue[i])
  }

  lemma QueuedWasRead(s: Sys, p: nat, i: nat)
    requires Accounting.Accounted(s) && p in s.px.infos && i < |s.px.infos[p].queue|
    ensures s.px.infos[p].queue[i] in s.hist.read
  {
    hide Accounting.Covered, Accounting.ChainsCounted, Bags.Total;
    var r := s.px.infos[p].queue[i];
    Bags.TotalCovers(Accounting.Backlogs(s.px.infos), p);
    assert r in multiset(s.px.infos[p].queue);
  }

  lemma QueuesAreForeign(cfg: Config, s: Sys)
    requires Accounting.Accounted(s) && Homes(cfg, s) && Directory.Listed(cfg, s)
    ensures ForeignQueues(cfg, s.px)
  {
    hide Accounting.Accounted, UpForeign, Registry.Sound, Offers;
    forall p, i | p in s.px.infos && 0 <= i < |s.px.infos[p].queue|
      ensures Afar(cfg, s.px, s.px.infos[p].queue[i]) {
      QueuedWasRead(s, p, i);
      var r := s.px.infos[p].queue[i];
      assert FromElsewhere(cfg, s.net, r);
      assert Directory.NodeListed(cfg, s.px, r.pid, s.net[r.pid]);
    }
  }

  /** A request is cached exactly when its callee waits, and then on another call. */
  lemma CachedBehindAnother(cfg: Config, px: Proxy.State, p: nat)
    requires Registry.Sound(px) && ForeignQueues(cfg, px) && IndexAgrees(cfg)
    ensures var out := Proxy.Dispatch(cfg.owner, px, p).1;
            && (out.Cached? ==> out.callee in px.infos && px.infos[out.callee].waiting
                                && px.infos[out.callee].callId != out.req.callId && out.callee != out.req.pid)
            && (out.Sent? ==> out.callee in px.infos && !px.infos[out.callee].waiting)
            && (!out.Quiet? ==> p in px.infos && out.req in px.infos[p].queue)
            && (out.Quiet? ==> Proxy.Dispatch(cfg.owner, px, p).0 == px)
            && (out.Dropped? ==> Proxy.Dispatch(cfg.owner, px, p).0 == Proxy.Dequeue(px, p))
  {
    if p in px.infos && px.infos[p].queue != [] && !px.infos[p].waiting {
      var r, px1 := px.infos[p].queue[0], Proxy.Dequeue(px, p);
      Registry.DequeueKeeps(px, p);
      assert Afar(cfg, px, r);
      Registry.RouteOutcome(cfg.owner, px1, r);
      hide Registry.Sound, Proxy.Route, ForeignQueues;
    }
  }

  // ---------------------------------------------------- every dispatch of every run

  ghost predicate Orderly(cfg: Config, px: Proxy.State) {
    Registry.Sound(px) && ForeignQueues(cfg, px)
  }

  lemma UpdateOrderly(cfg: Config, px: Proxy.State, p: nat, d: Text, waiting: bool)
    requires Orderly(cfg, px)
    ensures Orderly(cfg, Proxy.Update(px, p, d, waiting))
  {
    Registry.UpdateKeeps(px, p, d, waiting);
    hide Registry.Sound, Afar, Registry.Extends;
    if p in px.infos {
      RecordForeign(cfg, px, p, px.infos[p].(callId := d, waiting := waiting), Proxy.Update(px, p, d, waiting));
    }
  }

  lemma DequeueOrderly(cfg: Config, px: Proxy.State, p: nat)
    requires Orderly(cfg, px)
    ensures Orderly(cfg, Proxy.Dequeue(px, p))
  {
    Registry.DequeueKeeps(px, p);
    hide Registry.Sound, Afar, Registry.Extends;
    if p in px.infos && px.infos[p].queue != [] {
      var info := px.infos[p].(queue := px.infos[p].queue[1..]);
      assert forall i :: 0 <= i < |info.queue| ==> info.queue[i] == px.infos[p].queue[i + 1];
      RecordForeign(cfg, px, p, info, Proxy.Dequeue(px, p));
    }
  }

  lemma EnqueueOrderly(cfg: Config, px: Proxy.State, p: nat, r: Request)
    requires Orderly(cfg, px) && Afar(cfg, px, r) && r.callId in px.chains
    ensures Orderly(cfg, Proxy.Enqueue(px, p, r))
  {
    assert r.pid in px.infos;
    if p in px.infos {
      Registry.EnqueueKeeps(px, p, r);
      hide Registry.Sound, Afar, Registry.Extends;
      RecordForeign(cfg, px, p, px.infos[p].(queue := px.infos[p].queue + [r]), Proxy.Enqueue(px, p, r));
    }
  }

  lemma ChainsOrderly(cfg: Config, px: Proxy.State, py: Proxy.State)
    requires Orderly(cfg, px) && Registry.Sound(py) && py.infos == px.infos
    ensures Orderly(cfg, py)
  {
    hide Registry.Sound, Offers;
    forall q, i | q in py.infos && 0 <= i < |py.infos[q].queue| ensures Afar(cfg, py, py.infos[q].queue[i]) {
      assert Afar(cfg, px, px.infos[q].queue[i]);
    }
  }

  lemma PushOrderly(cfg: Config, px: Proxy.State, c: Text, callee: nat)
    requires Orderly(cfg, px) && c in px.chains && callee in px.infos
    ensures Orderly(cfg, Proxy.Push(px, c, callee))
  {
    hide ForeignQueues;
    Registry.ChainKeeps(px, c, px.chains[c] + [callee]) by {
      assert forall i :: 0 <= i < |px.chains[c]| ==> px.chains[c][i] in px.infos;
    }
    hide Registry.Sound;
    ChainsOrderly(cfg, px, Proxy.Push(px, c, callee));
  }

  lemma RootOrderly(cfg: Config, px: Proxy.State, c: Text, p: nat)
    requires Orderly(cfg, px) && p in px.infos
    ensures Orderly(cfg, Proxy.Root(px, c, p)) && c in Proxy.Root(px, c, p).chains
    ensures Proxy.Root(px, c, p).infos == px.infos
  {
    Registry.RootKeeps(px, c, p);
    hide Registry.Sound;
    ChainsOrderly(cfg, px, Proxy.Root(px, c, p));
  }

  /** Forwarding, up to the write, keeps it. */
  lemma ForwardOrderly(cfg: Config, px: Proxy.State, r: Request, callee: nat)
    requires Orderly(cfg, px) && Afar(cfg, px, r) && r.callId in px.chains && callee in px.infos
    ensures Orderly(cfg, Proxy.Forward(px, r, callee).0)
  {
    var px1 := Proxy.Update(px, r.pid, r.callId, true);
    assert r.callId in px1.chains && callee in px1.infos && Afar(cfg, px1, r);
    var px2 := Proxy.Push(px1, r.callId, callee);
    assert r.callId in px2.chains && Afar(cfg, px2, r);
    hide Orderly, Afar, Proxy.Update, Proxy.Push, Proxy.Enqueue;
    UpdateOrderly(cfg, px, r.pid, r.callId, true);
    PushOrderly(cfg, px1, r.callId, callee);
    EnqueueOrderly(cfg, px2, callee, r);
    UpdateOrderly(cfg, px2, callee, r.callId, false);
  }

  lemma QueuedKnown(cfg: Config, px: Proxy.State, p: nat)
    requires Orderly(cfg, px) && p in px.infos && px.infos[p].queue != []
    ensures var r := px.infos[p].queue[0]; r.callId in px.chains && Afar(cfg, Proxy.Dequeue(px, p), r)
    ensures Proxy.Dequeue(px, p).chains == px.chains
  {
    assert Registry.QueueResolved(px, px.infos[p].queue);
    assert Afar(cfg, px, px.infos[p].queue[0]);
    hide Registry.Registered;
  }

  lemma DispatchOrderly(cfg: Config, px: Proxy.State, p: nat)
    requires Orderly(cfg, px) && IndexAgrees(cfg)
    ensures Orderly(cfg, Proxy.Dispatch(cfg.owner, px, p).0)
  {
    if p in px.infos && px.infos[p].queue != [] && !px.infos[p].waiting {
      var r, px1 := px.infos[p].queue[0], Proxy.Dequeue(px, p);
      DequeueOrderly(cfg, px, p);
      QueuedKnown(cfg, px, p);
      RouteOrderly(cfg, px1, r);
      hide Orderly, Proxy.Route, Proxy.Dequeue;
    }
  }

  lemma RouteOrderly(cfg: Config, px: Proxy.State, r: Request)
    requires Orderly(cfg, px) && Afar(cfg, px, r) && r.callId in px.chains
    ensures Orderly(cfg, Proxy.Route(cfg.owner, px, r).0)
  {
    assert r.pid in px.infos;
    Registry.RouteOutcome(cfg.owner, px, r);
    hide Orderly, Afar, Proxy.Forward, Proxy.Loops, Registry.Engaged;
    var out := Proxy.Route(cfg.owner, px, r).1;
    if r.service in cfg.owner {
      var group := Proxy.Group(px, cfg.owner[r.service]);
      if group != [] && !Proxy.Loops(px, group, r.callId) {
        var callee := Proxy.Least(px, group);
        if callee in px.infos {
          ForwardOrderly(cfg, px, r, callee);
        }
      }
    }
  }

  lemma ReadFinds(env: Env, s: Sys, p: nat, ok: bool)
    requires Enabled(env, s, ReadUp(p, ok))
    ensures p in s.net && s.net[p].up != []
    ensures Found(env, s, ReadUp(p, ok)) ==
            match s.net[p].up[0]
            case Req(r) => [Proxy.Enqueue(Proxy.Root(s.px, r.callId, r.pid), r.pid, r)]
            case Resp(_) => []
  {
    hide Proxy.Enqueue, Proxy.Root;
  }

  lemma AnsweringFinds(env: Env, s: Sys, p: nat, ok: bool)
    requires p in s.net && s.net[p].pc.Answering? && Enabled(env, s, Resume(p, ok))
    ensures var self, c := s.net[p].pc.self, s.net[p].pc.callId;
            var px1 := Proxy.Update(s.px, self, [], false);
            || Found(env, s, Resume(p, ok)) == [px1]
            || Found(env, s, Resume(p, ok)) == [px1, WakeFinds(Proxy.Dispatch(env.cfg.owner, px1, self).0, c)]
  {
    hide Proxy.Update, Proxy.Dispatch, WakeFinds;
  }

  lemma SendingFinds(env: Env, s: Sys, p: nat, ok: bool)
    requires p in s.net && s.net[p].pc.Sending? && Enabled(env, s, Resume(p, ok))
    ensures var pc := s.net[p].pc;
            || Found(env, s, Resume(p, ok)) == []
            || (pc.after.Caller? && Found(env, s, Resume(p, ok)) ==
                [WakeFinds(if pc.ok then s.px else Proxy.WriteFailed(s.px, pc.req, pc.callee), pc.after.callId)])
  {
    hide Proxy.WriteFailed, WakeFinds;
  }

  lemma ResumeFound(env: Env, s: Sys, p: nat, ok: bool, k: nat)
    requires Orderly(env.cfg, s.px) && IndexAgrees(env.cfg)
    requires Enabled(env, s, Resume(p, ok)) && k < |Found(env, s, Resume(p, ok))|
    ensures Orderly(env.cfg, Found(env, s, Resume(p, ok))[k])
  {
    assert p in s.net && !s.net[p].pc.Reading?;
    hide *;
    var pc := s.net[p].pc;
    if pc.Answering? {
      AnsweringFinds(env, s, p, ok);
      AnsweringFound(env, s.px, pc.self, pc.callId);
    } else {
      SendingFinds(env, s, p, ok);
      if pc.after.Caller? {
        SendingFound(env.cfg, s.px, pc.req, pc.callee, pc.ok, pc.after.callId);
      }
    }
  }

  lemma StartsOrderly(cfg: Config, s: Sys)
    requires Homes(cfg, s) && Directory.Listed(cfg, s) && Accounting.Accounted(s)
    ensures Orderly(cfg, s.px)
  {
    QueuesAreForeign(cfg, s);
    hide Registry.Sound, ForeignQueues, Directory.NodeListed, Homes, Accounting.Accounted;
  }

  lemma NodeIsListed(cfg: Config, s: Sys, p: nat)
    requires Directory.Listed(cfg, s) && p in s.net
    ensures Directory.NodeListed(cfg, s.px, p, s.net[p])
  {
    hide Registry.Sound, Directory.NodeListed;
  }

  lemma FoundOrderly(env: Env, s: Sys, e: Event, k: nat)
    requires Homes(env.cfg, s) && Directory.Listed(env.cfg, s) && Accounting.Accounted(s) && IndexAgrees(env.cfg)
    requires Enabled(env, s, e) && k < |Found(env, s, e)|
    ensures Orderly(env.cfg, Found(env, s, e)[k])
  {
    hide *;
    StartsOrderly(env.cfg, s);
    if e.ReadUp? {
      ReadFinds(env, s, e.p, e.ok);
      NodeIsListed(env.cfg, s, e.p);
      ReadFound(env.cfg, s, e.p);
    } else if e.Resume? {
      ResumeFound(env, s, e.p, e.ok, k);
    } else {
      OthersFind(env, s, e);
    }
  }

  lemma OthersFind(env: Env, s: Sys, e: Event)
    requires Enabled(env, s, e) && !e.ReadUp? && !e.Resume?
    ensures |Found(env, s, e)| == 0
  {
  }

  lemma AnsweringFound(env: Env, px: Proxy.State, self: nat, c: Text)
    requires Orderly(env.cfg, px) && IndexAgrees(env.cfg)
    ensures var px1 := Proxy.Update(px, self, [], false);
            && Orderly(env.cfg, px1)
            && Orderly(env.cfg, WakeFinds(Proxy.Dispatch(env.cfg.owner, px1, self).0, c))
  {
    hide *;
    var px1 := Proxy.Update(px, self, [], false);
    UpdateOrderly(env.cfg, px, self, [], false);
    DispatchOrderly(env.cfg, px1, self);
    WakeOrderly(env.cfg, Proxy.Dispatch(env.cfg.owner, px1, self).0, c);
  }

  lemma SendingFound(cfg: Config, px: Proxy.State, req: Request, callee: nat, sent: bool, c: Text)
    requires Orderly(cfg, px)
    ensures Orderly(cfg, WakeFinds(if sent then px else Proxy.WriteFailed(px, req, callee), c))
  {
    hide Orderly, Proxy.Update, WakeFinds;
    UpdateOrderly(cfg, px, req.pid, [], false);
    UpdateOrderly(cfg, Proxy.Update(px, req.pid, [], false), callee, [], false);
    WakeOrderly(cfg, if sent then px else Proxy.WriteFailed(px, req, callee), c);
  }

  lemma WakeOrderly(cfg: Config, px: Proxy.State, c: Text)
    requires Orderly(cfg, px)
    ensures Orderly(cfg, WakeFinds(px, c))
  {
    hide Orderly, Proxy.Update;
    var chain := Proxy.Chain(px, c);
    if chain != [] {
      UpdateOrderly(cfg, px, chain[|chain| - 1], c, false);
    }
  }

  lemma ReadFound(cfg: Config, s: Sys, p: nat)
    requires Orderly(cfg, s.px) && Homes(cfg, s) && p in s.net && s.net[p].up != []
    requires Directory.NodeListed(cfg, s.px, p, s.net[p])
    ensures s.net[p].up[0].Req? ==>
              var r := s.net[p].up[0].req; Orderly(cfg, Proxy.Enqueue(Proxy.Root(s.px, r.callId, r.pid), r.pid, r))
  {
    if s.net[p].up[0].Req? {
      var r := s.net[p].up[0].req;
      HeadIsForeign(cfg, s, p);
      assert r.pid == p;
      assert Afar(cfg, s.px, r);
      RootOrderly(cfg, s.px, r.callId, p);
      assert Afar(cfg, Proxy.Root(s.px, r.callId, p), r);
      hide Orderly, Homes, Proxy.Root, Proxy.Enqueue, Afar;
      EnqueueOrderly(cfg, Proxy.Root(s.px, r.callId, p), p, r);
    }
  }

  /** What a cached and a sent outcome say of the records the dispatch found. */
  ghost predicate CachedOnlyBehind(px: Proxy.State, out: Proxy.Outcome) {
    && (out.Cached? ==> out.callee in px.infos && px.infos[out.callee].waiting
                        && px.infos[out.callee].callId != out.req.callId && out.callee != out.req.pid)
    && (out.Sent? ==> out.callee in px.infos && !px.infos[out.callee].waiting)
  }

  lemma DispatchBehind(cfg: Config, px: Proxy.State, p: nat)
    requires Orderly(cfg, px) && IndexAgrees(cfg)
    ensures CachedOnlyBehind(px, Proxy.Dispatch(cfg.owner, px, p).1)
  {
    CachedBehindAnother(cfg, px, p);
    hide Registry.Sound, ForeignQueues, Proxy.Dispatch;
  }

  /** Each outcome of a step is that of a dispatch, for `p`, on what it found. */
  lemma OutcomeIsDispatch(env: Env, s: Sys, e: Event, k: nat) returns (p: nat)
    requires Enabled(env, s, e) && k < |Outcomes(env, s, e)|
    ensures Outcomes(env, s, e)[k].Quiet?
         || Outcomes(env, s, e)[k] == Proxy.Dispatch(env.cfg.owner, Found(env, s, e)[k], p).1
  {
    hide Proxy.Dispatch, Proxy.Update, Proxy.Enqueue, Proxy.Root, Proxy.WriteFailed;
    match e {
      case ReadUp(q, _) => p := s.net[q].up[0].req.pid;
      case Resume(q, _) =>
        match s.net[q].pc {
          case Answering(self, c) =>
            p := self;
            if k == 1 {
              p := EndOf(Proxy.Dispatch(env.cfg.owner, Proxy.Update(s.px, self, [], false), self).0, c);
            }
          case Sending(req, callee, sent, after) =>
            p := EndOf(if sent then s.px else Proxy.WriteFailed(s.px, req, callee), after.callId);
        }
    }
  }

  function EndOf(px: Proxy.State, c: Text): nat {
    var chain := Proxy.Chain(px, c);
    if chain == [] then 0 else chain[|chain| - 1]
  }

  lemma StepCachesBehind(env: Env, s: Sys, e: Event, k: nat)
    requires Homes(env.cfg, s) && Directory.Listed(env.cfg, s) && Accounting.Accounted(s) && IndexAgrees(env.cfg)
    requires Enabled(env, s, e) && k < |Outcomes(env, s, e)|
    ensures CachedOnlyBehind(Found(env, s, e)[k], Outcomes(env, s, e)[k])
  {
    FoundOrderly(env, s, e, k);
    var p := OutcomeIsDispatch(env, s, e, k);
    DispatchBehind(env.cfg, Found(env, s, e)[k], p);
    hide Homes, Accounting.Accounted, Directory.Listed, IndexAgrees, Orderly, Outcomes, Found, Proxy.Dispatch, Enabled;
  }

  /** In any run, whenever a dispatch of a step caches a request, the callee waits on
      another call; and whenever it sends one, the callee does not wait. */
  lemma CachedOnlyBehindAnother(env: Env, states: seq<Sys>, events: seq<Event>, i: nat, k: nat)
    requires IndexAgrees(env.cfg) && Run(env, states, events) && i < |events|
    requires Enabled(env, states[i], events[i]) && k < |Outcomes(env, states[i], events[i])|
    ensures CachedOnlyBehind(Found(env, states[i], events[i])[k], Outcomes(env, states[i], events[i])[k])
  {
    assert |states| == |events| + 1;
    hide *;
    Directory.ListedAlways(env, states, events);
    HomesAlways(env, states, events, i);
    Accounting.AccountedAlways(env, states, events);
    StepCachesBehind(env, states[i], events[i], k);
  }

  // --------------------------------------------------------- one call at a time

  /** A record that waits, if at all, on call `c`, and has only requests on it. */
  ghost predicate OnlyOn(info: Proxy.Info, c: Text) {
    && (info.waiting ==> info.callId == c)
    && forall i :: 0 <= i < |info.queue| ==> info.queue[i].callId == c
  }

  ghost predicate OneCall(px: Proxy.State, c: Text) {
    forall p :: p in px.infos ==> OnlyOn(px.infos[p], c)
  }

  ghost predicate OneAtATime(cfg: Config, px: Proxy.State, c: Text) {
    Registry.Sound(px) && ForeignQueues(cfg, px) && OneCall(px, c)
  }

  /** One record changes, and its backlog is of requests from afar. */
  lemma RecordForeign(cfg: Config, px: Proxy.State, p: nat, info: Proxy.Info, py: Proxy.State)
    requires ForeignQueues(cfg, px) && p in px.infos && Registry.Extends(px, py) && py.infos == px.infos[p := info]
    requires forall i :: 0 <= i < |info.queue| ==> Afar(cfg, px, info.queue[i])
    ensures ForeignQueues(cfg, py)
  {
    hide Offers;
    forall q, i | q in py.infos && 0 <= i < |py.infos[q].queue| ensures Afar(cfg, py, py.infos[q].queue[i]) {
      if q == p {
        assert Afar(cfg, px, info.queue[i]);
      } else {
        assert Afar(cfg, px, px.infos[q].queue[i]);
      }
    }
  }

  lemma RecordDirect(cfg: Config, px: Proxy.State, p: nat, info: Proxy.Info, py: Proxy.State, c: Text)
    requires ForeignQueues(cfg, px) && OneCall(px, c) && p in px.infos && Registry.Extends(px, py)
    requires py.infos == px.infos[p := info] && OnlyOn(info, c)
    requires forall i :: 0 <= i < |info.queue| ==> Afar(cfg, px, info.queue[i])
    ensures ForeignQueues(cfg, py) && OneCall(py, c)
  {
    RecordForeign(cfg, px, p, info, py);
    hide OnlyOn, Offers, ForeignQueues;
  }

  lemma DequeueDirect(cfg: Config, px: Proxy.State, p: nat, c: Text)
    requires OneAtATime(cfg, px, c)
    ensures OneAtATime(cfg, Proxy.Dequeue(px, p), c)
  {
    Registry.DequeueKeeps(px, p);
    hide Registry.Sound, Afar, Registry.Extends;
    if p in px.infos && px.infos[p].queue != [] {
      var info := px.infos[p].(queue := px.infos[p].queue[1..]);
      assert OnlyOn(px.infos[p], c);
      assert forall i :: 0 <= i < |info.queue| ==> info.queue[i] == px.infos[p].queue[i + 1];
      RecordDirect(cfg, px, p, info, Proxy.Dequeue(px, p), c);
    }
  }

  lemma UpdateDirect(cfg: Config, px: Proxy.State, p: nat, c: Text, d: Text)
    requires OneAtATime(cfg, px, c)
    ensures OneAtATime(cfg, Proxy.Update(px, p, d, false), c)
  {
    Registry.UpdateKeeps(px, p, d, false);
    hide Registry.Sound, Afar, Registry.Extends;
    if p in px.infos {
      assert OnlyOn(px.infos[p], c);
      RecordDirect(cfg, px, p, px.infos[p].(callId := d, waiting := false), Proxy.Update(px, p, d, false), c);
    }
  }

  lemma EnqueueDirect(cfg: Config, px: Proxy.State, r: Request)
    requires OneAtATime(cfg, px, r.callId) && Afar(cfg, px, r) && r.callId in px.chains
    ensures OneAtATime(cfg, Proxy.Enqueue(px, r.pid, r), r.callId)
  {
    Registry.EnqueueKeeps(px, r.pid, r);
    assert r.pid in px.infos && OnlyOn(px.infos[r.pid], r.callId);
    hide Registry.Sound, Afar, Registry.Extends;
    RecordDirect(cfg, px, r.pid, px.infos[r.pid].(queue := px.infos[r.pid].queue + [r]), Proxy.Enqueue(px, r.pid, r),
                 r.callId);
  }

  lemma RootDirect(cfg: Config, px: Proxy.State, c: Text, p: nat)
    requires OneAtATime(cfg, px, c) && p in px.infos
    ensures OneAtATime(cfg, Proxy.Root(px, c, p), c) && c in Proxy.Root(px, c, p).chains
    ensures Proxy.Root(px, c, p).infos == px.infos
  {
    Registry.RootKeeps(px, c, p);
    hide Registry.Sound, Offers, OnlyOn;
    forall q, i | q in px.infos && 0 <= i < |px.infos[q].queue|
      ensures Afar(cfg, Proxy.Root(px, c, p), px.infos[q].queue[i]) {
      assert Afar(cfg, px, px.infos[q].queue[i]);
    }
  }

  lemma DispatchDirect(cfg: Config, px: Proxy.State, p: nat, c: Text)
    requires OneAtATime(cfg, px, c) && IndexAgrees(cfg)
    ensures var (py, out) := Proxy.Dispatch(cfg.owner, px, p);
            !out.Cached? && (!out.Sent? ==> OneAtATime(cfg, py, c))
  {
    CachedBehindAnother(cfg, px, p);
    DequeueDirect(cfg, px, p, c);
    hide Registry.Sound, Proxy.Dispatch, IndexAgrees, ForeignQueues, Proxy.Dequeue;
  }

  lemma WakeDirect(env: Env, px: Proxy.State, c: Text, d: Text)
    requires OneAtATime(env.cfg, px, c) && IndexAgrees(env.cfg)
    ensures !WakeOutcome(env, px, d).Cached?
  {
    var chain := Proxy.Chain(px, d);
    if chain != [] {
      hide OneAtATime, Proxy.Update, Proxy.Dispatch, IndexAgrees;
      var q := chain[|chain| - 1];
      UpdateDirect(env.cfg, px, q, c, d);
      DispatchDirect(env.cfg, Proxy.Update(px, q, d, false), q, c);
    }
  }

  lemma ReadDirect(cfg: Config, px: Proxy.State, r: Request)
    requires OneAtATime(cfg, px, r.callId) && IndexAgrees(cfg) && Afar(cfg, px, r)
    ensures !Proxy.ReadRequest(cfg.owner, px, r).1.Cached?
  {
    assert r.pid in px.infos;
    RootDirect(cfg, px, r.callId, r.pid);
    var px1 := Proxy.Root(px, r.callId, r.pid);
    assert Afar(cfg, px1, r);
    hide OneAtATime, IndexAgrees, Proxy.Dispatch, Proxy.Enqueue, Proxy.Root, Afar;
    EnqueueDirect(cfg, px1, r);
    DispatchDirect(cfg, Proxy.Enqueue(px1, r.pid, r), r.pid, r.callId);
  }

  lemma ResumeDirect(env: Env, s: Sys, h: nat, ok: bool, c: Text)
    requires OneAtATime(env.cfg, s.px, c) && IndexAgrees(env.cfg) && Enabled(env, s, Resume(h, ok))
    ensures Direct(env, s, Resume(h, ok))
  {
    hide OneAtATime, IndexAgrees, Proxy.Update, Proxy.Dispatch, WakeOutcome;
    match s.net[h].pc
    case Reading =>
    case Answering(self, d) =>
      var px1 := Proxy.Update(s.px, self, [], false);
      UpdateDirect(env.cfg, s.px, self, c, []);
      DispatchDirect(env.cfg, px1, self, c);
      var r := Proxy.Dispatch(env.cfg.owner, px1, self);
      if !r.1.Sent? {
        WakeDirect(env, r.0, c, d);
      }
    case Sending(req, callee, sent, after) =>
      UpdateDirect(env.cfg, s.px, req.pid, c, []);
      UpdateDirect(env.cfg, Proxy.Update(s.px, req.pid, [], false), callee, c, []);
      if after.Caller? {
        WakeDirect(env, if sent then s.px else Proxy.WriteFailed(s.px, req, callee), c, after.callId);
      }
  }

  /** Only call `c` is active: no record waits on another and every request the
      proxy holds, or is about to read, is on it. */
  ghost predicate OneActive(s: Sys, c: Text) {
    && OneCall(s.px, c)
    && forall p :: p in s.net && s.net[p].up != [] && s.net[p].up[0].Req? ==> s.net[p].up[0].req.callId == c
  }

  lemma StepDirect(env: Env, s: Sys, e: Event, c: Text)
    requires Homes(env.cfg, s) && Directory.Listed(env.cfg, s) && Accounting.Accounted(s) && IndexAgrees(env.cfg)
    requires OneActive(s, c) && Enabled(env, s, e)
    ensures Direct(env, s, e)
  {
    hide Homes, IndexAgrees, Registry.Sound, Accounting.Accounted, OneCall, Proxy.ReadRequest;
    QueuesAreForeign(env.cfg, s);
    match e
    case ReadUp(p, _) =>
      if s.net[p].up[0].Req? {
        assert Directory.NodeListed(env.cfg, s.px, p, s.net[p]);
        HeadIsForeign(env.cfg, s, p);
        ReadDirect(env.cfg, s.px, s.net[p].up[0].req);
      }
    case Resume(p, ok) => ResumeDirect(env, s, p, ok, c);
    case _ =>
  }

  lemma HeadIsForeign(cfg: Config, s: Sys, p: nat)
    requires Homes(cfg, s) && p in s.net && s.net[p].up != [] && s.net[p].up[0].Req?
    ensures !Offers(cfg, s.net[p].proc.name, s.net[p].up[0].req.service)
  {
    assert UpForeign(cfg, s.net[p].proc.name, s.net[p].up);
  }

  /** In any run, a step taken while one call is active is direct. */
  lemma SequentialStepIsDirect(env: Env, states: seq<Sys>, events: seq<Event>, i: nat, c: Text)
    requires IndexAgrees(env.cfg) && Run(env, states, events) && i < |events| && OneActive(states[i], c)
    ensures Enabled(env, states[i], events[i]) && Direct(env, states[i], events[i])
  {
    hide Homes, Accounting.Accounted, Directory.Listed, IndexAgrees, OneActive, Apply, Direct;
    HomesAlways(env, states, events, i);
    Accounting.AccountedAlways(env, states, events);
    StepDirect(env, states[i], events[i], c);
  }

  /** Besides, every handler suspended in a response is on call `c`. */
  ghost predicate OneServed(s: Sys, c: Text) {
    OneActive(s, c) && forall h :: h in s.net && s.net[h].pc.Answering? ==> s.net[h].pc.callId == c
  }

  /** Nobody is let go late if the end of the chain waits, if at all, on its call: what
      line 614 could check before it lets the actor go. */
  lemma SameCallMayGo(px: Proxy.State, c: Text)
    requires var chain := Proxy.Chain(px, c);
             chain != [] && chain[|chain| - 1] in px.infos ==>
               !px.infos[chain[|chain| - 1]].waiting || px.infos[chain[|chain| - 1]].callId == c
    ensures MayLetGo(px, c)
  {
  }

  lemma LoweredOnCall(px: Proxy.State, self: nat, c: Text)
    requires OneCall(px, c)
    ensures MayLetGo(Proxy.Update(px, self, [], false), c)
  {
    var py := Proxy.Update(px, self, [], false);
    forall p | p in py.infos ensures py.infos[p].waiting ==> py.infos[p].callId == c {
      assert OnlyOn(px.infos[p], c);
    }
    SameCallMayGo(py, c);
  }

  lemma ServedTimely(s: Sys, e: Event, c: Text)
    requires OneServed(s, c)
    ensures Timely(s, e)
  {
    hide OneCall, MayLetGo, Proxy.Update;
    if e.Resume? && e.p in s.net && s.net[e.p].pc.Answering? {
      LoweredOnCall(s.px, s.net[e.p].pc.self, c);
    }
  }

  /** A fault-free run in which one call is active at a time, `calls` says which, is
      timely, so smooth: sequential workloads need no other hypothesis. */
  lemma SequentialRunIsTimely(env: Env, states: seq<Sys>, events: seq<Event>, calls: seq<Text>)
    requires IndexAgrees(env.cfg) && Run(env, states, events) && |calls| == |events|
    requires forall i :: 0 <= i < |events| ==>
               OneServed(states[i], calls[i]) && FaultFree(events[i]) && NoWrap(states[i], events[i])
    ensures TimelyRun(env, states, events)
  {
    hide IndexAgrees, OneActive, Apply, Direct, FaultFree, NoWrap, Timely, Enabled;
    forall i | 0 <= i < |events|
      ensures Enabled(env, states[i], events[i]) && Smooth(env, states[i], events[i]) && Timely(states[i], events[i]) {
      SequentialStepIsDirect(env, states, events, i, calls[i]);
      ServedTimely(states[i], events[i], calls[i]);
    }
  }
}
