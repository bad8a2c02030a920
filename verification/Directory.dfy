/** Invariants of every run, whatever is cached, fails or races: the registry
    agrees with itself and with the processes, every pid resolves, and what the
    proxy forwards the receiver offers. */
module Directory {
  import opened Protocol
  import opened S = System
  import opened Registry
  import Proxy

  ghost predicate PcResolved(px: Proxy.State, pc: Pc) {
    match pc
    case Reading => true
    case Answering(self, c) => self in px.infos && c in px.chains
    case Sending(req, callee, _, after) =>
      req.pid in px.infos && callee in px.infos && (after.Caller? ==> after.callId in px.chains)
  }

  /** Requests carry the pid of the link they are on. */
  ghost predicate UpResolved(p: nat, up: seq<Frame>) {
    forall i :: 0 <= i < |up| && up[i].Req? ==> up[i].req.pid == p
  }

  /** What comes over the proxy link is for a service of this process. */
  ghost predicate Supported(cfg: Config, n: Node) {
    && (forall i :: 0 <= i < |n.down| && n.down[i].Req? ==> Offers(cfg, n.proc.name, n.down[i].req.service))
    && (forall i :: 0 <= i < |n.proc.queue| && n.proc.queue[i].origin.Unix? ==>
          Offers(cfg, n.proc.name, n.proc.queue[i].service))
  }

  ghost predicate NodeListed(cfg: Config, px: Proxy.State, p: nat, n: Node) {
    && p in px.infos && px.infos[p].name == n.proc.name
    && PcResolved(px, n.pc) && UpResolved(p, n.up) && Supported(cfg, n)
  }

  ghost predicate Listed(cfg: Config, s: Sys) {
    && Sound(s.px)
    && s.px.infos.Keys == s.net.Keys
    && forall p :: p in s.net ==> NodeListed(cfg, s.px, p, s.net[p])
  }

  lemma ProxyKeeps(cfg: Config, s: Sys, py: Proxy.State)
    requires Listed(cfg, s) && Sound(py) && Extends(s.px, py)
    ensures Listed(cfg, s.(px := py))
  {
    hide Registered, Resolved, Supported, UpResolved;
    forall p | p in s.net ensures NodeListed(cfg, py, p, s.net[p]) {
      assert NodeListed(cfg, s.px, p, s.net[p]);
    }
  }

  lemma NodeKeeps(cfg: Config, s: Sys, p: nat, n: Node)
    requires Listed(cfg, s) && p in s.net && NodeListed(cfg, s.px, p, n)
    ensures Listed(cfg, s.(net := s.net[p := n]))
  {
    hide Registered, Resolved, Supported, UpResolved;
  }

  lemma PcKeeps(cfg: Config, s: Sys, p: nat, pc: Pc)
    requires Listed(cfg, s) && p in s.net && PcResolved(s.px, pc)
    ensures Listed(cfg, SetPc(s, p, pc))
  {
    hide Registered, Resolved, UpResolved;
    assert NodeListed(cfg, s.px, p, s.net[p]);
    NodeKeeps(cfg, s, p, s.net[p].(pc := pc));
  }

  lemma DeliverKeeps(cfg: Config, s: Sys, p: nat, f: Frame)
    requires Listed(cfg, s)
    requires f.Req? && p in s.px.infos ==> Offers(cfg, s.px.infos[p].name, f.req.service)
    ensures Listed(cfg, Deliver(s, p, f))
  {
    hide Registered, Resolved, UpResolved;
    if p in s.net {
      assert NodeListed(cfg, s.px, p, s.net[p]);
      NodeKeeps(cfg, s, p, s.net[p].(down := s.net[p].down + [f]));
    }
  }

  /** The request a dispatch takes resolves, and its callee owns the service. */
  ghost predicate Addressed(cfg: Config, px: Proxy.State, out: Proxy.Outcome) {
    && (!out.Quiet? ==> out.req.pid in px.infos && out.req.callId in px.chains)
    && (out.Cached? || out.Sent? ==>
          out.callee in px.infos && Offers(cfg, px.infos[out.callee].name, out.req.service))
  }

  lemma DispatchAddressed(cfg: Config, px: Proxy.State, p: nat)
    requires Sound(px) && IndexAgrees(cfg)
    ensures var (py, out) := Proxy.Dispatch(cfg.owner, px, p);
            Sound(py) && Extends(px, py) && Addressed(cfg, px, out)
  {
    hide Registered;
    DispatchKeeps(cfg.owner, px, p);
    if p in px.infos && px.infos[p].queue != [] && !px.infos[p].waiting {
      assert QueueResolved(px, px.infos[p].queue);
      var req := px.infos[p].queue[0];
      assert req == px.infos[p].queue[0];
      DequeueKeeps(px, p);
      hide Resolved;
      RouteOutcome(cfg.owner, Proxy.Dequeue(px, p), req);
    }
  }

  /** A dispatch result laid into the system it came from. */
  lemma DispatchedKeeps(cfg: Config, s: Sys, h: nat, r: (Proxy.State, Proxy.Outcome), ok: bool, after: After)
    requires Listed(cfg, s) && h in s.net
    requires Sound(r.0) && Extends(s.px, r.0) && Addressed(cfg, r.0, r.1)
    requires after.Caller? ==> after.callId in s.px.chains
    ensures Listed(cfg, Dispatched(s, h, r, ok, after))
  {
    hide Sound, NodeListed, Recorded;
    var s1 := s.(px := r.0, hist := Recorded(s.hist, r.1, ok));
    ProxyKeeps(cfg, s, r.0);
    assert Listed(cfg, s1);
    if r.1.Sent? {
      var s2 := if ok then Deliver(s1, r.1.callee, Req(r.1.req)) else s1;
      if ok {
        DeliverKeeps(cfg, s1, r.1.callee, Req(r.1.req));
      }
      PcKeeps(cfg, s2, h, Sending(r.1.req, r.1.callee, ok, after));
    } else {
      PcKeeps(cfg, s1, h, Reading);
    }
  }

  lemma WakeCallerKeeps(env: Env, s: Sys, h: nat, c: Text, ok: bool)
    requires Listed(env.cfg, s) && h in s.net && IndexAgrees(env.cfg)
    ensures Listed(env.cfg, WakeCaller(env, s, h, c, ok))
  {
    hide Registered, Resolved, NodeListed, Proxy.Dispatch, Dispatched, IndexAgrees;
    var chain := Proxy.Chain(s.px, c);
    if chain == [] {
      PcKeeps(env.cfg, s, h, Reading);
    } else {
      var q := chain[|chain| - 1];
      var px1 := Proxy.Update(s.px, q, c, false);
      UpdateKeeps(s.px, q, c, false);
      DispatchAddressed(env.cfg, px1, q);
      DispatchedKeeps(env.cfg, s, h, Proxy.Dispatch(env.cfg.owner, px1, q), ok, Done);
    }
  }

  lemma WakeSelfKeeps(env: Env, s: Sys, h: nat, self: nat, c: Text, ok: bool)
    requires Listed(env.cfg, s) && h in s.net && IndexAgrees(env.cfg) && c in s.px.chains
    ensures Listed(env.cfg, WakeSelf(env, s, h, self, c, ok))
  {
    hide Registered, Resolved, NodeListed, Proxy.Dispatch, Dispatched, WakeCaller, Recorded, IndexAgrees;
    var px1 := Proxy.Update(s.px, self, [], false);
    UpdateKeeps(s.px, self, [], false);
    DispatchAddressed(env.cfg, px1, self);
    var r := Proxy.Dispatch(env.cfg.owner, px1, self);
    if r.1.Sent? {
      DispatchedKeeps(env.cfg, s, h, r, ok, Caller(c));
    } else {
      ProxyKeeps(env.cfg, s, r.0);
      WakeCallerKeeps(env, s.(px := r.0, hist := Recorded(s.hist, r.1, ok)), h, c, ok);
    }
  }

  lemma ReadRequestAddressed(cfg: Config, px: Proxy.State, req: Request)
    requires Sound(px) && IndexAgrees(cfg) && req.pid in px.infos
    ensures var (py, out) := Proxy.ReadRequest(cfg.owner, px, req);
            Sound(py) && Extends(px, py) && Addressed(cfg, py, out)
  {
    hide Registered, Resolved, Proxy.Dispatch, IndexAgrees, Offers;
    if req.callId !in px.chains {
      ChainKeeps(px, req.callId, [req.pid]);
    }
    var px1 := Proxy.Root(px, req.callId, req.pid);
    assert Sound(px1) && Extends(px, px1);
    var px2 := Proxy.Enqueue(px1, req.pid, req);
    EnqueueKeeps(px1, req.pid, req);
    DispatchAddressed(cfg, px2, req.pid);
  }

  lemma ReadResponseKeeps(cfg: Config, s: Sys, h: nat, resp: Response, ok: bool)
    requires Listed(cfg, s) && h in s.net
    ensures Listed(cfg, ReadResponse(s, h, resp, ok))
  {
    hide Registered, NodeListed;
    var chain := Proxy.Chain(s.px, resp.callId);
    if |chain| >= 2 {
      var self, caller := chain[|chain| - 1], chain[|chain| - 2];
      assert s.px.chains[resp.callId][|chain| - 1] in s.px.infos;
      var py := Proxy.PopChain(s.px, resp.callId);
      PopChainKeeps(s.px, resp.callId);
      hide Resolved;
      ProxyKeeps(cfg, s, py);
      var s1 := s.(px := py, hist := s.hist.(answered := s.hist.answered + multiset{resp.callId}));
      assert Listed(cfg, s1);
      var s2 := if ok then Deliver(s1, caller, Resp(resp)) else s1;
      if ok {
        DeliverKeeps(cfg, s1, caller, Resp(resp));
      }
      PcKeeps(cfg, s2, h, Answering(self, resp.callId));
    }
  }

  lemma PopUpKeeps(cfg: Config, px: Proxy.State, p: nat, n: Node)
    requires NodeListed(cfg, px, p, n) && n.up != []
    ensures NodeListed(cfg, px, p, n.(up := n.up[1..])) && (n.up[0].Req? ==> n.up[0].req.pid == p)
  {
    hide PcResolved;
    assert forall i :: 0 <= i < |n.up| - 1 ==> n.up[1..][i] == n.up[i + 1];
  }

  lemma ReadRequestKeepsListed(env: Env, s: Sys, p: nat, req: Request, ok: bool)
    requires Listed(env.cfg, s) && IndexAgrees(env.cfg) && p in s.net && req.pid == p
    ensures Listed(env.cfg, S.ReadRequest(env, s, p, req, ok))
  {
    hide Registered, Resolved, NodeListed, Proxy.ReadRequest, Dispatched, IndexAgrees;
    ReadRequestAddressed(env.cfg, s.px, req);
    var s1 := s.(hist := s.hist.(read := s.hist.read + multiset{req}));
    assert Listed(env.cfg, s1);
    DispatchedKeeps(env.cfg, s1, p, Proxy.ReadRequest(env.cfg.owner, s.px, req), ok, Done);
  }

  lemma PoppedListed(cfg: Config, s: Sys, p: nat)
    requires Listed(cfg, s) && p in s.net && s.net[p].up != []
    ensures Listed(cfg, PopUp(s, p)) && (s.net[p].up[0].Req? ==> s.net[p].up[0].req.pid == p)
  {
    hide Sound, NodeListed;
    PopUpKeeps(cfg, s.px, p, s.net[p]);
    NodeKeeps(cfg, s, p, s.net[p].(up := s.net[p].up[1..]));
  }

  lemma ReadUpKeeps(env: Env, s: Sys, p: nat, ok: bool)
    requires p in s.net && s.net[p].up != [] && Listed(env.cfg, s) && IndexAgrees(env.cfg)
    ensures Listed(env.cfg, ReadUpStep(env, s, p, ok))
  {
    hide Listed, NodeListed, Sound, S.ReadRequest, ReadResponse, IndexAgrees;
    PoppedListed(env.cfg, s, p);
    match s.net[p].up[0]
    case Req(req) => ReadRequestKeepsListed(env, PopUp(s, p), p, req, ok);
    case Resp(resp) => ReadResponseKeeps(env.cfg, PopUp(s, p), p, resp, ok);
  }

  lemma ResumeKeeps(env: Env, s: Sys, p: nat, ok: bool)
    requires p in s.net && Listed(env.cfg, s) && IndexAgrees(env.cfg)
    ensures Listed(env.cfg, ResumeStep(env, s, p, ok))
  {
    hide Registered, Resolved, Supported, UpResolved, WakeSelf, WakeCaller, Proxy.WriteFailed, IndexAgrees;
    assert NodeListed(env.cfg, s.px, p, s.net[p]);
    match s.net[p].pc
    case Reading =>
    case Answering(self, c) => WakeSelfKeeps(env, s, p, self, c, ok);
    case Sending(req, callee, sent, after) =>
      var px1 := if sent then s.px else Proxy.WriteFailed(s.px, req, callee);
      WriteFailedKeeps(s.px, req, callee);
      ProxyKeeps(env.cfg, s, px1);
      match after {
        case Done => PcKeeps(env.cfg, s.(px := px1), p, Reading);
        case Caller(c) => WakeCallerKeeps(env, s.(px := px1), p, c, ok);
      }
  }

  lemma ActSupported(env: Env, p: nat, n: Node, ok: bool)
    requires n.proc.job.Some? && Supported(env.cfg, n) && UpResolved(p, n.up)
    ensures var m := ActNode(env, p, n, ok);
            Supported(env.cfg, m) && UpResolved(p, m.up) && m.pc == n.pc && m.proc.name == n.proc.name
  {
  }

  lemma TakeSupported(env: Env, n: Node)
    requires n.proc.queue != [] && Supported(env.cfg, n)
    ensures var m := TakeNode(env, n);
            Supported(env.cfg, m) && m.up == n.up && m.pc == n.pc && m.proc.name == n.proc.name
  {
  }

  lemma ReceiveSupported(cfg: Config, n: Node)
    requires n.down != [] && Supported(cfg, n)
    ensures var m := ReceiveNode(n);
            Supported(cfg, m) && m.up == n.up && m.pc == n.pc && m.proc.name == n.proc.name
  {
    var m := ReceiveNode(n);
    assert forall i :: 0 <= i < |m.down| ==> m.down[i] == n.down[i + 1];
    assert n.down[0].Req? ==> Offers(cfg, n.proc.name, n.down[0].req.service);
  }

  lemma CloseKeeps(proc: Proc, o: Origin)
    ensures Close(proc, o).name == proc.name && Close(proc, o).queue == proc.queue
  {
  }

  lemma ActorKeeps(env: Env, s: Sys, e: Event)
    requires Listed(env.cfg, s) && Enabled(env, s, e) && (e.Arrive? || e.HangUp? || e.Receive? || e.Take? || e.Act?)
    ensures Listed(env.cfg, Apply(env, s, e))
  {
    hide Sound, Complete, StartSend, RefuseSend, UpResolved, IsOpen, Close, ActNode, TakeNode, ReceiveNode;
    var n := s.net[e.p];
    assert NodeListed(env.cfg, s.px, e.p, n);
    match e {
      case Receive(p) => hide Supported; ReceiveSupported(env.cfg, n);
      case Take(p) => hide Supported; TakeSupported(env, n);
      case Act(p, ok) => hide Supported; ActSupported(env, p, n, ok);
      case Arrive(p, msg) =>
      case HangUp(p, conn) => CloseKeeps(n.proc, Tcp(conn));
    }
    NodeKeeps(env.cfg, s, e.p, Apply(env, s, e).net[e.p]);
  }

  /** Registry agreement and support, one step. */
  lemma ListedKept(env: Env, s: Sys, e: Event)
    requires Listed(env.cfg, s) && IndexAgrees(env.cfg) && Enabled(env, s, e)
    ensures Listed(env.cfg, Apply(env, s, e))
  {
    match e
    case Connect(p, name) =>
      ConnectKeeps(s.px, p, name);
      var t := Apply(env, s, e);
      forall q | q in t.net ensures NodeListed(env.cfg, t.px, q, t.net[q]) {
        if q != p {
          assert NodeListed(env.cfg, s.px, q, s.net[q]);
        }
      }
    case ReadUp(p, ok) => ReadUpKeeps(env, s, p, ok);
    case Resume(p, ok) => ResumeKeeps(env, s, p, ok);
    case _ => ActorKeeps(env, s, e);
  }

  /** Registry agreement and support in every reachable state. */
  lemma {:induction false} ListedAlways(env: Env, states: seq<Sys>, events: seq<Event>)
    requires IndexAgrees(env.cfg) && Run(env, states, events)
    ensures forall i :: 0 <= i < |states| ==> Listed(env.cfg, states[i])
  {
    if events != [] {
      var k := |events| - 1;
      ListedAlways(env, states[..k + 1], events[..k]);
      assert Listed(env.cfg, states[..k + 1][k]);
      ListedKept(env, states[k], events[k]);
      forall i | 0 <= i < |states| ensures Listed(env.cfg, states[i]) {
        assert i <= k ==> states[..k + 1][i] == states[i];
      }
    }
  }
}
