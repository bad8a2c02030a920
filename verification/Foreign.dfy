/** Invariants of every run about who sends what: processes are configured actor
    nodes, and no request the proxy reads is for a service of its own sender. */
module Foreign {
  import opened Protocol
  import opened S = System
  import Directory
  import Proxy

  // ------------------------------------------------ the proxy touches no process

  /** Same processes, same links to the proxy, same requests read. */
  ghost predicate Untouched(s: Sys, t: Sys) {
    && t.net.Keys == s.net.Keys && t.hist.read == s.hist.read
    && forall p :: p in s.net ==> t.net[p].proc == s.net[p].proc && t.net[p].up == s.net[p].up
  }

  lemma RecordedRead(h: History, out: Proxy.Outcome, ok: bool)
    ensures Recorded(h, out, ok).read == h.read
  {
  }

  lemma DispatchedUntouched(s: Sys, h: nat, r: (Proxy.State, Proxy.Outcome), ok: bool, after: After)
    requires h in s.net
    ensures Untouched(s, Dispatched(s, h, r, ok, after))
  {
    RecordedRead(s.hist, r.1, ok);
    hide Recorded;
  }

  lemma WakeCallerUntouched(env: Env, s: Sys, h: nat, c: Text, ok: bool)
    requires h in s.net
    ensures Untouched(s, WakeCaller(env, s, h, c, ok))
  {
    var chain := Proxy.Chain(s.px, c);
    if chain != [] {
      hide Dispatched, Proxy.Dispatch, Proxy.Update;
      var q := chain[|chain| - 1];
      DispatchedUntouched(s, h, Proxy.Dispatch(env.cfg.owner, Proxy.Update(s.px, q, c, false), q), ok, Done);
    }
  }

  lemma WakeSelfUntouched(env: Env, s: Sys, h: nat, self: nat, c: Text, ok: bool)
    requires h in s.net
    ensures Untouched(s, WakeSelf(env, s, h, self, c, ok))
  {
    var r := Proxy.Dispatch(env.cfg.owner, Proxy.Update(s.px, self, [], false), self);
    hide Dispatched, Proxy.Dispatch, Proxy.Update, WakeCaller;
    if r.1.Sent? {
      DispatchedUntouched(s, h, r, ok, Caller(c));
    } else {
      WakeCallerUntouched(env, s.(px := r.0, hist := Recorded(s.hist, r.1, ok)), h, c, ok);
    }
  }

  lemma ResumeUntouched(env: Env, s: Sys, h: nat, ok: bool)
    requires h in s.net
    ensures Untouched(s, ResumeStep(env, s, h, ok))
  {
    hide WakeSelf, WakeCaller, Proxy.WriteFailed;
    match s.net[h].pc
    case Reading =>
    case Answering(self, c) => WakeSelfUntouched(env, s, h, self, c, ok);
    case Sending(req, callee, sent, after) =>
      var s1 := if sent then s else s.(px := Proxy.WriteFailed(s.px, req, callee));
      match after {
        case Done =>
        case Caller(c) => WakeCallerUntouched(env, s1, h, c, ok);
      }
  }

  lemma ReadResponseUntouched(s: Sys, h: nat, resp: Response, ok: bool)
    requires h in s.net
    ensures Untouched(s, ReadResponse(s, h, resp, ok))
  {
  }

  lemma ReadRequestUntouched(env: Env, s: Sys, h: nat, req: Request, ok: bool)
    requires h in s.net
    ensures Untouched(s.(hist := s.hist.(read := s.hist.read + multiset{req})), S.ReadRequest(env, s, h, req, ok))
  {
    hide Dispatched, Proxy.ReadRequest;
    DispatchedUntouched(s.(hist := s.hist.(read := s.hist.read + multiset{req})), h,
                        Proxy.ReadRequest(env.cfg.owner, s.px, req), ok, Done);
  }

  // ------------------------------------------------------------ the invariant

  ghost predicate UpForeign(cfg: Config, name: Text, up: seq<Frame>) {
    forall i :: 0 <= i < |up| && up[i].Req? ==> !Offers(cfg, name, up[i].req.service)
  }

  /** The request comes from a process that does not offer its service. */
  ghost predicate FromElsewhere(cfg: Config, net: map<nat, Node>, r: Request) {
    r.pid in net && !Offers(cfg, net[r.pid].proc.name, r.service)
  }

  ghost predicate Homes(cfg: Config, s: Sys) {
    && (forall p :: p in s.net ==>
          s.net[p].proc.name in cfg.services && UpForeign(cfg, s.net[p].proc.name, s.net[p].up))
    && forall r :: r in s.hist.read ==> FromElsewhere(cfg, s.net, r)
  }

  lemma UntouchedKeeps(cfg: Config, s: Sys, t: Sys)
    requires Homes(cfg, s) && Untouched(s, t)
    ensures Homes(cfg, t)
  {
    hide UpForeign;
    forall r | r in t.hist.read ensures FromElsewhere(cfg, t.net, r) {
      assert FromElsewhere(cfg, s.net, r);
    }
  }

  lemma ActUp(env: Env, p: nat, n: Node, ok: bool)
    requires n.proc.job.Some? && UpForeign(env.cfg, n.proc.name, n.up)
    ensures var m := ActNode(env, p, n, ok); m.proc.name == n.proc.name && UpForeign(env.cfg, n.proc.name, m.up)
  {
    hide IsOpen, Sent;
  }

  lemma ActorUp(env: Env, s: Sys, e: Event)
    requires Enabled(env, s, e) && (e.Arrive? || e.HangUp? || e.Receive? || e.Take? || e.Act?)
    requires UpForeign(env.cfg, s.net[e.p].proc.name, s.net[e.p].up)
    ensures var t := Apply(env, s, e);
            && e.p in t.net && t == s.(net := s.net[e.p := t.net[e.p]])
            && t.net[e.p].proc.name == s.net[e.p].proc.name && UpForeign(env.cfg, t.net[e.p].proc.name, t.net[e.p].up)
  {
    hide UpForeign, ActNode, IsOpen;
    if e.Act? {
      ActUp(env, e.p, s.net[e.p], e.ok);
    }
  }

  /** One process changes, and neither its name nor what it asks for elsewhere. */
  lemma NodeHomes(cfg: Config, s: Sys, p: nat, m: Node)
    requires Homes(cfg, s) && p in s.net && m.proc.name == s.net[p].proc.name && UpForeign(cfg, m.proc.name, m.up)
    ensures Homes(cfg, s.(net := s.net[p := m]))
  {
    hide UpForeign;
    var t := s.(net := s.net[p := m]);
    forall r | r in t.hist.read ensures FromElsewhere(cfg, t.net, r) {
      assert FromElsewhere(cfg, s.net, r);
    }
  }

  lemma ActorHomes(env: Env, s: Sys, e: Event)
    requires Homes(env.cfg, s) && Enabled(env, s, e) && (e.Arrive? || e.HangUp? || e.Receive? || e.Take? || e.Act?)
    ensures Homes(env.cfg, Apply(env, s, e))
  {
    assert e.p in s.net && UpForeign(env.cfg, s.net[e.p].proc.name, s.net[e.p].up);
    hide Homes, Apply, UpForeign, Enabled;
    ActorUp(env, s, e);
    NodeHomes(env.cfg, s, e.p, Apply(env, s, e).net[e.p]);
  }

  lemma PopHomes(cfg: Config, s: Sys, p: nat)
    requires Homes(cfg, s) && p in s.net && s.net[p].up != []
    ensures Homes(cfg, PopUp(s, p))
    ensures s.net[p].up[0].Req? ==> !Offers(cfg, s.net[p].proc.name, s.net[p].up[0].req.service)
  {
    var n := s.net[p];
    var m := n.(up := n.up[1..]);
    assert UpForeign(cfg, n.proc.name, n.up);
    assert forall i :: 0 <= i < |m.up| ==> m.up[i] == n.up[i + 1];
    assert UpForeign(cfg, n.proc.name, m.up);
    hide Homes, UpForeign, Offers;
    NodeHomes(cfg, s, p, m);
  }

  lemma CountHomes(cfg: Config, s: Sys, r: Request)
    requires Homes(cfg, s) && FromElsewhere(cfg, s.net, r)
    ensures Homes(cfg, s.(hist := s.hist.(read := s.hist.read + multiset{r})))
  {
    hide UpForeign, FromElsewhere;
  }

  lemma ReadHomes(env: Env, s: Sys, p: nat, ok: bool)
    requires Homes(env.cfg, s) && Directory.Listed(env.cfg, s) && p in s.net && s.net[p].up != []
    ensures Homes(env.cfg, ReadUpStep(env, s, p, ok))
  {
    var s1 := PopUp(s, p);
    assert s1.net[p].proc == s.net[p].proc && p in s1.net;
    hide Homes, Directory.Listed, UpForeign, S.ReadRequest, ReadResponse, PopUp, Offers;
    Directory.PoppedListed(env.cfg, s, p);
    PopHomes(env.cfg, s, p);
    match s.net[p].up[0]
    case Req(req) =>
      CountHomes(env.cfg, s1, req);
      ReadRequestUntouched(env, s1, p, req, ok);
      var s2 := s1.(hist := s1.hist.(read := s1.hist.read + multiset{req}));
      UntouchedKeeps(env.cfg, s2, S.ReadRequest(env, s1, p, req, ok));
    case Resp(resp) =>
      ReadResponseUntouched(s1, p, resp, ok);
      UntouchedKeeps(env.cfg, s1, ReadResponse(s1, p, resp, ok));
  }

  lemma ConnectHomes(env: Env, s: Sys, p: nat, name: Text)
    requires Homes(env.cfg, s) && Enabled(env, s, Connect(p, name))
    ensures Homes(env.cfg, Apply(env, s, Connect(p, name)))
  {
    hide Proxy.Connect;
    var t := Apply(env, s, Connect(p, name));
    forall r | r in t.hist.read ensures FromElsewhere(env.cfg, t.net, r) {
      assert FromElsewhere(env.cfg, s.net, r);
    }
  }

  lemma HomesKept(env: Env, s: Sys, e: Event)
    requires Homes(env.cfg, s) && Directory.Listed(env.cfg, s) && Enabled(env, s, e)
    ensures Homes(env.cfg, Apply(env, s, e))
  {
    hide Homes, Directory.Listed, ReadUpStep, ResumeStep;
    match e
    case Connect(p, name) => ConnectHomes(env, s, p, name);
    case ReadUp(p, ok) => ReadHomes(env, s, p, ok);
    case Resume(p, ok) =>
      ResumeUntouched(env, s, p, ok);
      UntouchedKeeps(env.cfg, s, ResumeStep(env, s, p, ok));
    case _ => ActorHomes(env, s, e);
  }

  /** In every run: only configured actor nodes connect, and a request the proxy
      reads is never for a service of the process that sent it. */
  lemma {:induction false} HomesAlways(env: Env, states: seq<Sys>, events: seq<Event>, i: nat)
    requires IndexAgrees(env.cfg) && Run(env, states, events) && i < |states|
    ensures Homes(env.cfg, states[i]) && Directory.Listed(env.cfg, states[i])
  {
    Directory.ListedAlways(env, states, events);
    if i == 0 {
      hide Directory.Listed;
    } else {
      hide Homes, Directory.Listed, Enabled, Apply;
      HomesAlways(env, states, events, i - 1);
      HomesKept(env, states[i - 1], events[i - 1]);
    }
  }
}
