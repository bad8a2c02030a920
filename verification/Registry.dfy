/** What every operation of the proxy keeps about its three maps. */
module Registry {
  import opened Protocol
  import Proxy

  /** The pid map and the per-name lists hold the same records, each once and
      under its own name (src/coro_actor.cpp:530-536). */
  ghost predicate Registered(px: Proxy.State) {
    && (forall n, i {:trigger Proxy.Group(px, n)[i]} :: 0 <= i < |Proxy.Group(px, n)| ==>
          Proxy.Group(px, n)[i] in px.infos && px.infos[Proxy.Group(px, n)[i]].name == n)
    && (forall p :: p in px.infos ==> p in Proxy.Group(px, px.infos[p].name))
    && (forall n, i, j :: 0 <= i < j < |Proxy.Group(px, n)| ==> Proxy.Group(px, n)[i] != Proxy.Group(px, n)[j])
  }

  ghost predicate QueueResolved(px: Proxy.State, queue: seq<Request>) {
    forall i :: 0 <= i < |queue| ==> queue[i].pid in px.infos && queue[i].callId in px.chains
  }

  /** Every chain is rooted, and every pid in a chain or a backlog resolves. */
  ghost predicate Resolved(px: Proxy.State) {
    && (forall c :: c in px.chains ==> px.chains[c] != [])
    && (forall c, i :: c in px.chains && 0 <= i < |px.chains[c]| ==> px.chains[c][i] in px.infos)
    && (forall p :: p in px.infos ==> QueueResolved(px, px.infos[p].queue))
  }

  ghost predicate Sound(px: Proxy.State) {
    Registered(px) && Resolved(px)
  }

  /** `py` registers the same records under the same names, and forgets no chain. */
  ghost predicate Extends(px: Proxy.State, py: Proxy.State) {
    && px.chains.Keys <= py.chains.Keys
    && px.infos.Keys == py.infos.Keys
    && px.groups == py.groups
    && (forall p :: p in px.infos ==> px.infos[p].name == py.infos[p].name)
  }

  lemma ConnectRegisters(px: Proxy.State, p: nat, name: Text)
    requires Registered(px) && p !in px.infos
    ensures Registered(Proxy.Connect(px, p, name))
  {
    var py := Proxy.Connect(px, p, name);
    var group := Proxy.Group(px, name);
    assert Proxy.Group(py, name) == group + [p];
    assert forall n :: n != name ==> Proxy.Group(py, n) == Proxy.Group(px, n);
    assert p !in group;
    forall n, i | 0 <= i < |Proxy.Group(py, n)|
      ensures Proxy.Group(py, n)[i] in py.infos && py.infos[Proxy.Group(py, n)[i]].name == n {
      if i < |Proxy.Group(px, n)| {
        assert Proxy.Group(py, n)[i] == Proxy.Group(px, n)[i];
      }
    }
    forall q | q in py.infos ensures q in Proxy.Group(py, py.infos[q].name) {
      assert q != p ==> q in Proxy.Group(px, px.infos[q].name);
    }
    forall n, i, j | 0 <= i < j < |Proxy.Group(py, n)| ensures Proxy.Group(py, n)[i] != Proxy.Group(py, n)[j] {
      assert Proxy.Group(px, n)[i] in px.infos;
    }
  }

  lemma ConnectKeeps(px: Proxy.State, p: nat, name: Text)
    requires Sound(px) && p !in px.infos
    ensures Sound(Proxy.Connect(px, p, name))
  {
    ConnectRegisters(px, p, name);
    var py := Proxy.Connect(px, p, name);
    forall q | q in py.infos ensures QueueResolved(py, py.infos[q].queue) {
      if q != p {
        assert QueueResolved(px, px.infos[q].queue);
      }
    }
  }

  lemma ExtendsRegistered(px: Proxy.State, py: Proxy.State)
    requires Registered(px) && Extends(px, py)
    ensures Registered(py)
  {
    forall n ensures Proxy.Group(py, n) == Proxy.Group(px, n) {}
    forall p | p in py.infos ensures p in Proxy.Group(py, py.infos[p].name) {
      assert p in Proxy.Group(px, px.infos[p].name);
    }
  }

  /** Any change of one record that keeps its name and a resolved backlog. */
  lemma InfoKeeps(px: Proxy.State, p: nat, info: Proxy.Info)
    requires Sound(px) && p in px.infos && info.name == px.infos[p].name && QueueResolved(px, info.queue)
    ensures Sound(px.(infos := px.infos[p := info])) && Extends(px, px.(infos := px.infos[p := info]))
  {
    var py := px.(infos := px.infos[p := info]);
    ExtendsRegistered(px, py);
    forall q | q in py.infos ensures QueueResolved(py, py.infos[q].queue) {
      assert q != p ==> QueueResolved(px, px.infos[q].queue);
    }
  }

  lemma UpdateKeeps(px: Proxy.State, p: nat, c: Text, w: bool)
    requires Sound(px)
    ensures Sound(Proxy.Update(px, p, c, w)) && Extends(px, Proxy.Update(px, p, c, w))
  {
    if p in px.infos {
      assert QueueResolved(px, px.infos[p].queue);
      InfoKeeps(px, p, px.infos[p].(callId := c, waiting := w));
    }
  }

  lemma EnqueueKeeps(px: Proxy.State, p: nat, req: Request)
    requires Sound(px) && req.pid in px.infos && req.callId in px.chains
    ensures Sound(Proxy.Enqueue(px, p, req)) && Extends(px, Proxy.Enqueue(px, p, req))
  {
    if p in px.infos {
      assert QueueResolved(px, px.infos[p].queue);
      InfoKeeps(px, p, px.infos[p].(queue := px.infos[p].queue + [req]));
    }
  }

  lemma DequeueKeeps(px: Proxy.State, p: nat)
    requires Sound(px)
    ensures Sound(Proxy.Dequeue(px, p)) && Extends(px, Proxy.Dequeue(px, p))
  {
    if p in px.infos && px.infos[p].queue != [] {
      assert QueueResolved(px, px.infos[p].queue);
      InfoKeeps(px, p, px.infos[p].(queue := px.infos[p].queue[1..]));
    }
  }

  /** Any change of one chain to another rooted list of known pids. */
  lemma ChainKeeps(px: Proxy.State, c: Text, chain: seq<nat>)
    requires Sound(px) && chain != [] && forall i :: 0 <= i < |chain| ==> chain[i] in px.infos
    ensures Sound(px.(chains := px.chains[c := chain])) && Extends(px, px.(chains := px.chains[c := chain]))
  {
    var py := px.(chains := px.chains[c := chain]);
    ExtendsRegistered(px, py);
    forall q | q in py.infos ensures QueueResolved(py, py.infos[q].queue) {
      assert QueueResolved(px, px.infos[q].queue);
    }
  }

  lemma RootKeeps(px: Proxy.State, c: Text, p: nat)
    requires Sound(px) && p in px.infos
    ensures Sound(Proxy.Root(px, c, p)) && Extends(px, Proxy.Root(px, c, p))
    ensures c in Proxy.Root(px, c, p).chains && Proxy.Root(px, c, p).infos == px.infos
  {
    if c !in px.chains {
      ChainKeeps(px, c, [p]);
    }
  }

  lemma ForwardKeeps(px: Proxy.State, req: Request, callee: nat)
    requires Sound(px) && req.pid in px.infos && callee in px.infos && req.callId in px.chains
    ensures Sound(Proxy.Forward(px, req, callee).0) && Extends(px, Proxy.Forward(px, req, callee).0)
  {
    var px0 := Proxy.Update(px, req.pid, req.callId, true);
    UpdateKeeps(px, req.pid, req.callId, true);
    ChainKeeps(px0, req.callId, px0.chains[req.callId] + [callee]);
    var px1 := Proxy.Push(px0, req.callId, callee);
    EnqueueKeeps(px1, callee, req);
    UpdateKeeps(px1, callee, req.callId, false);
  }

  lemma LeastKnown(px: Proxy.State, name: Text)
    requires Registered(px) && Proxy.Group(px, name) != []
    ensures Proxy.Least(px, Proxy.Group(px, name)) in px.infos
  {
    GroupMembers(px, name, Proxy.Least(px, Proxy.Group(px, name)));
  }

  lemma RouteKeeps(owner: map<Text, Text>, px: Proxy.State, req: Request)
    requires Sound(px) && req.pid in px.infos && req.callId in px.chains
    ensures Sound(Proxy.Route(owner, px, req).0) && Extends(px, Proxy.Route(owner, px, req).0)
  {
    assert Sound(px) && Extends(px, px) && Registered(px);
    hide Sound, Registered, Extends, Proxy.Forward, Proxy.Least, Proxy.Loops, Proxy.Group;
    if req.service in owner && Proxy.Group(px, owner[req.service]) != [] {
      LeastKnown(px, owner[req.service]);
      ForwardKeeps(px, req, Proxy.Least(px, Proxy.Group(px, owner[req.service])));
    }
  }

  lemma DispatchKeeps(owner: map<Text, Text>, px: Proxy.State, p: nat)
    requires Sound(px)
    ensures Sound(Proxy.Dispatch(owner, px, p).0) && Extends(px, Proxy.Dispatch(owner, px, p).0)
  {
    if p in px.infos && px.infos[p].queue != [] {
      assert QueueResolved(px, px.infos[p].queue);
      var req := px.infos[p].queue[0];
      assert req == px.infos[p].queue[0];
      DequeueKeeps(px, p);
      RouteKeeps(owner, Proxy.Dequeue(px, p), req);
    }
  }

  lemma PopChainKeeps(px: Proxy.State, c: Text)
    requires Sound(px) && |Proxy.Chain(px, c)| >= 2
    ensures Sound(Proxy.PopChain(px, c)) && Extends(px, Proxy.PopChain(px, c))
  {
    ChainKeeps(px, c, px.chains[c][..|px.chains[c]| - 1]);
  }

  lemma WriteFailedKeeps(px: Proxy.State, req: Request, callee: nat)
    requires Sound(px)
    ensures Sound(Proxy.WriteFailed(px, req, callee)) && Extends(px, Proxy.WriteFailed(px, req, callee))
  {
    UpdateKeeps(px, req.pid, [], false);
    UpdateKeeps(Proxy.Update(px, req.pid, [], false), callee, [], false);
  }

  /** A group lists exactly the records of its name. */
  lemma GroupMembers(px: Proxy.State, name: Text, q: nat)
    requires Registered(px)
    ensures q in Proxy.Group(px, name) <==> q in px.infos && px.infos[q].name == name
  {
    if q in Proxy.Group(px, name) {
      var i :| 0 <= i < |Proxy.Group(px, name)| && Proxy.Group(px, name)[i] == q;
    }
  }

  /** Some record of actor node `name` carries call id `c`. */
  ghost predicate Engaged(px: Proxy.State, name: Text, c: Text) {
    exists q :: q in px.infos && px.infos[q].name == name && px.infos[q].callId == c
  }

  lemma LoopsIsEngaged(px: Proxy.State, name: Text, c: Text)
    requires Registered(px)
    ensures Proxy.Loops(px, Proxy.Group(px, name), c) <==> Engaged(px, name, c)
  {
    var group := Proxy.Group(px, name);
    if Engaged(px, name, c) {
      var q :| q in px.infos && px.infos[q].name == name && px.infos[q].callId == c;
      GroupMembers(px, name, q);
      var i :| 0 <= i < |group| && group[i] == q;
    }
    if Proxy.Loops(px, group, c) {
      var i :| 0 <= i < |group| && group[i] in px.infos && px.infos[group[i]].callId == c;
      GroupMembers(px, name, group[i]);
    }
  }

  /** Where a request goes, or which of three reasons it is dropped for; it is
      cached exactly behind a callee that waits, the requester included. */
  ghost predicate RoutedAs(owner: map<Text, Text>, px: Proxy.State, req: Request, py: Proxy.State, out: Proxy.Outcome) {
    && !out.Quiet? && out.req == req
    && match out
       case Quiet => true
       case Dropped(_, reason) =>
         && py == px
         && (reason.UnknownService? <==> req.service !in owner)
         && (reason.NoProvider? <==> req.service in owner && Proxy.Group(px, owner[req.service]) == [])
         && (reason.Circular? <==> req.service in owner && Engaged(px, owner[req.service], req.callId))
       case _ =>
         && req.service in owner
         && out.callee in px.infos && px.infos[out.callee].name == owner[req.service]
         && !Engaged(px, owner[req.service], req.callId)
         && py.chains == px.chains[req.callId := Proxy.Chain(px, req.callId) + [out.callee]]
         && (out.Cached? <==> out.callee == req.pid || px.infos[out.callee].waiting)
  }

  lemma RouteOutcome(owner: map<Text, Text>, px: Proxy.State, req: Request)
    requires Registered(px) && req.pid in px.infos
    ensures RoutedAs(owner, px, req, Proxy.Route(owner, px, req).0, Proxy.Route(owner, px, req).1)
  {
    if req.service in owner {
      var name := owner[req.service];
      var group := Proxy.Group(px, name);
      LoopsIsEngaged(px, name, req.callId);
      if group != [] {
        GroupMembers(px, name, Proxy.Least(px, group));
      }
    }
  }

  /** Position `k` has the smallest backlog, and those before it have more. */
  ghost predicate LightestAt(px: Proxy.State, group: seq<nat>, k: nat) {
    && k < |group|
    && (forall j :: 0 <= j < |group| ==> Proxy.Backlog(px, group[k]) <= Proxy.Backlog(px, group[j]))
    && (forall j :: 0 <= j < k ==> Proxy.Backlog(px, group[k]) < Proxy.Backlog(px, group[j]))
  }

  lemma LightestNext(px: Proxy.State, group: seq<nat>, k: nat, q: nat)
    requires LightestAt(px, group, k)
    ensures var more := group + [q];
            if Proxy.Backlog(px, q) < Proxy.Backlog(px, group[k]) then LightestAt(px, more, |group|)
            else LightestAt(px, more, k)
  {
    hide Proxy.Backlog;
    var more := group + [q];
    assert forall j :: 0 <= j < |group| ==> more[j] == group[j];
  }

  lemma {:induction false} LeastIsLightest(px: Proxy.State, group: seq<nat>) returns (k: nat)
    requires group != []
    ensures LightestAt(px, group, k) && group[k] == Proxy.Least(px, group)
  {
    var last := |group| - 1;
    k := 0;
    if last > 0 {
      k := LeastIsLightest(px, group[..last]);
      LightestNext(px, group[..last], k, group[last]);
      hide LightestAt, Proxy.Backlog;
      assert group[..last] + [group[last]] == group;
      if Proxy.Backlog(px, group[last]) < Proxy.Backlog(px, group[k]) {
        k := last;
      }
    }
  }

  /** A request that is not dropped goes to the first of the processes of its node with
      the fewest requests in their backlogs. */
  lemma RouteBalances(owner: map<Text, Text>, px: Proxy.State, req: Request)
    ensures var out := Proxy.Route(owner, px, req).1;
            out.Cached? || out.Sent? ==>
              && req.service in owner
              && var group := Proxy.Group(px, owner[req.service]);
                 exists k: nat :: LightestAt(px, group, k) && group[k] == out.callee
  {
    hide LightestAt, Proxy.Loops, Proxy.Least;
    if req.service in owner && Proxy.Group(px, owner[req.service]) != [] {
      var k := LeastIsLightest(px, Proxy.Group(px, owner[req.service]));
    }
  }
}
