/** The proxy's routing object: three maps over shared records that its handlers
    update in place (include/coro_actor.h:51-69, 179-186; src/coro_actor.cpp:392-397,
    519-705). Every method is proved against the functions of module Proxy. */
module Router {
  import opened Protocol
  import Proxy

  /** `actor_info`; `open` is whether its socket is. */
  class ActorInfo {
    const name: Text
    const pid: nat
    var waiting: bool
    var callId: Text
    var queue: seq<Request>
    var open: bool

    constructor (name: Text, pid: nat)
      ensures this.name == name && this.pid == pid && !waiting && callId == [] && queue == [] && open
    {
      this.name, this.pid, waiting, callId, queue, open := name, pid, false, [], [], true;
    }

    ghost function Info(): Proxy.Info
      reads this
    {
      Proxy.Info(name, waiting, callId, queue)
    }
  }

  ghost function Pids(list: seq<ActorInfo>): (pids: seq<nat>)
    ensures |pids| == |list| && forall i :: 0 <= i < |list| ==> pids[i] == list[i].pid
  {
    if list == [] then [] else Pids(list[..|list| - 1]) + [list[|list| - 1].pid]
  }

  lemma PidsSnoc(list: seq<ActorInfo>, a: ActorInfo)
    ensures Pids(list + [a]) == Pids(list) + [a.pid]
  {
    assert (list + [a])[..|list|] == list;
  }

  // -------------------------------------------------- the maps and their values

  type PidMap = map<nat, ActorInfo>

  type ListMap = map<Text, seq<ActorInfo>>

  ghost function Infos(pidMap: PidMap): map<nat, Proxy.Info>
    reads pidMap.Values
  {
    map p | p in pidMap :: pidMap[p].Info()
  }

  ghost function Chains(m: ListMap): map<Text, seq<nat>> {
    map c | c in m :: Pids(m[c])
  }

  /** A group made by a mere lookup, with nobody in it, is no group. */
  ghost function Groups(m: ListMap): map<Text, seq<nat>> {
    map n | n in m && m[n] != [] :: Pids(m[n])
  }

  lemma PushIs(px: Proxy.State, m: ListMap, c: Text, af: ActorInfo)
    requires px.chains == Chains(m)
    ensures var list := if c in m then m[c] else [];
            Proxy.Push(px, c, af.pid) == px.(chains := Chains(m[c := list + [af]]))
  {
    PidsSnoc(if c in m then m[c] else [], af);
  }

  lemma JoinIs(px: Proxy.State, m: ListMap, n: Text, af: ActorInfo)
    requires px.groups == Groups(m)
    ensures var list := if n in m then m[n] else [];
            px.groups[n := Proxy.Group(px, n) + [af.pid]] == Groups(m[n := list + [af]])
  {
    PidsSnoc(if n in m then m[n] else [], af);
  }

  lemma PopIs(px: Proxy.State, m: ListMap, c: Text)
    requires px.chains == Chains(m) && c in m && m[c] != []
    ensures Proxy.PopChain(px, c) == px.(chains := Chains(m[c := m[c][..|m[c]| - 1]]))
  {
    assert Pids(m[c])[..|m[c]| - 1] == Pids(m[c][..|m[c]| - 1]);
  }

  /** Looking up a group makes an empty one if there is none. */
  lemma GroupMade(m: ListMap, n: Text)
    requires n !in m
    ensures Groups(m[n := []]) == Groups(m)
  {
  }

  /** The record is the one registered under its pid. */
  ghost predicate Known(pidMap: PidMap, af: ActorInfo) {
    af.pid in pidMap && pidMap[af.pid] == af
  }

  ghost predicate AllKnown(pidMap: PidMap, m: ListMap) {
    forall c, i :: c in m && 0 <= i < |m[c]| ==> Known(pidMap, m[c][i])
  }

  lemma KnownSnoc(pidMap: PidMap, m: ListMap, c: Text, af: ActorInfo)
    requires AllKnown(pidMap, m) && Known(pidMap, af)
    ensures AllKnown(pidMap, m[c := (if c in m then m[c] else []) + [af]])
  {
    hide Known;
    var list := if c in m then m[c] else [];
    var more := m[c := list + [af]];
    forall d, i | d in more && 0 <= i < |more[d]| ensures Known(pidMap, more[d][i]) {
      if d == c && i < |list| {
        assert Known(pidMap, m[c][i]);
      }
    }
  }

  lemma KnownPopped(pidMap: PidMap, m: ListMap, c: Text)
    requires AllKnown(pidMap, m) && c in m && m[c] != []
    ensures AllKnown(pidMap, m[c := m[c][..|m[c]| - 1]]) && Known(pidMap, m[c][|m[c]| - 1])
  {
    hide Known;
    var more := m[c := m[c][..|m[c]| - 1]];
    forall d, i | d in more && 0 <= i < |more[d]| ensures Known(pidMap, more[d][i]) {
      assert more[d][i] == m[d][i];
    }
  }

  lemma KnownMore(pidMap: PidMap, af: ActorInfo, m: ListMap)
    requires AllKnown(pidMap, m) && af.pid !in pidMap
    ensures AllKnown(pidMap[af.pid := af], m)
  {
    forall d, i | d in m && 0 <= i < |m[d]| ensures Known(pidMap[af.pid := af], m[d][i]) {
      assert Known(pidMap, m[d][i]);
    }
  }

  /** No socket has been closed, and every queued request comes from a registered
      process. */
  ghost predicate Settled(pidMap: PidMap, af: ActorInfo)
    reads af
  {
    af.open && forall i :: 0 <= i < |af.queue| ==> af.queue[i].pid in pidMap
  }

  // -------------------------------------------------------------- selection

  /** The entries whose socket is open, in order. */
  ghost function Open(list: seq<ActorInfo>): seq<ActorInfo>
    reads list
  {
    if list == [] then [] else
      var last := list[|list| - 1];
      Open(list[..|list| - 1]) + if last.open then [last] else []
  }

  ghost function ClosedPids(list: seq<ActorInfo>): set<nat>
    reads list
  {
    set a | a in list && !a.open :: a.pid
  }

  /** An open entry is known to work on call `c`. */
  ghost predicate Loops(list: seq<ActorInfo>, c: Text)
    reads list
  {
    exists i :: 0 <= i < |list| && list[i].open && list[i].callId == c
  }

  /** `a` is the earliest of the entries with the smallest backlog. */
  ghost predicate Earliest(list: seq<ActorInfo>, a: ActorInfo)
    reads list
  {
    exists k :: 0 <= k < |list| && list[k] == a
      && (forall j :: 0 <= j < |list| ==> |list[k].queue| <= |list[j].queue|)
      && (forall j :: 0 <= j < k ==> |list[k].queue| < |list[j].queue|)
  }

  /** The entry of a prefix stays the earliest when one more is looked at. */
  lemma EarliestSnoc(list: seq<ActorInfo>, a: ActorInfo, b: ActorInfo)
    requires list == [] || Earliest(list, a)
    ensures Earliest(list + [b], if list == [] || |b.queue| < |a.queue| then b else a)
  {
    var more := list + [b];
    if list == [] || |b.queue| < |a.queue| {
      assert more[|list|] == b;
    } else {
      var k :| 0 <= k < |list| && list[k] == a
        && (forall j :: 0 <= j < |list| ==> |list[k].queue| <= |list[j].queue|)
        && (forall j :: 0 <= j < k ==> |list[k].queue| < |list[j].queue|);
      assert more[k] == a;
    }
  }

  lemma OpenSnoc(list: seq<ActorInfo>, a: ActorInfo)
    ensures Open(list + [a]) == Open(list) + if a.open then [a] else []
    ensures ClosedPids(list + [a]) == ClosedPids(list) + if a.open then {} else {a.pid}
  {
    assert (list + [a])[..|list|] == list;
  }

  /** The scan moves over entry `i`, or erases it. */
  lemma ScanStep<T>(seen: seq<T>, list: seq<T>, i: nat)
    requires i < |list|
    ensures seen + list[i..] == (seen + [list[i]]) + list[i + 1..] && list[..i + 1] == list[..i] + [list[i]]
    ensures var less := list[..i] + list[i + 1..]; less[..i] == list[..i] && less[i..] == list[i + 1..]
  {
  }

  lemma FirstIsEarliest(done: seq<ActorInfo>, a: ActorInfo)
    requires done == []
    ensures Earliest(done + [a], a)
  {
    assert (done + [a])[0] == a;
  }

  lemma NothingSeen(c: Text)
    ensures Open([]) == [] && ClosedPids([]) == {} && !Loops([], c)
  {
  }

  lemma LoopsSnoc(list: seq<ActorInfo>, a: ActorInfo, c: Text)
    ensures Loops(list + [a], c) <==> Loops(list, c) || (a.open && a.callId == c)
  {
    var more := list + [a];
    assert more[|list|] == a;
    if Loops(list, c) {
      var i :| 0 <= i < |list| && list[i].open && list[i].callId == c;
      assert more[i] == list[i];
    }
  }

  /** The scan stopped after `seen`, whose closed entries it has removed. */
  ghost predicate Stopped(group: seq<ActorInfo>, pidMap: map<nat, ActorInfo>, seen: seq<ActorInfo>,
                          rest: seq<ActorInfo>, list: seq<ActorInfo>, pids: map<nat, ActorInfo>)
    reads group
  {
    group == seen + rest && (forall i :: 0 <= i < |seen| ==> seen[i] in group) &&
    list == Open(seen) + rest && pids == pidMap - ClosedPids(seen)
  }

  lemma {:induction false} AllOpen(list: seq<ActorInfo>)
    requires forall i :: 0 <= i < |list| ==> list[i].open
    ensures Open(list) == list && ClosedPids(list) == {}
  {
    if list != [] {
      AllOpen(list[..|list| - 1]);
    }
  }

  /** The choice after the entries `seen`, of which `done` are open: at first the
      first entry. */
  ghost predicate Best(first: ActorInfo, seen: seq<ActorInfo>, done: seq<ActorInfo>, a: ActorInfo)
    reads done
  {
    if seen == [] then a == first else done != [] && Earliest(done, a)
  }

  /** Where the scan stands before entry `i` of what is left of the group. */
  ghost predicate Scanned(group: seq<ActorInfo>, pidMap: map<nat, ActorInfo>, c: Text, seen: seq<ActorInfo>,
                          list: seq<ActorInfo>, i: nat, pids: map<nat, ActorInfo>, best: ActorInfo)
    requires group != [] && i <= |list|
    reads seen, list
  {
    && group == seen + list[i..] && list[..i] == Open(seen) && pids == pidMap - ClosedPids(seen)
    && !Loops(seen, c) && Best(group[0], seen, list[..i], best)
  }

  lemma BestNext(first: ActorInfo, seen: seq<ActorInfo>, done: seq<ActorInfo>, best: ActorInfo, here: ActorInfo)
    requires Best(first, seen, done, best) && (seen == [] ==> done == [] && here == first)
    ensures Best(first, seen + [here], done + [here], if |here.queue| < |best.queue| then here else best)
  {
    hide Earliest;
    if seen == [] {
      FirstIsEarliest(done, here);
    } else {
      EarliestSnoc(done, best, here);
    }
  }

  /** Moving over an open entry on another call. */
  lemma ScanOver(group: seq<ActorInfo>, pidMap: map<nat, ActorInfo>, c: Text, seen: seq<ActorInfo>,
                 list: seq<ActorInfo>, i: nat, pids: map<nat, ActorInfo>, best: ActorInfo)
    requires group != [] && i < |list| && Scanned(group, pidMap, c, seen, list, i, pids, best)
    requires list[i].open && list[i].callId != c
    ensures var here := list[i];
            Scanned(group, pidMap, c, seen + [here], list, i + 1, pids,
                    if |here.queue| < |best.queue| then here else best)
  {
    var here := list[i];
    ScanStep(seen, list, i);
    OpenSnoc(seen, here);
    LoopsSnoc(seen, here, c);
    NothingSeen(c);
    hide Loops, Earliest, Open, ClosedPids, Best;
    BestNext(group[0], seen, list[..i], best, here);
  }

  /** Erasing a closed entry. */
  lemma ScanErase(group: seq<ActorInfo>, pidMap: map<nat, ActorInfo>, c: Text, seen: seq<ActorInfo>,
                  list: seq<ActorInfo>, i: nat, pids: map<nat, ActorInfo>, best: ActorInfo)
    requires group != [] && i < |list| && Scanned(group, pidMap, c, seen, list, i, pids, best)
    requires !list[i].open && group[0].open
    ensures Scanned(group, pidMap, c, seen + [list[i]], list[..i] + list[i + 1..], i, pids - {list[i].pid}, best)
  {
    ScanStep(seen, list, i);
    OpenSnoc(seen, list[i]);
    LoopsSnoc(seen, list[i], c);
    assert Open(seen) + [] == Open(seen);
    hide Loops, Earliest, Open, ClosedPids;
  }

  /** Meeting an open entry on the same call. */
  lemma ScanStops(group: seq<ActorInfo>, pidMap: map<nat, ActorInfo>, c: Text, seen: seq<ActorInfo>,
                  list: seq<ActorInfo>, i: nat, pids: map<nat, ActorInfo>, best: ActorInfo)
    requires group != [] && i < |list| && Scanned(group, pidMap, c, seen, list, i, pids, best)
    requires list[i].open && list[i].callId == c
    ensures Loops(group, c) && exists s, r :: Stopped(group, pidMap, s, r, list, pids)
  {
    assert group[|seen|] == list[i];
    assert list == list[..i] + list[i..];
    assert Stopped(group, pidMap, seen, list[i..], list, pids);
  }

  /** Having met none. */
  lemma ScanDone(group: seq<ActorInfo>, pidMap: map<nat, ActorInfo>, c: Text, seen: seq<ActorInfo>,
                 list: seq<ActorInfo>, i: nat, pids: map<nat, ActorInfo>, best: ActorInfo)
    requires group != [] && i == |list| && Scanned(group, pidMap, c, seen, list, i, pids, best)
    ensures !Loops(group, c) && list == Open(group) && pids == pidMap - ClosedPids(group) && Earliest(list, best)
  {
    assert list[..i] == list && list[i..] == [] && seen == group;
  }

  /** The erase-while-iterating loop at src/coro_actor.cpp:648-670, over one group
      and the pid map. It stops with no choice exactly if an open entry carries the
      call id of the request; otherwise it leaves the open entries in their order,
      drops the pids of the closed ones and chooses the earliest entry with the
      smallest backlog. `best` starts at the first entry, which must be open. */
  method Scan(group: seq<ActorInfo>, pidMap: map<nat, ActorInfo>, c: Text)
    returns (list: seq<ActorInfo>, pids: map<nat, ActorInfo>, choice: Option<ActorInfo>)
    requires group != [] && group[0].open
    ensures choice.None? <==> Loops(group, c)
    ensures choice.Some? ==>
              list == Open(group) && pids == pidMap - ClosedPids(group) && Earliest(list, choice.value)
    ensures choice.None? ==> exists seen, rest :: Stopped(group, pidMap, seen, rest, list, pids)
  {
    list, pids := group, pidMap;
    var best, i := list[0], 0;
    ghost var seen := [];
    NothingSeen(c);
    assert Scanned(group, pidMap, c, seen, list, i, pids, best);
    hide *;
    while i < |list|
      invariant i <= |list| && Scanned(group, pidMap, c, seen, list, i, pids, best)
      decreases |list| - i
    {
      var here := list[i];
      if !here.open {
        ScanErase(group, pidMap, c, seen, list, i, pids, best);
        pids := pids - {here.pid};
        list := list[..i] + list[i + 1..];
      } else {
        if here.callId == c {
          ScanStops(group, pidMap, c, seen, list, i, pids, best);
          return list, pids, None;
        }
        ScanOver(group, pidMap, c, seen, list, i, pids, best);
        if |here.queue| < |best.queue| {
          best := here;
        }
        i := i + 1;
      }
      seen := seen + [here];
    }
    ScanDone(group, pidMap, c, seen, list, i, pids, best);
    choice := Some(best);
  }

  /** The first position with the smallest backlog is the one `Least` finds. */
  lemma {:induction false} LeastIs(px: Proxy.State, group: seq<nat>, k: nat)
    requires k < |group|
    requires forall j :: 0 <= j < |group| ==> Proxy.Backlog(px, group[k]) <= Proxy.Backlog(px, group[j])
    requires forall j :: 0 <= j < k ==> Proxy.Backlog(px, group[k]) < Proxy.Backlog(px, group[j])
    ensures Proxy.Least(px, group) == group[k]
  {
    if |group| > 1 {
      var most := group[..|group| - 1];
      if k < |most| {
        LeastIs(px, most, k);
      } else {
        assert Proxy.Least(px, most) in most;
      }
    }
  }

  lemma WaitingIs(pidMap: PidMap, af: ActorInfo)
    requires Known(pidMap, af)
    ensures af.pid in Infos(pidMap) && Infos(pidMap)[af.pid] == af.Info()
  {
  }

  lemma RootIsPush(px: Proxy.State, c: Text, p: nat)
    ensures Proxy.Root(px, c, p) == if c in px.chains then px else Proxy.Push(px, c, p)
  {
    assert [] + [p] == [p];
  }

  lemma EndsAre(pidMap: PidMap, m: ListMap, px: Proxy.State, c: Text)
    requires AllKnown(pidMap, m) && px.chains == Chains(m) && c in m && |m[c]| >= 2
    ensures Proxy.Chain(px, c) == Pids(m[c])
    ensures Known(pidMap, m[c][|m[c]| - 1]) && Known(pidMap, m[c][|m[c]| - 2])
  {
  }

  lemma GroupOpen(pidMap: PidMap, m: ListMap, name: Text)
    requires AllKnown(pidMap, m) && name in m && forall p :: p in pidMap ==> Settled(pidMap, pidMap[p])
    ensures forall i :: 0 <= i < |m[name]| ==> m[name][i].open
  {
    forall i | 0 <= i < |m[name]| ensures m[name][i].open {
      assert Known(pidMap, m[name][i]) && Settled(pidMap, pidMap[m[name][i].pid]);
    }
  }

  lemma StoppedOpen(group: seq<ActorInfo>, pidMap: PidMap, list: seq<ActorInfo>, pids: PidMap)
    requires forall i :: 0 <= i < |group| ==> group[i].open
    requires exists seen, rest :: Stopped(group, pidMap, seen, rest, list, pids)
    ensures list == group && pids == pidMap
  {
    var seen, rest :| Stopped(group, pidMap, seen, rest, list, pids);
    assert forall i :: 0 <= i < |seen| ==> seen[i] == group[i];
    AllOpen(seen);
  }

  /** The scan of a group whose sockets are all open, on the three maps as values. */
  lemma ScanMeans(pidMap: PidMap, m: ListMap, px: Proxy.State, name: Text, c: Text)
    requires AllKnown(pidMap, m) && name in m && m[name] != []
    requires forall p :: p in pidMap ==> pidMap[p].pid == p && Settled(pidMap, pidMap[p])
    requires px.infos == Infos(pidMap) && px.groups == Groups(m)
    ensures Open(m[name]) == m[name] && ClosedPids(m[name]) == {}
    ensures forall i :: 0 <= i < |m[name]| ==> m[name][i].open
    ensures Proxy.Group(px, name) == Pids(m[name])
    ensures Loops(m[name], c) <==> Proxy.Loops(px, Pids(m[name]), c)
    ensures forall a :: Earliest(m[name], a) ==> Known(pidMap, a) && Proxy.Least(px, Pids(m[name])) == a.pid
  {
    hide *;
    var list := m[name];
    GroupOpen(pidMap, m, name);
    AllOpen(list);
    GroupEntries(pidMap, m, px, name);
    LoopsMeans(pidMap, px, list, c);
    forall a | Earliest(list, a) ensures Known(pidMap, a) && Proxy.Least(px, Pids(list)) == a.pid {
      EarliestMeans(pidMap, px, list, a);
    }
  }

  /** The entries of a list and their records among the values. */
  ghost predicate Entries(pidMap: PidMap, px: Proxy.State, list: seq<ActorInfo>)
    reads list
  {
    forall i :: 0 <= i < |list| ==>
      Known(pidMap, list[i]) && list[i].open && list[i].pid in px.infos && px.infos[list[i].pid] == list[i].Info()
  }

  lemma GroupEntries(pidMap: PidMap, m: ListMap, px: Proxy.State, name: Text)
    requires AllKnown(pidMap, m) && name in m && m[name] != []
    requires forall p :: p in pidMap ==> pidMap[p].pid == p && Settled(pidMap, pidMap[p])
    requires px.infos == Infos(pidMap) && px.groups == Groups(m)
    ensures Entries(pidMap, px, m[name]) && Proxy.Group(px, name) == Pids(m[name])
  {
    forall i | 0 <= i < |m[name]|
      ensures Known(pidMap, m[name][i]) && m[name][i].open && m[name][i].pid in px.infos
              && px.infos[m[name][i].pid] == m[name][i].Info() {
      assert Known(pidMap, m[name][i]) && Settled(pidMap, pidMap[m[name][i].pid]);
    }
  }

  lemma LoopsMeans(pidMap: PidMap, px: Proxy.State, list: seq<ActorInfo>, c: Text)
    requires Entries(pidMap, px, list)
    ensures Loops(list, c) <==> Proxy.Loops(px, Pids(list), c)
  {
    if Loops(list, c) {
      var i :| 0 <= i < |list| && list[i].open && list[i].callId == c;
      assert Pids(list)[i] in px.infos && px.infos[Pids(list)[i]].callId == c;
    }
    if Proxy.Loops(px, Pids(list), c) {
      var i :| 0 <= i < |Pids(list)| && Pids(list)[i] in px.infos && px.infos[Pids(list)[i]].callId == c;
      assert list[i].open && list[i].callId == c;
    }
  }

  lemma EarliestMeans(pidMap: PidMap, px: Proxy.State, list: seq<ActorInfo>, a: ActorInfo)
    requires Entries(pidMap, px, list) && Earliest(list, a)
    ensures Known(pidMap, a) && Pids(list) != [] && Proxy.Least(px, Pids(list)) == a.pid
  {
    hide Proxy.Least;
    var k :| 0 <= k < |list| && list[k] == a
      && (forall j :: 0 <= j < |list| ==> |list[k].queue| <= |list[j].queue|)
      && (forall j :: 0 <= j < k ==> |list[k].queue| < |list[j].queue|);
    LeastIs(px, Pids(list), k);
  }

  class Router {
    const serviceMap: map<Text, Text>
    var pidMap: map<nat, ActorInfo>
    var infoMap: map<Text, seq<ActorInfo>>
    var chainMap: map<Text, seq<ActorInfo>>

    /** The three maps alias the same records. */
    ghost predicate Valid()
      reads this, pidMap.Values
    {
      && (forall p :: p in pidMap ==> pidMap[p].pid == p && Settled(pidMap, pidMap[p]))
      && AllKnown(pidMap, infoMap) && AllKnown(pidMap, chainMap)
    }

    ghost function Abs(): Proxy.State
      reads this, pidMap.Values
    {
      Proxy.State(Infos(pidMap), Groups(infoMap), Chains(chainMap))
    }

    constructor (serviceMap: map<Text, Text>)
      ensures Valid() && Abs() == Proxy.Empty && this.serviceMap == serviceMap
    {
      this.serviceMap := serviceMap;
      pidMap, infoMap, chainMap := map[], map[], map[];
    }

    // ------------------------------------------------------- small updates

    method UpdateActorInfo(af: ActorInfo, c: Text, waiting: bool)
      requires Valid() && Known(pidMap, af)
      modifies af`callId, af`waiting
      ensures Valid() && Abs() == Proxy.Update(old(Abs()), af.pid, c, waiting)
    {
      hide AllKnown, Groups, Chains;
      af.callId, af.waiting := c, waiting;
      assert Infos(pidMap) == old(Infos(pidMap))[af.pid := af.Info()];
      hide Infos;
    }

    method Enqueue(af: ActorInfo, req: Request)
      requires Valid() && Known(pidMap, af) && req.pid in pidMap
      modifies af`queue
      ensures Valid() && Abs() == Proxy.Enqueue(old(Abs()), af.pid, req)
    {
      hide AllKnown, Groups, Chains;
      af.queue := af.queue + [req];
      assert Infos(pidMap) == old(Infos(pidMap))[af.pid := af.Info()];
      hide Infos;
    }

    method Dequeue(af: ActorInfo) returns (req: Request)
      requires Valid() && Known(pidMap, af) && af.queue != []
      modifies af`queue
      ensures Valid() && Abs() == Proxy.Dequeue(old(Abs()), af.pid) && req == old(af.queue)[0] && req.pid in pidMap
    {
      hide AllKnown, Groups, Chains;
      req := af.queue[0];
      af.queue := af.queue[1..];
      assert Infos(pidMap) == old(Infos(pidMap))[af.pid := af.Info()];
      hide Infos;
    }

    method PushChain(c: Text, af: ActorInfo)
      requires Valid() && Known(pidMap, af)
      modifies this`chainMap
      ensures Valid() && Abs() == Proxy.Push(old(Abs()), c, af.pid)
    {
      hide Infos, Groups, AllKnown, Settled, Chains, Pids, Proxy.Push, Known;
      var chain := if c in chainMap then chainMap[c] else [];
      PushIs(Abs(), chainMap, c, af);
      KnownSnoc(pidMap, chainMap, c, af);
      chainMap := chainMap[c := chain + [af]];
    }

    method Register(af: ActorInfo)
      requires Valid() && af.pid !in pidMap && af.open && af.queue == []
      modifies this`pidMap
      ensures Valid() && pidMap == old(pidMap)[af.pid := af]
      ensures Abs() == old(Abs()).(infos := old(Abs()).infos[af.pid := af.Info()])
    {
      KnownMore(pidMap, af, infoMap);
      KnownMore(pidMap, af, chainMap);
      hide Groups, Chains, AllKnown;
      pidMap := pidMap[af.pid := af];
    }

    method JoinGroup(name: Text, af: ActorInfo)
      requires Valid() && Known(pidMap, af)
      modifies this`infoMap
      ensures Valid()
      ensures Abs() == old(Abs()).(groups := old(Abs()).groups[name := Proxy.Group(old(Abs()), name) + [af.pid]])
    {
      hide Infos, Groups, AllKnown, Settled, Chains, Pids, Proxy.Group, Known;
      var group := if name in infoMap then infoMap[name] else [];
      JoinIs(Abs(), infoMap, name, af);
      KnownSnoc(pidMap, infoMap, name, af);
      infoMap := infoMap[name := group + [af]];
    }

    method PopChain(c: Text) returns (self: ActorInfo)
      requires Valid() && c in chainMap && |chainMap[c]| >= 2
      modifies this`chainMap
      ensures Valid() && Abs() == Proxy.PopChain(old(Abs()), c) && Known(pidMap, self)
      ensures c in chainMap && old(chainMap)[c] == chainMap[c] + [self]
    {
      var chain := chainMap[c];
      self := chain[|chain| - 1];
      PopIs(Abs(), chainMap, c);
      KnownPopped(pidMap, chainMap, c);
      hide Infos, Groups, AllKnown, Settled, Chains, Pids, Proxy.PopChain;
      chainMap := chainMap[c := chain[..|chain| - 1]];
    }

    // --------------------------------------------------------- the handlers

    /** A CONNECT under a new pid (lines 519-536). */
    method Connect(pid: nat, name: Text)
      requires Valid() && pid !in pidMap
      modifies this
      ensures Valid() && Abs() == Proxy.Connect(old(Abs()), pid, name)
      ensures pid in pidMap && fresh(pidMap[pid]) && pidMap == old(pidMap)[pid := pidMap[pid]]
    {
      hide Infos, Groups, Chains, Settled, AllKnown;
      var af := new ActorInfo(name, pid);
      Register(af);
      JoinGroup(name, af);
    }

    /** `actor_info_map[name]`, which makes an empty group if there is none. */
    method Group(name: Text) returns (group: seq<ActorInfo>)
      requires Valid()
      modifies this`infoMap
      ensures Valid() && Abs() == old(Abs()) && name in infoMap && infoMap[name] == group
      ensures Proxy.Group(Abs(), name) == Pids(group)
    {
      if name !in infoMap {
        GroupMade(infoMap, name);
        assert AllKnown(pidMap, infoMap[name := []]);
        hide Infos, Groups, Chains, AllKnown, Settled;
        infoMap := infoMap[name := []];
      }
      group := infoMap[name];
    }

    /** Scanning a group (lines 644-670). As no socket has been closed this changes
        nothing; it tells whether somebody is already on the call, and otherwise who
        has least to do. */
    method Select(name: Text, c: Text) returns (choice: Option<ActorInfo>)
      requires Valid() && name in infoMap && infoMap[name] != []
      modifies this`infoMap, this`pidMap
      ensures Valid() && pidMap == old(pidMap) && Abs() == old(Abs())
      ensures choice.None? <==> Proxy.Loops(Abs(), Proxy.Group(Abs(), name), c)
      ensures choice.Some? ==> Known(pidMap, choice.value) && Proxy.Group(Abs(), name) != []
                               && choice.value.pid == Proxy.Least(Abs(), Proxy.Group(Abs(), name))
    {
      hide Infos, Groups, Chains, AllKnown, Settled, Open, ClosedPids;
      hide Loops, Earliest, Stopped, Proxy.Loops, Proxy.Least;
      hide Proxy.Group;
      var group := infoMap[name];
      GroupOpen(pidMap, infoMap, name);
      var list, pids;
      list, pids, choice := Scan(group, pidMap, c);
      ScanMeans(pidMap, infoMap, Abs(), name, c);
      if choice.None? {
        StoppedOpen(group, pidMap, list, pids);
      }
      assert list == group && pids == pidMap && infoMap[name := list] == infoMap;
      assert choice.Some? ==> Earliest(group, choice.value);
      infoMap, pidMap := infoMap[name := list], pids;
    }

    /** From the choice of the callee on (lines 672-684), up to the write. */
    method Forward(req: Request, callee: ActorInfo) returns (out: Proxy.Outcome)
      requires Valid() && req.pid in pidMap && Known(pidMap, callee)
      modifies this`chainMap, pidMap.Values
      ensures Valid() && (Abs(), out) == Proxy.Forward(old(Abs()), req, callee.pid)
    {
      hide Infos, Groups, Chains, AllKnown, Settled, Proxy.Update, Proxy.Push, Proxy.Enqueue;
      UpdateActorInfo(pidMap[req.pid], req.callId, true);
      PushChain(req.callId, callee);
      WaitingIs(pidMap, callee);
      if callee.waiting {
        Enqueue(callee, req);
        out := Proxy.Cached(req, callee.pid);
      } else {
        UpdateActorInfo(callee, req.callId, false);
        out := Proxy.Sent(req, callee.pid);
      }
    }

    /** A request that has left its backlog (lines 634-684). */
    method Route(req: Request) returns (out: Proxy.Outcome)
      requires Valid() && req.pid in pidMap
      modifies this`infoMap, this`pidMap, this`chainMap, pidMap.Values
      ensures Valid() && pidMap == old(pidMap) && (Abs(), out) == Proxy.Route(serviceMap, old(Abs()), req)
    {
      hide Infos, Groups, Chains, AllKnown, Settled, Proxy.Forward, Proxy.Loops, Proxy.Least, Proxy.Group;
      if req.service !in serviceMap {
        return Proxy.Dropped(req, Proxy.UnknownService);
      }
      var name := serviceMap[req.service];
      var group := Group(name);
      if group == [] {
        return Proxy.Dropped(req, Proxy.NoProvider);
      }
      var choice := Select(name, req.callId);
      if choice.None? {
        return Proxy.Dropped(req, Proxy.Circular);
      }
      out := Forward(req, choice.value);
    }

    /** `handle_proxy_handle_request`, up to its write. */
    method HandleRequest(af: ActorInfo) returns (out: Proxy.Outcome)
      requires Valid() && Known(pidMap, af)
      modifies this`infoMap, this`pidMap, this`chainMap, pidMap.Values
      ensures Valid() && pidMap == old(pidMap) && (Abs(), out) == Proxy.Dispatch(serviceMap, old(Abs()), af.pid)
    {
      WaitingIs(pidMap, af);
      hide Infos, Groups, Chains, AllKnown, Settled, Proxy.Route, Proxy.Dequeue;
      if af.queue == [] || af.waiting {
        return Proxy.Quiet;
      }
      var req := Dequeue(af);
      out := Route(req);
    }

    /** A REQUEST read from a link (lines 560-576). */
    method ReadRequest(req: Request) returns (out: Proxy.Outcome)
      requires Valid() && req.pid in pidMap
      modifies this`infoMap, this`pidMap, this`chainMap, pidMap.Values
      ensures Valid() && pidMap == old(pidMap) && (Abs(), out) == Proxy.ReadRequest(serviceMap, old(Abs()), req)
    {
      hide Infos, Groups, Settled, Proxy.Dispatch, Proxy.Enqueue, Proxy.Root, Proxy.Push;
      var af := pidMap[req.pid];
      RootIsPush(Abs(), req.callId, req.pid);
      if req.callId !in chainMap {
        PushChain(req.callId, af);
      }
      Enqueue(af, req);
      out := HandleRequest(af);
    }

    /** After a failed write (lines 699-704). */
    method WriteFailed(req: Request, callee: ActorInfo)
      requires Valid() && req.pid in pidMap && Known(pidMap, callee)
      modifies pidMap.Values
      ensures Valid() && Abs() == Proxy.WriteFailed(old(Abs()), req, callee.pid)
    {
      hide Infos, Groups, Chains, AllKnown, Settled, Proxy.Update;
      UpdateActorInfo(pidMap[req.pid], [], false);
      UpdateActorInfo(callee, [], false);
    }

    /** A RESPONSE read from a link (lines 600-607): the end of the chain goes, and
        the new end is the process to write to. */
    method ReadResponse(c: Text) returns (self: ActorInfo, caller: ActorInfo)
      requires Valid() && c in chainMap && |chainMap[c]| >= 2
      modifies this`chainMap
      ensures Valid() && Abs() == Proxy.PopChain(old(Abs()), c) && Known(pidMap, self) && Known(pidMap, caller)
      ensures var ch := Proxy.Chain(old(Abs()), c); self.pid == ch[|ch| - 1] && caller.pid == ch[|ch| - 2]
    {
      EndsAre(pidMap, chainMap, Abs(), c);
      hide Infos, Groups, Chains, AllKnown, Settled, Proxy.PopChain, Pids;
      self := PopChain(c);
      caller := chainMap[c][|chainMap[c]| - 1];
    }

    /** Letting a record go and looking at its backlog: lines 611-612 for the sender
        of a response, 614-615 for the end of the chain by then. */
    method Wake(af: ActorInfo, c: Text) returns (out: Proxy.Outcome)
      requires Valid() && Known(pidMap, af)
      modifies this`infoMap, this`pidMap, this`chainMap, pidMap.Values
      ensures Valid() && pidMap == old(pidMap)
      ensures (Abs(), out) == Proxy.Dispatch(serviceMap, Proxy.Update(old(Abs()), af.pid, c, false), af.pid)
    {
      hide Infos, Groups, Chains, AllKnown, Settled, Proxy.Dispatch, Proxy.Update;
      UpdateActorInfo(af, c, false);
      out := HandleRequest(af);
    }
  }
}
