/** The proxy's routing state and what each uninterrupted stretch of its
    handlers does to it (src/coro_actor.cpp:519-705). A record is named by the
    pid of the process it belongs to. */
module Proxy {
  import opened Protocol

  /** `actor_info`; the socket is the link of the same pid. */
  datatype Info = Info(name: Text, waiting: bool, callId: Text, queue: seq<Request>)

  /** `actor_pid_map`, `actor_info_map` and `actor_call_chain_map`. */
  datatype State = State(infos: map<nat, Info>, groups: map<Text, seq<nat>>, chains: map<Text, seq<nat>>)

  datatype Reason = UnknownService | NoProvider | Circular

  /** How one call of `handle_proxy_handle_request` ends. */
  datatype Outcome =
    | Quiet
    | Dropped(req: Request, reason: Reason)
    | Cached(req: Request, callee: nat)
    | Sent(req: Request, callee: nat)

  const Empty := State(map[], map[], map[])

  function Group(px: State, name: Text): seq<nat> {
    if name in px.groups then px.groups[name] else []
  }

  function Chain(px: State, c: Text): seq<nat> {
    if c in px.chains then px.chains[c] else []
  }

  function Connect(px: State, p: nat, name: Text): State {
    px.(infos := px.infos[p := Info(name, false, [], [])],
        groups := px.groups[name := Group(px, name) + [p]])
  }

  /** `update_actor_info`. */
  function Update(px: State, p: nat, c: Text, waiting: bool): State {
    if p in px.infos then px.(infos := px.infos[p := px.infos[p].(callId := c, waiting := waiting)]) else px
  }

  function Enqueue(px: State, p: nat, req: Request): State {
    if p in px.infos then px.(infos := px.infos[p := px.infos[p].(queue := px.infos[p].queue + [req])]) else px
  }

  function Dequeue(px: State, p: nat): State {
    if p in px.infos && px.infos[p].queue != [] then
      px.(infos := px.infos[p := px.infos[p].(queue := px.infos[p].queue[1..])])
    else px
  }

  function Push(px: State, c: Text, p: nat): State {
    px.(chains := px.chains[c := Chain(px, c) + [p]])
  }

  /** A request under an unknown id makes its sender the root of a new chain. */
  function Root(px: State, c: Text, p: nat): State {
    if c in px.chains then px else px.(chains := px.chains[c := [p]])
  }

  /** Some process of the group is already known to work on call `c`. */
  predicate Loops(px: State, group: seq<nat>, c: Text) {
    exists i :: 0 <= i < |group| && group[i] in px.infos && px.infos[group[i]].callId == c
  }

  function Backlog(px: State, p: nat): nat {
    if p in px.infos then |px.infos[p].queue| else 0
  }

  /** The earliest process of the group with the smallest backlog. */
  function Least(px: State, group: seq<nat>): (p: nat)
    requires group != []
    ensures p in group
    ensures forall q :: q in group ==> Backlog(px, p) <= Backlog(px, q)
  {
    if |group| == 1 then group[0] else
      var p := Least(px, group[..|group| - 1]);
      var q := group[|group| - 1];
      if Backlog(px, q) < Backlog(px, p) then q else p
  }

  /** `handle_proxy_handle_request`, up to its write. */
  function Dispatch(owner: map<Text, Text>, px: State, p: nat): (State, Outcome) {
    if p !in px.infos || px.infos[p].queue == [] || px.infos[p].waiting then (px, Quiet) else
      Route(owner, Dequeue(px, p), px.infos[p].queue[0])
  }

  function Route(owner: map<Text, Text>, px: State, req: Request): (State, Outcome) {
    if req.service !in owner then (px, Dropped(req, UnknownService)) else
      var group := Group(px, owner[req.service]);
      if group == [] then (px, Dropped(req, NoProvider))
      else if Loops(px, group, req.callId) then (px, Dropped(req, Circular))
      else Forward(px, req, Least(px, group))
  }

  /** The requester waits, the callee joins the chain, and the request goes
      out unless the callee is itself waiting. */
  function Forward(px: State, req: Request, callee: nat): (State, Outcome) {
    var px1 := Push(Update(px, req.pid, req.callId, true), req.callId, callee);
    if callee in px1.infos && px1.infos[callee].waiting then
      (Enqueue(px1, callee, req), Cached(req, callee))
    else
      (Update(px1, callee, req.callId, false), Sent(req, callee))
  }

  /** A REQUEST read from a link (lines 567-576). */
  function ReadRequest(owner: map<Text, Text>, px: State, req: Request): (State, Outcome) {
    Dispatch(owner, Enqueue(Root(px, req.callId, req.pid), req.pid, req), req.pid)
  }

  /** The pop at line 605. */
  function PopChain(px: State, c: Text): State {
    var chain := Chain(px, c);
    if chain == [] then px else px.(chains := px.chains[c := chain[..|chain| - 1]])
  }

  /** A failed write clears both ends and leaves the frame (lines 699-704). */
  function WriteFailed(px: State, req: Request, callee: nat): State {
    Update(Update(px, req.pid, [], false), callee, [], false)
  }
}
