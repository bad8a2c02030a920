/** What a call means: an in-process interpreter that runs a service and, for
    each `send`, the service it names, recursively. */
module Meaning {
  import opened Protocol
  import opened S = System

  /** A send reaches another process: its service is owned, and not by the
      process of the sender. */
  predicate Reaches(cfg: Config, from: Text, service: Text) {
    from in cfg.owner && service in cfg.owner && !Offers(cfg, cfg.owner[from], service)
  }

  /** Runs `service` on `arg` from the point where it has had `replies`. */
  ghost function Eval(env: Env, fuel: nat, service: Text, arg: Pack, replies: seq<Reply>): Option<Pack> {
    if fuel == 0 then None else
      match env.body(service, arg, replies)
      case Return(reply) => Some(reply)
      case Call(callee, x) =>
        if !Reaches(env.cfg, service, callee) then None else
          match Eval(env, fuel - 1, callee, x, [])
          case None => None
          case Some(reply) => Eval(env, fuel - 1, service, arg, replies + [Got(reply)])
  }

  ghost predicate Evaluates(env: Env, service: Text, arg: Pack, reply: Pack) {
    exists fuel: nat :: Eval(env, fuel, service, arg, []) == Some(reply)
  }

  lemma {:induction false} MoreFuel(env: Env, fuel: nat, more: nat, service: Text, arg: Pack, replies: seq<Reply>)
    requires fuel <= more && Eval(env, fuel, service, arg, replies).Some?
    ensures Eval(env, more, service, arg, replies) == Eval(env, fuel, service, arg, replies)
  {
    match env.body(service, arg, replies)
    case Return(_) =>
    case Call(callee, x) =>
      MoreFuel(env, fuel - 1, more - 1, callee, x, []);
      var reply := Eval(env, fuel - 1, callee, x, []).value;
      MoreFuel(env, fuel - 1, more - 1, service, arg, replies + [Got(reply)]);
  }

  /** A call has at most one value. */
  lemma EvaluatesUnique(env: Env, service: Text, arg: Pack, u: Pack, v: Pack)
    requires Evaluates(env, service, arg, u) && Evaluates(env, service, arg, v)
    ensures u == v
  {
    var i: nat :| Eval(env, i, service, arg, []) == Some(u);
    var j: nat :| Eval(env, j, service, arg, []) == Some(v);
    MoreFuel(env, i, i + j, service, arg, []);
    MoreFuel(env, j, i + j, service, arg, []);
  }

  /** Every reply a service has had is the value of the send that got it. */
  ghost predicate Faithful(env: Env, service: Text, arg: Pack, replies: seq<Reply>) {
    forall i :: 0 <= i < |replies| && replies[i].Got? ==>
      var a := env.body(service, arg, replies[..i]);
      && a.Call? && Reaches(env.cfg, service, a.service)
      && Evaluates(env, a.service, a.arg, replies[i].pack)
  }

  lemma FaithfulAppend(env: Env, service: Text, arg: Pack, replies: seq<Reply>, reply: Reply)
    requires Faithful(env, service, arg, replies)
    requires reply.Got? ==> var a := env.body(service, arg, replies);
               a.Call? && Reaches(env.cfg, service, a.service) && Evaluates(env, a.service, a.arg, reply.pack)
    ensures Faithful(env, service, arg, replies + [reply])
  {
    var more := replies + [reply];
    forall i | 0 <= i < |more| && more[i].Got?
      ensures var a := env.body(service, arg, more[..i]);
              a.Call? && Reaches(env.cfg, service, a.service) && Evaluates(env, a.service, a.arg, more[i].pack)
    {
      assert more[..i] == replies[..i];
      if i == |replies| {
        assert replies[..i] == replies;
      }
    }
  }

  /** A service whose sends all got their values returns its own. */
  lemma {:induction false} FaithfulReturn(env: Env, service: Text, arg: Pack, replies: seq<Reply>, k: nat, v: Pack)
    requires Faithful(env, service, arg, replies) && k <= |replies|
    requires forall i :: 0 <= i < |replies| ==> replies[i].Got?
    requires env.body(service, arg, replies) == Return(v)
    ensures exists fuel: nat :: Eval(env, fuel, service, arg, replies[..k]) == Some(v)
    decreases |replies| - k
  {
    if k == |replies| {
      assert replies[..k] == replies;
      assert Eval(env, 1, service, arg, replies) == Some(v);
    } else {
      FaithfulReturn(env, service, arg, replies, k + 1, v);
      var i: nat :| Eval(env, i, service, arg, replies[..k + 1]) == Some(v);
      var a := env.body(service, arg, replies[..k]);
      var j: nat :| Eval(env, j, a.service, a.arg, []) == Some(replies[k].pack);
      MoreFuel(env, i, i + j, service, arg, replies[..k + 1]);
      MoreFuel(env, j, i + j, a.service, a.arg, []);
      assert replies[..k] + [Got(replies[k].pack)] == replies[..k + 1];
      assert Eval(env, i + j + 1, service, arg, replies[..k]) == Some(v);
    }
  }

  lemma FaithfulEvaluates(env: Env, service: Text, arg: Pack, replies: seq<Reply>, v: Pack)
    requires Faithful(env, service, arg, replies)
    requires forall i :: 0 <= i < |replies| ==> replies[i].Got?
    requires env.body(service, arg, replies) == Return(v)
    ensures Evaluates(env, service, arg, v)
  {
    FaithfulReturn(env, service, arg, replies, 0, v);
    assert replies[..0] == [];
  }
}
