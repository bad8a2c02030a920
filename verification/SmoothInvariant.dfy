/** The invariant holds in every state of every smooth run. */
module SmoothInvariant {
  import opened Protocol
  import opened S = System
  import opened Invariant
  import opened ActorNodes
  import opened SmoothRuns
  import opened SmoothSteps
  import opened RecordSteps
  import opened ResumeSteps
  import Directory
  import Proxy

  lemma InvInit(env: Env)
    ensures Inv(env, Init)
  {
  }

  lemma SmoothActor(env: Env, s: Sys, e: Event)
    requires Inv(env, s) && IndexAgrees(env.cfg) && Enabled(env, s, e) && Smooth(env, s, e)
    requires e.Connect? || e.Arrive? || e.HangUp? || e.Receive? || e.Take? || e.Act?
    ensures Inv(env, Apply(env, s, e))
  {
    hide Inv, IndexAgrees, Directory.Listed, Apply, Direct, FaultFree, NoWrap;
    ListedHolds(env, s);
    Directory.ListedKept(env, s, e);
    match e
    case Connect(p, name) => ConnectStep(env, s, p, name);
    case Arrive(p, msg) => ArriveStep(env, s, p, msg);
    case HangUp(p, conn) => HangUpStep(env, s, p, conn);
    case Receive(p) => ReceiveStep(env, s, p);
    case Take(p) => TakeStep(env, s, p);
    case Act(p, ok) => ActStep(env, s, p, ok);
  }

  lemma ListedHolds(env: Env, s: Sys)
    requires Inv(env, s)
    ensures Directory.Listed(env.cfg, s)
  {
    hide NodesOK, ChainsOK, HandlersOK, Directory.Listed;
  }

  lemma SmoothRead(env: Env, s: Sys, p: nat)
    requires Inv(env, s) && IndexAgrees(env.cfg) && p in s.net && s.net[p].up != [] && s.net[p].pc.Reading?
    requires s.net[p].up[0].Req? ==> !Proxy.ReadRequest(env.cfg.owner, s.px, s.net[p].up[0].req).1.Cached?
    ensures Inv(env, ReadUpStep(env, s, p, true))
  {
    hide Inv, IndexAgrees, S.ReadRequest, S.ReadResponse, PopUp, Proxy.ReadRequest;
    if s.net[p].up[0].Req? {
      ReadRequestStep(env, s, p);
    } else {
      ReadResponseStep(env, s, p);
    }
  }

  lemma InvKept(env: Env, s: Sys, e: Event)
    requires Inv(env, s) && IndexAgrees(env.cfg) && Enabled(env, s, e) && Smooth(env, s, e)
    ensures Inv(env, Apply(env, s, e))
  {
    hide Inv, IndexAgrees, Direct, ReadUpStep, ResumeStep;
    match e
    case ReadUp(p, ok) =>
      DirectRead(env, s, p);
      SmoothRead(env, s, p);
    case Resume(p, ok) => SmoothResume(env, s, p);
    case _ => SmoothActor(env, s, e);
  }

  lemma SmoothPrefix(env: Env, states: seq<Sys>, events: seq<Event>)
    requires SmoothRun(env, states, events) && events != []
    ensures SmoothRun(env, states[..|states| - 1], events[..|events| - 1])
    ensures var last := |events| - 1;
            && states[last] == states[..|states| - 1][last]
            && Enabled(env, states[last], events[last]) && Smooth(env, states[last], events[last])
            && states[last + 1] == Apply(env, states[last], events[last])
  {
    hide Enabled, Smooth, Apply;
  }

  lemma {:induction false} InvAlways(env: Env, states: seq<Sys>, events: seq<Event>, i: nat)
    requires IndexAgrees(env.cfg) && SmoothRun(env, states, events) && i < |states|
    ensures Inv(env, states[i])
    decreases |events|
  {
    assert |states| == |events| + 1 && states[0] == Init;
    hide Inv, IndexAgrees, SmoothRun, Apply, Enabled, Smooth;
    if i == 0 {
      InvInit(env);
    } else if i < |events| {
      SmoothPrefix(env, states, events);
      InvAlways(env, states[..|states| - 1], events[..|events| - 1], i);
    } else {
      SmoothPrefix(env, states, events);
      InvAlways(env, states[..|states| - 1], events[..|events| - 1], i - 1);
      InvKept(env, states[i - 1], events[i - 1]);
    }
  }
}
