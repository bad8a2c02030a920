/** From an accepted configuration file to every run of the system it configures. */
module EndToEnd {
  import opened Protocol
  import opened Configuration
  import S = System
  import Directory
  import Registry

  /** With the index of an accepted file, in every state of every run: a request on
      the link to a process, or in its queue coming from the proxy, is for a service
      of that process. */
  lemma ForwardedIsSupported(entries: seq<Entry>, env: S.Env, states: seq<S.Sys>, events: seq<S.Event>, i: nat, p: nat)
    requires Acceptable(entries) && env.cfg == Config(Owners(entries), Tables(entries))
    requires S.Run(env, states, events) && i < |states| && p in states[i].net
    ensures var n := states[i].net[p];
            && (forall k :: 0 <= k < |n.down| && n.down[k].Req? ==> Offers(env.cfg, n.proc.name, n.down[k].req.service))
            && (forall k :: 0 <= k < |n.proc.queue| && n.proc.queue[k].origin.Unix? ==>
                  Offers(env.cfg, n.proc.name, n.proc.queue[k].service))
  {
    hide Owners, Tables, Acceptable, S.Apply, S.Enabled, Registry.Sound, Offers;
    AcceptedAgrees(entries);
    Directory.ListedAlways(env, states, events);
    assert Directory.NodeListed(env.cfg, states[i].px, p, states[i].net[p]);
  }

  /** So the worker's not-found branch, which closes a TCP socket, is never taken for
      a message of the proxy, whose TCP socket is null. */
  lemma NotFoundOnlyForClients(entries: seq<Entry>, env: S.Env, states: seq<S.Sys>, events: seq<S.Event>, i: nat,
                               p: nat)
    requires Acceptable(entries) && env.cfg == Config(Owners(entries), Tables(entries))
    requires S.Run(env, states, events) && i < |events| && events[i] == S.Take(p)
    ensures p in states[i].net && states[i].net[p].proc.queue != []
    ensures var n := states[i].net[p];
            !Offers(env.cfg, n.proc.name, n.proc.queue[0].service) ==> n.proc.queue[0].origin.Tcp?
  {
    assert S.Enabled(env, states[i], events[i]);
    hide Owners, Tables, Acceptable, S.Apply, S.Run;
    ForwardedIsSupported(entries, env, states, events, i, p) by {
      RunLength(env, states, events);
    }
  }

  lemma RunLength(env: S.Env, states: seq<S.Sys>, events: seq<S.Event>)
    requires S.Run(env, states, events)
    ensures |states| == |events| + 1
  {
  }
}
