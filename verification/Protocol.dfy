/** The records that travel between actor processes and the proxy
    (include/coro_actor_protocol.h, include/coro_actor_pack.h). A `std::string`
    is a sequence of bytes. */
module Protocol {
  type byte = b: int | 0 <= b < 256

  type Text = seq<byte>

  datatype Option<+T> = None | Some(value: T)

  datatype Pack = Pack(kind: byte, value: Text)

  datatype Request = Request(pid: nat, callId: Text, service: Text, pack: Pack)

  datatype Response = Response(pid: nat, callId: Text, service: Text, pack: Pack)

  /** What one read of a proxy link yields: a REQUEST or a RESPONSE. */
  datatype Frame = Req(req: Request) | Resp(resp: Response)

  /** The configuration index: which actor node owns a service, and which
      services an actor node offers. */
  datatype Config = Config(owner: map<Text, Text>, services: map<Text, set<Text>>)

  /** Whether actor node `name` offers `service` (its local service table). */
  predicate Offers(cfg: Config, name: Text, service: Text) {
    name in cfg.services && service in cfg.services[name]
  }

  /** Both halves of the index say the same, so a service has one owner. */
  ghost predicate IndexAgrees(cfg: Config) {
    forall s, n :: (s in cfg.owner && cfg.owner[s] == n) <==> Offers(cfg, n, s)
  }
}
