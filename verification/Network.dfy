/**
 The closed system: the broker at lock grain, and the peers at the other end of its connections. Peers are honest: a
 peer answers only calls it was sent, each at most once, as `run_worker` does (src/worker.rs). Any number of the
 peers are `IPCClient` actors that do not subscribe (src/client.rs).
 */
module Network {
  import opened Rpc
  import opened Sections
  import opened LockSteps

  /** What identifies a call wherever it travels, and the reply to it. */
  datatype Tag = Tag(id: CallId, obj: Name)

  /** A request of an actor, and the packet it took for the answer. */
  datatype Exchange = Exchange(request: Request, answer: Packet)

  /** `objs` are the names an honest peer may register; `hands` are the calls it has read and not answered. */
  datatype Role =
    | Honest(objs: set<Name>, hands: seq<Tag>)
    | Actor(waiting: Option<Request>, exchanges: seq<Exchange>)

  datatype Peer = Peer(alive: bool, role: Role)

  /**
   `up[c]` is what peer `c` has written and the broker's reader has not read; `read[c]` counts the packets that `c`
   has read of everything enqueued to it; `minted` are the call ids chosen so far, each a fresh UUID.
   */
  datatype Net = Net(
    b: Broker,
    up: map<ClientId, seq<Packet>>,
    read: map<ClientId, nat>,
    peers: map<ClientId, Peer>,
    minted: map<CallId, Issue>)

  datatype Move =
    | Connect(c: ClientId, role: Role)
    | Say(c: ClientId, packet: Packet)
    | Answer(c: ClientId, k: nat, reply: Response)
    | Deliver(c: ClientId)
    | Inner(l: Label)
    | Read(c: ClientId)
    | Fail(c: ClientId)

  ghost predicate Start(net: Net) {
    Initial(net.b) && net.up == map[] && net.read == map[] && net.peers == map[] && net.minted == map[]
  }

  /** What an honest peer may write on its own account: any request, or a response that answers no call. */
  predicate MaySay(role: Role, packet: Packet) {
    match role
    case Honest(objs, _) =>
      if packet.Req? then packet.req.RegisterObject? ==> packet.req.obj in objs else ReplyTo(packet.resp).None?
    case Actor(waiting, _) =>
      waiting.None? && packet.Req? && (packet.req.Call? || packet.req.HasObject? || packet.req.Publish?)
  }

  predicate IsCall(packet: Packet) {
    packet.Req? && packet.req.Call?
  }

  function ReplyObject(r: Response): Name
    requires ReplyTo(r).Some?
  {
    match r
    case Result(_, obj, _) => obj
    case Error(_, obj, _) => obj
  }

  predicate Answers(r: Response, t: Tag) {
    ReplyTo(r) == Some(t.id) && ReplyObject(r) == t.obj
  }

  ghost predicate CanMove(net: Net, m: Move) {
    match m
    case Connect(c, role) =>
      && c !in net.b.pc && c !in net.b.outs && c !in net.up && c !in net.read && c !in net.peers
      && (role.Honest? ==> role.hands == []) && (role.Actor? ==> role == Actor(None, []))
    case Say(c, packet) =>
      && c in net.peers && c in net.up && net.peers[c].alive && MaySay(net.peers[c].role, packet)
      && (IsCall(packet) ==> packet.req.call.id !in net.minted)
    case Answer(c, k, reply) =>
      && c in net.peers && c in net.up && net.peers[c].alive && net.peers[c].role.Honest?
      && k < |net.peers[c].role.hands| && Answers(reply, net.peers[c].role.hands[k])
    case Deliver(c) => c in net.up && net.up[c] != [] && Enabled(net.b, Recv(c, net.up[c][0]))
    case Inner(l) => !l.Spawn? && !l.Recv? && Enabled(net.b, l)
    case Read(c) =>
      && c in net.peers && c in net.b.outs && c in net.read && net.peers[c].alive && net.read[c] < |net.b.outs[c]|
    case Fail(c) => c in net.peers
  }

  /** A peer after reading a packet. An actor that waits takes whatever comes for its answer. */
  function AfterReading(role: Role, packet: Packet): Role {
    match role
    case Honest(objs, hands) =>
      if IsCall(packet) then Honest(objs, hands + [Tag(packet.req.call.id, packet.req.call.obj)]) else role
    case Actor(waiting, exchanges) =>
      if waiting.Some? then Actor(None, exchanges + [Exchange(waiting.value, packet)]) else role
  }

  /** A peer after writing a packet: an actor waits after a call or an object query, not after a publish. */
  function AfterSaying(role: Role, packet: Packet): Role {
    if role.Actor? && packet.Req? && !packet.req.Publish? then role.(waiting := Some(packet.req)) else role
  }

  function Without(s: seq<Tag>, k: nat): seq<Tag>
    requires k < |s|
  {
    s[..k] + s[k + 1..]
  }

  ghost function After(net: Net, m: Move): Net
    requires CanMove(net, m)
  {
    match m
    case Connect(c, role) =>
      Net(Next(net.b, Spawn(c)), net.up[c := []], net.read[c := 0], net.peers[c := Peer(true, role)], net.minted)
    case Say(c, packet) =>
      net.(up := net.up[c := net.up[c] + [packet]],
           peers := net.peers[c := Peer(true, AfterSaying(net.peers[c].role, packet))],
           minted := if IsCall(packet)
                     then net.minted[packet.req.call.id := Issue(c, packet.req.call.obj)] else net.minted)
    case Answer(c, k, reply) =>
      var role := net.peers[c].role;
      net.(up := net.up[c := net.up[c] + [Resp(reply)]],
           peers := net.peers[c := Peer(true, role.(hands := Without(role.hands, k)))])
    case Deliver(c) =>
      net.(b := Next(net.b, Recv(c, net.up[c][0])), up := net.up[c := net.up[c][1..]])
    case Inner(l) => net.(b := Next(net.b, l))
    case Read(c) =>
      net.(read := net.read[c := net.read[c] + 1],
           peers := net.peers[c := Peer(true, AfterReading(net.peers[c].role, net.b.outs[c][net.read[c]].packet))])
    case Fail(c) => net.(peers := net.peers[c := net.peers[c].(alive := false)])
  }

  ghost predicate NetStep(net: Net, net': Net) {
    exists m :: CanMove(net, m) && net' == After(net, m)
  }

  ghost predicate IsNetRun(run: seq<Net>) {
    && run != [] && Start(run[0])
    && forall i, j | 0 <= i < j < |run| && j == i + 1 :: NetStep(run[i], run[j])
  }

  ghost predicate NetReachable(net: Net) {
    exists run :: IsNetRun(run) && run[|run| - 1] == net
  }

  lemma {:induction false} NetInvariance(inv: Net -> bool, run: seq<Net>)
    requires IsNetRun(run)
    requires forall net | Start(net) :: inv(net)
    requires forall net, m | inv(net) && CanMove(net, m) :: inv(After(net, m))
    ensures inv(run[|run| - 1])
  {
    if |run| > 1 {
      NetInvariance(inv, run[..|run| - 1]);
      assert NetStep(run[|run| - 2], run[|run| - 1]);
    }
  }
}
