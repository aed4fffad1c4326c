/**
 The worker (src/worker.rs): it registers its objects and answers each call it reads once. It is an honest peer of the
 closed system, and never meets a call for an object it does not have.
 */
module Workers {
  import opened Rpc
  import opened Sections
  import opened LockSteps
  import opened ServiceStates
  import opened Network
  import opened Routing

  /**
   One turn of the worker's loop: a packet is read, `value` being what the object's method would return for it and
   `sendable` whether writing the reply would succeed; or the connection is lost; or a shutdown is signalled.
   */
  datatype Turn = Incoming(packet: Packet, value: Value, sendable: bool) | Lost | Shutdown

  /** How the worker ended: `Done` on a shutdown, or still waiting for the next packet. */
  datatype Ending = Done | Failed

  /** The reply to a packet: only to a call of an object of this worker. */
  function ReplyFor(objects: set<Name>, p: Packet, value: Value): Option<Response> {
    if IsCall(p) && p.req.call.obj in objects then Some(Result(p.req.call.id, p.req.call.obj, value)) else None
  }

  function SetOf(names: seq<Name>): set<Name> {
    set n | n in names
  }

  function Registrations(names: seq<Name>): (ps: seq<Packet>)
    ensures |ps| == |names| && forall i | 0 <= i < |names| :: ps[i] == Req(RegisterObject(names[i]))
  {
    seq(|names|, i requires 0 <= i < |names| => Req(RegisterObject(names[i])))
  }

  /** What the loop writes, and how it ends. */
  datatype Trace = Trace(replies: seq<Packet>, ending: Ending)

  function Serve(objects: set<Name>, turns: seq<Turn>): Trace {
    if turns == [] || turns[0].Shutdown? then Trace([], Done)
    else if turns[0].Lost? then Trace([], Failed)
    else
      var r := ReplyFor(objects, turns[0].packet, turns[0].value);
      if r.None? then Serve(objects, turns[1..])
      else if !turns[0].sendable then Trace([], Failed)
      else
        var rest := Serve(objects, turns[1..]);
        Trace([Resp(r.value)] + rest.replies, rest.ending)
  }

  /**
   `run_worker` after connecting. `names` lists the objects in iteration order, and the first `writable` registrations
   can be written.
   */
  method RunWorker(names: seq<Name>, writable: nat, turns: seq<Turn>) returns (written: seq<Packet>, ending: Ending)
    ensures writable < |names| ==> written == Registrations(names[..writable]) && ending == Failed
    ensures var t := Serve(SetOf(names), turns);
            writable >= |names| ==> written == Registrations(names) + t.replies && ending == t.ending
  {
    var objects := SetOf(names);
    written, ending := [], Done;
    for i := 0 to |names|
      invariant i <= writable && written == Registrations(names[..i])
    {
      if i == writable { return written, Failed; }
      written := written + [Req(RegisterObject(names[i]))];
    }
    assert names[..|names|] == names;
    ghost var all := Serve(objects, turns);
    ghost var registered := written;
    assert turns[0..] == turns && registered + all.replies == written + all.replies;
    for i := 0 to |turns|
      invariant all.ending == Serve(objects, turns[i..]).ending
      invariant registered + all.replies == written + Serve(objects, turns[i..]).replies
    {
      assert turns[i..][0] == turns[i] && turns[i..][1..] == turns[i + 1..];
      match turns[i] {
        case Shutdown => return;
        case Lost => return written, Failed;
        case Incoming(packet, value, sendable) =>
          if packet.Req? && packet.req.Call? && packet.req.call.obj in objects {
            var call := packet.req.call;
            if !sendable { return written, Failed; }
            ghost var rest := Serve(objects, turns[i + 1..]).replies;
            assert written + ([Resp(Result(call.id, call.obj, value))] + rest)
                   == (written + [Resp(Result(call.id, call.obj, value))]) + rest;
            written := written + [Resp(Result(call.id, call.obj, value))];
          }
      }
    }
  }

  // ---------- a worker is an honest peer ----------

  function ObjectsOf(role: Role): set<Name> {
    if role.Honest? then role.objs else {}
  }

  ghost predicate LiveWorker(net: Net, c: ClientId, objects: set<Name>) {
    c in net.peers && net.peers[c].alive && net.peers[c].role.Honest? && net.peers[c].role.objs == objects
      && c in net.up
  }

  lemma ReachMove(net: Net, m: Move)
    requires NetReachable(net) && CanMove(net, m)
    ensures NetReachable(After(net, m))
  {
    var run :| IsNetRun(run) && run[|run| - 1] == net;
    var longer := run + [After(net, m)];
    assert NetStep(net, After(net, m));
    assert IsNetRun(longer) && longer[|longer| - 1] == After(net, m);
  }

  /** While a worker runs: a move of anybody else, or the worker's next registration, or the next turn of its loop. */
  datatype Act = World(m: Move) | Put(obj: Name) | Loop(turn: Turn)

  predicate OwnMove(m: Move, c: ClientId) {
    match m
    case Say(d, _) => d == c
    case Answer(d, _, _) => d == c
    case Read(d) => d == c
    case Fail(d) => d == c
    case _ => false
  }

  /** What the others may do, and what the loop may read: the next packet of its own channel. */
  ghost predicate CanAct(net: Net, c: ClientId, a: Act) {
    match a
    case World(m) => CanMove(net, m) && !OwnMove(m, c)
    case Loop(Incoming(p, _, _)) =>
      && c in net.b.outs && c in net.read && net.read[c] < |net.b.outs[c]|
      && net.b.outs[c][net.read[c]].packet == p
    case _ => true
  }

  ghost function Try(net: Net, m: Move): Net {
    if CanMove(net, m) then After(net, m) else net
  }

  /** The place of the call that a worker has just read among those in its hands. */
  function LastHand(net: Net, c: ClientId): nat {
    if c in net.peers && net.peers[c].role.Honest? && net.peers[c].role.hands != []
    then |net.peers[c].role.hands| - 1 else 0
  }

  /** The moves of the closed system that an act comes to; a move that is not allowed would change nothing. */
  ghost function Acted(net: Net, c: ClientId, objects: set<Name>, a: Act): Net {
    match a
    case World(m) => Try(net, m)
    case Put(n) => Try(net, Say(c, Req(RegisterObject(n))))
    case Loop(Incoming(p, value, sendable)) =>
      var net1, r := Try(net, Read(c)), ReplyFor(objects, p, value);
      if r.Some? && sendable then Try(net1, Answer(c, LastHand(net1, c), r.value)) else net1
    case _ => net
  }

  ghost function NetAfter(net: Net, c: ClientId, objects: set<Name>, acts: seq<Act>): Net {
    if acts == [] then net
    else Acted(NetAfter(net, c, objects, acts[..|acts| - 1]), c, objects, acts[|acts| - 1])
  }

  ghost predicate CanAll(net: Net, c: ClientId, objects: set<Name>, acts: seq<Act>) {
    acts == [] ||
    (&& CanAll(net, c, objects, acts[..|acts| - 1])
     && CanAct(NetAfter(net, c, objects, acts[..|acts| - 1]), c, acts[|acts| - 1]))
  }

  /** What the worker has registered, and the turns it has taken. */
  function Announced(acts: seq<Act>): seq<Name> {
    if acts == [] then []
    else
      var a := acts[|acts| - 1];
      Announced(acts[..|acts| - 1]) + (if a.Put? then [a.obj] else [])
  }

  function Turns(acts: seq<Act>): seq<Turn> {
    if acts == [] then []
    else
      var a := acts[|acts| - 1];
      Turns(acts[..|acts| - 1]) + (if a.Loop? then [a.turn] else [])
  }

  /** The turn that ends the loop. */
  predicate Stops(objects: set<Name>, t: Turn) {
    t.Shutdown? || t.Lost? || (ReplyFor(objects, t.packet, t.value).Some? && !t.sendable)
  }

  /** The worker's acts are those of `run_worker`: the registrations in order, then turns until one ends the loop. */
  predicate InProgram(names: seq<Name>, acts: seq<Act>) {
    acts == [] ||
    (var front, a := acts[..|acts| - 1], acts[|acts| - 1];
     && InProgram(names, front)
     && (a.Put? ==> Turns(front) == [] && |Announced(front)| < |names| && a.obj == names[|Announced(front)|])
     && (a.Loop? ==> Announced(front) == names && forall t | t in Turns(front) :: !Stops(SetOf(names), t)))
  }

  /** What the broker's reader has taken of the worker's stream. */
  ghost function Collected(net: Net, c: ClientId, objects: set<Name>, acts: seq<Act>): seq<Packet> {
    if acts == [] then []
    else
      var front := acts[..|acts| - 1];
      var mid := NetAfter(net, c, objects, front);
      Collected(net, c, objects, front) +
      (if acts[|acts| - 1] == World(Deliver(c)) && c in mid.up && mid.up[c] != [] then [mid.up[c][0]] else [])
  }

  /** The channel that the worker has read up to `n`. */
  ghost predicate AtChannel(net: Net, c: ClientId, n: nat) {
    c in net.b.outs && c in net.read && net.read[c] == n <= |net.b.outs[c]|
  }

  lemma OthersLeaveWorker(net: Net, m: Move, c: ClientId, objects: set<Name>, n: nat)
    requires LiveWorker(net, c, objects) && AtChannel(net, c, n) && CanMove(net, m) && !OwnMove(m, c)
    ensures LiveWorker(After(net, m), c, objects) && AtChannel(After(net, m), c, n)
    ensures net.b.outs[c] <= After(net, m).b.outs[c]
    ensures After(net, m).up[c] == if m == Deliver(c) then net.up[c][1..] else net.up[c]
  {
    match m
    case Deliver(d) => ChannelOnlyGrows(net.b, Recv(d, net.up[d][0]), c);
    case Inner(l) => ChannelOnlyGrows(net.b, l, c);
    case _ =>
  }

  lemma WorkerPuts(net: Net, c: ClientId, objects: set<Name>, name: Name, n: nat) returns (net': Net)
    requires NetReachable(net) && LiveWorker(net, c, objects) && AtChannel(net, c, n) && name in objects
    ensures net' == Acted(net, c, objects, Put(name)) && NetReachable(net')
    ensures LiveWorker(net', c, objects) && AtChannel(net', c, n) && net'.b == net.b
    ensures net'.up[c] == net.up[c] + [Req(RegisterObject(name))]
  {
    var m := Say(c, Req(RegisterObject(name)));
    net' := After(net, m);
    ReachMove(net, m);
  }

  /** One turn of the loop is a `Read`, and an `Answer` if the worker replies. */
  lemma WorkerTurns(net: Net, c: ClientId, objects: set<Name>, turn: Turn, n: nat) returns (net': Net)
    requires NetReachable(net) && LiveWorker(net, c, objects) && AtChannel(net, c, n)
    requires turn.Incoming? && CanAct(net, c, Loop(turn))
    ensures net' == Acted(net, c, objects, Loop(turn)) && NetReachable(net')
    ensures LiveWorker(net', c, objects) && AtChannel(net', c, n + 1) && net'.b == net.b
    ensures net'.up[c] == net.up[c] + Serve(objects, [turn]).replies
  {
    ReachMove(net, Read(c));
    net' := After(net, Read(c));
    var r := ReplyFor(objects, turn.packet, turn.value);
    assert [turn][1..] == [] && net.up[c] + [] == net.up[c];
    if r.Some? && turn.sendable {
      var m := Answer(c, LastHand(net', c), r.value);
      ReachMove(net', m);
      net' := After(net', m);
    }
  }

  /** A turn after turns that have not ended the loop. */
  lemma {:induction false} ServeLast(objects: set<Name>, turns: seq<Turn>, t: Turn)
    requires forall u | u in turns :: !Stops(objects, u)
    ensures Serve(objects, turns + [t]).replies == Serve(objects, turns).replies + Serve(objects, [t]).replies
    ensures Serve(objects, turns + [t]).ending == Serve(objects, [t]).ending
  {
    if turns == [] {
      assert turns + [t] == [t];
    } else {
      assert turns[0] in turns && (turns + [t])[1..] == turns[1..] + [t];
      ServeLast(objects, turns[1..], t);
      var r := ReplyFor(objects, turns[0].packet, turns[0].value);
      if r.Some? {
        var a, b := Serve(objects, turns[1..]).replies, Serve(objects, [t]).replies;
        assert [Resp(r.value)] + (a + b) == ([Resp(r.value)] + a) + b;
      }
    }
  }

  /** What the worker has written so far, and what it has read. */
  ghost predicate OnCourse(net: Net, c: ClientId, objects: set<Name>, announced: seq<Name>, turns: seq<Turn>,
                           collected: seq<Packet>) {
    && LiveWorker(net, c, objects)
    && collected + net.up[c] == Registrations(announced) + Serve(objects, turns).replies
    && HasRead(net, c, objects, turns)
  }

  /** The turns have read the channel from its start, packet by packet. */
  ghost predicate HasRead(net: Net, c: ClientId, objects: set<Name>, turns: seq<Turn>) {
    && c in net.b.outs && c in net.read && net.read[c] <= |net.b.outs[c]|
    && (forall i | 0 <= i < |turns| && turns[i].Incoming? ::
          i < net.read[c] && turns[i].packet == net.b.outs[c][i].packet)
    && ((forall t | t in turns :: !Stops(objects, t)) ==> net.read[c] == |turns|)
  }

  lemma CourseWorld(net: Net, c: ClientId, objects: set<Name>, announced: seq<Name>, turns: seq<Turn>, m: Move,
                    collected: seq<Packet>)
    requires NetReachable(net) && OnCourse(net, c, objects, announced, turns, collected) && CanAct(net, c, World(m))
    ensures NetReachable(After(net, m))
    ensures var more := if m == Deliver(c) then [net.up[c][0]] else [];
            OnCourse(After(net, m), c, objects, announced, turns, collected + more)
  {
    ReachMove(net, m);
    OthersLeaveWorker(net, m, c, objects, net.read[c]);
    if m == Deliver(c) {
      assert (collected + [net.up[c][0]]) + net.up[c][1..] == collected + net.up[c];
    } else {
      assert collected + [] == collected;
    }
  }

  lemma CoursePut(net: Net, c: ClientId, objects: set<Name>, announced: seq<Name>, name: Name, collected: seq<Packet>)
    requires NetReachable(net) && OnCourse(net, c, objects, announced, [], collected) && name in objects
    ensures var net' := Acted(net, c, objects, Put(name));
            NetReachable(net') && OnCourse(net', c, objects, announced + [name], [], collected)
  {
    var net' := WorkerPuts(net, c, objects, name, net.read[c]);
    var p := Req(RegisterObject(name));
    assert Registrations(announced + [name]) == Registrations(announced) + [p];
    assert collected + (net.up[c] + [p]) == (collected + net.up[c]) + [p];
    assert forall ps: seq<Packet> :: ps + [] == ps;
  }

  /** The channel is read one packet further. */
  lemma ReadsFurther(net: Net, net': Net, c: ClientId, objects: set<Name>, turns: seq<Turn>, t: Turn)
    requires HasRead(net, c, objects, turns) && CanAct(net, c, Loop(t)) && net'.b == net.b
    requires forall u | u in turns :: !Stops(objects, u)
    requires AtChannel(net', c, if t.Incoming? then |turns| + 1 else |turns|)
    ensures HasRead(net', c, objects, turns + [t])
  {
    assert t in turns + [t];
  }

  lemma CourseTurn(net: Net, c: ClientId, objects: set<Name>, announced: seq<Name>, turns: seq<Turn>, t: Turn,
                   collected: seq<Packet>)
    requires NetReachable(net) && OnCourse(net, c, objects, announced, turns, collected) && CanAct(net, c, Loop(t))
    requires forall u | u in turns :: !Stops(objects, u)
    ensures var net' := Acted(net, c, objects, Loop(t));
            NetReachable(net') && OnCourse(net', c, objects, announced, turns + [t], collected)
  {
    ServeLast(objects, turns, t);
    var net', more := net, Serve(objects, [t]).replies;
    if t.Incoming? { net' := WorkerTurns(net, c, objects, t, |turns|); } else { assert net.up[c] + [] == net.up[c]; }
    ReadsFurther(net, net', c, objects, turns, t);
    WroteMore(collected, net.up[c], Registrations(announced), Serve(objects, turns).replies, more);
  }

  lemma WroteMore(collected: seq<Packet>, up: seq<Packet>, before: seq<Packet>, served: seq<Packet>, more: seq<Packet>)
    requires collected + up == before + served
    ensures collected + (up + more) == before + (served + more)
  {
    assert collected + (up + more) == (collected + up) + more;
    assert before + (served + more) == (before + served) + more;
  }

  lemma {:induction false} StaysOnCourse(net: Net, c: ClientId, names: seq<Name>, acts: seq<Act>)
    requires NetReachable(net) && OnCourse(net, c, SetOf(names), [], [], [])
    requires CanAll(net, c, SetOf(names), acts) && InProgram(names, acts)
    ensures var net' := NetAfter(net, c, SetOf(names), acts);
            && NetReachable(net')
            && OnCourse(net', c, SetOf(names), Announced(acts), Turns(acts), Collected(net, c, SetOf(names), acts))
    decreases |acts|
  {
    if acts != [] {
      var front := acts[..|acts| - 1];
      StaysOnCourse(net, c, names, front);
      var mid := NetAfter(net, c, SetOf(names), front);
      StepOnCourse(mid, c, names, acts, Collected(net, c, SetOf(names), front));
    }
  }

  /** The last of these acts, after the others. */
  lemma StepOnCourse(net: Net, c: ClientId, names: seq<Name>, acts: seq<Act>, collected: seq<Packet>)
    requires acts != [] && InProgram(names, acts) && CanAct(net, c, acts[|acts| - 1])
    requires var front := acts[..|acts| - 1];
             NetReachable(net) && OnCourse(net, c, SetOf(names), Announced(front), Turns(front), collected)
    ensures var a := acts[|acts| - 1];
            var net' := Acted(net, c, SetOf(names), a);
            var more := if a == World(Deliver(c)) && c in net.up && net.up[c] != [] then [net.up[c][0]] else [];
            && NetReachable(net')
            && OnCourse(net', c, SetOf(names), Announced(acts), Turns(acts), collected + more)
  {
    var announced, turns := Announced(acts[..|acts| - 1]), Turns(acts[..|acts| - 1]);
    assert collected + [] == collected && announced + [] == announced && turns + [] == turns;
    match acts[|acts| - 1]
    case World(m) => CourseWorld(net, c, SetOf(names), announced, turns, m, collected);
    case Put(n) => CoursePut(net, c, SetOf(names), announced, n, collected);
    case Loop(t) => CourseTurn(net, c, SetOf(names), announced, turns, t, collected);
  }

  lemma {:induction false} AnnouncedInOrder(names: seq<Name>, acts: seq<Act>)
    requires InProgram(names, acts)
    ensures Announced(acts) <= names && (Turns(acts) != [] ==> Announced(acts) == names)
  {
    if acts != [] { AnnouncedInOrder(names, acts[..|acts| - 1]); }
  }

  /**
   A worker is an honest peer, over its whole connection and under every interleaving: let it connect, and let its
   registrations and turns come between any moves of the others, each turn reading the next packet of its channel.
   Then the result is a state of the closed system, and the worker's stream, with what the broker has taken of it, is
   what `run_worker` writes.
   */
  lemma WorkerIsHonest(net0: Net, c: ClientId, names: seq<Name>, acts: seq<Act>)
    requires NetReachable(net0) && CanMove(net0, Connect(c, Honest(SetOf(names), [])))
    requires var net := After(net0, Connect(c, Honest(SetOf(names), [])));
             CanAll(net, c, SetOf(names), acts) && InProgram(names, acts)
    ensures var net := After(net0, Connect(c, Honest(SetOf(names), [])));
            var net' := NetAfter(net, c, SetOf(names), acts);
            && NetReachable(net') && LiveWorker(net', c, SetOf(names))
            && Collected(net, c, SetOf(names), acts) + net'.up[c]
               == Registrations(Announced(acts)) + Serve(SetOf(names), Turns(acts)).replies
            && HasRead(net', c, SetOf(names), Turns(acts))
    ensures Announced(acts) <= names && (Turns(acts) != [] ==> Announced(acts) == names)
  {
    AnnouncedInOrder(names, acts);
    var m := Connect(c, Honest(SetOf(names), []));
    ReachMove(net0, m);
    var net := After(net0, m);
    assert OnCourse(net, c, SetOf(names), [], [], []);
    StaysOnCourse(net, c, names, acts);
  }

  // ---------- no unknown object ----------

  /** What a peer says, or its task is carrying out, registers objects of that peer only. */
  ghost predicate RegistersOwn(up: seq<Packet>, pc: PC, objects: set<Name>) {
    && (forall p | p in up && p.Req? && p.req.RegisterObject? :: p.req.obj in objects)
    && ((pc.Want? || pc.In?) && pc.sec.PutObject? ==> pc.sec.obj in objects)
  }

  ghost predicate RegisteredOwn(registered: set<(ClientId, Name)>, peers: map<ClientId, Peer>) {
    forall x | x in registered :: x.0 in peers && x.1 in ObjectsOf(peers[x.0].role)
  }

  ghost predicate OwnObjects(net: Net) {
    && Wired(net) && AllKnown(net.b) && RegisteredOwn(net.b.hist.registered, net.peers)
    && forall c | c in net.b.pc :: RegistersOwn(net.up[c], net.b.pc[c], ObjectsOf(net.peers[c].role))
  }

  lemma ObjectsFixed(net: Net, m: Move, c: ClientId)
    requires CanMove(net, m) && c in net.peers && Wired(net)
    ensures c in After(net, m).peers && ObjectsOf(After(net, m).peers[c].role) == ObjectsOf(net.peers[c].role)
  {
  }

  lemma {:induction false} BrokerMove(net: Net, m: Move)
    requires AllKnown(net.b) && CanMove(net, m)
    ensures AllKnown(After(net, m).b)
  {
    match m
    case Connect(c, _) => AllKnownStep(net.b, Spawn(c));
    case Deliver(c) => AllKnownStep(net.b, Recv(c, net.up[c][0]));
    case Inner(l) => AllKnownStep(net.b, l);
    case _ =>
  }

  lemma {:induction false} OwnObjectsStep(net: Net, m: Move)
    requires OwnObjects(net) && CanMove(net, m)
    ensures OwnObjects(After(net, m))
  {
    var net' := After(net, m);
    WiredStep(net, m);
    BrokerMove(net, m);
    forall c | c in net.peers ensures c in net'.peers && ObjectsOf(net'.peers[c].role) == ObjectsOf(net.peers[c].role) {
      ObjectsFixed(net, m, c);
    }
    forall c | c in net'.b.pc ensures RegistersOwn(net'.up[c], net'.b.pc[c], ObjectsOf(net'.peers[c].role)) {
      if c in net.b.pc { OwnStep(net, m, c); }
    }
    RegistrationsOwn(net, m);
  }

  lemma PacketsOwn(net: Net, m: Move, c: ClientId)
    requires Wired(net) && CanMove(net, m) && c in net.up
    requires forall p | p in net.up[c] && p.Req? && p.req.RegisterObject? :: p.req.obj in ObjectsOf(net.peers[c].role)
    ensures forall p | p in After(net, m).up[c] && p.Req? && p.req.RegisterObject? ::
        p.req.obj in ObjectsOf(net.peers[c].role)
  {
  }

  lemma PointOwn(b: Broker, l: Label, objects: set<Name>)
    requires Enabled(b, l) && l.c in b.pc
    requires (b.pc[l.c].Want? || b.pc[l.c].In?) && b.pc[l.c].sec.PutObject? ==> b.pc[l.c].sec.obj in objects
    requires l.Recv? && l.packet.Req? && l.packet.req.RegisterObject? ==> l.packet.req.obj in objects
    ensures var pc := Target(b, l); (pc.Want? || pc.In?) && pc.sec.PutObject? ==> pc.sec.obj in objects
  {
  }

  lemma OwnStep(net: Net, m: Move, c: ClientId)
    requires Wired(net) && CanMove(net, m) && c in net.b.pc
    requires RegistersOwn(net.up[c], net.b.pc[c], ObjectsOf(net.peers[c].role))
    ensures c in After(net, m).b.pc && c in After(net, m).up
    ensures RegistersOwn(After(net, m).up[c], After(net, m).b.pc[c], ObjectsOf(net.peers[c].role))
  {
    PacketsOwn(net, m, c);
    if m.Inner? && m.l.c == c { PointOwn(net.b, m.l, ObjectsOf(net.peers[c].role)); }
    if m.Deliver? && m.c == c {
      assert net.up[c][0] in net.up[c];
      PointOwn(net.b, Recv(c, net.up[c][0]), ObjectsOf(net.peers[c].role));
    }
  }

  lemma {:induction false} RegistrationsOwn(net: Net, m: Move)
    requires OwnObjects(net) && CanMove(net, m)
    ensures RegisteredOwn(After(net, m).b.hist.registered, After(net, m).peers)
  {
    var net' := After(net, m);
    forall x | x in net'.b.hist.registered ensures x.0 in net'.peers && x.1 in ObjectsOf(net'.peers[x.0].role) {
      if x !in net.b.hist.registered {
        assert RegistersOwn(net.up[x.0], net.b.pc[x.0], ObjectsOf(net.peers[x.0].role));
      }
      ObjectsFixed(net, m, x.0);
    }
  }

  /** A call that reaches a worker names one of its objects: the "Unknown object" branch is never taken. */
  lemma NoUnknownObject(net: Net, c: ClientId, i: nat)
    requires NetReachable(net) && c in net.b.outs && i < |net.b.outs[c]| && IsCall(net.b.outs[c][i].packet)
    ensures c in net.peers && net.peers[c].role.Honest?
    ensures net.b.outs[c][i].packet.req.call.obj in net.peers[c].role.objs
  {
    var run :| IsNetRun(run) && run[|run| - 1] == net;
    forall x, m | OwnObjects(x) && CanMove(x, m) ensures OwnObjects(After(x, m)) { OwnObjectsStep(x, m); }
    NetInvariance(OwnObjects, run);
    assert Known([net.b.outs[c][i].packet], c, net.b.hist.registered);
  }

  /** What is due for the packets of a channel: for each call its result, under its id and its object's name. */
  function DueReplies(log: seq<Entry>, values: seq<Value>): seq<Packet>
    requires |values| == |log|
  {
    if log == [] then []
    else
      var n := |log| - 1;
      DueReplies(log[..n], values[..n]) +
      match log[n].packet
      case Req(Call(call)) => [Resp(Result(call.id, call.obj, values[n]))]
      case _ => []
  }

  /** The turns read the log from its start, their objects' methods return these values, and every reply is written. */
  ghost predicate ReadsAll(turns: seq<Turn>, log: seq<Entry>, values: seq<Value>) {
    |turns| == |log| == |values| && forall i | 0 <= i < |turns| :: turns[i] == Incoming(log[i].packet, values[i], true)
  }

  /**
   So a worker that has read its channel up to some point, and could write, has written the result of every call in it
   up to there, once each and in the order of the channel, with the call's id, its object and the value of its method.
   */
  lemma {:induction false} EveryCallAnswered(net: Net, c: ClientId, n: nat, turns: seq<Turn>, values: seq<Value>)
    requires NetReachable(net) && c in net.peers && net.peers[c].role.Honest? && c in net.b.outs
    requires n <= |net.b.outs[c]| && ReadsAll(turns, net.b.outs[c][..n], values)
    ensures var t := Serve(net.peers[c].role.objs, turns);
            t.ending == Done && t.replies == DueReplies(net.b.outs[c][..n], values)
  {
    forall i | 0 <= i < n && IsCall(turns[i].packet)
      ensures turns[i].packet.req.call.obj in net.peers[c].role.objs
    {
      NoUnknownObject(net, c, i);
    }
    AnswersAll(net.peers[c].role.objs, net.b.outs[c][..n], turns, values);
  }

  lemma {:induction false} AnswersAll(objects: set<Name>, log: seq<Entry>, turns: seq<Turn>, values: seq<Value>)
    requires ReadsAll(turns, log, values)
    requires forall i | 0 <= i < |turns| && IsCall(turns[i].packet) :: turns[i].packet.req.call.obj in objects
    ensures Serve(objects, turns) == Trace(DueReplies(log, values), Done)
  {
    if turns != [] {
      var n := |turns| - 1;
      AnswersAll(objects, log[..n], turns[..n], values[..n]);
      assert turns == turns[..n] + [turns[n]];
      ServeLast(objects, turns[..n], turns[n]);
      ServeOne(objects, turns[n]);
    }
  }

  lemma ServeOne(objects: set<Name>, t: Turn)
    requires t.Incoming? && t.sendable
    ensures var r := ReplyFor(objects, t.packet, t.value);
            Serve(objects, [t]) == Trace(if r.Some? then [Resp(r.value)] else [], Done)
  {
    assert [t][1..] == [];
  }
}
