/** No step of the closed system duplicates the token of a call. */
module Conservation {
  import opened Rpc
  import opened Sections
  import opened LockSteps
  import opened Network
  import opened Tokens
  import opened Routing

  ghost predicate Somewhere(at: Layout, id: CallId) {
    exists p, t :: at(p, t) > 0 && p != Done && t.id == id
  }

  /** The tokens in `x` are fresh or still somewhere. */
  ghost predicate Unsettled(x: set<CallId>, minted: Register, at: Layout) {
    forall id | id in x :: id !in minted || Somewhere(at, id)
  }

  /** Token `t` leaves `from` and arrives, at most once, at `to`. */
  lemma OneMoves(at: Layout, at': Layout, minted: Register, minted': Register, tok: map<CallId, Place>,
                 t: Tag, from: Place, to: Place)
    requires LinearIn(at, minted, tok) && Grown(minted, minted') && from != to
    requires at(from, t) > 0
    requires forall p, u :: at'(p, u) + One(p == from && u == t) <= at(p, u) + One(p == to && u == t)
    requires from != Done
    ensures ShiftIn(at, at', minted, minted', {t.id}, to) && Unsettled({t.id}, minted, at)
  {
    assert Sits(t, from, minted, tok);
    forall p, u ensures at'(p, u) <= if u.id != t.id then at(p, u) else One(p == to && minted'[u.id].obj == u.obj) {
      if u.id == t.id {
        if at(p, u) > 0 { assert Sits(u, p, minted, tok); }
      }
    }
  }

  /** A freshly minted token arrives at `to`. */
  lemma FreshArrives(at: Layout, at': Layout, minted: Register, minted': Register, tok: map<CallId, Place>, t: Tag,
      to: Place)
    requires LinearIn(at, minted, tok) && Grown(minted, minted')
    requires t.id !in minted && t.id in minted' && minted'[t.id].obj == t.obj
    requires forall p, u :: at'(p, u) <= at(p, u) + One(p == to && u == t)
    ensures ShiftIn(at, at', minted, minted', {t.id}, to) && Unsettled({t.id}, minted, at)
  {
    forall p, u ensures at'(p, u) <= if u.id != t.id then at(p, u) else One(p == to && minted'[u.id].obj == u.obj) {
      if u.id == t.id && at(p, u) > 0 { assert Sits(u, p, minted, tok); }
    }
  }

  lemma NoneMoves(at: Layout, at': Layout, minted: Register, minted': Register, to: Place)
    requires Grown(minted, minted')
    requires forall p, u :: at'(p, u) <= at(p, u)
    ensures ShiftIn(at, at', minted, minted', {}, to)
  {
  }

  lemma {:induction false} WithoutOne(s: seq<Tag>, k: nat, t: Tag)
    requires k < |s|
    ensures InTags(Without(s, k), t) + One(s[k] == t) == InTags(s, t)
  {
    assert s == s[..k] + s[k..];
    InTagsAppend(s[..k], s[k..], t);
    InTagsAppend(s[..k], s[k + 1..], t);
    assert s[k..][1..] == s[k + 1..];
  }

  lemma SayEffect(net: Net, c: ClientId, packet: Packet, p: Place, t: Tag)
    requires Wired(net) && CanMove(net, Say(c, packet))
    ensures At(After(net, Say(c, packet)), p, t) <=
            At(net, p, t) + One(p == UpFrom(c) && IsCall(packet) && t == TagOf(packet.req.call))
  {
    InPacketsAppend(net.up[c], packet, t);
  }

  lemma AnswerEffect(net: Net, c: ClientId, k: nat, reply: Response, p: Place, t: Tag)
    requires Wired(net) && CanMove(net, Answer(c, k, reply))
    ensures var tag := net.peers[c].role.hands[k];
            At(After(net, Answer(c, k, reply)), p, t) + One(p == Held(c) && t == tag)
            <= At(net, p, t) + One(p == UpFrom(c) && t == tag)
  {
    InPacketsAppend(net.up[c], Resp(reply), t);
    WithoutOne(net.peers[c].role.hands, k, t);
  }

  lemma {:induction false} DispatchHand(p: Packet, nth: nat, t: Tag)
    ensures InHand(Dispatch(p, nth), t) == One(Carries(p, true, t))
  {
  }

  lemma DeliverEffect(net: Net, c: ClientId, p: Place, t: Tag)
    requires Wired(net) && CanMove(net, Deliver(c))
    ensures var n := One(Carries(net.up[c][0], true, t));
            At(After(net, Deliver(c)), p, t) + (if p == UpFrom(c) then n else 0)
            <= At(net, p, t) + (if p == Hand(c) then n else 0)
  {
    var packet := net.up[c][0];
    var nth := if packet.Req? && packet.req.Publish? then |Published(net.b.hist, c, packet.req.topic)| else 0;
    DispatchHand(packet, nth, t);
  }

  lemma ReadEffect(net: Net, c: ClientId, p: Place, t: Tag)
    requires Wired(net) && CanMove(net, Read(c))
    ensures var n := One(Carries(net.b.outs[c][net.read[c]].packet, false, t));
            At(After(net, Read(c)), p, t) + (if p == Inbox(c) then n else 0)
            <= At(net, p, t) + (if p == Held(c) then n else 0)
  {
    var rest := net.b.outs[c][net.read[c]..];
    assert rest[1..] == net.b.outs[c][net.read[c] + 1..];
    var packet := rest[0].packet;
    if net.peers[c].role.Honest? && IsCall(packet) {
      var tag := TagOf(packet.req.call);
      InTagsAppend(net.peers[c].role.hands, [tag], t);
      assert [tag][1..] == [];
    }
  }

  lemma ConnectEffect(net: Net, c: ClientId, role: Role, p: Place, t: Tag)
    requires Wired(net) && CanMove(net, Connect(c, role))
    ensures At(After(net, Connect(c, role)), p, t) <= At(net, p, t)
  {
  }

  /** A task's step outside sections and sends takes no token into its hands. */
  lemma {:induction false} IdleHand(b: Broker, l: Label, t: Tag)
    requires Enabled(b, l) && !l.Recv? && !l.Spawn? && !l.Send? && !InSection(b, l)
    ensures InHand(Target(b, l), t) <= InHand(b.pc[l.c], t)
  {
    if l.Work? && b.pc[l.c].Located? {
      var p := Refusal(b.pc[l.c].call, "Caller disconnected");
      OnePacket(p, t);
    }
  }

  lemma IdleEffect(net: Net, l: Label, p: Place, t: Tag)
    requires Wired(net) && CanMove(net, Inner(l)) && !l.Send? && !InSection(net.b, l)
    ensures At(After(net, Inner(l)), p, t) <= At(net, p, t)
  {
    IdleHand(net.b, l, t);
  }

  /** A section moves the tokens of a flushed queue into its task's hands, or its call's token onto a queue. */
  lemma SectionEffect(net: Net, l: Label, p: Place, t: Tag)
    requires Wired(net) && CanMove(net, Inner(l)) && InSection(net.b, l)
    ensures var sec, after, before := net.b.pc[l.c].sec, At(After(net, Inner(l)), p, t), At(net, p, t);
            match sec
            case TakePending(n) =>
              after <= if p == Queue(n) then 0 else if p == Hand(l.c) then At(net, Queue(n), t) else before
            case Activate(call) =>
              if call.obj in net.b.tb.services
              then after + (if p == Hand(l.c) then before else 0)
                   <= before + One(p == Queue(call.obj) && t == TagOf(call))
              else after <= before
            case _ => after <= before
  {
    HandAfterSection(net.b.tb, l.c, net.b.pc[l.c].sec, l.order, t);
    if p.Queue? { QueueAfterSection(net.b.tb, l.c, net.b.pc[l.c].sec, l.order, p.n, t); }
  }

  /** The message sent leaves its task's hands. */
  lemma SentHand(b: Broker, c: ClientId, t: Tag)
    requires Enabled(b, Send(c))
    ensures InHand(Target(b, Send(c)), t) + One(Carries(Outgoing(b, c).packet, true, t)) == InHand(b.pc[c], t)
  {
    match b.pc[c]
    case Mine(msgs) => assert InPackets(msgs, t) == One(Carries(msgs[0], true, t)) + InPackets(msgs[1..], t);
    case Post(ls) => assert InLetters(ls, t) == One(Carries(ls[0].packet, true, t)) + InLetters(ls[1..], t);
    case Refuse(call) => assert Carries(NoSuchObject(call), true, t) <==> t == TagOf(call);
    case _ =>
  }

  lemma SendEffect(net: Net, c: ClientId, p: Place, t: Tag)
    requires Wired(net) && CanMove(net, Inner(Send(c)))
    ensures var m := Outgoing(net.b, c);
            At(After(net, Inner(Send(c))), p, t) + One(p == Hand(c) && Carries(m.packet, true, t))
            <= At(net, p, t) + One(p == Inbox(m.to) && Carries(m.packet, false, t))
  {
    SentHand(net.b, c, t);
    var m := Outgoing(net.b, c);
    if p == Inbox(m.to) && m.to in net.b.outs {
      var log, e := net.b.outs[m.to], Entry(c, m.nth, m.packet);
      assert (log + [e])[net.read[m.to]..] == log[net.read[m.to]..] + [e];
      InLogAppend(log[net.read[m.to]..], e, t);
    }
  }

  /** Tokens on the move, and their new place. */
  datatype Shipment = Shipment(ids: set<CallId>, to: Place)

  ghost function SectionMove(net: Net, c: ClientId, sec: Section): Shipment {
    match sec
    case TakePending(n) =>
      Shipment((set id | id in net.minted && At(net, Queue(n), Tag(id, net.minted[id].obj)) > 0), Hand(c))
    case Activate(call) => Shipment(if call.obj in net.b.tb.services then {call.id} else {}, Queue(call.obj))
    case _ => Shipment({}, Done)
  }

  /** The tokens a step moves, and where they go. */
  ghost function MoveOf(net: Net, m: Move): Shipment
    requires CanMove(net, m) && Wired(net)
  {
    match m
    case Say(c, p) => Shipment(if IsCall(p) then {p.req.call.id} else {}, UpFrom(c))
    case Answer(c, k, r) => Shipment({ReplyTo(r).value}, UpFrom(c))
    case Deliver(c) =>
      var p := net.up[c][0];
      Shipment(if IsCall(p) then {p.req.call.id} else if IsReply(p) then {ReplyTo(p.resp).value} else {}, Hand(c))
    case Read(c) =>
      var p := net.b.outs[c][net.read[c]].packet;
      Shipment(if IsCall(p) then {p.req.call.id} else {}, Held(c))
    case Inner(l) =>
      if InSection(net.b, l) then SectionMove(net, l.c, net.b.pc[l.c].sec)
      else if l.Send? then
        var x := Outgoing(net.b, l.c);
        if IsCall(x.packet) then Shipment({x.packet.req.call.id}, Inbox(x.to))
        else if IsReply(x.packet) then Shipment({ReplyTo(x.packet.resp).value}, Done)
        else Shipment({}, Done)
      else Shipment({}, Done)
    case _ => Shipment({}, Done)
  }

  ghost predicate Shifts(net: Net, m: Move, s: Shipment)
    requires CanMove(net, m)
  {
    ShiftIn(Lay(net), Lay(After(net, m)), net.minted, After(net, m).minted, s.ids, s.to)
      && Unsettled(s.ids, net.minted, Lay(net))
  }

  lemma SayShifts(net: Net, tok: map<CallId, Place>, c: ClientId, p: Packet)
    requires Routed(net) && Linear(net, tok) && CanMove(net, Say(c, p))
    ensures var mv := MoveOf(net, Say(c, p)); Shifts(net, Say(c, p), mv)
  {
    var m := Say(c, p);
    var net' := After(net, m);
    forall q, t ensures At(net', q, t) <= At(net, q, t) + One(q == UpFrom(c) && IsCall(p) && t == TagOf(p.req.call)) {
      SayEffect(net, c, p, q, t);
    }
    if IsCall(p) {
      FreshArrives(Lay(net), Lay(net'), net.minted, net'.minted, tok, TagOf(p.req.call), UpFrom(c));
    } else {
      NoneMoves(Lay(net), Lay(net'), net.minted, net'.minted, UpFrom(c));
    }
  }

  lemma AnswerShifts(net: Net, tok: map<CallId, Place>, c: ClientId, k: nat, r: Response)
    requires Routed(net) && Linear(net, tok) && CanMove(net, Answer(c, k, r))
    ensures var mv := MoveOf(net, Answer(c, k, r)); Shifts(net, Answer(c, k, r), mv)
  {
    var m := Answer(c, k, r);
    var net', tag := After(net, m), net.peers[c].role.hands[k];
    forall q, t
      ensures At(net', q, t) + One(q == Held(c) && t == tag) <= At(net, q, t) + One(q == UpFrom(c) && t == tag)
    {
      AnswerEffect(net, c, k, r, q, t);
    }
    assert At(net, Held(c), tag) > 0 by { AnswerEffect(net, c, k, r, Held(c), tag); }
    OneMoves(Lay(net), Lay(net'), net.minted, net'.minted, tok, tag, Held(c), UpFrom(c));
  }

  lemma DeliverShifts(net: Net, tok: map<CallId, Place>, c: ClientId)
    requires Routed(net) && Linear(net, tok) && CanMove(net, Deliver(c))
    ensures var mv := MoveOf(net, Deliver(c)); Shifts(net, Deliver(c), mv)
  {
    var m, p := Deliver(c), net.up[c][0];
    var net' := After(net, m);
    forall q, t ensures var n := One(Carries(p, true, t));
      At(net', q, t) + (if q == UpFrom(c) then n else 0) <= At(net, q, t) + (if q == Hand(c) then n else 0)
    {
      DeliverEffect(net, c, q, t);
    }
    if IsCall(p) || IsReply(p) {
      var tag := TagIn(p);
      assert forall t :: Carries(p, true, t) <==> t == tag;
      OneMoves(Lay(net), Lay(net'), net.minted, net'.minted, tok, tag, UpFrom(c), Hand(c));
    } else {
      NoneMoves(Lay(net), Lay(net'), net.minted, net'.minted, Hand(c));
    }
  }

  lemma ReadShifts(net: Net, tok: map<CallId, Place>, c: ClientId)
    requires Routed(net) && Linear(net, tok) && CanMove(net, Read(c))
    ensures var mv := MoveOf(net, Read(c)); Shifts(net, Read(c), mv)
  {
    var m, p := Read(c), net.b.outs[c][net.read[c]].packet;
    var net' := After(net, m);
    forall q, t ensures var n := One(Carries(p, false, t));
      At(net', q, t) + (if q == Inbox(c) then n else 0) <= At(net, q, t) + (if q == Held(c) then n else 0)
    {
      ReadEffect(net, c, q, t);
    }
    if IsCall(p) {
      assert forall t :: Carries(p, false, t) <==> t == TagOf(p.req.call);
      OneMoves(Lay(net), Lay(net'), net.minted, net'.minted, tok, TagOf(p.req.call), Inbox(c), Held(c));
    } else {
      NoneMoves(Lay(net), Lay(net'), net.minted, net'.minted, Held(c));
    }
  }

  function TagIn(p: Packet): Tag
    requires IsCall(p) || IsReply(p)
  {
    if IsCall(p) then TagOf(p.req.call) else Tag(ReplyTo(p.resp).value, ReplyObject(p.resp))
  }

  /** Where a sent token goes: a call to its addressee's channel; a reply is done. */
  lemma SendTokenShifts(net: Net, tok: map<CallId, Place>, c: ClientId)
    requires Routed(net) && Linear(net, tok) && CanMove(net, Inner(Send(c)))
    requires IsCall(Outgoing(net.b, c).packet) || IsReply(Outgoing(net.b, c).packet)
    ensures var mv := MoveOf(net, Inner(Send(c))); Shifts(net, Inner(Send(c)), mv)
  {
    var x, net' := Outgoing(net.b, c), After(net, Inner(Send(c)));
    var tag, to := TagIn(x.packet), if IsCall(x.packet) then Inbox(x.to) else Done;
    assert forall t :: Carries(x.packet, true, t) <==> t == tag;
    forall q, t ensures At(net', q, t) + One(q == Hand(c) && t == tag) <= At(net, q, t) + One(q == to && t == tag) {
      SendEffect(net, c, q, t);
    }
    assert MoveOf(net, Inner(Send(c))) == Shipment({tag.id}, to);
    OneMoves(Lay(net), Lay(net'), net.minted, net'.minted, tok, tag, Hand(c), to);
  }

  lemma SendShifts(net: Net, tok: map<CallId, Place>, c: ClientId)
    requires Routed(net) && Linear(net, tok) && CanMove(net, Inner(Send(c)))
    ensures var mv := MoveOf(net, Inner(Send(c))); Shifts(net, Inner(Send(c)), mv)
  {
    var p := Outgoing(net.b, c).packet;
    if IsCall(p) || IsReply(p) {
      SendTokenShifts(net, tok, c);
    } else {
      var net' := After(net, Inner(Send(c)));
      forall q, t ensures At(net', q, t) <= At(net, q, t) { SendEffect(net, c, q, t); }
      NoneMoves(Lay(net), Lay(net'), net.minted, net'.minted, Done);
    }
  }

  lemma FlushShifts(net: Net, tok: map<CallId, Place>, l: Label)
    requires Routed(net) && Linear(net, tok) && CanMove(net, Inner(l)) && InSection(net.b, l)
    requires net.b.pc[l.c].sec.TakePending?
    ensures var mv := MoveOf(net, Inner(l)); Shifts(net, Inner(l), mv)
  {
    var m, n := Inner(l), net.b.pc[l.c].sec.obj;
    var net', x := After(net, m), MoveOf(net, m).ids;
    forall p, t
      ensures At(net', p, t) <=
              if t.id !in x then At(net, p, t) else One(p == Hand(l.c) && net.minted[t.id].obj == t.obj)
    {
      SectionEffect(net, l, p, t);
      if Lay(net)(p, t) > 0 { assert Sits(t, p, net.minted, tok); }
      if Lay(net)(Queue(n), t) > 0 { assert Sits(t, Queue(n), net.minted, tok); }
      if t.id in x { assert Lay(net)(Queue(n), Tag(t.id, net.minted[t.id].obj)) > 0; }
    }
    assert Unsettled(x, net.minted, Lay(net)) by {
      forall id | id in x ensures Somewhere(Lay(net), id) {
        assert Lay(net)(Queue(n), Tag(id, net.minted[id].obj)) > 0;
      }
    }
  }

  lemma SectionShifts(net: Net, tok: map<CallId, Place>, l: Label)
    requires Routed(net) && Linear(net, tok) && CanMove(net, Inner(l)) && InSection(net.b, l)
    requires !net.b.pc[l.c].sec.TakePending?
    ensures var mv := MoveOf(net, Inner(l)); Shifts(net, Inner(l), mv)
  {
    var m, sec := Inner(l), net.b.pc[l.c].sec;
    var net' := After(net, m);
    if sec.Activate? && sec.call.obj in net.b.tb.services {
      var tag, to := TagOf(sec.call), Queue(sec.call.obj);
      assert forall t :: At(net, Hand(l.c), t) == One(t == tag);
      forall p, t ensures At(net', p, t) + One(p == Hand(l.c) && t == tag) <= At(net, p, t) + One(p == to && t == tag) {
        SectionEffect(net, l, p, t);
      }
      OneMoves(Lay(net), Lay(net'), net.minted, net'.minted, tok, tag, Hand(l.c), to);
    } else {
      forall p, t ensures At(net', p, t) <= At(net, p, t) { SectionEffect(net, l, p, t); }
      NoneMoves(Lay(net), Lay(net'), net.minted, net'.minted, MoveOf(net, m).to);
    }
  }

  lemma {:induction false} IdleShifts(net: Net, tok: map<CallId, Place>, m: Move)
    requires Routed(net) && Linear(net, tok) && CanMove(net, m)
    requires m.Connect? || m.Fail? || (m.Inner? && !m.l.Send? && !InSection(net.b, m.l))
    ensures var mv := MoveOf(net, m); Shifts(net, m, mv)
  {
    var net' := After(net, m);
    forall p, t ensures At(net', p, t) <= At(net, p, t) {
      match m
      case Connect(c, role) => ConnectEffect(net, c, role, p, t);
      case Inner(l) => IdleEffect(net, l, p, t);
      case _ =>
    }
    NoneMoves(Lay(net), Lay(net'), net.minted, net'.minted, Done);
  }

  lemma TokensShift(net: Net, tok: map<CallId, Place>, m: Move)
    requires Routed(net) && Linear(net, tok) && CanMove(net, m)
    ensures var mv := MoveOf(net, m); Shifts(net, m, mv)
  {
    match m
    case Say(c, p) => SayShifts(net, tok, c, p);
    case Answer(c, k, r) => AnswerShifts(net, tok, c, k, r);
    case Deliver(c) => DeliverShifts(net, tok, c);
    case Read(c) => ReadShifts(net, tok, c);
    case Inner(l) =>
      if l.Send? {
        SendShifts(net, tok, l.c);
      } else if !InSection(net.b, l) {
        IdleShifts(net, tok, m);
      } else if net.b.pc[l.c].sec.TakePending? {
        FlushShifts(net, tok, l);
      } else {
        SectionShifts(net, tok, l);
      }
    case _ => IdleShifts(net, tok, m);
  }
}
