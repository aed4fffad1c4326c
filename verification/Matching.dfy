/**
 An `IPCClient` that never subscribes takes the right packet for the answer to each request, although it matches by
 position and never compares call ids (closed system, lock grain, any other honest peers).
 */
module Matching {
  import opened Rpc
  import opened Sections
  import opened LockSteps
  import opened Ownership
  import opened Network
  import opened Tokens
  import opened Routing
  import opened Conservation
  import opened Replies

  /** What a client is owed after a request: the answer to a call, or to a question about an object. */
  datatype Owed = ForCall(tag: Tag) | ForObject(obj: Name)

  function Key(r: Request): Option<Owed> {
    match r
    case Call(call) => Some(ForCall(TagOf(call)))
    case HasObject(n) => Some(ForObject(n))
    case _ => None
  }

  /** The packet is the answer to this very request. */
  predicate Matches(r: Request, p: Packet) {
    match r
    case Call(call) => IsReply(p) && Answers(p.resp, TagOf(call))
    case HasObject(n) => p.Resp? && p.resp.HasObjectResult? && p.resp.obj == n
    case _ => false
  }

  /** The requests in a stream that will be answered. */
  function Asks(ps: seq<Packet>): seq<Owed> {
    if ps == [] then []
    else (if ps[0].Req? && Key(ps[0].req).Some? then [Key(ps[0].req).value] else []) + Asks(ps[1..])
  }

  /** The answer that a task of the broker is preparing for its own client. */
  function Serving(pc: PC): Option<Owed> {
    if CallOf(pc).Some? then Some(ForCall(TagOf(CallOf(pc).value)))
    else if (pc.Want? || pc.In?) && pc.sec.AskObject? then Some(ForObject(pc.sec.obj))
    else
      var msgs := OwnMessages(pc);
      if msgs != [] && msgs[0].Resp? && msgs[0].resp.HasObjectResult? then Some(ForObject(msgs[0].resp.obj))
      else if msgs != [] && IsReply(msgs[0])
      then Some(ForCall(Tag(ReplyTo(msgs[0].resp).value, ReplyObject(msgs[0].resp))))
      else None
  }

  predicate Subscribing(sec: Section, c: ClientId) {
    sec.FindSubs? && c in sec.subs
  }

  /** The task at `pc` sends `c` nothing but replies. */
  ghost predicate Spares(pc: PC, c: ClientId) {
    && (pc.Post? ==> forall x | x in pc.letters && x.to == c :: IsReply(x.packet))
    && (pc.Located? ==> pc.worker != Some(c))
    && (pc.Want? || pc.In? ==> !(pc.sec.PutCall? && pc.sec.worker == Some(c)) && !Subscribing(pc.sec, c))
  }

  /** The tables do not make `c` a worker or a subscriber. */
  ghost predicate Outside(tb: Tables, c: ClientId) {
    && (forall n | n in tb.objects :: tb.objects[n] != c)
    && (forall t | t in tb.subs :: c !in tb.subs[t])
  }

  /** Program points that the task of a client without registrations and subscriptions can be at. */
  predicate Plain(pc: PC) {
    && (pc.Want? || pc.In? ==>
          var s := pc.sec;
          !s.PutObject? && !s.TakePending? && !s.PutService? && !s.PutSub? && !s.TakeCall?)
    && (OwnMessages(pc) != [] ==> |OwnMessages(pc)| == 1 && OwnMessages(pc)[0].Resp? && Serving(pc).Some?)
  }

  predicate PlainRequest(p: Packet) {
    p.Req? && (p.req.Call? || p.req.HasObject? || p.req.Publish?)
  }

  function Waiting(net: Net, c: ClientId): Option<Request> {
    if c in net.peers && net.peers[c].role.Actor? then net.peers[c].role.waiting else None
  }

  function Stream(net: Net, c: ClientId): seq<Packet> {
    if c in net.up then net.up[c] else []
  }

  function PointOf(b: Broker, c: ClientId): PC {
    if c in b.pc then b.pc[c] else Idle
  }

  function Unread(net: Net, c: ClientId): seq<Entry> {
    if c in net.b.outs && c in net.read && net.read[c] <= |net.b.outs[c]| then net.b.outs[c][net.read[c]..] else []
  }

  /** `c` takes no part but its own requests. */
  ghost predicate Modest(net: Net, c: ClientId) {
    && Outside(net.b.tb, c)
    && (forall d | d in net.b.pc :: Spares(net.b.pc[d], c))
    && Plain(PointOf(net.b, c))
    && (forall p | p in Stream(net, c) :: PlainRequest(p))
  }

  /** At most one thing is outstanding: the request on its way, the task serving it, or its answer. */
  ghost predicate OneOutstanding(waiting: Option<Request>, asks: seq<Owed>, serving: Option<Owed>, unread: seq<Entry>) {
    if waiting.None? then asks == [] && serving.None? && unread == []
    else
      && |asks| + One(serving.Some?) + |unread| <= 1
      && (forall k | k in asks :: Key(waiting.value) == Some(k))
      && (serving.Some? ==> Key(waiting.value) == serving)
      && (forall e | e in unread :: Matches(waiting.value, e.packet))
  }

  /** Of the calls minted by `c`, only the one it waits for is still anywhere. */
  ghost predicate OnlyCurrent(at: Layout, minted: Register, c: ClientId, waiting: Option<Request>) {
    forall p, t | at(p, t) > 0 && t.id in minted && minted[t.id].caller == c ::
      waiting.Some? && waiting.value.Call? && waiting.value.call.id == t.id
  }

  ghost predicate CurrentMinted(net: Net, c: ClientId) {
    var w := Waiting(net, c);
    w.Some? && w.value.Call? ==>
      w.value.call.id in net.minted && net.minted[w.value.call.id] == Issue(c, w.value.call.obj)
  }

  ghost predicate AllMatched(net: Net, c: ClientId) {
    c in net.peers && net.peers[c].role.Actor? ==>
      forall x | x in net.peers[c].role.exchanges :: Matches(x.request, x.answer)
  }

  ghost predicate InStep(net: Net, c: ClientId) {
    && Modest(net, c)
    && Outstanding(net, c)
    && OnlyCurrent(Lay(net), net.minted, c, Waiting(net, c))
    && CurrentMinted(net, c) && AllMatched(net, c)
  }

  ghost predicate Outstanding(net: Net, c: ClientId) {
    OneOutstanding(Waiting(net, c), Asks(Stream(net, c)), Serving(PointOf(net.b, c)), Unread(net, c))
  }

  // ---------- the client keeps to itself ----------

  lemma OutsideSection(tb: Tables, d: ClientId, sec: Section, order: seq<ClientId>, c: ClientId)
    requires Outside(tb, c) && (d == c ==> !sec.PutObject? && !sec.PutSub?)
    ensures Outside(Body(tb, d, sec, order).tb, c)
  {
  }

  lemma EventsToListed(tb: Tables, t: Topic, args: Value, nth: nat, list: seq<ClientId>)
    ensures forall x | x in Events(tb, t, args, nth, list) :: x.to in list
  {
  }

  lemma SparesStep(b: Broker, l: Label, c: ClientId)
    requires Enabled(b, l) && Outside(b.tb, c) && (l.c in b.pc ==> Spares(b.pc[l.c], c))
    ensures Spares(Target(b, l), c)
  {
    if InSection(b, l) {
      var sec := b.pc[l.c].sec;
      if sec.FindSubs? { EventsToListed(b.tb, sec.topic, sec.args, sec.nth, sec.subs); }
    }
  }

  lemma PlainSection(tb: Tables, c: ClientId, sec: Section, order: seq<ClientId>)
    requires Plain(In(sec))
    ensures Plain(Body(tb, c, sec, order).pc)
  {
  }

  lemma PlainStep(b: Broker, l: Label)
    requires Enabled(b, l) && Plain(PointOf(b, l.c)) && (l.Recv? ==> PlainRequest(l.packet))
    ensures Plain(Target(b, l))
  {
    if InSection(b, l) { PlainSection(b.tb, l.c, b.pc[l.c].sec, l.order); }
  }

  lemma {:induction false} BrokerModest(net: Net, net': Net, l: Label, c: ClientId)
    requires Modest(net, c) && Enabled(net.b, l) && net'.b == Next(net.b, l)
    requires l.Recv? && l.c == c ==> PlainRequest(l.packet)
    ensures Outside(net'.b.tb, c) && Plain(PointOf(net'.b, c))
    ensures forall d | d in net'.b.pc :: Spares(net'.b.pc[d], c)
  {
    SparesStep(net.b, l, c);
    if l.c == c { PlainStep(net.b, l); }
    if InSection(net.b, l) { OutsideSection(net.b.tb, l.c, net.b.pc[l.c].sec, l.order, c); }
  }

  lemma {:induction false} ModestStep(net: Net, m: Move, c: ClientId)
    requires Wired(net) && Modest(net, c) && CanMove(net, m)
    requires c in net.peers ==> net.peers[c].role.Actor?
    ensures Modest(After(net, m), c)
  {
    var net' := After(net, m);
    match m
    case Connect(d, _) => BrokerModest(net, net', Spawn(d), c);
    case Deliver(d) =>
      assert net.up[d][0] in net.up[d];
      BrokerModest(net, net', Recv(d, net.up[d][0]), c);
    case Inner(l) => BrokerModest(net, net', l, c);
    case _ =>
  }

  // ---------- only the current call is anywhere ----------

  /** Tokens move, but only a freshly minted one appears. */
  lemma OnlyCurrentKept(at: Layout, at': Layout, minted: Register, minted': Register, s: Shipment, c: ClientId,
                        waiting: Option<Request>)
    requires ShiftIn(at, at', minted, minted', s.ids, s.to) && Unsettled(s.ids, minted, at)
    requires OnlyCurrent(at, minted, c, waiting)
    requires forall p, t | at(p, t) > 0 :: t.id in minted
    requires forall id | id in s.ids && id !in minted && minted'[id].caller == c ::
               waiting.Some? && waiting.value.Call? && waiting.value.call.id == id
    ensures OnlyCurrent(at', minted', c, waiting)
  {
    forall p, t | at'(p, t) > 0 && t.id in minted' && minted'[t.id].caller == c
      ensures waiting.Some? && waiting.value.Call? && waiting.value.call.id == t.id
    {
      if t.id in s.ids && t.id in minted {
        var q, u :| at(q, u) > 0 && q != Done && u.id == t.id;
      }
    }
  }

  lemma LinearMinted(net: Net, tok: map<CallId, Place>)
    requires Linear(net, tok)
    ensures forall p, t | Lay(net)(p, t) > 0 :: t.id in net.minted
  {
    forall p, t | Lay(net)(p, t) > 0 ensures t.id in net.minted { assert Sits(t, p, net.minted, tok); }
  }

  /** A step other than the client's own new call mints nothing for it. */
  lemma OnlyCurrentStep(net: Net, m: Move, tok: map<CallId, Place>, c: ClientId, waiting: Option<Request>)
    requires Conserved(net, tok) && CanMove(net, m) && OnlyCurrent(Lay(net), net.minted, c, waiting)
    requires m.Say? && m.c == c && IsCall(m.packet) ==> waiting == Some(m.packet.req)
    ensures OnlyCurrent(Lay(After(net, m)), After(net, m).minted, c, waiting)
  {
    var net' := After(net, m);
    TokensShift(net, tok, m);
    LinearMinted(net, tok);
    var mv := MoveOf(net, m);
    forall id | id in mv.ids && id !in net.minted && net'.minted[id].caller == c
      ensures waiting.Some? && waiting.value.Call? && waiting.value.call.id == id
    {
    }
    OnlyCurrentKept(Lay(net), Lay(net'), net.minted, net'.minted, mv, c, waiting);
  }

  /** With nothing of its own anywhere, a client may start waiting for anything. */
  lemma NoneCurrent(at: Layout, minted: Register, c: ClientId, waiting: Option<Request>)
    requires OnlyCurrent(at, minted, c, None)
    ensures OnlyCurrent(at, minted, c, waiting)
  {
  }

  /** Once the answer to the current call is on the channel, its token is nowhere. */
  lemma AnsweredNowhere(net: Net, tok: map<CallId, Place>, c: ClientId, waiting: Option<Request>, i: nat)
    requires Conserved(net, tok) && OnlyCurrent(Lay(net), net.minted, c, waiting) && waiting.Some?
    requires c in net.b.outs && i < |net.b.outs[c]| && Matches(waiting.value, net.b.outs[c][i].packet)
    ensures OnlyCurrent(Lay(net), net.minted, c, None)
  {
    if waiting.value.Call? {
      var id := waiting.value.call.id;
      assert IsReplyAt(net.b.outs, c, i, id);
      forall p, t | Lay(net)(p, t) > 0 ensures t.id in tok && tok[t.id] != Done { assert Sits(t, p, net.minted, tok); }
    }
  }

  // ---------- at most one thing outstanding ----------

  lemma {:induction false} AsksAppend(ps: seq<Packet>, p: Packet)
    ensures Asks(ps + [p]) == Asks(ps) + (if p.Req? && Key(p.req).Some? then [Key(p.req).value] else [])
  {
    if ps == [] {
      assert [] + [p] == [p] && [p][1..] == [];
    } else {
      assert (ps + [p])[1..] == ps[1..] + [p];
      AsksAppend(ps[1..], p);
    }
  }

  lemma {:induction false} AskedCarries(ps: seq<Packet>, t: Tag)
    requires ForCall(t) in Asks(ps)
    ensures InPackets(ps, t) >= 1
  {
    if !Carries(ps[0], true, t) { AskedCarries(ps[1..], t); }
  }

  lemma ServedCarries(pc: PC, t: Tag)
    requires Serving(pc) == Some(ForCall(t))
    ensures InHand(pc, t) >= 1
  {
  }

  lemma ServingShrinks(b: Broker, l: Label)
    requires Enabled(b, l) && Plain(PointOf(b, l.c)) && !l.Recv? && !l.Send?
    ensures Serving(Target(b, l)).None? || Serving(Target(b, l)) == Serving(PointOf(b, l.c))
  {
  }

  lemma OutstandingSay(net: Net, c: ClientId, p: Packet)
    requires Wired(net) && Outstanding(net, c) && CanMove(net, Say(c, p)) && net.peers[c].role.Actor?
    ensures Outstanding(After(net, Say(c, p)), c)
  {
    AsksAppend(net.up[c], p);
  }

  lemma {:induction false} OutstandingDeliver(net: Net, c: ClientId)
    requires Wired(net) && Outstanding(net, c) && CanMove(net, Deliver(c)) && PlainRequest(net.up[c][0])
    ensures Outstanding(After(net, Deliver(c)), c)
  {
    var net', p := After(net, Deliver(c)), net.up[c][0];
    assert Waiting(net', c) == Waiting(net, c) && Unread(net', c) == Unread(net, c);
    assert Stream(net', c) == Stream(net, c)[1..] && PointOf(net.b, c) == Idle;
    ServingReceived(p, if p.req.Publish? then |Published(net.b.hist, c, p.req.topic)| else 0);
    assert Asks(Stream(net, c)) == (if Key(p.req).Some? then [Key(p.req).value] else []) + Asks(Stream(net, c)[1..]);
  }

  lemma ServingReceived(p: Packet, nth: nat)
    requires PlainRequest(p)
    ensures Serving(Dispatch(p, nth)) == Key(p.req) && Serving(Idle).None?
  {
  }

  lemma OutstandingRead(net: Net, c: ClientId)
    requires Wired(net) && Outstanding(net, c) && AllMatched(net, c) && CanMove(net, Read(c))
        && net.peers[c].role.Actor?
    ensures Outstanding(After(net, Read(c)), c) && AllMatched(After(net, Read(c)), c)
    ensures Waiting(net, c).Some? && Matches(Waiting(net, c).value, net.b.outs[c][net.read[c]].packet)
    ensures Waiting(After(net, Read(c)), c).None?
  {
    var rest := Unread(net, c);
    assert rest[0] == net.b.outs[c][net.read[c]] && rest[0] in rest;
    assert Unread(After(net, Read(c)), c) == rest[1..];
  }

  /** A task's step outside sends. */
  lemma {:induction false} OutstandingInner(net: Net, l: Label)
    requires Wired(net) && Modest(net, l.c) && Outstanding(net, l.c) && CanMove(net, Inner(l)) && !l.Send?
    ensures Outstanding(After(net, Inner(l)), l.c)
  {
    ServingShrinks(net.b, l);
  }

  /** Before a routed reply is enqueued to `c`, nothing else is outstanding, and `c` waits for this very reply. */
  lemma ReplyAwaited(net: Net, tok: map<CallId, Place>, d: ClientId, c: ClientId)
    requires Conserved(net, tok) && InStep(net, c) && CanMove(net, Inner(Send(d))) && net.b.pc[d].Post?
    requires Outgoing(net.b, d).to == c && IsReply(Outgoing(net.b, d).packet)
    ensures Waiting(net, c).Some? && Matches(Waiting(net, c).value, Outgoing(net.b, d).packet)
    ensures Asks(Stream(net, c)) == [] && Serving(PointOf(net.b, c)).None? && Unread(net, c) == []
  {
    SentReply(net, d, tok);
    var x := Outgoing(net.b, d);
    var t := Tag(ReplyTo(x.packet.resp).value, ReplyObject(x.packet.resp));
    SentHand(net.b, d, t);
    assert Lay(net)(Hand(d), t) > 0;
    assert Sits(t, Hand(d), net.minted, tok);
    var w := Waiting(net, c);
    assert w.Some? && w.value.Call? && TagOf(w.value.call) == t;
    assert Lay(net)(UpFrom(c), t) == 0 && (c != d ==> Lay(net)(Hand(c), t) == 0);
    if Asks(Stream(net, c)) != [] {
      assert Asks(Stream(net, c))[0] in Asks(Stream(net, c));
      AskedCarries(Stream(net, c), t);
    }
    if Serving(PointOf(net.b, c)).Some? {
      ServedCarries(PointOf(net.b, c), t);
    }
    if Unread(net, c) != [] {
      assert Unread(net, c)[0] in Unread(net, c);
      assert IsReplyAt(net.b.outs, c, net.read[c], t.id);
    }
  }

  /** An entry arrives on the channel of `c`. */
  lemma UnreadGrows(net: Net, d: ClientId, c: ClientId)
    requires Wired(net) && CanMove(net, Inner(Send(d)))
    ensures var x, net' := Outgoing(net.b, d), After(net, Inner(Send(d)));
            Unread(net', c) == Unread(net, c) ||
            (x.to == c && Unread(net', c) == Unread(net, c) + [Entry(d, x.nth, x.packet)])
  {
    var x := Outgoing(net.b, d);
    if x.to == c && c in net.b.outs {
      var log, e := net.b.outs[c], Entry(d, x.nth, x.packet);
      assert (log + [e])[net.read[c]..] == log[net.read[c]..] + [e];
    }
  }

  /** What a task without registrations sends to its own client is the answer it serves. */
  lemma ServedMatches(b: Broker, c: ClientId, r: Request)
    requires Enabled(b, Send(c)) && Plain(b.pc[c]) && !b.pc[c].Post?
    ensures Serving(b.pc[c]).Some? && Serving(Target(b, Send(c))).None?
    ensures Key(r) == Serving(b.pc[c]) ==> Matches(r, Outgoing(b, c).packet)
  {
  }

  /** The task of `c` sends an answer of its own making, or drops it. */
  lemma OutstandingOwn(net: Net, c: ClientId)
    requires Wired(net) && Modest(net, c) && Outstanding(net, c) && CanMove(net, Inner(Send(c))) && !net.b.pc[c].Post?
    ensures Outstanding(After(net, Inner(Send(c))), c)
  {
    var net', x := After(net, Inner(Send(c))), Outgoing(net.b, c);
    var w := Waiting(net, c).value;
    ServedMatches(net.b, c, w);
    UnreadGrows(net, c, c);
    Answered(w, Asks(Stream(net, c)), Serving(net.b.pc[c]), Unread(net, c), Unread(net', c), x.packet);
    assert PointOf(net'.b, c) == Target(net.b, Send(c));
  }

  lemma Answered(w: Request, asks: seq<Owed>, serving: Option<Owed>, unread: seq<Entry>, unread': seq<Entry>, p: Packet)
    requires OneOutstanding(Some(w), asks, serving, unread) && serving.Some? && Matches(w, p)
    requires unread' == unread || exists e: Entry :: e.packet == p && unread' == unread + [e]
    ensures OneOutstanding(Some(w), asks, None, unread')
  {
  }

  lemma {:induction false} OutstandingPost(net: Net, tok: map<CallId, Place>, d: ClientId, c: ClientId)
    requires Conserved(net, tok) && InStep(net, c) && CanMove(net, Inner(Send(d))) && net.b.pc[d].Post?
    ensures Outstanding(After(net, Inner(Send(d))), c)
  {
    var net', x := After(net, Inner(Send(d))), Outgoing(net.b, d);
    UnreadGrows(net, d, c);
    assert Spares(net.b.pc[d], c) && x in net.b.pc[d].letters;
    if x.to == c { ReplyAwaited(net, tok, d, c); }
    ServingAfterPost(net, d, c);
    assert Waiting(net', c) == Waiting(net, c) && Stream(net', c) == Stream(net, c);
  }

  lemma ServingAfterPost(net: Net, d: ClientId, c: ClientId)
    requires CanMove(net, Inner(Send(d))) && net.b.pc[d].Post?
    ensures Serving(PointOf(After(net, Inner(Send(d))).b, c)) == Serving(PointOf(net.b, c))
  {
    PostServesNobody(net.b.pc[d]);
  }

  lemma PostServesNobody(pc: PC)
    requires pc.Post? && pc.letters != []
    ensures Serving(pc).None? && Serving(SendOut(pc.letters[1..])).None?
  {
  }

  lemma OutstandingElse(net: Net, d: ClientId, c: ClientId)
    requires Wired(net) && Outstanding(net, c) && CanMove(net, Inner(Send(d))) && !net.b.pc[d].Post? && d != c
    ensures Outstanding(After(net, Inner(Send(d))), c)
  {
    UnreadGrows(net, d, c);
  }

  lemma {:induction false} OutstandingBroker(net: Net, l: Label, tok: map<CallId, Place>, c: ClientId)
    requires Conserved(net, tok) && InStep(net, c) && CanMove(net, Inner(l))
    ensures Outstanding(After(net, Inner(l)), c)
  {
    if l.Send? && net.b.pc[l.c].Post? {
      OutstandingPost(net, tok, l.c, c);
    } else if l.Send? && l.c == c {
      OutstandingOwn(net, c);
    } else if l.Send? {
      OutstandingElse(net, l.c, c);
    } else if l.c == c {
      OutstandingInner(net, l);
    }
  }

  lemma OutstandingElsewhere(net: Net, m: Move, c: ClientId)
    requires Wired(net) && Outstanding(net, c) && CanMove(net, m) && !m.Inner? && (m.c != c || m.Fail?)
    ensures Outstanding(After(net, m), c)
  {
    var net' := After(net, m);
    assert Waiting(net', c) == Waiting(net, c) && Stream(net', c) == Stream(net, c);
    assert PointOf(net'.b, c) == PointOf(net.b, c) && Unread(net', c) == Unread(net, c);
  }

  lemma OutstandingConnect(net: Net, c: ClientId, role: Role)
    requires CanMove(net, Connect(c, role)) && role.Actor?
    ensures Outstanding(After(net, Connect(c, role)), c)
  {
    var net' := After(net, Connect(c, role));
    assert net'.up[c] == [] && net'.read[c] == 0 && net'.b.outs[c] == [];
    assert net'.b.pc[c] == Want(Join) && Serving(Want(Join)).None?;
  }

  lemma {:induction false} OutstandingStep(net: Net, m: Move, tok: map<CallId, Place>, c: ClientId)
    requires Conserved(net, tok) && InStep(net, c) && CanMove(net, m)
    requires c in net.peers ==> net.peers[c].role.Actor?
    requires m.Connect? && m.c == c ==> m.role.Actor?
    ensures Outstanding(After(net, m), c)
  {
    if m.Inner? {
      OutstandingBroker(net, m.l, tok, c);
    } else if m.c != c || m.Fail? {
      OutstandingElsewhere(net, m, c);
    } else if m.Say? {
      OutstandingSay(net, c, m.packet);
    } else if m.Deliver? {
      assert net.up[c][0] in Stream(net, c);
      OutstandingDeliver(net, c);
    } else if m.Read? {
      OutstandingRead(net, c);
    } else if m.Connect? {
      OutstandingConnect(net, c, m.role);
    }
  }

  // ---------- the theorem ----------

  /** The client's knowledge of what it waits for moves on with its requests and answers. */
  lemma {:induction false} CurrentStep(net: Net, m: Move, tok: map<CallId, Place>, c: ClientId)
    requires Conserved(net, tok) && InStep(net, c) && CanMove(net, m)
    requires c in net.peers ==> net.peers[c].role.Actor?
    requires m.Connect? && m.c == c ==> m.role.Actor?
    ensures OnlyCurrent(Lay(After(net, m)), After(net, m).minted, c, Waiting(After(net, m), c))
    ensures CurrentMinted(After(net, m), c) && AllMatched(After(net, m), c)
  {
    if m.Read? && m.c == c {
      CurrentRead(net, tok, c);
    } else {
      CurrentKept(net, m, c);
      var w := Waiting(After(net, m), c);
      if m.Say? && m.c == c { NoneCurrent(Lay(net), net.minted, c, w); }
      OnlyCurrentStep(net, m, tok, c, w);
    }
  }

  lemma CurrentKept(net: Net, m: Move, c: ClientId)
    requires Routed(net) && CanMove(net, m) && CurrentMinted(net, c) && AllMatched(net, c) && !(m.Read? && m.c == c)
    requires c in net.peers ==> net.peers[c].role.Actor?
    requires m.Connect? && m.c == c ==> m.role.Actor?
    ensures CurrentMinted(After(net, m), c) && AllMatched(After(net, m), c)
    ensures if m.Say? && m.c == c
            then Waiting(net, c).None? && (IsCall(m.packet) ==> Waiting(After(net, m), c) == Some(m.packet.req))
            else Waiting(After(net, m), c) == Waiting(net, c)
  {
    MintedGrows(net, m);
    RoleKept(net, m, c);
    if m.Say? && m.c == c && IsCall(m.packet) { assert m.packet.req.call.id in After(net, m).minted; }
  }

  /** An actor's role changes by its own writing and reading only. */
  lemma RoleKept(net: Net, m: Move, c: ClientId)
    requires CanMove(net, m) && !(m.Read? && m.c == c) && (m.Connect? && m.c == c ==> m.role.Actor?)
    requires c in net.peers ==> net.peers[c].role.Actor?
    ensures var before := if c in net.peers then net.peers[c].role else Actor(None, []);
            var peers := After(net, m).peers;
            c in peers ==> peers[c].role == if m.Say? && m.c == c then AfterSaying(before, m.packet) else before
  {
  }

  lemma {:induction false} CurrentRead(net: Net, tok: map<CallId, Place>, c: ClientId)
    requires Conserved(net, tok) && InStep(net, c) && CanMove(net, Read(c)) && net.peers[c].role.Actor?
    ensures var net' := After(net, Read(c));
            OnlyCurrent(Lay(net'), net'.minted, c, Waiting(net', c)) && CurrentMinted(net', c) && AllMatched(net', c)
  {
    OutstandingRead(net, c);
    AnsweredNowhere(net, tok, c, Waiting(net, c), net.read[c]);
    OnlyCurrentStep(net, Read(c), tok, c, None);
  }

  predicate IsHonest(net: Net, c: ClientId) {
    c in net.peers && net.peers[c].role.Honest?
  }

  ghost predicate ClientFollows(net: Net, c: ClientId) {
    Accounted(net) && (IsHonest(net, c) || InStep(net, c))
  }

  lemma HonestStays(net: Net, m: Move, c: ClientId)
    requires CanMove(net, m) && (IsHonest(net, c) || (m.Connect? && m.c == c && m.role.Honest?))
    ensures IsHonest(After(net, m), c)
  {
  }

  lemma FollowsStep(net: Net, m: Move, c: ClientId)
    requires ClientFollows(net, c) && CanMove(net, m)
    ensures ClientFollows(After(net, m), c)
  {
    var tok :| Conserved(net, tok);
    ConservedStep(net, m, tok);
    if IsHonest(net, c) || (m.Connect? && m.c == c && m.role.Honest?) {
      HonestStays(net, m, c);
    } else {
      InStepStep(net, m, tok, c);
    }
  }

  lemma InStepStep(net: Net, m: Move, tok: map<CallId, Place>, c: ClientId)
    requires Conserved(net, tok) && InStep(net, c) && CanMove(net, m)
    requires c in net.peers ==> net.peers[c].role.Actor?
    requires m.Connect? && m.c == c ==> m.role.Actor?
    ensures InStep(After(net, m), c)
  {
    ModestStep(net, m, c);
    OutstandingStep(net, m, tok, c);
    CurrentStep(net, m, tok, c);
  }

  /**
   Positional matching is sound: every packet that a non-subscribing `IPCClient` has taken for an answer answers that
   very request, with the same call id and object name; and it never has more than one request unanswered.
   */
  lemma {:induction false} PositionalMatching(net: Net, c: ClientId)
    requires NetReachable(net) && c in net.peers && net.peers[c].role.Actor?
    ensures forall x | x in net.peers[c].role.exchanges :: Matches(x.request, x.answer)
    ensures Waiting(net, c).None? ==> Unread(net, c) == []
    ensures Waiting(net, c).Some? ==> |Unread(net, c)| <= 1
    ensures Waiting(net, c).Some? ==> forall e | e in Unread(net, c) :: Matches(Waiting(net, c).value, e.packet)
  {
    AlwaysFollows(net, c);
  }

  lemma FollowsStart(net: Net, c: ClientId)
    requires Start(net)
    ensures ClientFollows(net, c)
  {
    AccountedAtStart(net);
  }

  lemma AlwaysFollows(net: Net, c: ClientId)
    requires NetReachable(net)
    ensures ClientFollows(net, c)
  {
    var run :| IsNetRun(run) && run[|run| - 1] == net;
    var inv := (x: Net) => ClientFollows(x, c);
    forall x | Start(x) ensures inv(x) { FollowsStart(x, c); }
    forall x, m | inv(x) && CanMove(x, m) ensures inv(After(x, m)) { FollowsStep(x, m, c); }
    NetInvariance(inv, run);
  }

  /** An actor's answers so far are the packets it has read, in order. */
  ghost predicate TakesAll(net: Net, c: ClientId) {
    c in net.peers && net.peers[c].role.Actor? ==>
      var taken := net.peers[c].role.exchanges;
      && c in net.b.outs && c in net.read && |taken| == net.read[c] <= |net.b.outs[c]|
      && forall i | 0 <= i < |taken| :: taken[i].answer == net.b.outs[c][i].packet
  }

  /** Such a client reads only while it waits. */
  lemma ReadsWaiting(net: Net, m: Move, c: ClientId)
    requires ClientFollows(net, c) && CanMove(net, m) && m == Read(c) && net.peers[c].role.Actor?
    ensures Waiting(net, c).Some?
  {
  }

  lemma TakesAllStep(net: Net, m: Move, c: ClientId)
    requires TakesAll(net, c) && CanMove(net, m)
    requires m == Read(c) && net.peers[c].role.Actor? ==> Waiting(net, c).Some?
    ensures TakesAll(After(net, m), c)
  {
    match m
    case Deliver(d) => if c in net.b.outs { ChannelOnlyGrows(net.b, Recv(d, net.up[d][0]), c); }
    case Inner(l) => if c in net.b.outs { ChannelOnlyGrows(net.b, l, c); }
    case _ =>
  }

  ghost predicate TakesInStep(net: Net, c: ClientId) {
    ClientFollows(net, c) && TakesAll(net, c)
  }

  lemma TakesInStepStep(net: Net, m: Move, c: ClientId)
    requires TakesInStep(net, c) && CanMove(net, m)
    ensures TakesInStep(After(net, m), c)
  {
    FollowsStep(net, m, c);
    if m == Read(c) && net.peers[c].role.Actor? { ReadsWaiting(net, m, c); }
    TakesAllStep(net, m, c);
  }

  /**
   No answer is dropped: of everything enqueued to such a client, the packets it has read are the answers it took, one
   for each request it has waited for, in the order of its channel.
   */
  lemma {:induction false} EveryPacketTaken(net: Net, c: ClientId)
    requires NetReachable(net) && c in net.peers && net.peers[c].role.Actor?
    ensures TakesAll(net, c)
  {
    var run :| IsNetRun(run) && run[|run| - 1] == net;
    var inv := (x: Net) => TakesInStep(x, c);
    forall x | Start(x) ensures inv(x) { FollowsStart(x, c); }
    forall x, m | inv(x) && CanMove(x, m) ensures inv(After(x, m)) { TakesInStepStep(x, m, c); }
    NetInvariance(inv, run);
  }

  /** What `remote_call` and `has_object` make of the packet they are given. */
  datatype Outcome = Returned(value: Value) | RemoteError(message: string) | Exists(flag: bool) | Unexpected

  function CallOutcome(p: Packet): Outcome {
    match p
    case Resp(Result(_, _, value)) => Returned(value)
    case Resp(Error(_, _, message)) => RemoteError(message)
    case _ => Unexpected
  }

  function QueryOutcome(p: Packet): Outcome {
    match p
    case Resp(HasObjectResult(_, flag)) => Exists(flag)
    case _ => Unexpected
  }

  /** So neither function ever fails with "Unexpected response type". */
  lemma {:induction false} NeverUnexpected(net: Net, c: ClientId, x: Exchange)
    requires NetReachable(net) && c in net.peers && net.peers[c].role.Actor? && x in net.peers[c].role.exchanges
    ensures x.request.Call? ==> !CallOutcome(x.answer).Unexpected?
    ensures x.request.HasObject? ==> !QueryOutcome(x.answer).Unexpected?
  {
    PositionalMatching(net, c);
  }
}
