/** Every call is one linear token in the closed system, so it is answered at most once and to its own caller. */
module Tokens {
  import opened Rpc
  import opened Activation
  import opened Sections
  import opened LockSteps
  import opened Ownership
  import opened Network

  /** Where the token of a call can be. A token that is nowhere has been answered or lost. */
  datatype Place =
    | UpFrom(c: ClientId) | Hand(c: ClientId) | Queue(n: Name) | Inbox(c: ClientId) | Held(c: ClientId)
    | Done

  /** The token in a packet: a call carries one, and so does a reply where `replies` says so. */
  predicate Carries(p: Packet, replies: bool, t: Tag) {
    (IsCall(p) && t == Tag(p.req.call.id, p.req.call.obj))
      || (replies && p.Resp? && ReplyTo(p.resp).Some? && Answers(p.resp, t))
  }

  /** How often token `t` occurs in a list of packets, of letters, in a log, or in a list of tags. */
  function InPackets(ps: seq<Packet>, t: Tag): nat {
    if ps == [] then 0 else One(Carries(ps[0], true, t)) + InPackets(ps[1..], t)
  }

  function InLetters(ls: seq<Letter>, t: Tag): nat {
    if ls == [] then 0 else One(Carries(ls[0].packet, true, t)) + InLetters(ls[1..], t)
  }

  function InLog(log: seq<Entry>, t: Tag): nat {
    if log == [] then 0 else One(Carries(log[0].packet, false, t)) + InLog(log[1..], t)
  }

  function InTags(ts: seq<Tag>, t: Tag): nat {
    if ts == [] then 0 else One(ts[0] == t) + InTags(ts[1..], t)
  }

  function InQueue(rs: seq<Request>, t: Tag): nat {
    if rs == [] then 0 else One(Carries(Req(rs[0]), true, t)) + InQueue(rs[1..], t)
  }

  function TagOf(call: Invocation): Tag {
    Tag(call.id, call.obj)
  }

  /** The tokens in the hands of a task of the broker. */
  function InHand(pc: PC, t: Tag): nat {
    if CallOf(pc).Some? then One(t == TagOf(CallOf(pc).value))
    else if pc.Post? then InLetters(pc.letters, t)
    else if (pc.Want? || pc.In?) && pc.sec.TakeCall? then One(Carries(Resp(pc.sec.resp), true, t))
    else InPackets(OwnMessages(pc), t)
  }

  function QueuedAt(services: map<Name, ServiceEntry>, n: Name, t: Tag): nat {
    if n in services then InQueue(services[n].pending, t) else 0
  }

  function At(net: Net, p: Place, t: Tag): nat {
    match p
    case UpFrom(c) => if c in net.up then InPackets(net.up[c], t) else 0
    case Hand(c) => if c in net.b.pc then InHand(net.b.pc[c], t) else 0
    case Queue(n) => QueuedAt(net.b.tb.services, n, t)
    case Inbox(c) =>
      if c in net.b.outs && c in net.read && net.read[c] <= |net.b.outs[c]|
      then InLog(net.b.outs[c][net.read[c]..], t) else 0
    case Held(c) => if c in net.peers && net.peers[c].role.Honest? then InTags(net.peers[c].role.hands, t) else 0
    case Done => 0
  }

  type Layout = (Place, Tag) -> nat
  type Register = map<CallId, Issue>

  ghost predicate Sits(t: Tag, p: Place, minted: Register, tok: map<CallId, Place>) {
    t.id in tok && tok[t.id] == p && t.id in minted && minted[t.id].obj == t.obj
  }

  /** `tok` says where each token is, and no place holds a token twice. */
  ghost predicate LinearIn(at: Layout, minted: Register, tok: map<CallId, Place>) {
    && tok.Keys <= minted.Keys
    && forall p, t | at(p, t) > 0 :: at(p, t) == 1 && Sits(t, p, minted, tok)
  }

  function Lay(net: Net): Layout {
    (p, t) => At(net, p, t)
  }

  ghost predicate Linear(net: Net, tok: map<CallId, Place>) {
    LinearIn(Lay(net), net.minted, tok)
  }

  function Relocated(tok: map<CallId, Place>, x: set<CallId>, to: Place): map<CallId, Place> {
    map id | id in tok.Keys + x :: if id in x then to else tok[id]
  }

  /** The tokens `x` move to `to`; any others stay where they are or get lost. */
  ghost predicate ShiftIn(at: Layout, at': Layout, minted: Register, minted': Register, x: set<CallId>, to: Place) {
    && (forall id | id in minted :: id in minted' && minted'[id] == minted[id])
    && x <= minted'.Keys
    && (forall p, t :: at'(p, t) <= if t.id !in x then at(p, t) else One(p == to && minted'[t.id].obj == t.obj))
  }

  lemma ShiftKeepsLinear(
      at: Layout, at': Layout, minted: Register, minted': Register, tok: map<CallId, Place>, x: set<CallId>, to: Place)
    requires LinearIn(at, minted, tok) && ShiftIn(at, at', minted, minted', x, to)
    ensures LinearIn(at', minted', Relocated(tok, x, to))
  {
    forall p, t | at'(p, t) > 0 ensures at'(p, t) == 1 && Sits(t, p, minted', Relocated(tok, x, to)) {
      if t.id !in x { assert Sits(t, p, minted, tok); }
    }
  }

  lemma {:induction false} InPacketsAppend(ps: seq<Packet>, p: Packet, t: Tag)
    ensures InPackets(ps + [p], t) == InPackets(ps, t) + One(Carries(p, true, t))
  {
    if ps == [] {
      assert ps + [p] == [p];
    } else {
      assert (ps + [p])[1..] == ps[1..] + [p];
      InPacketsAppend(ps[1..], p, t);
    }
  }

  lemma {:induction false} InLogAppend(log: seq<Entry>, e: Entry, t: Tag)
    ensures InLog(log + [e], t) == InLog(log, t) + One(Carries(e.packet, false, t))
  {
    if log == [] {
      assert log + [e] == [e];
    } else {
      assert (log + [e])[1..] == log[1..] + [e];
      InLogAppend(log[1..], e, t);
    }
  }

  lemma {:induction false} InTagsAppend(a: seq<Tag>, b: seq<Tag>, t: Tag)
    ensures InTags(a + b, t) == InTags(a, t) + InTags(b, t)
  {
    if a == [] {
      assert a + b == b;
    } else {
      assert (a + b)[1..] == a[1..] + b;
      InTagsAppend(a[1..], b, t);
    }
  }

  lemma {:induction false} InQueueAppend(rs: seq<Request>, r: Request, t: Tag)
    ensures InQueue(rs + [r], t) == InQueue(rs, t) + One(Carries(Req(r), true, t))
  {
    if rs == [] {
      assert rs + [r] == [r];
    } else {
      assert (rs + [r])[1..] == rs[1..] + [r];
      InQueueAppend(rs[1..], r, t);
    }
  }

  lemma {:induction false} RetainedTokens(rs: seq<Request>, active: set<CallId>, t: Tag)
    ensures InQueue(Retained(rs, active), t) <= InQueue(rs, t)
  {
    if rs != [] {
      RetainedTokens(rs[1..], active, t);
      var rest := Retained(rs[1..], active);
      assert ([rs[0]] + rest)[1..] == rest && [] + rest == rest;
    }
  }

  lemma {:induction false} FlushTokens(rs: seq<Request>, n: Name, t: Tag)
    ensures InPackets(Requests(rs) + [Resp(Registered(n))], t) == InQueue(rs, t)
  {
    if rs == [] {
      assert Requests(rs) + [Resp(Registered(n))] == [Resp(Registered(n))];
    } else {
      assert (Requests(rs) + [Resp(Registered(n))])[1..] == Requests(rs[1..]) + [Resp(Registered(n))];
      FlushTokens(rs[1..], n, t);
    }
  }

  lemma {:induction false} EventsHoldNoTokens(tb: Tables, topic: Topic, args: Value, nth: nat, list: seq<ClientId>,
      t: Tag)
    ensures InLetters(Events(tb, topic, args, nth, list), t) == 0
  {
    if list != [] {
      EventsHoldNoTokens(tb, topic, args, nth, list[1..], t);
      var rest := Events(tb, topic, args, nth, list[1..]);
      if list[0] in tb.clients {
        assert ([Letter(list[0], Resp(Event(topic, args)), nth)] + rest)[1..] == rest;
      } else {
        assert Events(tb, topic, args, nth, list) == rest;
      }
    }
  }

  lemma {:induction false} OnePacket(p: Packet, t: Tag)
    ensures InPackets([p], t) == One(Carries(p, true, t))
  {
    assert [p][1..] == [];
  }

  lemma {:induction false} OneLetter(x: Letter, t: Tag)
    ensures InLetters([x], t) == One(Carries(x.packet, true, t))
  {
    assert [x][1..] == [];
  }

  /** A handler that is about to send one message to its own client holds the tokens of that message. */
  lemma HandOfOne(p: Packet, t: Tag)
    ensures InHand(SendSelf([p]), t) == One(Carries(p, true, t))
  {
    OnePacket(p, t);
    assert OwnMessages(SendSelf([p])) == [p];
  }

  lemma HandOfLetter(x: Letter, t: Tag)
    ensures InHand(Post([x]), t) == One(Carries(x.packet, true, t))
  {
    OneLetter(x, t);
  }

  lemma HandAfterFlush(tb: Tables, c: ClientId, n: Name, t: Tag)
    ensures InHand(Body(tb, c, TakePending(n), []).pc, t) == QueuedAt(tb.services, n, t)
  {
    if n in tb.services { FlushTokens(tb.services[n].pending, n, t); } else { HandOfOne(Resp(Registered(n)), t); }
  }

  /** What a critical section does to the tokens in its task's hands. */
  lemma HandAfterSection(tb: Tables, c: ClientId, sec: Section, order: seq<ClientId>, t: Tag)
    ensures InHand(Body(tb, c, sec, order).pc, t) <=
            if sec.TakePending? then QueuedAt(tb.services, sec.obj, t)
            else if sec.Activate? && sec.call.obj in tb.services then 0
            else InHand(In(sec), t)
  {
    match sec
    case TakePending(n) => HandAfterFlush(tb, c, n, t);
    case FindSubs(topic, args, nth, list) => EventsHoldNoTokens(tb, topic, args, nth, list, t);
    case PutSub(topic) => HandOfOne(Resp(Subscribed(topic)), t);
    case AskObject(n) => HandOfOne(Resp(HasObjectResult(n, n in tb.objects)), t);
    case PutCall(call, worker) => if worker.Some? { HandOfLetter(Letter(worker.value, Req(Call(call)), 0), t); }
    case TakeCall(r) =>
      if ReplyTo(r).Some? && ReplyTo(r).value in tb.calls {
        HandOfLetter(Letter(tb.calls[ReplyTo(r).value], Resp(r), 0), t);
      }
    case _ =>
  }

  /** What a critical section does to the tokens queued at a service. */
  lemma QueueAfterSection(tb: Tables, c: ClientId, sec: Section, order: seq<ClientId>, n: Name, t: Tag)
    ensures QueuedAt(Body(tb, c, sec, order).tb.services, n, t) <=
            if sec == TakePending(n) then 0
            else QueuedAt(tb.services, n, t) +
                 One(sec.Activate? && sec.call.obj == n && n in tb.services && t == TagOf(sec.call))
  {
    match sec
    case Activate(call) => if call.obj in tb.services { InQueueAppend(tb.services[call.obj].pending, Call(call), t); }
    case DropServices(active) => if n in tb.services { RetainedTokens(tb.services[n].pending, active, t); }
    case _ =>
  }
}
