/**
 The local subscribers of one `IPCClient` (src/client.rs): its actor loop hands every event to the receivers that
 listen to the event's topic, and prunes those that are closed or too slow.
 */
module LocalSubscribers {
  import opened Rpc

  const CAPACITY: nat := 16

  type ReceiverId = nat

  /** A bounded channel: `taken` has been received, `buffer` has not; `open` until the receiver is dropped. */
  datatype Channel = Channel(taken: seq<Value>, buffer: seq<Value>, open: bool)

  function Sent(ch: Channel): seq<Value> {
    ch.taken + ch.buffer
  }

  /** `try_send` succeeds. */
  predicate Accepts(ch: Channel) {
    ch.open && |ch.buffer| < CAPACITY
  }

  function Offer(ch: Channel, v: Value): Channel {
    if Accepts(ch) then ch.(buffer := ch.buffer + [v]) else ch
  }

  function Take(ch: Channel): Channel {
    if ch.buffer == [] then ch else Channel(ch.taken + [ch.buffer[0]], ch.buffer[1..], ch.open)
  }

  const NEW_CHANNEL := Channel([], [], true)

  /** The actor: its senders by topic, the channels they lead to, and the requests written to the broker. */
  datatype Actor = Actor(subs: map<Topic, seq<ReceiverId>>, channels: map<ReceiverId, Channel>, written: seq<Request>)

  function Listeners(a: Actor, t: Topic): seq<ReceiverId> {
    if t in a.subs then a.subs[t] else []
  }

  function SubscribeAt(a: Actor, t: Topic, r: ReceiverId): Actor {
    Actor(a.subs[t := Listeners(a, t) + [r]], a.channels[r := NEW_CHANNEL], a.written + [Subscribe(t)])
  }

  /** The listeners that take the value, in order. */
  function Willing(list: seq<ReceiverId>, channels: map<ReceiverId, Channel>): seq<ReceiverId> {
    if list == [] then []
    else
      var r := list[|list| - 1];
      Willing(list[..|list| - 1], channels) + (if r in channels && Accepts(channels[r]) then [r] else [])
  }

  function Offered(list: seq<ReceiverId>, channels: map<ReceiverId, Channel>, v: Value): map<ReceiverId, Channel> {
    map r | r in channels :: if r in list then Offer(channels[r], v) else channels[r]
  }

  function DispatchAt(a: Actor, t: Topic, v: Value): Actor {
    if t !in a.subs then a
    else a.(subs := a.subs[t := Willing(a.subs[t], a.channels)], channels := Offered(a.subs[t], a.channels, v))
  }

  /** Requests that the actor reads one packet for. */
  predicate Answered(req: Request) {
    req.Call? || req.RegisterObject? || req.HasObject? || req.RegisterService?
  }

  /**
   What the actor does next: a request whose read, if it makes one, yields `answer`; a new subscription; a packet
   read between requests. Or what a receiver does: it takes a value, or is dropped.
   */
  datatype Turn =
    | Ask(req: Request, answer: Option<Response>)
    | Listen(topic: Topic, r: ReceiverId)
    | Hear(resp: Response)
    | Receive(r: ReceiverId)
    | Close(r: ReceiverId)

  function Turned(a: Actor, turn: Turn): Actor {
    match turn
    case Ask(req, _) => a.(written := a.written + [req])
    case Listen(t, r) => SubscribeAt(a, t, r)
    case Hear(Event(t, v)) => DispatchAt(a, t, v)
    case Hear(_) => a
    case Receive(r) => if r in a.channels then a.(channels := a.channels[r := Take(a.channels[r])]) else a
    case Close(r) => if r in a.channels then a.(channels := a.channels[r := a.channels[r].(open := false)]) else a
  }

  function After(a: Actor, turns: seq<Turn>): Actor {
    if turns == [] then a else Turned(After(a, turns[..|turns| - 1]), turns[|turns| - 1])
  }

  /** Each subscription makes a channel of its own. */
  predicate Fresh(a: Actor, turns: seq<Turn>) {
    turns == [] ||
    (&& Fresh(a, turns[..|turns| - 1])
     && (turns[|turns| - 1].Listen? ==> turns[|turns| - 1].r !in After(a, turns[..|turns| - 1]).channels))
  }

  predicate Distinct(list: seq<ReceiverId>) {
    forall i, j | 0 <= i < j < |list| :: list[i] != list[j]
  }

  /** No sender is listed twice. */
  ghost predicate Sound(a: Actor) {
    forall t | t in a.subs :: Distinct(a.subs[t]) && forall r | r in a.subs[t] :: r in a.channels
  }

  lemma {:induction false} WillingIn(list: seq<ReceiverId>, channels: map<ReceiverId, Channel>)
    ensures var w := Willing(list, channels);
            && (forall r :: r in w <==> r in list && r in channels && Accepts(channels[r]))
            && (Distinct(list) ==> Distinct(w))
  {
    if list != [] {
      var n := |list| - 1;
      WillingIn(list[..n], channels);
      assert list == list[..n] + [list[n]];
      if Distinct(list) { assert list[n] !in list[..n]; }
    }
  }

  lemma OfferNext(list: seq<ReceiverId>, i: nat, channels: map<ReceiverId, Channel>, v: Value)
    requires Distinct(list) && i < |list| && list[i] in channels
    ensures var ch := channels[list[i]];
            && Offered(list[..i], channels, v)[list[i]] == ch
            && Offered(list[..i + 1], channels, v) == Offered(list[..i], channels, v)[list[i] := Offer(ch, v)]
            && Willing(list[..i + 1], channels) == Willing(list[..i], channels)
               + (if Accepts(ch) then [list[i]] else [])
            && (!Accepts(ch) ==> Offered(list[..i + 1], channels, v) == Offered(list[..i], channels, v))
  {
    assert list[i] !in list[..i] && list[..i + 1] == list[..i] + [list[i]] && list[..i + 1][..i] == list[..i];
  }

  lemma SoundStep(a: Actor, turn: Turn)
    requires Sound(a) && (turn.Listen? ==> turn.r !in a.channels)
    ensures Sound(Turned(a, turn))
  {
    if turn.Hear? && turn.resp.Event? && turn.resp.topic in a.subs { WillingIn(a.subs[turn.resp.topic], a.channels); }
  }

  // ---------- the code ----------

  class ClientActor {
    var subs: map<Topic, seq<ReceiverId>>
    var channels: map<ReceiverId, Channel>
    var written: seq<Request>

    ghost function State(): Actor
      reads this
    {
      Actor(subs, channels, written)
    }

    constructor ()
      ensures State() == Actor(map[], map[], [])
    {
      subs, channels, written := map[], map[], [];
    }

    /** A request from a handle; `answer` is what reading one packet gives. */
    method HandleRequest(req: Request, answer: Option<Response>) returns (r: Option<Response>)
      modifies `written
      ensures State() == Turned(old(State()), Ask(req, answer))
      ensures r == if Answered(req) then answer else Some(Event(Topic("", ""), Null))
    {
      written := written + [req];
      match req {
        case Call(_) | RegisterObject(_) | HasObject(_) | RegisterService(_, _) => r := answer;
        case Publish(_, _) | Subscribe(_) => r := Some(Event(Topic("", ""), Null));
      }
    }

    method HandleSubscribe(t: Topic, r: ReceiverId)
      requires Sound(State()) && r !in channels
      modifies this
      ensures Sound(State()) && State() == SubscribeAt(old(State()), t, r)
    {
      channels := channels[r := NEW_CHANNEL];
      subs := subs[t := (if t in subs then subs[t] else []) + [r]];
      written := written + [Subscribe(t)];
    }

    /** Offer an event to the listeners of its topic one after the other, and keep those that take it. */
    method Dispatch(t: Topic, v: Value)
      requires Sound(State())
      modifies `subs, `channels
      ensures Sound(State()) && State() == DispatchAt(old(State()), t, v)
    {
      ghost var before := State();
      SoundStep(before, Hear(Event(t, v)));
      if t !in subs { return; }
      var list := subs[t];
      var kept: seq<ReceiverId> := [];
      assert list[..0] == [] && Offered([], channels, v) == channels;
      for i := 0 to |list|
        invariant subs == old(subs) && kept == Willing(list[..i], old(channels))
        invariant channels == Offered(list[..i], old(channels), v)
      {
        var r := list[i];
        OfferNext(list, i, old(channels), v);
        if Accepts(channels[r]) {
          channels, kept := channels[r := channels[r].(buffer := channels[r].buffer + [v])], kept + [r];
        }
      }
      assert list[..|list|] == list;
      subs := subs[t := kept];
      assert State() == DispatchAt(before, t, v);
    }

    /** The actor's loop, interleaved with its receivers. */
    method Run(turns: seq<Turn>)
      requires Sound(State()) && Fresh(State(), turns)
      modifies this
      ensures Sound(State()) && State() == After(old(State()), turns)
    {
      for i := 0 to |turns|
        invariant Sound(State()) && State() == After(old(State()), turns[..i])
      {
        assert turns[..i + 1][..i] == turns[..i];
        FreshUpTo(old(State()), turns, i);
        match turns[i] {
          case Ask(req, answer) => var _ := HandleRequest(req, answer);
          case Listen(t, r) => HandleSubscribe(t, r);
          case Hear(resp) => if resp.Event? { Dispatch(resp.topic, resp.args); }
          case Receive(r) => if r in channels { channels := channels[r := Take(channels[r])]; }
          case Close(r) => if r in channels { channels := channels[r := channels[r].(open := false)]; }
        }
      }
      assert turns[..|turns|] == turns;
    }
  }

  lemma {:induction false} FreshUpTo(a: Actor, turns: seq<Turn>, i: nat)
    requires Fresh(a, turns) && i < |turns|
    ensures turns[i].Listen? ==> turns[i].r !in After(a, turns[..i]).channels
    ensures Fresh(a, turns[..i])
  {
    var n := |turns| - 1;
    if i < n {
      FreshUpTo(a, turns[..n], i);
      assert turns[..n][..i] == turns[..i];
    }
  }

  // ---------- what the broker is told ----------

  /** The requests of the handles and one `Subscribe` for each new subscription, in the order of the turns. */
  function Told(turns: seq<Turn>): seq<Request> {
    if turns == [] then []
    else match turns[0]
      case Ask(req, _) => [req] + Told(turns[1..])
      case Listen(t, _) => [Subscribe(t)] + Told(turns[1..])
      case _ => Told(turns[1..])
  }

  lemma {:induction false} ToldLast(front: seq<Turn>, last: Turn)
    ensures Told(front + [last]) == Told(front) + Told([last])
  {
    if front == [] {
      assert [] + [last] == [last];
    } else {
      ToldLast(front[1..], last);
      assert (front + [last])[1..] == front[1..] + [last];
    }
  }

  /** The actor has written to the broker exactly that: every topic listened to has been subscribed to. */
  lemma {:induction false} EverythingTold(a: Actor, turns: seq<Turn>)
    ensures After(a, turns).written == a.written + Told(turns)
  {
    if turns == [] {
      assert a.written + [] == a.written;
    } else {
      var front, last := turns[..|turns| - 1], turns[|turns| - 1];
      EverythingTold(a, front);
      ToldLast(front, last);
      assert turns == front + [last] && [last][1..] == [];
      assert a.written + (Told(front) + Told([last])) == (a.written + Told(front)) + Told([last]);
    }
  }

  // ---------- one receiver on its own ----------

  /** A receiver, as its own subscription sees it: not subscribed yet, served, or pruned. */
  datatype Listener = Absent | Live(topic: Topic, ch: Channel) | Pruned(topic: Topic, ch: Channel)

  function Followed(l: Listener, turn: Turn, r: ReceiverId): Listener {
    match turn
    case Ask(_, _) => l
    case Listen(t, q) => if q == r then Live(t, NEW_CHANNEL) else l
    case Hear(Event(t, v)) =>
      if l.Live? && l.topic == t then (if Accepts(l.ch) then Live(t, Offer(l.ch, v)) else Pruned(t, l.ch)) else l
    case Hear(_) => l
    case Receive(q) => if q == r && !l.Absent? then l.(ch := Take(l.ch)) else l
    case Close(q) => if q == r && !l.Absent? then l.(ch := l.ch.(open := false)) else l
  }

  /** The receiver after a run of which it notices its own turns and the events of its topic only. */
  function Follow(turns: seq<Turn>, r: ReceiverId): Listener {
    if turns == [] then Absent else Followed(Follow(turns[..|turns| - 1], r), turns[|turns| - 1], r)
  }

  /** In the actor's state, `r` is as `l` says. */
  ghost predicate Shows(a: Actor, r: ReceiverId, l: Listener) {
    && (l.Absent? <==> r !in a.channels)
    && (!l.Absent? ==> a.channels[r] == l.ch)
    && (forall t :: r in Listeners(a, t) <==> l.Live? && l.topic == t)
  }

  /** An event dispatched: a listener that takes it stays, any other is pruned, and nobody else notices. */
  lemma DispatchShows(a: Actor, t: Topic, v: Value, r: ReceiverId, l: Listener)
    requires Sound(a) && Shows(a, r, l)
    ensures Shows(DispatchAt(a, t, v), r, Followed(l, Hear(Event(t, v)), r))
  {
    assert r in Listeners(a, t) <==> l.Live? && l.topic == t;
    var a', l' := DispatchAt(a, t, v), Followed(l, Hear(Event(t, v)), r);
    if t in a.subs {
      WillingIn(a.subs[t], a.channels);
      if r in a.channels {
        assert a'.channels[r] == if r in a.subs[t] then Offer(l.ch, v) else l.ch;
      }
    }
    forall u ensures r in Listeners(a', u) <==> l'.Live? && l'.topic == u {
      assert r in Listeners(a, u) <==> l.Live? && l.topic == u;
      assert u != t ==> Listeners(a', u) == Listeners(a, u);
    }
  }

  lemma ShowsStep(a: Actor, turn: Turn, r: ReceiverId, l: Listener)
    requires Sound(a) && Shows(a, r, l) && (turn.Listen? ==> turn.r !in a.channels)
    ensures Shows(Turned(a, turn), r, Followed(l, turn, r))
  {
    if turn.Hear? && turn.resp.Event? {
      DispatchShows(a, turn.resp.topic, turn.resp.args, r, l);
    } else {
      var a', l' := Turned(a, turn), Followed(l, turn, r);
      forall t ensures r in Listeners(a', t) <==> l'.Live? && l'.topic == t {
        assert r in Listeners(a, t) <==> l.Live? && l.topic == t;
      }
    }
  }

  const START := Actor(map[], map[], [])

  /**
   Pruning one receiver never affects another: in the state after any run, each receiver is exactly as if it had been
   the only one.
   */
  lemma {:induction false} EachOnItsOwn(turns: seq<Turn>, r: ReceiverId)
    requires Fresh(START, turns)
    ensures Sound(After(START, turns)) && Shows(After(START, turns), r, Follow(turns, r))
  {
    if turns != [] {
      EachOnItsOwn(turns[..|turns| - 1], r);
      SoundStep(After(START, turns[..|turns| - 1]), turns[|turns| - 1]);
      ShowsStep(After(START, turns[..|turns| - 1]), turns[|turns| - 1], r, Follow(turns[..|turns| - 1], r));
    }
  }

  // ---------- no gaps ----------

  predicate IsEventOn(turn: Turn, t: Topic) {
    turn.Hear? && turn.resp.Event? && turn.resp.topic == t
  }

  /** The topic that `r` subscribed to. */
  function TopicOf(turns: seq<Turn>, r: ReceiverId): Option<Topic> {
    if turns == [] then None
    else
      var last := turns[|turns| - 1];
      if last.Listen? && last.r == r then Some(last.topic) else TopicOf(turns[..|turns| - 1], r)
  }

  /** The events on the topic of `r` that the actor has read since `r` subscribed. */
  function Due(turns: seq<Turn>, r: ReceiverId): seq<Value> {
    if turns == [] then []
    else
      var front, last := turns[..|turns| - 1], turns[|turns| - 1];
      var t := TopicOf(front, r);
      Due(front, r) + (if t.Some? && IsEventOn(last, t.value) then [last.resp.args] else [])
  }

  /** A receiver follows the topic it subscribed to. */
  lemma {:induction false} FollowsItsTopic(turns: seq<Turn>, r: ReceiverId)
    ensures TopicOf(turns, r) == var l := Follow(turns, r); if l.Absent? then None else Some(l.topic)
  {
    if turns != [] { FollowsItsTopic(turns[..|turns| - 1], r); }
  }

  /** Turn `j` dispatches an event to `r`, which is closed or has 16 unread values. */
  predicate RefusedAt(turns: seq<Turn>, r: ReceiverId, j: nat) {
    && j < |turns|
    && var l := Follow(turns[..j], r);
       l.Live? && IsEventOn(turns[j], l.topic) && (!l.ch.open || |l.ch.buffer| >= 16)
  }

  lemma TakeKeepsSent(ch: Channel)
    ensures Sent(Take(ch)) == Sent(ch)
  {
    if ch.buffer != [] { assert ch.buffer == [ch.buffer[0]] + ch.buffer[1..]; }
  }

  /** What has been sent, against what was due. */
  ghost predicate UpToDate(l: Listener, due: seq<Value>) {
    match l
    case Absent => due == []
    case Live(_, ch) => Sent(ch) == due && |ch.buffer| <= 16
    case Pruned(_, ch) => Sent(ch) <= due && |ch.buffer| <= 16
  }

  function DueNow(l: Listener, turn: Turn): seq<Value> {
    if !l.Absent? && IsEventOn(turn, l.topic) then [turn.resp.args] else []
  }

  lemma UpToDateStep(l: Listener, due: seq<Value>, turn: Turn, r: ReceiverId)
    requires UpToDate(l, due) && (turn.Listen? && turn.r == r ==> l.Absent?)
    ensures UpToDate(Followed(l, turn, r), due + DueNow(l, turn))
  {
    if !l.Absent? {
      TakeKeepsSent(l.ch);
      if IsEventOn(turn, l.topic) && l.Live? && Accepts(l.ch) {
        assert Sent(Offer(l.ch, turn.resp.args)) == Sent(l.ch) + [turn.resp.args];
      }
    }
    assert due + [] == due;
  }

  /** A receiver is sent a prefix of the events dispatched since it subscribed, all of them while it is listed. */
  lemma {:induction false} SentInOrder(turns: seq<Turn>, r: ReceiverId)
    requires Fresh(START, turns)
    ensures UpToDate(Follow(turns, r), Due(turns, r))
  {
    if turns != [] {
      var front := turns[..|turns| - 1];
      SentInOrder(front, r);
      EachOnItsOwn(front, r);
      FollowsItsTopic(front, r);
      UpToDateStep(Follow(front, r), Due(front, r), turns[|turns| - 1], r);
    }
  }

  /** Once pruned, a receiver is sent nothing more. */
  lemma {:induction false} StaysPruned(turns: seq<Turn>, r: ReceiverId, j: nat)
    requires Fresh(START, turns) && RefusedAt(turns, r, j)
    ensures Follow(turns, r).Pruned? && Sent(Follow(turns, r).ch) == Due(turns[..j], r)
  {
    var n := |turns| - 1;
    var front := turns[..n];
    EachOnItsOwn(front, r);
    if j == n {
      SentInOrder(front, r);
    } else {
      assert front[..j] == turns[..j];
      StaysPruned(front, r, j);
      TakeKeepsSent(Follow(front, r).ch);
    }
  }

  lemma {:induction false} PrunedOnRefusal(turns: seq<Turn>, r: ReceiverId) returns (j: nat)
    requires Fresh(START, turns) && Follow(turns, r).Pruned?
    ensures RefusedAt(turns, r, j)
  {
    j := |turns| - 1;
    var front := turns[..j];
    EachOnItsOwn(front, r);
    if Follow(front, r).Pruned? {
      j := PrunedOnRefusal(front, r);
      assert front[..j] == turns[..j];
    }
  }

  /**
   A receiver is sent every event dispatched since it subscribed, once and in order, up to the first one at which it
   was closed or had 16 values unread; there it is pruned, and otherwise never.
   */
  lemma {:induction false} NoGaps(turns: seq<Turn>, r: ReceiverId)
    requires Fresh(START, turns)
    ensures UpToDate(Follow(turns, r), Due(turns, r))
    ensures Follow(turns, r).Pruned? <==> exists j: nat :: RefusedAt(turns, r, j)
    ensures forall j: nat | RefusedAt(turns, r, j) :: Sent(Follow(turns, r).ch) == Due(turns[..j], r)
  {
    SentInOrder(turns, r);
    if Follow(turns, r).Pruned? { var _ := PrunedOnRefusal(turns, r); }
    forall j: nat | RefusedAt(turns, r, j)
      ensures Follow(turns, r).Pruned? && Sent(Follow(turns, r).ch) == Due(turns[..j], r)
    {
      StaysPruned(turns, r, j);
    }
  }

  /**
   So for the actor: listed for a topic are exactly the receivers that subscribed to it and have not been refused, and
   each has been sent all that was due to it.
   */
  lemma {:induction false} ListedMissNothing(turns: seq<Turn>, t: Topic, r: ReceiverId)
    requires Fresh(START, turns)
    ensures r in Listeners(After(START, turns), t) <==>
            TopicOf(turns, r) == Some(t) && !exists j: nat :: RefusedAt(turns, r, j)
    ensures r in Listeners(After(START, turns), t) ==>
              var a := After(START, turns); r in a.channels && Sent(a.channels[r]) == Due(turns, r)
  {
    EachOnItsOwn(turns, r);
    FollowsItsTopic(turns, r);
    NoGaps(turns, r);
  }
}
