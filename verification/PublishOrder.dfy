/**
 Events reach a subscriber without gaps, at lock grain and under any peers: for a publisher `p`, a subscriber `s` and a
 topic `t`, what is enqueued to `s` is a contiguous segment of what `p` published to `t`, in order.
 */
module PublishOrder {
  import opened Rpc
  import opened Sections
  import opened LockSteps
  import opened Erasure

  predicate IsEvent(packet: Packet, t: Topic) {
    packet.Resp? && packet.resp.Event? && packet.resp.topic == t
  }

  /** The events from `p` on `t` in a channel's log. */
  function Heard(log: seq<Entry>, p: ClientId, t: Topic): seq<Entry> {
    if log == [] then []
    else Heard(log[..|log| - 1], p, t)
         + (var e := log[|log| - 1]; if e.source == p && IsEvent(e.packet, t) then [e] else [])
  }

  /** Event number `nth` of the publishes `all`. */
  ghost predicate Genuine(e: Entry, p: ClientId, t: Topic, all: seq<Value>) {
    e.source == p && e.nth < |all| && e.packet == Resp(Event(t, all[e.nth]))
  }

  /** The events carry consecutive publish numbers. */
  ghost predicate Contiguous(events: seq<Entry>, p: ClientId, t: Topic, all: seq<Value>) {
    && (forall i | 0 <= i < |events| :: Genuine(events[i], p, t, all))
    && (forall i | 0 <= i < |events| :: events[i].nth == events[0].nth + i)
  }

  /** The events say exactly what was published from number `from` on. */
  ghost predicate IsSegment(events: seq<Entry>, all: seq<Value>, from: nat) {
    && from + |events| <= |all|
    && forall i | 0 <= i < |events| ::
         events[i].packet.Resp? && events[i].packet.resp.Event? && events[i].packet.resp.args == all[from + i]
  }

  /** How far a publisher's task has got with its current publish to `t`. */
  datatype Progress = Resting | Reading(args: Value, nth: nat)
    | Finding(args: Value, nth: nat, list: seq<ClientId>) | Posting(letters: seq<Letter>)

  function ProgressOf(pc: PC, t: Topic): Progress {
    if (pc.Want? || pc.In?) && pc.sec.ReadSubs? && pc.sec.topic == t then Reading(pc.sec.args, pc.sec.nth)
    else if (pc.Want? || pc.In?) && pc.sec.FindSubs? && pc.sec.topic == t
    then Finding(pc.sec.args, pc.sec.nth, pc.sec.subs)
    else if pc.Post? && pc.letters != [] && IsEvent(pc.letters[0].packet, t) then Posting(pc.letters)
    else Resting
  }

  /** All letters of one round carry the same message. */
  ghost predicate OneMessage(letters: seq<Letter>) {
    forall x | x in letters :: x.packet == letters[0].packet && x.nth == letters[0].nth
  }

  ghost predicate OneEach(letters: seq<Letter>) {
    forall i, j | 0 <= i < j < |letters| :: letters[i].to != letters[j].to
  }

  ghost predicate Addressed(letters: seq<Letter>, s: ClientId) {
    exists x :: x in letters && x.to == s
  }

  ghost predicate Caught(events: seq<Entry>, upTo: int) {
    events != [] ==> events[|events| - 1].nth + 1 == upTo
  }

  predicate Present(pc: map<ClientId, PC>, s: ClientId) {
    s in pc && pc[s] != Want(Join) && pc[s] != In(Join)
  }

  /** What the order of events from a publisher to a subscriber depends on. */
  datatype View = View(
    events: seq<Entry>,     // enqueued to the subscriber
    all: seq<Value>,        // published
    alive: bool,            // the subscriber's sender is registered
    present: bool,          // it has been registered at some time
    listening: bool,        // it is in the topic's subscriber set
    subscribed: bool,       // it has been in that set at some time
    publisher: Option<PC>)

  /** Where the events enqueued so far end, given the publisher's progress. */
  ghost predicate OnTrack(g: Progress, s: ClientId, t: Topic, v: View) {
    match g
    case Resting => v.alive ==> Caught(v.events, |v.all|)
    case Reading(args, nth) =>
      && nth + 1 == |v.all| && v.all[nth] == args
      && (v.alive ==> Caught(v.events, nth))
    case Finding(args, nth, list) =>
      && nth + 1 == |v.all| && v.all[nth] == args
      && (forall i, j | 0 <= i < j < |list| :: list[i] != list[j])
      && (s in list ==> v.subscribed && v.present && (v.alive ==> v.listening))
      && (v.alive && v.events != [] ==> s in list)
      && (v.alive ==> Caught(v.events, nth))
    case Posting(letters) =>
      && OneEach(letters) && letters != []
      && letters[0].nth + 1 == |v.all| && letters[0].packet == Resp(Event(t, v.all[letters[0].nth]))
      && (Addressed(letters, s) ==>
            v.subscribed && v.present && (v.alive ==> v.listening) && Caught(v.events, letters[0].nth))
      && (!Addressed(letters, s) && v.alive ==> Caught(v.events, |v.all|))
  }

  ghost function ViewOf(b: Broker, p: ClientId, s: ClientId, t: Topic): View {
    View(if s in b.outs then Heard(b.outs[s], p, t) else [],
         Published(b.hist, p, t),
         s in b.tb.clients,
         Present(b.pc, s),
         s in Subscribers(b.tb, t),
         (s, t) in b.hist.subscribed,
         if p in b.pc then Some(b.pc[p]) else None)
  }

  ghost predicate Orderly(v: View, p: ClientId, s: ClientId, t: Topic) {
    && Contiguous(v.events, p, t, v.all)
    && (v.events != [] ==> v.present && v.subscribed && v.publisher.Some? && (v.alive ==> v.listening))
    && (v.alive ==> v.present)
    && (v.listening ==> v.subscribed && v.present)
    && (v.publisher.Some? ==>
          && (v.publisher.value.Post? ==> OneMessage(v.publisher.value.letters))
          && (forall m | m in OwnMessages(v.publisher.value) :: !IsEvent(m, t))
          && OnTrack(ProgressOf(v.publisher.value, t), s, t, v))
  }

  /** A client being cleaned up has lost its sender first. */
  ghost predicate LeaversCut(pc: map<ClientId, PC>, clients: set<ClientId>) {
    forall c | c in pc && Phase(pc[c]) >= 1 :: c !in clients
  }

  ghost predicate Ordered(b: Broker, p: ClientId, s: ClientId, t: Topic) {
    LeaversCut(b.pc, b.tb.clients) && b.pc.Keys == b.outs.Keys && Orderly(ViewOf(b, p, s, t), p, s, t)
  }

  lemma SectionCuts(tb: Tables, c: ClientId, sec: Section, order: seq<ClientId>)
    requires SectionPhase(sec) >= 1 ==> c !in tb.clients
    ensures var o := Body(tb, c, sec, order);
            (Phase(o.pc) >= 1 ==> c !in o.tb.clients) && (forall d | d != c :: d in o.tb.clients <==> d in tb.clients)
  {
  }

  lemma OutsideCuts(b: Broker, l: Label)
    requires Enabled(b, l) && !InSection(b, l) && Phase(Target(b, l)) >= 1
    ensures l.c in b.pc && Phase(b.pc[l.c]) >= 1
  {
  }

  lemma LeaversCutStep(b: Broker, l: Label)
    requires LeaversCut(b.pc, b.tb.clients) && Enabled(b, l)
    ensures LeaversCut(b.pc[l.c := Target(b, l)], TablesAfter(b, l).clients)
  {
    if InSection(b, l) {
      assert Phase(b.pc[l.c]) == SectionPhase(b.pc[l.c].sec);
      SectionCuts(b.tb, l.c, b.pc[l.c].sec, l.order);
    } else if Phase(Target(b, l)) >= 1 {
      OutsideCuts(b, l);
    }
  }

  lemma HeardAppend(log: seq<Entry>, e: Entry, p: ClientId, t: Topic)
    ensures Heard(log + [e], p, t) == Heard(log, p, t) + (if e.source == p && IsEvent(e.packet, t) then [e] else [])
  {
    assert (log + [e])[..|log|] == log;
  }

  lemma EventsAre(tb: Tables, t: Topic, args: Value, nth: nat, list: seq<ClientId>)
    ensures var ls := Events(tb, t, args, nth, list);
            && (forall x | x in ls :: x.packet == Resp(Event(t, args)) && x.nth == nth)
            && (forall c :: Addressed(ls, c) <==> c in list && c in tb.clients)
            && ((forall i, j | 0 <= i < j < |list| :: list[i] != list[j]) ==> OneEach(ls))
  {
    if list != [] {
      EventsAre(tb, t, args, nth, list[1..]);
      var rest, ls := Events(tb, t, args, nth, list[1..]), Events(tb, t, args, nth, list);
      assert forall c :: c in list <==> c == list[0] || c in list[1..];
      if list[0] in tb.clients {
        assert ls[0] == Letter(list[0], Resp(Event(t, args)), nth) && ls[1..] == rest;
        forall c ensures Addressed(ls, c) <==> c == list[0] || Addressed(rest, c) {
          if Addressed(rest, c) { var x :| x in rest && x.to == c; assert x in ls; }
          if c == list[0] { assert ls[0] in ls; }
        }
        if forall i, j | 0 <= i < j < |list| :: list[i] != list[j] {
          assert list[0] !in list[1..];
          assert !Addressed(rest, list[0]);
          forall j | 1 <= j < |ls| ensures ls[j].to != ls[0].to { assert ls[j] in rest; }
        }
      }
    }
  }

  /** What the critical sections of task `c` do to the tables that events depend on. */
  lemma SectionEffects(tb: Tables, c: ClientId, sec: Section, order: seq<ClientId>, s: ClientId, t: Topic)
    ensures var tb' := Body(tb, c, sec, order).tb;
            && (s != c ==> (s in tb'.clients <==> s in tb.clients))
            && (s != c ==> (s in Subscribers(tb', t) <==> s in Subscribers(tb, t)))
            && (s in tb'.clients && s !in tb.clients ==> sec == Join)
            && (s in Subscribers(tb', t) && s !in Subscribers(tb, t) ==> sec == PutSub(t))
            && (s !in Subscribers(tb', t) && s in Subscribers(tb, t) ==> sec == DropSubs)
  {
  }

  lemma PresenceLasts(b: Broker, l: Label, s: ClientId)
    requires Enabled(b, l)
    ensures Present(b.pc, s) ==> Present(b.pc[l.c := Target(b, l)], s)
    ensures Present(b.pc[l.c := Target(b, l)], s) && !Present(b.pc, s)
        ==> InSection(b, l) && l.c == s && b.pc[s].sec == Join
  {
  }

  /** The view moves with the subscriber's standing and the publisher's program point only. */
  ghost predicate Follows(v: View, v': View) {
    && v'.events == v.events && v'.all == v.all
    && (v.present ==> v'.present) && (v.subscribed ==> v'.subscribed)
    && (v'.alive ==> v'.present) && (v'.listening ==> v'.subscribed && v'.present)
    && (v'.alive && !v.alive ==> !v.present)
    && (v'.alive && v.listening ==> v'.listening)
  }

  /** The subscriber comes and goes, and the publisher rests. */
  lemma SubscriberMoves(v: View, v': View, p: ClientId, s: ClientId, t: Topic)
    requires Orderly(v, p, s, t)
    requires Follows(v, v') && v'.publisher == v.publisher
    ensures Orderly(v', p, s, t)
  {
  }

  /** A message from another task is not an event of `p`. */
  lemma OutsidersEnqueue(b: Broker, d: ClientId, m: Letter, p: ClientId, s: ClientId, t: Topic)
    requires d != p && s in b.outs
    ensures s in Enqueue(b, d, m) && Heard(Enqueue(b, d, m)[s], p, t) == Heard(b.outs[s], p, t)
  {
    HeardAppend(b.outs[s], Entry(d, m.nth, m.packet), p, t);
  }

  lemma OutsidersPublish(b: Broker, l: Label, p: ClientId, t: Topic)
    requires Enabled(b, l) && l.c != p
    ensures Published(HistoryAfter(b, l), p, t) == Published(b.hist, p, t)
  {
  }

  lemma OutsidersLog(b: Broker, l: Label, p: ClientId, s: ClientId, t: Topic)
    requires Enabled(b, l) && l.c != p
    ensures ViewOf(Next(b, l), p, s, t).events == ViewOf(b, p, s, t).events
    ensures ViewOf(Next(b, l), p, s, t).all == ViewOf(b, p, s, t).all
  {
    OutsidersPublish(b, l, p, t);
    if l.Send? {
      assert OutsAfter(b, l) == Enqueue(b, l.c, Outgoing(b, l.c));
      if s in b.outs { OutsidersEnqueue(b, l.c, Outgoing(b, l.c), p, s, t); }
    }
  }

  /** What any step does to the subscriber's standing. */
  lemma {:induction false} StandingMoves(b: Broker, l: Label, p: ClientId, s: ClientId, t: Topic)
    requires LeaversCut(b.pc, b.tb.clients) && Enabled(b, l) && Orderly(ViewOf(b, p, s, t), p, s, t)
    ensures var v, v' := ViewOf(b, p, s, t), ViewOf(Next(b, l), p, s, t);
            Follows(v, v'.(events := v.events, all := v.all))
  {
    PresenceLasts(b, l, s);
    if InSection(b, l) {
      SectionEffects(b.tb, l.c, b.pc[l.c].sec, l.order, s, t);
    }
  }

  /** A step of a task other than the publisher's. */
  lemma {:induction false} OthersKeepOrder(b: Broker, l: Label, p: ClientId, s: ClientId, t: Topic)
    requires Ordered(b, p, s, t) && Enabled(b, l) && l.c != p
    ensures Orderly(ViewOf(Next(b, l), p, s, t), p, s, t)
  {
    StandingMoves(b, l, p, s, t);
    OutsidersLog(b, l, p, s, t);
    SubscriberMoves(ViewOf(b, p, s, t), ViewOf(Next(b, l), p, s, t), p, s, t);
  }

  /** What the publisher's receipt of a packet does to the view, apart from the subscriber's standing. */
  ghost predicate Receives(v: View, v': View, packet: Packet, t: Topic) {
    var mine := packet.Req? && packet.req.Publish? && packet.req.topic == t;
    && v'.events == v.events && v.publisher == Some(Idle)
    && v'.all == (if mine then v.all + [packet.req.args] else v.all)
    && exists nth: nat :: v'.publisher == Some(Dispatch(packet, nth)) && (mine ==> nth == |v.all|)
  }

  lemma ReceivedView(b: Broker, l: Label, p: ClientId, s: ClientId, t: Topic)
    requires Enabled(b, l) && l.Recv? && l.c == p
    ensures Receives(ViewOf(b, p, s, t), ViewOf(Next(b, l), p, s, t), l.packet, t)
  {
    var nth := if l.packet.Req? && l.packet.req.Publish? then |Published(b.hist, p, l.packet.req.topic)| else 0;
    assert ViewOf(Next(b, l), p, s, t).publisher == Some(Dispatch(l.packet, nth));
  }

  /** An idle publisher starts handling a packet: its next publish, or something else. */
  lemma PublisherStarts(v: View, v': View, packet: Packet, p: ClientId, s: ClientId, t: Topic)
    requires Orderly(v, p, s, t) && Receives(v, v', packet, t) && Follows(v, v'.(events := v.events, all := v.all))
    ensures Orderly(v', p, s, t)
  {
    assert Contiguous(v'.events, p, t, v'.all);
  }

  /** The publisher receives a packet. */
  lemma {:induction false} PublisherReceives(b: Broker, l: Label, p: ClientId, s: ClientId, t: Topic)
    requires Ordered(b, p, s, t) && Enabled(b, l) && l.Recv? && l.c == p
    ensures Orderly(ViewOf(Next(b, l), p, s, t), p, s, t)
  {
    StandingMoves(b, l, p, s, t);
    ReceivedView(b, l, p, s, t);
    PublisherStarts(ViewOf(b, p, s, t), ViewOf(Next(b, l), p, s, t), l.packet, p, s, t);
  }

  lemma OtherSections(tb: Tables, p: ClientId, sec: Section, order: seq<ClientId>, t: Topic)
    requires !(sec.ReadSubs? && sec.topic == t) && !sec.FindSubs?
    requires forall m | m in OwnMessages(In(sec)) :: !IsEvent(m, t)
    ensures var pc := Body(tb, p, sec, order).pc;
            && ProgressOf(pc, t) == Resting
            && (forall m | m in OwnMessages(pc) :: !IsEvent(m, t))
            && (pc.Post? ==> OneMessage(pc.letters))
  {
  }

  /** The publisher looks up the senders of the subscribers. */
  lemma PublisherFinds(tb: Tables, p: ClientId, sec: Section, order: seq<ClientId>, s: ClientId, t: Topic, v: View,
      v': View)
    requires Orderly(v, p, s, t) && v.publisher == Some(In(sec)) && sec.FindSubs?
    requires v' == v.(publisher := Some(Body(tb, p, sec, order).pc), present := v'.present, subscribed := v'.subscribed)
    requires Follows(v, v') && v.alive == (s in tb.clients)
    ensures Orderly(v', p, s, t)
  {
    EventsAre(tb, sec.topic, sec.args, sec.nth, sec.subs);
    var ls := Events(tb, sec.topic, sec.args, sec.nth, sec.subs);
    if ls == [] && sec.topic == t { assert !Addressed(ls, s); }
  }

  /** The publisher works in a critical section. */
  lemma PublisherWorks(tb: Tables, p: ClientId, sec: Section, order: seq<ClientId>, s: ClientId, t: Topic, v: View,
      v': View)
    requires Orderly(v, p, s, t) && v.publisher == Some(In(sec)) && Follows(v, v')
    requires v.alive == (s in tb.clients) && v.listening == (s in Subscribers(tb, t))
    requires sec.ReadSubs? ==> IsListing(order, Subscribers(tb, sec.topic))
    requires v'.publisher == Some(Body(tb, p, sec, order).pc)
    requires sec.ReadSubs? || sec.FindSubs? ==> v'.alive == v.alive && v'.listening == v.listening
    ensures Orderly(v', p, s, t)
  {
    if sec.FindSubs? {
      PublisherFinds(tb, p, sec, order, s, t, v, v');
    } else if !(sec.ReadSubs? && sec.topic == t) {
      OtherSections(tb, p, sec, order, t);
    }
  }

  /** What a message adds to the events of a view. */
  ghost predicate Logs(v: View, v': View, m: Letter, p: ClientId, s: ClientId, t: Topic) {
    && (v'.events != v.events ==>
          m.to == s && IsEvent(m.packet, t) && v'.events == v.events + [Entry(p, m.nth, m.packet)])
    && (v.alive && m.to == s && IsEvent(m.packet, t) ==> v'.events == v.events + [Entry(p, m.nth, m.packet)])
    && v' == v.(events := v'.events, publisher := v'.publisher)
  }

  lemma AddressedFirst(letters: seq<Letter>, s: ClientId)
    requires letters != []
    ensures var m, rest := letters[0], letters[1..];
            && (Addressed(letters, s) <==> m.to == s || Addressed(rest, s))
            && (OneEach(letters) ==> OneEach(rest) && !(m.to == s && Addressed(rest, s)))
  {
    var m, rest := letters[0], letters[1..];
    assert m in letters;
    if Addressed(letters, s) && m.to != s { var x :| x in letters && x.to == s; assert x in rest; }
    if Addressed(rest, s) { var x :| x in rest && x.to == s; assert x in letters; }
  }

  /** One letter fewer to send. */
  lemma OneLetterLess(letters: seq<Letter>)
    requires letters != [] && OneMessage(letters)
    ensures var m, rest := letters[0], letters[1..];
            OneMessage(rest) && (rest != [] ==> rest[0].packet == m.packet && rest[0].nth == m.nth)
  {
    if letters[1..] != [] { assert letters[1..][0] in letters; }
  }

  lemma EventsGrow(v: View, e: Entry, p: ClientId, t: Topic)
    requires Contiguous(v.events, p, t, v.all) && Caught(v.events, e.nth) && Genuine(e, p, t, v.all)
    ensures Contiguous(v.events + [e], p, t, v.all) && Caught(v.events + [e], e.nth + 1)
  {
  }

  /** The publisher has posted a letter of its current event, or of something else. */
  lemma PublisherPosted(v: View, v': View, letters: seq<Letter>, p: ClientId, s: ClientId, t: Topic)
    requires Orderly(v, p, s, t) && v.publisher == Some(Post(letters)) && letters != []
    requires v'.publisher == Some(SendOut(letters[1..])) && Logs(v, v', letters[0], p, s, t)
    ensures Orderly(v', p, s, t)
  {
    var m := letters[0];
    OneLetterLess(letters);
    AddressedFirst(letters, s);
    if v'.events != v.events { EventsGrow(v, Entry(p, m.nth, m.packet), p, t); }
  }

  /** The publisher has sent a message, or dropped it because its channel is closed. */
  lemma PublisherSent(v: View, v': View, m: Letter, p: ClientId, s: ClientId, t: Topic)
    requires Orderly(v, p, s, t) && v.publisher.Some?
    requires var pc := v.publisher.value;
             || (pc.Post? && pc.letters != [] && m == pc.letters[0] && v'.publisher == Some(SendOut(pc.letters[1..])))
             || (pc.Mine? && pc.msgs != [] && m.packet == pc.msgs[0] && v'.publisher == Some(SendSelf(pc.msgs[1..])))
             || (pc.Refuse? && m.packet == NoSuchObject(pc.call) && v'.publisher == Some(Unlock))
    requires Logs(v, v', m, p, s, t)
    ensures Orderly(v', p, s, t)
  {
    var pc := v.publisher.value;
    if pc.Post? {
      PublisherPosted(v, v', pc.letters, p, s, t);
    } else {
      assert pc.Mine? ==> pc.msgs[0] in OwnMessages(pc);
      assert v'.events == v.events;
    }
  }

  lemma EnqueuedEvents(b: Broker, m: Letter, p: ClientId, s: ClientId, t: Topic)
    requires s in b.outs
    ensures var outs := Enqueue(b, p, m);
            && s in outs
            && Heard(outs[s], p, t) ==
                 Heard(b.outs[s], p, t) +
                 (if m.to == s && IsEvent(m.packet, t) && s in b.pc && b.pc[s] != Gone
                  then [Entry(p, m.nth, m.packet)] else [])
  {
    HeardAppend(b.outs[s], Entry(p, m.nth, m.packet), p, t);
  }

  /** A message to a client that is alive is never dropped. */
  lemma AliveIsOpen(b: Broker, s: ClientId)
    requires LeaversCut(b.pc, b.tb.clients) && b.pc.Keys == b.outs.Keys && s in b.tb.clients && Present(b.pc, s)
    ensures s in b.pc && b.pc[s] != Gone && s in b.outs
  {
  }

  lemma {:induction false} ViewAfterSend(b: Broker, p: ClientId, s: ClientId, t: Topic)
    requires Enabled(b, Send(p)) && b.pc.Keys == b.outs.Keys
    requires s in b.tb.clients ==> s in b.pc && b.pc[s] != Gone && Present(b.pc, s)
    ensures var v, v', m := ViewOf(b, p, s, t), ViewOf(Next(b, Send(p)), p, s, t), Outgoing(b, p);
            Logs(v, v', m, p, s, t)
  {
    PresenceLasts(b, Send(p), s);
    assert OutsAfter(b, Send(p)) == Enqueue(b, p, Outgoing(b, p));
    if s in b.outs { EnqueuedEvents(b, Outgoing(b, p), p, s, t); }
  }

  lemma {:induction false} PublisherSends(b: Broker, p: ClientId, s: ClientId, t: Topic)
    requires Ordered(b, p, s, t) && Enabled(b, Send(p))
    ensures Orderly(ViewOf(Next(b, Send(p)), p, s, t), p, s, t)
  {
    var l := Send(p);
    if s in b.tb.clients { AliveIsOpen(b, s); }
    ViewAfterSend(b, p, s, t);
    var v, v' := ViewOf(b, p, s, t), ViewOf(Next(b, l), p, s, t);
    PublisherSent(v, v', Outgoing(b, p), p, s, t);
  }

  lemma PublisherSection(b: Broker, l: Label, p: ClientId, s: ClientId, t: Topic)
    requires Ordered(b, p, s, t) && Enabled(b, l) && InSection(b, l) && l.c == p
    ensures Orderly(ViewOf(Next(b, l), p, s, t), p, s, t)
  {
    StandingMoves(b, l, p, s, t);
    PublisherWorks(b.tb, p, b.pc[p].sec, l.order, s, t, ViewOf(b, p, s, t), ViewOf(Next(b, l), p, s, t));
  }

  lemma {:induction false} OrderlyStep(b: Broker, l: Label, p: ClientId, s: ClientId, t: Topic)
    requires Ordered(b, p, s, t) && Enabled(b, l)
    ensures Orderly(ViewOf(Next(b, l), p, s, t), p, s, t)
  {
    if l.c != p {
      OthersKeepOrder(b, l, p, s, t);
    } else if l.Send? {
      PublisherSends(b, p, s, t);
    } else if l.Recv? {
      PublisherReceives(b, l, p, s, t);
    } else if InSection(b, l) {
      PublisherSection(b, l, p, s, t);
    } else {
      PublisherMoves(b, l, p, s, t);
    }
  }

  lemma KeysStep(b: Broker, l: Label)
    requires b.pc.Keys == b.outs.Keys && Enabled(b, l)
    ensures Next(b, l).pc.Keys == Next(b, l).outs.Keys
  {
  }

  lemma {:induction false} OrderedStep(b: Broker, l: Label, p: ClientId, s: ClientId, t: Topic)
    requires Ordered(b, p, s, t) && Enabled(b, l)
    ensures Ordered(Next(b, l), p, s, t)
  {
    LeaversCutStep(b, l);
    KeysStep(b, l);
    OrderlyStep(b, l, p, s, t);
  }

  /** The publisher connects, hangs up, takes a mutex, or lets go of one outside a section. */
  lemma {:induction false} PublisherMoves(b: Broker, l: Label, p: ClientId, s: ClientId, t: Topic)
    requires Ordered(b, p, s, t) && Enabled(b, l) && l.c == p && !l.Send? && !l.Recv? && !InSection(b, l)
    ensures Orderly(ViewOf(Next(b, l), p, s, t), p, s, t)
  {
    StandingMoves(b, l, p, s, t);
    var v, v' := ViewOf(b, p, s, t), ViewOf(Next(b, l), p, s, t);
    assert v'.events == v.events && v'.all == v.all;
    if p in b.pc { assert ProgressOf(Target(b, l), t) == ProgressOf(b.pc[p], t); }
    SubscriberMoves(v, v'.(publisher := v.publisher), p, s, t);
  }

  /**
   In every reachable state, the events of `p` on `t` enqueued to `s` carry consecutive publish numbers and the very
   values published; and a client that never subscribed gets none.
   */
  lemma {:induction false} EventsContiguous(b: Broker, p: ClientId, s: ClientId, t: Topic)
    requires Reachable(b) && s in b.outs
    ensures Contiguous(Heard(b.outs[s], p, t), p, t, Published(b.hist, p, t))
    ensures Heard(b.outs[s], p, t) != [] ==> (s, t) in b.hist.subscribed
    ensures exists from :: IsSegment(Heard(b.outs[s], p, t), Published(b.hist, p, t), from)
  {
    var run :| IsRun(run) && run[|run| - 1] == b;
    var inv := (x: Broker) => Ordered(x, p, s, t);
    forall x, l | inv(x) && Enabled(x, l) ensures inv(Next(x, l)) { OrderedStep(x, l, p, s, t); }
    Invariance(inv, run);
    var events, all := Heard(b.outs[s], p, t), Published(b.hist, p, t);
    SegmentOf(events, p, t, all);
  }

  lemma SegmentOf(events: seq<Entry>, p: ClientId, t: Topic, all: seq<Value>)
    requires Contiguous(events, p, t, all)
    ensures exists from :: IsSegment(events, all, from)
  {
    var from := if events == [] then 0 else events[0].nth;
    forall i | 0 <= i < |events|
      ensures events[i].nth == from + i < |all| && events[i].packet == Resp(Event(t, all[from + i]))
    {
      assert Genuine(events[i], p, t, all);
    }
    if events != [] { assert events[|events| - 1].nth == from + (|events| - 1); }
    assert IsSegment(events, all, from);
  }
}
