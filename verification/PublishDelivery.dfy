/**
 No event is missed, at lock grain and under any peers: while a client stays connected after it has subscribed, every
 event published to the topic is enqueued to it.
 */
module PublishDelivery {
  import opened Rpc
  import opened Sections
  import opened LockSteps
  import opened PublishOrder

  function Doing(publisher: Option<PC>, t: Topic): Progress {
    if publisher.Some? then ProgressOf(publisher.value, t) else Resting
  }

  /** How many publishes the publisher is done with, as far as `s` is concerned. */
  ghost function Handled(g: Progress, s: ClientId, published: nat): int {
    match g
    case Resting => published
    case Reading(_, nth) => nth
    case Finding(_, nth, _) => nth
    case Posting(letters) => if letters != [] && Addressed(letters, s) then letters[0].nth else published
  }

  /** The subscriber is connected and listens, also in the list that the publisher is working on. */
  ghost predicate Attends(v: View, s: ClientId, t: Topic) {
    v.alive && v.listening && (Doing(v.publisher, t).Finding? ==> s in Doing(v.publisher, t).list)
  }

  /** Events enqueued, less publishes handled. */
  ghost function Surplus(v: View, s: ClientId, t: Topic): int {
    |v.events| - Handled(Doing(v.publisher, t), s, |v.all|)
  }

  ghost predicate KeepsUp(v: View, v': View, s: ClientId, t: Topic) {
    Attends(v, s, t) && v'.alive ==> Attends(v', s, t) && Surplus(v', s, t) == Surplus(v, s, t)
  }

  // ---------- one step of the publisher ----------

  /** The publisher's progress stays the same. */
  lemma KeptByRest(v: View, v': View, s: ClientId, t: Topic)
    requires Follows(v, v') && Doing(v'.publisher, t) == Doing(v.publisher, t)
    ensures KeepsUp(v, v', s, t)
  {
  }

  lemma KeptByReceipt(v: View, v': View, packet: Packet, s: ClientId, t: Topic)
    requires Receives(v, v', packet, t) && Follows(v, v'.(events := v.events, all := v.all))
    ensures KeepsUp(v, v', s, t)
  {
  }

  /** The publisher works in a critical section: if it lists the subscribers, the subscriber is among them. */
  lemma KeptBySection(tb: Tables, p: ClientId, sec: Section, order: seq<ClientId>, s: ClientId, t: Topic, v: View,
      v': View)
    requires Orderly(v, p, s, t) && v.publisher == Some(In(sec)) && Follows(v, v')
    requires v.alive == (s in tb.clients) && v.listening == (s in Subscribers(tb, t))
    requires sec.ReadSubs? ==> IsListing(order, Subscribers(tb, sec.topic))
    requires v'.publisher == Some(Body(tb, p, sec, order).pc)
    ensures KeepsUp(v, v', s, t)
  {
    if sec.ReadSubs? && sec.topic == t {
      KeptByListing(tb, p, sec, order, s, t, v, v');
    } else if sec.FindSubs? {
      KeptByFinding(tb, p, sec, order, s, t, v, v');
    } else {
      OtherSections(tb, p, sec, order, t);
      KeptByRest(v, v', s, t);
    }
  }

  /** The publisher looks up the senders: that of the subscriber is found. */
  lemma KeptByFinding(tb: Tables, p: ClientId, sec: Section, order: seq<ClientId>, s: ClientId, t: Topic, v: View,
      v': View)
    requires v.publisher == Some(In(sec)) && Follows(v, v') && sec.FindSubs? && v.alive == (s in tb.clients)
    requires v'.publisher == Some(Body(tb, p, sec, order).pc)
    ensures KeepsUp(v, v', s, t)
  {
    EventsAre(tb, sec.topic, sec.args, sec.nth, sec.subs);
    var letters := Events(tb, sec.topic, sec.args, sec.nth, sec.subs);
    if letters != [] { assert letters[0] in letters; }
  }

  lemma KeptByListing(tb: Tables, p: ClientId, sec: Section, order: seq<ClientId>, s: ClientId, t: Topic, v: View,
      v': View)
    requires v.publisher == Some(In(sec)) && Follows(v, v') && sec.ReadSubs? && sec.topic == t
    requires v.listening == (s in Subscribers(tb, t)) && IsListing(order, Subscribers(tb, t))
    requires v'.publisher == Some(Body(tb, p, sec, order).pc)
    ensures KeepsUp(v, v', s, t)
  {
  }

  /** The publisher posts a letter: the one to the subscriber is the one event more. */
  lemma KeptByPosting(v: View, v': View, letters: seq<Letter>, p: ClientId, s: ClientId, t: Topic)
    requires Orderly(v, p, s, t) && v.publisher == Some(Post(letters)) && letters != []
    requires v'.publisher == Some(SendOut(letters[1..])) && Logs(v, v', letters[0], p, s, t)
    ensures KeepsUp(v, v', s, t)
  {
    OneLetterLess(letters);
    AddressedFirst(letters, s);
  }

  lemma KeptBySending(v: View, v': View, m: Letter, p: ClientId, s: ClientId, t: Topic)
    requires Orderly(v, p, s, t) && v.publisher.Some? && Logs(v, v', m, p, s, t)
    requires var pc := v.publisher.value;
             || (pc.Post? && pc.letters != [] && m == pc.letters[0] && v'.publisher == Some(SendOut(pc.letters[1..])))
             || (pc.Mine? && pc.msgs != [] && m.packet == pc.msgs[0] && v'.publisher == Some(SendSelf(pc.msgs[1..])))
             || (pc.Refuse? && m.packet == NoSuchObject(pc.call) && v'.publisher == Some(Unlock))
    ensures KeepsUp(v, v', s, t)
  {
    var pc := v.publisher.value;
    if pc.Post? {
      KeptByPosting(v, v', pc.letters, p, s, t);
    } else {
      assert pc.Mine? ==> pc.msgs[0] in OwnMessages(pc);
      assert v'.events == v.events;
    }
  }

  // ---------- any step ----------

  lemma KeptByPublisher(b: Broker, l: Label, p: ClientId, s: ClientId, t: Topic)
    requires Ordered(b, p, s, t) && Enabled(b, l) && l.c == p
    ensures KeepsUp(ViewOf(b, p, s, t), ViewOf(Next(b, l), p, s, t), s, t)
  {
    var v, v' := ViewOf(b, p, s, t), ViewOf(Next(b, l), p, s, t);
    StandingMoves(b, l, p, s, t);
    if l.Send? {
      if s in b.tb.clients { AliveIsOpen(b, s); }
      ViewAfterSend(b, p, s, t);
      KeptBySending(v, v', Outgoing(b, p), p, s, t);
    } else if l.Recv? {
      ReceivedView(b, l, p, s, t);
      KeptByReceipt(v, v', l.packet, s, t);
    } else if InSection(b, l) {
      KeptBySection(b.tb, p, b.pc[p].sec, l.order, s, t, v, v');
    } else {
      KeptByMove(b, l, p, s, t);
    }
  }

  lemma KeptByMove(b: Broker, l: Label, p: ClientId, s: ClientId, t: Topic)
    requires Ordered(b, p, s, t) && Enabled(b, l) && l.c == p && !l.Send? && !l.Recv? && !InSection(b, l)
    ensures KeepsUp(ViewOf(b, p, s, t), ViewOf(Next(b, l), p, s, t), s, t)
  {
    StandingMoves(b, l, p, s, t);
    var v, v' := ViewOf(b, p, s, t), ViewOf(Next(b, l), p, s, t);
    assert v'.events == v.events && v'.all == v.all;
    assert Doing(v'.publisher, t) == Doing(v.publisher, t);
    KeptByRest(v, v', s, t);
  }

  lemma KeepsUpStep(b: Broker, l: Label, p: ClientId, s: ClientId, t: Topic)
    requires Ordered(b, p, s, t) && Enabled(b, l)
    ensures KeepsUp(ViewOf(b, p, s, t), ViewOf(Next(b, l), p, s, t), s, t)
    ensures var v, v' := ViewOf(b, p, s, t), ViewOf(Next(b, l), p, s, t);
            Follows(v, v'.(events := v.events, all := v.all))
  {
    StandingMoves(b, l, p, s, t);
    if l.c == p {
      KeptByPublisher(b, l, p, s, t);
    } else {
      OutsidersLog(b, l, p, s, t);
      KeptByRest(ViewOf(b, p, s, t), ViewOf(Next(b, l), p, s, t), s, t);
    }
  }

  // ---------- whole runs ----------

  lemma OrderedAt(run: seq<Broker>, k: nat, p: ClientId, s: ClientId, t: Topic)
    requires IsRun(run) && k < |run|
    ensures Ordered(run[k], p, s, t)
  {
    var upTo := run[..k + 1];
    var inv := (x: Broker) => Ordered(x, p, s, t);
    forall x, l | inv(x) && Enabled(x, l) ensures inv(Next(x, l)) { OrderedStep(x, l, p, s, t); }
    Invariance(inv, upTo);
  }

  /** From `b` to `b'` the subscriber has kept up, if it is still connected. */
  ghost predicate Onward(b: Broker, b': Broker, p: ClientId, s: ClientId, t: Topic) {
    Ordered(b, p, s, t) && Present(b.pc, s) ==>
      && Ordered(b', p, s, t) && Present(b'.pc, s)
      && (s in b'.tb.clients ==> s in b.tb.clients && KeepsUp(ViewOf(b, p, s, t), ViewOf(b', p, s, t), s, t))
  }

  lemma OnwardStep(b: Broker, b': Broker, p: ClientId, s: ClientId, t: Topic)
    requires Step(b, b')
    ensures Onward(b, b', p, s, t)
  {
    if Ordered(b, p, s, t) && Present(b.pc, s) {
      var l :| Enabled(b, l) && b' == Next(b, l);
      OrderedStep(b, l, p, s, t);
      KeepsUpStep(b, l, p, s, t);
      PresenceLasts(b, l, s);
    }
  }

  lemma OnwardBetween(run: seq<Broker>, i: nat, j: nat, p: ClientId, s: ClientId, t: Topic)
    requires IsRun(run) && i <= j < |run|
    ensures Onward(run[i], run[j], p, s, t)
  {
    var rel := (b: Broker, b': Broker) => Onward(b, b', p, s, t);
    forall b, b' | Step(b, b') ensures rel(b, b') { OnwardStep(b, b', p, s, t); }
    Segment(rel, run, i, j);
  }

  /** `p` is not in the middle of a publish to `t`. */
  predicate AtRest(b: Broker, p: ClientId, t: Topic) {
    p in b.pc ==> ProgressOf(b.pc[p], t).Resting?
  }

  /** The events are the last `n` of the publishes `all`. */
  ghost predicate AreLast(events: seq<Entry>, n: nat, all: seq<Value>, t: Topic) {
    && n <= |events| && n <= |all|
    && var said, published := events[|events| - n..], all[|all| - n..];
       forall k | 0 <= k < n :: said[k].packet == Resp(Event(t, published[k]))
  }

  lemma LastOnes(v: View, p: ClientId, s: ClientId, t: Topic, n: nat)
    requires Orderly(v, p, s, t) && v.alive && Doing(v.publisher, t).Resting? && n <= |v.events| && n <= |v.all|
    ensures AreLast(v.events, n, v.all, t)
  {
    var said, published := v.events[|v.events| - n..], v.all[|v.all| - n..];
    forall k | 0 <= k < n ensures said[k].packet == Resp(Event(t, published[k])) {
      assert said[k] == v.events[|v.events| - n + k] && Genuine(said[k], p, t, v.all);
      assert v.events[|v.events| - 1].nth == v.events[0].nth + (|v.events| - 1);
    }
  }

  lemma {:induction false} PublishedGrows(run: seq<Broker>, i: nat, j: nat, p: ClientId, t: Topic)
    requires IsRun(run) && i <= j < |run|
    ensures Published(run[i].hist, p, t) <= Published(run[j].hist, p, t)
  {
    var rel := (b: Broker, b': Broker) => Published(b.hist, p, t) <= Published(b'.hist, p, t);
    Segment(rel, run, i, j);
  }

  /**
   No event is missed: `s` is subscribed to `t` at some state of a run, and still connected at a later one; `p` is not
   in the middle of a publish to `t` in either. Then the events of `p` enqueued to `s` in between are exactly those
   that `p` published to `t` in between, each once and in order.
   */
  lemma NoEventMissed(run: seq<Broker>, i: nat, j: nat, p: ClientId, s: ClientId, t: Topic)
    requires IsRun(run) && i <= j < |run| && AtRest(run[i], p, t) && AtRest(run[j], p, t)
    requires s in Subscribers(run[i].tb, t) && s in run[j].tb.clients
    ensures s in run[i].outs && s in run[j].outs
    ensures var before, after := Heard(run[i].outs[s], p, t), Heard(run[j].outs[s], p, t);
            var old_, all := Published(run[i].hist, p, t), Published(run[j].hist, p, t);
            && old_ <= all && |after| == |before| + (|all| - |old_|)
            && AreLast(after, |all| - |old_|, all, t)
  {
    OrderedAt(run, i, p, s, t);
    OnwardBetween(run, i, j, p, s, t);
    PublishedGrows(run, i, j, p, t);
    var all, before := Published(run[j].hist, p, t), Published(run[i].hist, p, t);
    LastOnes(ViewOf(run[j], p, s, t), p, s, t, |all| - |before|);
  }
}
