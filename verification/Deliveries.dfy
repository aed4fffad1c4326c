/**
 What a task is about to send arrives, at lock grain and under any peers: replies at their callers, answers to object
 queries, acknowledgements of subscriptions. A message is only lost to a client whose task has ended.
 */
module Deliveries {
  import opened Rpc
  import opened Sections
  import opened LockSteps
  import opened Erasure
  import opened LockFates
  import opened PublishOrder
  import opened PublishDelivery

  /** The packet has been enqueued to `d` after the first `from` messages. */
  ghost predicate Enqueued(b: Broker, d: ClientId, packet: Packet, from: nat) {
    d in b.outs && exists i: nat :: from <= i < |b.outs[d]| && b.outs[d][i].packet == packet
  }

  /** The task of `c` is about to send the packet to its own client. */
  predicate Underway(b: Broker, c: ClientId, packet: Packet) {
    c in b.pc && packet in OwnMessages(b.pc[c])
  }

  /** The task of `w` is about to post the packet to `d`. */
  ghost predicate Holding(b: Broker, w: ClientId, d: ClientId, packet: Packet) {
    w in b.pc && b.pc[w].Post? && Sealed(b.pc[w].letters, d, packet)
  }

  ghost predicate Sealed(letters: seq<Letter>, d: ClientId, packet: Packet) {
    exists x :: x in letters && x.to == d && x.packet == packet
  }

  predicate Ended(b: Broker, d: ClientId) {
    d in b.pc && b.pc[d] == Gone
  }

  // ---------- one step ----------

  lemma StaysEnqueued(b: Broker, l: Label, d: ClientId, packet: Packet, from: nat)
    requires Enabled(b, l) && Enqueued(b, d, packet, from)
    ensures Enqueued(Next(b, l), d, packet, from)
  {
    ChannelOnlyGrows(b, l, d);
    var i: nat :| from <= i < |b.outs[d]| && b.outs[d][i].packet == packet;
    assert Next(b, l).outs[d][i].packet == packet;
  }

  lemma NewlyEnqueued(b: Broker, b': Broker, d: ClientId, e: Entry, from: nat)
    requires d in b.outs && d in b'.outs && b'.outs[d] == b.outs[d] + [e] && from <= |b.outs[d]|
    ensures Enqueued(b', d, e.packet, from)
  {
    assert b'.outs[d][|b.outs[d]|] == e;
  }

  /** A message to the task's own client is sent next, or stays. */
  lemma OwnMessageStep(b: Broker, l: Label, c: ClientId, packet: Packet, from: nat)
    requires Reachable(b) && Enabled(b, l) && Underway(b, c, packet) && c in b.outs && from <= |b.outs[c]|
    ensures Underway(Next(b, l), c, packet) || Enqueued(Next(b, l), c, packet, from)
  {
    AlwaysConnected(b);
    if l.c == c && l.Send? {
      MessageEnqueued(b, c);
      var m := Outgoing(b, c);
      NewlyEnqueued(b, Next(b, l), c, Entry(c, m.nth, m.packet), from);
      if m.packet != packet { assert packet in b.pc[c].msgs[1..]; }
    }
  }

  /** A letter is posted next, or stays; it is dropped if its addressee's task has ended. */
  lemma LetterStep(b: Broker, l: Label, w: ClientId, d: ClientId, packet: Packet, from: nat)
    requires Reachable(b) && Enabled(b, l) && Holding(b, w, d, packet) && d in b.outs && from <= |b.outs[d]|
    ensures Holding(Next(b, l), w, d, packet) || Enqueued(Next(b, l), d, packet, from) || Ended(Next(b, l), d)
  {
    if l.c == w {
      MessageEnqueued(b, w);
      var letters := b.pc[w].letters;
      var m := letters[0];
      if m.to == d && m.packet == packet {
        if b.pc[d] != Gone { NewlyEnqueued(b, Next(b, l), d, Entry(w, m.nth, m.packet), from); }
      } else {
        var x :| x in letters && x.to == d && x.packet == packet;
        assert x in letters[1..];
      }
    }
  }

  // ---------- whole runs ----------

  lemma EnqueuedGrows(run: seq<Broker>, labels: seq<Label>, i: nat, j: nat, d: ClientId)
    requires IsTrace(run, labels) && i <= j < |run| && d in run[i].outs
    ensures d in run[j].outs && |run[i].outs[d]| <= |run[j].outs[d]|
    decreases j
  {
    if i < j {
      EnqueuedGrows(run, labels, i, j - 1, d);
      assert StepBy(run[j - 1], labels[j - 1], run[j]);
      ChannelOnlyGrows(run[j - 1], labels[j - 1], d);
    }
  }

  lemma OwnMessageGoesOn(b: Broker, l: Label, b': Broker, c: ClientId, packet: Packet, from: nat)
    requires Reachable(b) && StepBy(b, l, b') && c in b.outs && from <= |b.outs[c]|
    requires Underway(b, c, packet) || Enqueued(b, c, packet, from)
    ensures Underway(b', c, packet) || Enqueued(b', c, packet, from)
  {
    if Underway(b, c, packet) {
      OwnMessageStep(b, l, c, packet, from);
    } else {
      StaysEnqueued(b, l, c, packet, from);
    }
  }

  lemma {:induction false} OwnMessageArrives(
      run: seq<Broker>, labels: seq<Label>, i: nat, j: nat, c: ClientId, packet: Packet, from: nat)
    requires IsTrace(run, labels) && i <= j < |run|
    requires Underway(run[i], c, packet) && c in run[i].outs && from <= |run[i].outs[c]|
    ensures Underway(run[j], c, packet) || Enqueued(run[j], c, packet, from)
    decreases j
  {
    if i < j {
      OwnMessageArrives(run, labels, i, j - 1, c, packet, from);
      EnqueuedGrows(run, labels, i, j - 1, c);
      TraceReaches(run, labels, j - 1);
      OwnMessageGoesOn(run[j - 1], labels[j - 1], run[j], c, packet, from);
    }
  }

  lemma LetterGoesOn(b: Broker, l: Label, b': Broker, w: ClientId, d: ClientId, packet: Packet, from: nat)
    requires Reachable(b) && StepBy(b, l, b') && d in b.outs && from <= |b.outs[d]|
    requires Holding(b, w, d, packet) || Enqueued(b, d, packet, from) || Ended(b, d)
    ensures Holding(b', w, d, packet) || Enqueued(b', d, packet, from) || Ended(b', d)
  {
    if Holding(b, w, d, packet) {
      LetterStep(b, l, w, d, packet, from);
    } else if Enqueued(b, d, packet, from) {
      StaysEnqueued(b, l, d, packet, from);
    }
  }

  lemma {:induction false} LetterArrives(
      run: seq<Broker>, labels: seq<Label>, i: nat, j: nat, w: ClientId, d: ClientId, packet: Packet, from: nat)
    requires IsTrace(run, labels) && i <= j < |run|
    requires Holding(run[i], w, d, packet) && d in run[i].outs && from <= |run[i].outs[d]|
    ensures Holding(run[j], w, d, packet) || Enqueued(run[j], d, packet, from) || Ended(run[j], d)
    decreases j
  {
    if i < j {
      LetterArrives(run, labels, i, j - 1, w, d, packet, from);
      EnqueuedGrows(run, labels, i, j - 1, d);
      TraceReaches(run, labels, j - 1);
      LetterGoesOn(run[j - 1], labels[j - 1], run[j], w, d, packet, from);
    }
  }

  lemma RecordedHasChannel(b: Broker, id: CallId)
    requires Reachable(b) && id in b.tb.calls
    ensures b.tb.calls[id] in b.outs
  {
    var run :| IsRun(run) && run[|run| - 1] == b;
    forall x, l | Addressable(x) && Enabled(x, l) ensures Addressable(Next(x, l)) { AddressableStep(x, l); }
    Invariance(Addressable, run);
  }

  /** The step from state `k` is the work of this section by the task of `c`. */
  predicate Works(run: seq<Broker>, labels: seq<Label>, k: nat, c: ClientId, sec: Section) {
    && k < |run| && k < |labels|
    && labels[k].Work? && labels[k].c == c && c in run[k].pc && run[k].pc[c] == In(sec)
  }

  /** A task that has turned to a section is still about to work it, or has worked it since. */
  lemma {:induction false} SectionWorked(
      run: seq<Broker>, labels: seq<Label>, i: nat, j: nat, c: ClientId, sec: Section)
    requires IsTrace(run, labels) && i <= j < |run| && c in run[i].pc && run[i].pc[c] == Want(sec)
    ensures || (c in run[j].pc && (run[j].pc[c] == Want(sec) || run[j].pc[c] == In(sec)))
            || exists k :: i <= k < j && Works(run, labels, k, c, sec)
    decreases j
  {
    if i < j {
      SectionWorked(run, labels, i, j - 1, c, sec);
      assert StepBy(run[j - 1], labels[j - 1], run[j]);
      if k :| i <= k < j - 1 && Works(run, labels, k, c, sec) {
        assert i <= k < j;
      } else if labels[j - 1].c == c && run[j - 1].pc[c] == In(sec) {
        assert Works(run, labels, j - 1, c, sec);
      }
    }
  }

  // ---------- replies and queries ----------

  /** If the call was recorded at state `k`, then at state `j` the reply has been enqueued since to its caller. */
  ghost predicate Routed(run: seq<Broker>, k: nat, j: nat, r: Response, id: CallId)
    requires k < |run| && j < |run|
  {
    id in run[k].tb.calls ==>
      var d := run[k].tb.calls[id];
      d in run[k].outs && (Enqueued(run[j], d, Resp(r), |run[k].outs[d]|) || Ended(run[j], d))
  }

  /**
   A reply whose call is recorded when its section is worked: the record is taken, and in every later state the very
   reply is held by the task for the recorded caller, or has been enqueued to the caller since, unless the caller's task
   has ended.
   */
  lemma ReplyDelivered(run: seq<Broker>, labels: seq<Label>, i: nat, j: nat, w: ClientId, r: Response, id: CallId)
    requires IsTrace(run, labels) && i < j < |run| && Works(run, labels, i, w, TakeCall(r))
    requires IsReplyTo(r, id) && id in run[i].tb.calls
    ensures id !in run[i + 1].tb.calls
    ensures var d := run[i].tb.calls[id];
            && d in run[i].outs
            && (|| Holding(run[j], w, d, Resp(r)) || Enqueued(run[j], d, Resp(r), |run[i].outs[d]|)
                || Ended(run[j], d))
  {
    TraceReaches(run, labels, i);
    RecordedHasChannel(run[i], id);
    assert StepBy(run[i], labels[i], run[i + 1]);
    var d := run[i].tb.calls[id];
    assert Letter(d, Resp(r), 0) in run[i + 1].pc[w].letters;
    LetterArrives(run, labels, i + 1, j, w, d, Resp(r), |run[i].outs[d]|);
  }

  /**
   From the receipt of a reply on: when the task is idle again, it has looked the call up, and if the call was recorded
   then, the very reply has been enqueued to the recorded caller, unless that caller's task has ended.
   */
  lemma ReplyRouted(run: seq<Broker>, labels: seq<Label>, i: nat, j: nat, w: ClientId, r: Response, id: CallId)
    requires IsTrace(run, labels) && i < j < |run| && labels[i] == Recv(w, Resp(r)) && IsReplyTo(r, id)
    requires w in run[j].pc && run[j].pc[w] == Idle
    ensures exists k :: i < k < j && Works(run, labels, k, w, TakeCall(r)) && Routed(run, k, j, r, id)
  {
    assert StepBy(run[i], labels[i], run[i + 1]);
    SectionWorked(run, labels, i + 1, j, w, TakeCall(r));
    var k :| i < k < j && Works(run, labels, k, w, TakeCall(r));
    if id in run[k].tb.calls { ReplyDelivered(run, labels, k, j, w, r, id); }
    assert Routed(run, k, j, r, id);
  }

  /**
   The answer to an object query: the task sends one message to its own client, and its flag says whether the name was
   registered at the very step of the lookup. In every later state it is on its way or has been enqueued.
   */
  lemma QueryAnswered(run: seq<Broker>, labels: seq<Label>, i: nat, j: nat, c: ClientId, n: Name)
    requires IsTrace(run, labels) && i < j < |run| && Works(run, labels, i, c, AskObject(n))
    ensures var answer := Resp(HasObjectResult(n, n in run[i].tb.objects));
            && OwnMessages(run[i + 1].pc[c]) == [answer] && c in run[i].outs
            && (Underway(run[j], c, answer) || Enqueued(run[j], c, answer, |run[i].outs[c]|))
  {
    TraceReaches(run, labels, i);
    SameTasks(run[i]);
    assert StepBy(run[i], labels[i], run[i + 1]);
    OwnMessageArrives(
      run, labels, i + 1, j, c, Resp(HasObjectResult(n, n in run[i].tb.objects)), |run[i].outs[c]|);
  }

  /** From the receipt of an object query on: when the task is idle again, it has answered as of some state since. */
  lemma QueryAsOf(run: seq<Broker>, labels: seq<Label>, i: nat, j: nat, c: ClientId, n: Name)
    requires IsTrace(run, labels) && i < j < |run| && labels[i] == Recv(c, Req(HasObject(n)))
    requires c in run[j].pc && run[j].pc[c] == Idle
    ensures c in run[i].outs
    ensures exists k :: i < k < j && Works(run, labels, k, c, AskObject(n)) &&
              Enqueued(run[j], c, Resp(HasObjectResult(n, n in run[k].tb.objects)), |run[i].outs[c]|)
  {
    TraceReaches(run, labels, i);
    SameTasks(run[i]);
    assert StepBy(run[i], labels[i], run[i + 1]);
    SectionWorked(run, labels, i + 1, j, c, AskObject(n));
    var k :| i < k < j && Works(run, labels, k, c, AskObject(n));
    QueryAnswered(run, labels, k, j, c, n);
    EnqueuedGrows(run, labels, i, k, c);
    assert Enqueued(run[j], c, Resp(HasObjectResult(n, n in run[k].tb.objects)), |run[i].outs[c]|);
  }

  // ---------- subscriptions ----------

  predicate Subscribing(pc: PC, t: Topic) {
    pc == Want(PutSub(t)) || pc == In(PutSub(t))
  }

  /** The client is in the topic's set, and its acknowledgement on its way or enqueued. */
  ghost predicate Listening(b: Broker, s: ClientId, t: Topic, from: nat) {
    && s in b.pc && s in Subscribers(b.tb, t)
    && (OwnMessages(b.pc[s]) == [Resp(Subscribed(t))] || Enqueued(b, s, Resp(Subscribed(t)), from))
  }

  /** The subscription is about to be recorded, or is recorded and acknowledged, or has been cleaned up. */
  ghost predicate Subscription(b: Broker, s: ClientId, t: Topic, from: nat) {
    && s in b.pc && s in b.outs && from <= |b.outs[s]|
    && (Subscribing(b.pc[s], t) || Phase(b.pc[s]) >= 3 || Listening(b, s, t, from))
  }

  lemma OthersKeepListening(b: Broker, l: Label, s: ClientId, t: Topic, from: nat)
    requires Enabled(b, l) && l.c != s && Listening(b, s, t, from)
    ensures Listening(Next(b, l), s, t, from)
  {
    if InSection(b, l) { SectionEffects(b.tb, l.c, b.pc[l.c].sec, l.order, s, t); }
    if Enqueued(b, s, Resp(Subscribed(t)), from) { StaysEnqueued(b, l, s, Resp(Subscribed(t)), from); }
  }

  /** A listening client stays in the set until it cleans its subscriptions up. */
  lemma OwnStepKeepsListed(b: Broker, l: Label, s: ClientId, t: Topic)
    requires Enabled(b, l) && l.c == s && s in b.pc && s in Subscribers(b.tb, t)
    ensures s in Subscribers(Next(b, l).tb, t) || Phase(Next(b, l).pc[s]) >= 3
  {
    if InSection(b, l) { SectionEffects(b.tb, s, b.pc[s].sec, l.order, s, t); }
  }

  lemma OwnStepKeepsListening(b: Broker, l: Label, s: ClientId, t: Topic, from: nat)
    requires Reachable(b) && Enabled(b, l) && l.c == s && Listening(b, s, t, from)
    requires s in b.outs && from <= |b.outs[s]|
    ensures Phase(Next(b, l).pc[s]) >= 3 || Listening(Next(b, l), s, t, from)
  {
    var ack := Resp(Subscribed(t));
    OwnStepKeepsListed(b, l, s, t);
    if Enqueued(b, s, ack, from) {
      StaysEnqueued(b, l, s, ack, from);
    } else {
      assert Underway(b, s, ack);
      OwnMessageStep(b, l, s, ack, from);
      if !Enqueued(Next(b, l), s, ack, from) { AlwaysConnected(b); }
    }
  }

  lemma SubscriptionStep(b: Broker, l: Label, s: ClientId, t: Topic, from: nat)
    requires Reachable(b) && Enabled(b, l) && Subscription(b, s, t, from)
    ensures Subscription(Next(b, l), s, t, from)
  {
    ChannelOnlyGrows(b, l, s);
    if Phase(b.pc[s]) >= 3 || Subscribing(b.pc[s], t) {
    } else if l.c == s {
      OwnStepKeepsListening(b, l, s, t, from);
    } else {
      OthersKeepListening(b, l, s, t, from);
    }
  }

  lemma SubscriptionStarts(b: Broker, l: Label, s: ClientId, t: Topic)
    requires Reachable(b) && Enabled(b, l) && l == Recv(s, Req(Subscribe(t)))
    ensures s in b.outs && Subscription(Next(b, l), s, t, |b.outs[s]|)
  {
    SameTasks(b);
  }

  lemma {:induction false} SubscriptionLasts(
      run: seq<Broker>, labels: seq<Label>, i: nat, j: nat, s: ClientId, t: Topic)
    requires IsTrace(run, labels) && i < j < |run| && labels[i] == Recv(s, Req(Subscribe(t)))
    ensures s in run[i].outs && Subscription(run[j], s, t, |run[i].outs[s]|)
    decreases j
  {
    assert StepBy(run[j - 1], labels[j - 1], run[j]);
    TraceReaches(run, labels, j - 1);
    if j == i + 1 {
      SubscriptionStarts(run[i], labels[i], s, t);
    } else {
      SubscriptionLasts(run, labels, i, j - 1, s, t);
      SubscriptionStep(run[j - 1], labels[j - 1], s, t, |run[i].outs[s]|);
    }
  }

  /**
   From the receipt of a `Subscribe` on: the section is still to come, or the client is in the topic's set and its
   acknowledgement on its way or enqueued since, or it has left and dropped its subscriptions. So when its task is next
   idle, and whenever it is idle later, the subscription is recorded and acknowledged.
   */
  lemma SubscriptionRecorded(run: seq<Broker>, labels: seq<Label>, i: nat, j: nat, s: ClientId, t: Topic)
    requires IsTrace(run, labels) && i < j < |run| && labels[i] == Recv(s, Req(Subscribe(t)))
    ensures s in run[i].outs && s in run[j].pc
    ensures var b, from := run[j], |run[i].outs[s]|;
            || Subscribing(b.pc[s], t) || Phase(b.pc[s]) >= 3
            || (&& s in Subscribers(b.tb, t)
                && (Underway(b, s, Resp(Subscribed(t))) || Enqueued(b, s, Resp(Subscribed(t)), from)))
    ensures run[j].pc[s] == Idle ==>
              s in Subscribers(run[j].tb, t) && Enqueued(run[j], s, Resp(Subscribed(t)), |run[i].outs[s]|)
  {
    SubscriptionLasts(run, labels, i, j, s, t);
  }

  lemma TraceIsRun(run: seq<Broker>, labels: seq<Label>)
    requires IsTrace(run, labels)
    ensures IsRun(run)
  {
    forall i, j | 0 <= i < j < |run| && j == i + 1 ensures Step(run[i], run[j]) {
      assert StepBy(run[i], labels[i], run[j]);
    }
  }

  /**
   No event is missed from the receipt of a `Subscribe` on: once the subscriber's task has been idle again, between any
   two states in which the publisher is not in the middle of a publish, and while the subscriber is connected, it is
   enqueued exactly the events published in between, each once and in order.
   */
  lemma SubscriberHearsAll(
      run: seq<Broker>, labels: seq<Label>, i: nat, j: nat, k: nat, p: ClientId, s: ClientId, t: Topic)
    requires IsTrace(run, labels) && i < j <= k < |run| && labels[i] == Recv(s, Req(Subscribe(t)))
    requires s in run[j].pc && run[j].pc[s] == Idle && s in run[k].tb.clients
    requires AtRest(run[j], p, t) && AtRest(run[k], p, t)
    ensures s in run[j].outs && s in run[k].outs
    ensures var before, after := Heard(run[j].outs[s], p, t), Heard(run[k].outs[s], p, t);
            var old_, all := Published(run[j].hist, p, t), Published(run[k].hist, p, t);
            && old_ <= all && |after| == |before| + (|all| - |old_|)
            && AreLast(after, |all| - |old_|, all, t)
  {
    TraceIsRun(run, labels);
    SubscriptionRecorded(run, labels, i, j, s, t);
    NoEventMissed(run, j, k, p, s, t);
  }
}
