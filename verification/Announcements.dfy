/** `RegisterService` is never answered, at lock grain: a client that sends nothing else hears nothing. */
module Announcements {
  import opened Rpc
  import opened Sections
  import opened LockSteps

  /** All that the broker receives from `c` are announcements of services. */
  predicate Announces(l: Label, c: ClientId) {
    l.Recv? && l.c == c ==> l.packet.Req? && l.packet.req.RegisterService?
  }

  /** No table leads to `c`, except that it has a sender. */
  ghost predicate Unlisted(tb: Tables, c: ClientId) {
    && (forall n | n in tb.objects :: tb.objects[n] != c)
    && (forall t | t in tb.subs :: c !in tb.subs[t])
    && (forall id | id in tb.calls :: tb.calls[id] != c)
  }

  /** A task at `pc` is going to send `c` nothing through a sender it looked up for somebody. */
  ghost predicate Passes(pc: PC, c: ClientId) {
    match pc
    case Want(sec) => SectionPasses(sec, c)
    case In(sec) => SectionPasses(sec, c)
    case Located(_, w, _) => w != Some(c)
    case Post(letters) => forall x | x in letters :: x.to != c
    case _ => true
  }

  ghost predicate SectionPasses(sec: Section, c: ClientId) {
    match sec
    case PutCall(_, w) => w != Some(c)
    case FindSubs(_, _, _, list) => c !in list
    case _ => true
  }

  /** Where the task of a client that only announces services can be. */
  predicate Announcing(pc: PC) {
    match pc
    case Want(sec) => AnnouncingIn(sec)
    case In(sec) => AnnouncingIn(sec)
    case Idle => true
    case Leaving => true
    case Gone => true
    case _ => false
  }

  predicate AnnouncingIn(sec: Section) {
    sec.Join? || sec.PutService? || sec.DropClient? || sec.DropObjects? || sec.DropSubs? || sec.DropCalls?
    || sec.ReadCalls? || sec.DropServices?
  }

  ghost predicate Unheard(b: Broker, c: ClientId) {
    && (c in b.outs ==> b.outs[c] == []) && Unlisted(b.tb, c)
    && (c in b.pc ==> Announcing(b.pc[c]))
    && forall d | d in b.pc :: Passes(b.pc[d], c)
  }

  lemma EventsPass(tb: Tables, t: Topic, args: Value, nth: nat, list: seq<ClientId>, c: ClientId)
    requires c !in list
    ensures forall x | x in Events(tb, t, args, nth, list) :: x.to != c
  {
  }

  lemma SectionUnheard(tb: Tables, d: ClientId, sec: Section, order: seq<ClientId>, c: ClientId)
    requires Unlisted(tb, c) && SectionPasses(sec, c) && (d == c ==> AnnouncingIn(sec))
    requires sec.ReadSubs? ==> IsListing(order, Subscribers(tb, sec.topic))
    ensures var o := Body(tb, d, sec, order);
            Unlisted(o.tb, c) && Passes(o.pc, c) && (d == c ==> Announcing(o.pc))
  {
    match sec
    case FindSubs(t, args, nth, list) => EventsPass(tb, t, args, nth, list, c);
    case _ =>
  }

  lemma OutsideUnheard(b: Broker, l: Label, c: ClientId)
    requires Unheard(b, c) && Enabled(b, l) && Announces(l, c) && !InSection(b, l)
    ensures Passes(Target(b, l), c) && (l.c == c ==> Announcing(Target(b, l)))
  {
    if l.c in b.pc { assert Passes(b.pc[l.c], c); }
  }

  lemma ChannelUnheard(b: Broker, l: Label, c: ClientId)
    requires Unheard(b, c) && Enabled(b, l)
    ensures c in OutsAfter(b, l) ==> OutsAfter(b, l)[c] == []
  {
    if l.Send? {
      assert Passes(b.pc[l.c], c);
      if b.pc[l.c].Post? { assert b.pc[l.c].letters[0] in b.pc[l.c].letters; }
    }
  }

  lemma UnheardStep(b: Broker, l: Label, c: ClientId)
    requires Unheard(b, c) && Enabled(b, l) && Announces(l, c)
    ensures Unheard(Next(b, l), c)
  {
    ChannelUnheard(b, l, c);
    if InSection(b, l) {
      assert Passes(b.pc[l.c], c);
      SectionUnheard(b.tb, l.c, b.pc[l.c].sec, l.order, c);
    } else {
      OutsideUnheard(b, l, c);
    }
  }

  lemma {:induction false} StaysUnheard(run: seq<Broker>, labels: seq<Label>, c: ClientId)
    requires IsTrace(run, labels) && forall l | l in labels :: Announces(l, c)
    ensures Unheard(run[|labels|], c)
    decreases |labels|
  {
    if labels != [] {
      var n := |labels| - 1;
      assert StepBy(run[n], labels[n], run[n + 1]) && labels[n] in labels;
      StaysUnheard(run[..n + 1], labels[..n], c);
      UnheardStep(run[n], labels[n], c);
    }
  }

  /** Whatever the others do, nothing is ever enqueued to a client that has sent announcements only. */
  lemma AnnouncerHearsNothing(run: seq<Broker>, labels: seq<Label>, c: ClientId)
    requires IsTrace(run, labels) && forall l | l in labels :: Announces(l, c)
    ensures c in run[|labels|].outs ==> run[|labels|].outs[c] == []
  {
    StaysUnheard(run, labels, c);
  }
}
