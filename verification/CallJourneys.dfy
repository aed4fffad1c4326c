/** The journey of a call at lock grain, over whole runs and under any peers, until it arrives or is lost. */
module CallJourneys {
  import opened Rpc
  import opened Sections
  import opened LockSteps
  import opened Ownership
  import opened LockFates

  /** A task has the call in its hands: in its handler, in a flush to its own client, or in a letter to a worker. */
  ghost predicate Carrying(pc: PC, call: Invocation) {
    CallOf(pc) == Some(call) || Req(Call(call)) in OwnMessages(pc) || Posted(pc, call)
  }

  ghost predicate Posted(pc: PC, call: Invocation) {
    pc.Post? && exists x :: x in pc.letters && x.packet == Req(Call(call))
  }

  predicate Queued(b: Broker, n: Name, call: Invocation) {
    n in b.tb.services && Call(call) in b.tb.services[n].pending
  }

  /** Entry `i` on the channel of `d` is the call, or its refusal if `d` is the caller. */
  predicate Arrived(b: Broker, d: ClientId, i: nat, call: Invocation) {
    && d in b.outs && i < |b.outs[d]|
    && (b.outs[d][i].packet == Req(Call(call)) ||
        (b.outs[d][i].packet == NoSuchObject(call)
         && call.id in b.hist.issued && b.hist.issued[call.id].caller == d))
  }

  /** The call is in somebody's hands, in a queue, or on a channel. */
  ghost predicate Somewhere(b: Broker, call: Invocation) {
    || (exists c :: c in b.pc && Carrying(b.pc[c], call))
    || (exists n :: Queued(b, n, call))
    || (exists d, i: nat :: Arrived(b, d, i, call))
  }

  /** A sweep takes the call off the queue of `n`. */
  predicate Swept(b: Broker, l: Label, n: Name, call: Invocation) {
    Queued(b, n, call) && InSection(b, l) && b.pc[l.c].sec.DropServices? && TakesOff(b.tb, l.c, b.pc[l.c].sec, n, call)
  }

  /** The call is posted to a task that has ended. */
  ghost predicate PostedToNobody(b: Broker, l: Label, call: Invocation) {
    && l.Send? && Enabled(b, l) && b.pc[l.c].Post?
    && var m := Outgoing(b, l.c);
       m.packet == Req(Call(call)) && m.to in b.pc && b.pc[m.to] == Gone
  }

  /** The three ways to lose a call. */
  ghost predicate Loses(b: Broker, l: Label, call: Invocation) {
    Overtaken(b, l, l.c, call) || (exists n :: Swept(b, l, n, call)) || PostedToNobody(b, l, call)
  }

  // ---------- one step ----------

  lemma HandlerGoesOn(b: Broker, l: Label, call: Invocation)
    requires Reachable(b) && Enabled(b, l) && l.c in b.pc && CallOf(b.pc[l.c]) == Some(call) && Owned(b)
    ensures Somewhere(Next(b, l), call) || Loses(b, l, call)
  {
    CallDroppedExactly(b, l, l.c, call);
    var b' := Next(b, l);
    if Cared(b, b', l.c, call) {
      if CallOf(b'.pc[l.c]) == Some(call) {
        assert Carrying(b'.pc[l.c], call);
      } else if w :| b'.pc[l.c] == Post([Letter(w, Req(Call(call)), 0)]) {
        assert Letter(w, Req(Call(call)), 0) in b'.pc[l.c].letters;
        assert Carrying(b'.pc[l.c], call);
      } else if l.c in b.outs && l.c in b'.outs && b'.outs[l.c] == b.outs[l.c] + [Entry(l.c, 0, NoSuchObject(call))] {
        IssuedGrows(b, l);
        assert Arrived(b', l.c, |b.outs[l.c]|, call);
      } else {
        assert Queued(b', call.obj, call);
      }
    }
  }

  /** A flushed call is never skipped: the lookup of a task's own sender always succeeds. */
  lemma OwnSenderFound(b: Broker, c: ClientId, order: seq<ClientId>)
    requires Reachable(b) && c in b.pc && b.pc[c].In? && b.pc[c].sec.FindSelf? && b.pc[c].sec.msgs != []
    ensures Body(b.tb, c, b.pc[c].sec, order).pc == Mine(b.pc[c].sec.msgs)
  {
    AlwaysConnected(b);
  }

  lemma FlushGoesOn(b: Broker, l: Label, call: Invocation)
    requires Reachable(b) && Enabled(b, l) && l.c in b.pc && Req(Call(call)) in OwnMessages(b.pc[l.c])
    ensures Somewhere(Next(b, l), call)
  {
    var b', p := Next(b, l), Req(Call(call));
    if l.Send? {
      MessageEnqueued(b, l.c);
      if b.pc[l.c].msgs[0] == p {
        assert Arrived(b', l.c, |b.outs[l.c]|, call);
      } else {
        assert p in b.pc[l.c].msgs[1..];
        assert Carrying(b'.pc[l.c], call);
      }
    } else {
      if l.Work? { OwnSenderFound(b, l.c, l.order); }
      assert Carrying(b'.pc[l.c], call);
    }
  }

  lemma LetterGoesOn(b: Broker, l: Label, call: Invocation)
    requires Reachable(b) && Enabled(b, l) && l.c in b.pc && Posted(b.pc[l.c], call)
    ensures Somewhere(Next(b, l), call) || Loses(b, l, call)
  {
    var b', letters := Next(b, l), b.pc[l.c].letters;
    var x :| x in letters && x.packet == Req(Call(call));
    MessageEnqueued(b, l.c);
    if letters[0].packet == Req(Call(call)) {
      var to := letters[0].to;
      if b.pc[to] == Gone { assert PostedToNobody(b, l, call); } else { assert Arrived(b', to, |b.outs[to]|, call); }
    } else {
      assert x in letters[1..];
      assert Carrying(b'.pc[l.c], call);
    }
  }

  lemma QueueGoesOn(b: Broker, l: Label, n: Name, call: Invocation)
    requires Enabled(b, l) && Queued(b, n, call)
    ensures Somewhere(Next(b, l), call) || Loses(b, l, call)
  {
    QueuedCallLeaves(b, l, n, call);
    var b' := Next(b, l);
    if Call(call) in b'.tb.services[n].pending {
      assert Queued(b', n, call);
    } else if b.pc[l.c].sec == TakePending(n) {
      assert Carrying(b'.pc[l.c], call);
    } else {
      assert Swept(b, l, n, call);
    }
  }

  lemma ChannelGoesOn(b: Broker, l: Label, d: ClientId, i: nat, call: Invocation)
    requires Enabled(b, l) && Arrived(b, d, i, call)
    ensures Arrived(Next(b, l), d, i, call)
  {
    ChannelOnlyGrows(b, l, d);
    IssuedGrows(b, l);
  }

  lemma CallGoesOn(b: Broker, l: Label, call: Invocation)
    requires Reachable(b) && Owned(b) && Enabled(b, l) && Somewhere(b, call)
    ensures Somewhere(Next(b, l), call) || Loses(b, l, call)
  {
    if c :| c in b.pc && Carrying(b.pc[c], call) {
      if c != l.c {
        assert Carrying(Next(b, l).pc[c], call);
      } else if CallOf(b.pc[c]) == Some(call) {
        HandlerGoesOn(b, l, call);
      } else if Req(Call(call)) in OwnMessages(b.pc[c]) {
        FlushGoesOn(b, l, call);
      } else {
        LetterGoesOn(b, l, call);
      }
    } else if n :| Queued(b, n, call) {
      QueueGoesOn(b, l, n, call);
    } else {
      var d, i: nat :| Arrived(b, d, i, call);
      ChannelGoesOn(b, l, d, i, call);
    }
  }

  // ---------- whole runs ----------

  lemma AlwaysOwned(b: Broker)
    requires Reachable(b)
    ensures Owned(b)
  {
    var run :| IsRun(run) && run[|run| - 1] == b;
    forall x, l | Owned(x) && Enabled(x, l) ensures Owned(Next(x, l)) { OwnedStep(x, l); }
    Invariance(Owned, run);
  }

  /** One of the steps from `i` up to `j` loses the call. */
  ghost predicate LostBetween(run: seq<Broker>, labels: seq<Label>, i: nat, j: nat, call: Invocation) {
    exists k :: i <= k < j && k < |labels| && k < |run| && Loses(run[k], labels[k], call)
  }

  /**
   From the step at which the broker receives a call on: in every later state of the run the call is in a handler, in a
   flush or letter on its way, in a queue, or on a channel (or its refusal is on the caller's), unless one of the steps
   in between was one of the three that lose it.
   */
  lemma {:induction false} CallAccountedFor(run: seq<Broker>, labels: seq<Label>, i: nat, j: nat, call: Invocation)
    requires IsTrace(run, labels) && i < j < |run|
    requires labels[i].Recv? && labels[i].packet == Req(Call(call))
    ensures Somewhere(run[j], call) || LostBetween(run, labels, i, j, call)
    decreases j
  {
    assert StepBy(run[j - 1], labels[j - 1], run[j]);
    if j == i + 1 {
      CallReceived(run[i], labels[i], call);
    } else {
      CallAccountedFor(run, labels, i, j - 1, call);
      if Somewhere(run[j - 1], call) {
        TraceReaches(run, labels, j - 1);
        StepAccountsFor(run[j - 1], labels[j - 1], run[j], call);
      }
      LostLater(run, labels, i, j, call);
    }
  }

  lemma CallReceived(b: Broker, l: Label, call: Invocation)
    requires Enabled(b, l) && l.Recv? && l.packet == Req(Call(call))
    ensures Somewhere(Next(b, l), call)
  {
    assert Carrying(Next(b, l).pc[l.c], call);
  }

  lemma StepAccountsFor(b: Broker, l: Label, b': Broker, call: Invocation)
    requires Reachable(b) && StepBy(b, l, b') && Somewhere(b, call)
    ensures Somewhere(b', call) || Loses(b, l, call)
  {
    AlwaysOwned(b);
    CallGoesOn(b, l, call);
  }

  lemma LostLater(run: seq<Broker>, labels: seq<Label>, i: nat, j: nat, call: Invocation)
    requires i + 1 < j <= |labels| < |run|
    ensures LostBetween(run, labels, i, j - 1, call) || Loses(run[j - 1], labels[j - 1], call) ==>
              LostBetween(run, labels, i, j, call)
  {
    if k :| i <= k < j - 1 && k < |labels| && k < |run| && Loses(run[k], labels[k], call) {
      assert LostBetween(run, labels, i, j, call);
    }
  }
}
