/** Nothing is left of a departed client, at lock grain and under any peers with fresh call ids. */
module Erasure {
  import opened Rpc
  import opened Activation
  import opened Sections
  import opened LockSteps
  import opened Ownership

  /** How many parts of `cleanup_client` the task has finished. */
  function Phase(pc: PC): nat {
    match pc
    case Want(sec) => SectionPhase(sec)
    case In(sec) => SectionPhase(sec)
    case Gone => 6
    case _ => 0
  }

  function SectionPhase(sec: Section): nat {
    match sec
    case DropObjects => 1
    case DropSubs => 2
    case DropCalls => 3
    case ReadCalls => 4
    case DropServices(_) => 5
    case _ => 0
  }

  /** No service is owned by, runs on, or queues a call issued by `c`. */
  ghost predicate Forgotten(e: ServiceEntry, c: ClientId, issued: map<CallId, Issue>) {
    && e.owner != Some(c) && e.state != Running(c)
    && forall r | r in e.pending && r.Call? :: r.call.id in issued && issued[r.call.id].caller != c
  }

  /** After `phase` parts of its cleanup, `c` is in none of the tables those parts go over. */
  ghost predicate ErasedUpTo(tb: Tables, issued: map<CallId, Issue>, c: ClientId, phase: nat) {
    && (phase >= 1 ==> c !in tb.clients)
    && (phase >= 2 ==> forall n | n in tb.objects :: tb.objects[n] != c)
    && (phase >= 3 ==> forall t | t in tb.subs :: c !in tb.subs[t])
    && (phase >= 4 ==> forall id | id in tb.calls :: tb.calls[id] != c)
    && (phase >= 6 ==> forall n | n in tb.services :: Forgotten(tb.services[n], c, issued))
  }

  /** The snapshot of active calls that a task cleans the queues with holds no call of its own client. */
  ghost predicate SnapshotForeign(pc: PC, issued: map<CallId, Issue>, c: ClientId) {
    (pc.Want? || pc.In?) && pc.sec.DropServices? ==>
      forall id | id in pc.sec.active :: id in issued && issued[id].caller != c
  }

  ghost predicate RunningOwned(services: map<Name, ServiceEntry>) {
    forall n | n in services && services[n].state.Running? :: services[n].owner == Some(services[n].state.worker)
  }

  ghost predicate Erasing(b: Broker) {
    && Owned(b) && RunningOwned(b.tb.services)
    && forall c | c in b.pc ::
         && ErasedUpTo(b.tb, b.hist.issued, c, Phase(b.pc[c]))
         && SnapshotForeign(b.pc[c], b.hist.issued, c)
  }

  lemma RunningOwnedStep(tb: Tables, c: ClientId, sec: Section, order: seq<ClientId>)
    requires RunningOwned(tb.services)
    ensures RunningOwned(Body(tb, c, sec, order).tb.services)
  {
  }

  lemma ServicesKeepForgotten(
      tb: Tables, d: ClientId, sec: Section, order: seq<ClientId>, issued: map<CallId, Issue>, c: ClientId)
    requires d != c && forall n | n in tb.services :: Forgotten(tb.services[n], c, issued)
    requires sec.Activate? ==> sec.call.id in issued && issued[sec.call.id].caller == d
    ensures var services := Body(tb, d, sec, order).tb.services;
            forall n | n in services :: Forgotten(services[n], c, issued)
  {
    var services := Body(tb, d, sec, order).tb.services;
    forall n | n in services ensures Forgotten(services[n], c, issued) {
      if n in tb.services {
        assert Forgotten(tb.services[n], c, issued);
        if sec.DropServices? { RetainedExactly(tb.services[n].pending, sec.active); }
      }
    }
  }

  /** A critical section of another task puts nothing of `c` back. */
  lemma OthersKeepErased(
      tb: Tables, d: ClientId, sec: Section, order: seq<ClientId>, issued: map<CallId, Issue>, c: ClientId, phase: nat)
    requires d != c && ErasedUpTo(tb, issued, c, phase)
    requires sec.Activate? ==> sec.call.id in issued && issued[sec.call.id].caller == d
    ensures ErasedUpTo(Body(tb, d, sec, order).tb, issued, c, phase)
  {
    if phase >= 6 { ServicesKeepForgotten(tb, d, sec, order, issued, c); }
  }

  /** The last part of the cleanup, given the snapshot of active calls. */
  lemma ServicesForget(services: map<Name, ServiceEntry>, issued: map<CallId, Issue>, c: ClientId, active: set<CallId>)
    requires RunningOwned(services) && forall id | id in active :: id in issued && issued[id].caller != c
    ensures var after := CleanServices(services, c, active); forall n | n in after :: Forgotten(after[n], c, issued)
  {
    forall n | n in services { RetainedExactly(services[n].pending, active); }
  }

  lemma OwnSectionErases(
      tb: Tables, c: ClientId, sec: Section, order: seq<ClientId>, issued: map<CallId, Issue>)
    requires CallersRight(tb.calls, issued) && RunningOwned(tb.services)
    requires ErasedUpTo(tb, issued, c, SectionPhase(sec)) && SnapshotForeign(In(sec), issued, c)
    ensures var o := Body(tb, c, sec, order);
            ErasedUpTo(o.tb, issued, c, Phase(o.pc)) && SnapshotForeign(o.pc, issued, c)
  {
    if sec.DropServices? { ServicesForget(tb.services, issued, c, sec.active); }
  }

  /** Steps outside critical sections change neither tables nor phases, except that a call may be issued. */
  lemma OutsideKeepsErased(b: Broker, l: Label, c: ClientId)
    requires Erasing(b) && Enabled(b, l) && !InSection(b, l) && c in Next(b, l).pc
    ensures ErasedUpTo(b.tb, HistoryAfter(b, l).issued, c, Phase(Next(b, l).pc[c]))
    ensures SnapshotForeign(Next(b, l).pc[c], HistoryAfter(b, l).issued, c)
  {
    IssuedGrows(b, l);
    if c in b.pc {
      assert ErasedUpTo(b.tb, b.hist.issued, c, Phase(b.pc[c])) && SnapshotForeign(b.pc[c], b.hist.issued, c);
      if c == l.c && !l.Lock? { assert Phase(Target(b, l)) == 0; }
    }
  }

  lemma {:induction false} ErasingStep(b: Broker, l: Label)
    requires Erasing(b) && Enabled(b, l)
    ensures Erasing(Next(b, l))
  {
    OwnedStep(b, l);
    var b' := Next(b, l);
    if InSection(b, l) { RunningOwnedStep(b.tb, l.c, b.pc[l.c].sec, l.order); }
    forall c | c in b'.pc
      ensures ErasedUpTo(b'.tb, b'.hist.issued, c, Phase(b'.pc[c])) && SnapshotForeign(b'.pc[c], b'.hist.issued, c)
    {
      if !InSection(b, l) {
        OutsideKeepsErased(b, l, c);
      } else {
        var sec := b.pc[l.c].sec;
        assert ErasedUpTo(b.tb, b.hist.issued, c, Phase(b.pc[c])) && SnapshotForeign(b.pc[c], b.hist.issued, c);
        if c == l.c {
          OwnSectionErases(b.tb, c, sec, l.order, b.hist.issued);
        } else {
          OthersKeepErased(b.tb, l.c, sec, l.order, b.hist.issued, c, Phase(b.pc[c]));
        }
      }
    }
  }

  /** `c` is in no table, and no queue holds a call it issued. */
  ghost predicate NothingLeft(b: Broker, c: ClientId) {
    && c !in b.tb.clients
    && (forall n | n in b.tb.objects :: b.tb.objects[n] != c)
    && (forall t | t in b.tb.subs :: c !in b.tb.subs[t])
    && (forall id | id in b.tb.calls :: b.tb.calls[id] != c)
    && (forall n | n in b.tb.services :: b.tb.services[n].owner != Some(c) && b.tb.services[n].state != Running(c))
    && (forall n, r | n in b.tb.services && r in b.tb.services[n].pending ::
          r.Call? && r.call.id in b.hist.issued && b.hist.issued[r.call.id].caller != c)
  }

  /** In every reachable state, a client whose cleanup has finished occurs in no table. */
  lemma DepartedLeavesNothing(b: Broker, c: ClientId)
    requires Reachable(b) && c in b.pc && b.pc[c] == Gone
    ensures NothingLeft(b, c)
  {
    var run :| IsRun(run) && run[|run| - 1] == b;
    forall x, l | Erasing(x) && Enabled(x, l) ensures Erasing(Next(x, l)) { ErasingStep(x, l); }
    Invariance(Erasing, run);
    assert ErasedUpTo(b.tb, b.hist.issued, c, 6);
    forall n, r | n in b.tb.services && r in b.tb.services[n].pending
      ensures r.Call? && r.call.id in b.hist.issued && b.hist.issued[r.call.id].caller != c
    {
      assert QueueRight(n, b.tb.services[n].pending, b.hist.issued);
      assert Forgotten(b.tb.services[n], c, b.hist.issued);
    }
  }

  /** And none of it ever returns: from the end of its cleanup on, every state of the run is free of the client. */
  lemma NothingReturns(run: seq<Broker>, i: nat, j: nat, c: ClientId)
    requires IsRun(run) && i <= j < |run| && c in run[i].pc && run[i].pc[c] == Gone
    ensures NothingLeft(run[j], c)
  {
    var rel := (b: Broker, b': Broker) => c in b.pc && b.pc[c] == Gone ==> c in b'.pc && b'.pc[c] == Gone;
    Segment(rel, run, i, j);
    var upTo := run[..j + 1];
    assert IsRun(upTo) && upTo[|upTo| - 1] == run[j];
    DepartedLeavesNothing(run[j], c);
  }
}
