/** When the tables agree at lock grain: in the states in which every task is idle or has ended. */
module RestStates {
  import opened Rpc
  import opened Activation
  import opened Sections
  import opened LockSteps
  import opened Erasure
  import opened LockFates

  ghost predicate AtRest(b: Broker) {
    forall c | c in b.pc :: b.pc[c] == Idle || b.pc[c] == Gone
  }

  // ---------- everybody in the tables is connected ----------

  /** Owners, subscribers and callers have tasks. */
  ghost predicate Tasked(tb: Tables, tasks: set<ClientId>) {
    && (forall n | n in tb.objects :: tb.objects[n] in tasks)
    && (forall t, c | t in tb.subs && c in tb.subs[t] :: c in tasks)
    && (forall id | id in tb.calls :: tb.calls[id] in tasks)
    && (forall n | n in tb.services && tb.services[n].owner.Some? :: tb.services[n].owner.value in tasks)
  }

  lemma SectionTasked(tb: Tables, c: ClientId, sec: Section, order: seq<ClientId>, tasks: set<ClientId>)
    requires Tasked(tb, tasks) && c in tasks
    ensures Tasked(Body(tb, c, sec, order).tb, tasks)
  {
  }

  lemma TaskedStep(b: Broker, l: Label)
    requires Tasked(b.tb, b.pc.Keys) && Enabled(b, l)
    ensures Tasked(Next(b, l).tb, Next(b, l).pc.Keys)
  {
    if InSection(b, l) { SectionTasked(b.tb, l.c, b.pc[l.c].sec, l.order, b.pc.Keys); }
  }

  lemma AlwaysTasked(b: Broker)
    requires Reachable(b)
    ensures Tasked(b.tb, b.pc.Keys)
  {
    var run :| IsRun(run) && run[|run| - 1] == b;
    var inv := (x: Broker) => Tasked(x.tb, x.pc.Keys);
    forall x, l | inv(x) && Enabled(x, l) ensures inv(Next(x, l)) { TaskedStep(x, l); }
    Invariance(inv, run);
  }

  /** At rest, whoever is in a table is connected. */
  lemma ConnectedAtRest(b: Broker)
    requires Reachable(b) && AtRest(b)
    ensures forall n | n in b.tb.objects :: b.tb.objects[n] in b.tb.clients
    ensures forall t, c | t in b.tb.subs && c in b.tb.subs[t] :: c in b.tb.clients
    ensures forall id | id in b.tb.calls :: b.tb.calls[id] in b.tb.clients
    ensures forall n | n in b.tb.services && b.tb.services[n].owner.Some? ::
              b.tb.services[n].owner.value in b.tb.clients
  {
    AlwaysTasked(b);
    AlwaysConnected(b);
    forall c | c in b.pc && b.pc[c] == Gone ensures NothingLeft(b, c) { DepartedLeavesNothing(b, c); }
  }

  // ---------- who put an object last, and who took its service last ----------

  predicate Puts(b: Broker, l: Label, n: Name) {
    InSection(b, l) && b.pc[l.c].sec == PutObject(n)
  }

  predicate Takes(b: Broker, l: Label, n: Name) {
    InSection(b, l) && b.pc[l.c].sec == TakePending(n) && n in b.tb.services
  }

  /** A call is queued at the service. */
  predicate Queues(b: Broker, l: Label, n: Name) {
    && InSection(b, l) && b.pc[l.c].sec.Activate? && b.pc[l.c].sec.call.obj == n && n in b.tb.services
    && !b.tb.services[n].state.Running?
  }

  function LastPutter(run: seq<Broker>, labels: seq<Label>, n: Name): Option<ClientId>
    requires |run| == |labels| + 1
    decreases |labels|
  {
    if labels == [] then None
    else
      var k := |labels| - 1;
      if Puts(run[k], labels[k], n) then Some(labels[k].c) else LastPutter(run[..k + 1], labels[..k], n)
  }

  function LastTaker(run: seq<Broker>, labels: seq<Label>, n: Name): Option<ClientId>
    requires |run| == |labels| + 1
    decreases |labels|
  {
    if labels == [] then None
    else
      var k := |labels| - 1;
      if Takes(run[k], labels[k], n) then Some(labels[k].c) else LastTaker(run[..k + 1], labels[..k], n)
  }

  /** A call has been queued at the service since it was last taken. */
  predicate QueuedSince(run: seq<Broker>, labels: seq<Label>, n: Name)
    requires |run| == |labels| + 1
    decreases |labels|
  {
    labels != [] &&
    (var k := |labels| - 1;
     Queues(run[k], labels[k], n) || (!Takes(run[k], labels[k], n) && QueuedSince(run[..k + 1], labels[..k], n)))
  }

  /** The object belongs to its last putter, until that one drops its objects. */
  ghost predicate PutterRight(objects: map<Name, ClientId>, pc: map<ClientId, PC>, n: Name, putter: Option<ClientId>) {
    && (n in objects ==> putter == Some(objects[n]))
    && (putter.Some? ==> putter.value in pc && (Phase(pc[putter.value]) < 2 ==> n in objects))
  }

  /** The service belongs to its last taker, until that one has swept it; and its queue is fed by queued calls only. */
  ghost predicate TakerRight(services: map<Name, ServiceEntry>, pc: map<ClientId, PC>, n: Name, taker: Option<ClientId>,
                             since: bool) {
    && (taker.Some? ==> taker.value in pc && n in services)
    && (n in services ==>
          var e := services[n];
          && (e.owner.Some? ==> taker == e.owner)
          && (taker.Some? && pc[taker.value] != Gone ==> e.owner == taker)
          && (!since ==> e.pending == [] && !e.state.Starting?))
  }

  lemma PutterSection(tb: Tables, pc: map<ClientId, PC>, c: ClientId, sec: Section, order: seq<ClientId>, n: Name,
                      putter: Option<ClientId>)
    requires PutterRight(tb.objects, pc, n, putter) && c in pc && pc[c] == In(sec)
    ensures var o := Body(tb, c, sec, order);
            PutterRight(o.tb.objects, pc[c := o.pc], n, if sec == PutObject(n) then Some(c) else putter)
  {
  }

  lemma TakerSection(tb: Tables, pc: map<ClientId, PC>, c: ClientId, sec: Section, order: seq<ClientId>, n: Name,
                     taker: Option<ClientId>, since: bool)
    requires TakerRight(tb.services, pc, n, taker, since) && c in pc && pc[c] == In(sec)
    ensures var o := Body(tb, c, sec, order);
            var takes := sec == TakePending(n) && n in tb.services;
            var queues := sec.Activate? && sec.call.obj == n && n in tb.services && !tb.services[n].state.Running?;
            TakerRight(o.tb.services, pc[c := o.pc], n, if takes then Some(c) else taker, queues || (!takes && since))
  {
    if n in tb.services {
      var o := Body(tb, c, sec, order);
      assert n in o.tb.services;
      if sec.DropServices? { assert o.pc == Gone; } else { assert o.pc != Gone; }
    }
  }

  lemma OutsideRight(b: Broker, l: Label, n: Name, putter: Option<ClientId>, taker: Option<ClientId>, since: bool)
    requires PutterRight(b.tb.objects, b.pc, n, putter) && TakerRight(b.tb.services, b.pc, n, taker, since)
    requires Enabled(b, l) && !InSection(b, l)
    ensures var pc := b.pc[l.c := Target(b, l)];
            PutterRight(b.tb.objects, pc, n, putter) && TakerRight(b.tb.services, pc, n, taker, since)
  {
    if !l.Spawn? { assert b.pc[l.c] != Gone && Phase(Target(b, l)) >= Phase(b.pc[l.c]); }
  }

  lemma {:induction false} HistoryTells(run: seq<Broker>, labels: seq<Label>, n: Name)
    requires IsTrace(run, labels)
    ensures var b := run[|labels|];
            && PutterRight(b.tb.objects, b.pc, n, LastPutter(run, labels, n))
            && TakerRight(b.tb.services, b.pc, n, LastTaker(run, labels, n), QueuedSince(run, labels, n))
    decreases |labels|
  {
    if labels != [] {
      var k := |labels| - 1;
      var b, l, before, done := run[k], labels[k], run[..k + 1], labels[..k];
      assert StepBy(b, l, run[k + 1]);
      TraceFront(run, labels);
      HistoryTells(before, done, n);
      var putter, taker, since := LastPutter(before, done, n), LastTaker(before, done, n), QueuedSince(before, done, n);
      if InSection(b, l) {
        PutterSection(b.tb, b.pc, l.c, b.pc[l.c].sec, l.order, n, putter);
        TakerSection(b.tb, b.pc, l.c, b.pc[l.c].sec, l.order, n, taker, since);
      } else {
        OutsideRight(b, l, n, putter, taker, since);
      }
    }
  }

  lemma TraceFront(run: seq<Broker>, labels: seq<Label>)
    requires IsTrace(run, labels) && labels != []
    ensures IsTrace(run[..|labels|], labels[..|labels| - 1])
  {
    var before, done := run[..|labels|], labels[..|labels| - 1];
    forall i, j | 0 <= i < |done| && j == i + 1 ensures StepBy(before[i], done[i], before[j]) {
      assert StepBy(run[i], labels[i], run[j]);
    }
  }

  // ---------- agreement at rest ----------

  /** The owner of the service owns the object. */
  predicate OwnersMatch(tb: Tables, n: Name) {
    n in tb.services && tb.services[n].owner.Some? ==> n in tb.objects && tb.objects[n] == tb.services[n].owner.value
  }

  /**
   Exactly when the tables agree about the owner of a service at rest: its last taker has left, or was also the last to
   put the object. And with no call queued since it was last taken, nothing is pending and it is not starting.
   */
  lemma {:induction false} AgreementAtRest(run: seq<Broker>, labels: seq<Label>, n: Name)
    requires IsTrace(run, labels) && AtRest(run[|labels|])
    ensures var b, taker := run[|labels|], LastTaker(run, labels, n);
            OwnersMatch(b.tb, n) <==>
              (taker.Some? && taker.value in b.pc && b.pc[taker.value] != Gone ==> LastPutter(run, labels, n) == taker)
    ensures var b := run[|labels|];
            n in b.tb.services && !QueuedSince(run, labels, n) ==>
              b.tb.services[n].pending == [] && !b.tb.services[n].state.Starting?
  {
    HistoryTells(run, labels, n);
    TraceReaches(run, labels, |labels|);
    ConnectedAtRest(run[|labels|]);
    NobodyGone(run[|labels|]);
  }

  /** No table names a task that has ended. */
  lemma NobodyGone(b: Broker)
    requires Reachable(b)
    ensures forall n | n in b.tb.objects && b.tb.objects[n] in b.pc :: b.pc[b.tb.objects[n]] != Gone
    ensures forall n | n in b.tb.services && b.tb.services[n].owner.Some? && b.tb.services[n].owner.value in b.pc ::
              b.pc[b.tb.services[n].owner.value] != Gone
  {
    forall c | c in b.pc && b.pc[c] == Gone ensures NothingLeft(b, c) { DepartedLeavesNothing(b, c); }
  }
}
