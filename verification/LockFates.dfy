/**
 What becomes of a call at lock grain, step by step and exactly; and exactly when the documented lock order is broken.
 */
module LockFates {
  import opened Rpc
  import opened Sections
  import opened LockSteps
  import opened LockOrder
  import opened Ownership
  import opened Erasure

  // ---------- a task is connected until its cleanup ----------

  predicate Joining(pc: PC) {
    pc == Want(Join) || pc == In(Join)
  }

  /** The client of a task is connected from its registration to its cleanup; and a caller finds itself connected. */
  ghost predicate TasksConnected(pc: map<ClientId, PC>, clients: set<ClientId>) {
    forall c | c in pc && !Joining(pc[c]) && Phase(pc[c]) == 0 :: c in clients && (pc[c].Located? ==> pc[c].known)
  }

  lemma SectionConnected(tb: Tables, c: ClientId, sec: Section, order: seq<ClientId>)
    requires sec != Join && SectionPhase(sec) == 0 ==> c in tb.clients
    ensures var o := Body(tb, c, sec, order);
            && (!Joining(o.pc) && Phase(o.pc) == 0 ==> c in o.tb.clients && (o.pc.Located? ==> o.pc.known))
            && (forall d | d != c :: d in o.tb.clients <==> d in tb.clients)
  {
  }

  lemma OutsideConnected(b: Broker, l: Label)
    requires Enabled(b, l) && !InSection(b, l) && !l.Spawn? && !Joining(Target(b, l)) && Phase(Target(b, l)) == 0
    ensures !Joining(b.pc[l.c]) && Phase(b.pc[l.c]) == 0 && (Target(b, l).Located? ==> Target(b, l) == b.pc[l.c])
  {
  }

  lemma ConnectedStep(b: Broker, l: Label)
    requires TasksConnected(b.pc, b.tb.clients) && Enabled(b, l)
    ensures TasksConnected(b.pc[l.c := Target(b, l)], TablesAfter(b, l).clients)
  {
    var pc' := Target(b, l);
    if InSection(b, l) {
      SectionConnected(b.tb, l.c, b.pc[l.c].sec, l.order);
    } else if !l.Spawn? && !Joining(pc') && Phase(pc') == 0 {
      OutsideConnected(b, l);
    }
  }

  lemma AlwaysConnected(b: Broker)
    requires Reachable(b)
    ensures TasksConnected(b.pc, b.tb.clients)
  {
    var run :| IsRun(run) && run[|run| - 1] == b;
    var inv := (x: Broker) => TasksConnected(x.pc, x.tb.clients);
    forall x, l | inv(x) && Enabled(x, l) ensures inv(Next(x, l)) { ConnectedStep(x, l); }
    Invariance(inv, run);
  }

  /** The "Caller disconnected" branch of `handle_call` is never taken: its lookup always finds the caller. */
  lemma CallerNeverDisconnected(b: Broker, c: ClientId)
    requires Reachable(b) && c in b.pc && b.pc[c].Located?
    ensures var pc := b.pc[c];
            pc.known && AfterLookup(pc.call, pc.worker, pc.known) == Want(PutCall(pc.call, pc.worker))
  {
    AlwaysConnected(b);
  }

  // ---------- every message has a channel ----------

  /** Everyone a task at `pc` is going to send to has a task. */
  ghost predicate Reaches(pc: PC, tasks: set<ClientId>) {
    match pc
    case Want(PutCall(_, w)) => w.Some? ==> w.value in tasks
    case In(PutCall(_, w)) => w.Some? ==> w.value in tasks
    case Located(_, w, _) => w.Some? ==> w.value in tasks
    case Post(letters) => forall x | x in letters :: x.to in tasks
    case _ => true
  }

  ghost predicate Addressable(b: Broker) {
    && b.pc.Keys == b.outs.Keys && b.tb.clients <= b.pc.Keys
    && (forall id | id in b.tb.calls :: b.tb.calls[id] in b.pc)
    && (forall c | c in b.pc :: Reaches(b.pc[c], b.pc.Keys))
  }

  lemma SectionReaches(tb: Tables, c: ClientId, sec: Section, order: seq<ClientId>, tasks: set<ClientId>)
    requires c in tasks && tb.clients <= tasks && Reaches(In(sec), tasks)
    requires forall id | id in tb.calls :: tb.calls[id] in tasks
    ensures var o := Body(tb, c, sec, order);
            && Reaches(o.pc, tasks) && o.tb.clients <= tasks && forall id | id in o.tb.calls :: o.tb.calls[id] in tasks
  {
    match sec
    case FindSubs(t, args, nth, list) => EventsReach(tb, t, args, nth, list);
    case _ =>
  }

  lemma OutsideReaches(b: Broker, l: Label, tasks: set<ClientId>)
    requires Enabled(b, l) && !InSection(b, l) && (!l.Spawn? ==> Reaches(b.pc[l.c], tasks))
    ensures Reaches(Target(b, l), tasks)
  {
  }

  lemma AddressableStep(b: Broker, l: Label)
    requires Addressable(b) && Enabled(b, l)
    ensures Addressable(Next(b, l))
  {
    var b' := Next(b, l);
    var tasks := b'.pc.Keys;
    assert b.pc.Keys <= tasks;
    forall c | c in b.pc ensures Reaches(b.pc[c], tasks) { assert Reaches(b.pc[c], b.pc.Keys); }
    if InSection(b, l) {
      SectionReaches(b.tb, l.c, b.pc[l.c].sec, l.order, tasks);
    } else {
      OutsideReaches(b, l, tasks);
    }
  }

  /** A message is lost exactly when the task of its addressee has ended; otherwise it is the next on that channel. */
  lemma MessageEnqueued(b: Broker, c: ClientId)
    requires Reachable(b) && Enabled(b, Send(c))
    ensures var m := Outgoing(b, c);
            && m.to in b.pc && m.to in b.outs
            && Next(b, Send(c)).outs ==
                 if b.pc[m.to] == Gone then b.outs else b.outs[m.to := b.outs[m.to] + [Entry(c, m.nth, m.packet)]]
  {
    var run :| IsRun(run) && run[|run| - 1] == b;
    forall x, l | Addressable(x) && Enabled(x, l) ensures Addressable(Next(x, l)) { AddressableStep(x, l); }
    Invariance(Addressable, run);
    assert Reaches(b.pc[c], b.pc.Keys);
    if b.pc[c].Post? { assert b.pc[c].letters[0] in b.pc[c].letters; }
  }

  // ---------- the fate of a call ----------

  /** One step on, the call is still being handled, or on its way to a worker, or last in its queue, or refused. */
  ghost predicate Cared(b: Broker, b': Broker, c: ClientId, call: Invocation)
    requires c in b'.pc
  {
    || CallOf(b'.pc[c]) == Some(call)
    || (exists w :: b'.pc[c] == Post([Letter(w, Req(Call(call)), 0)]))
    || (&& call.obj in b.tb.services && call.obj in b'.tb.services
        && b'.tb.services[call.obj].pending == b.tb.services[call.obj].pending + [Call(call)])
    || (c in b.outs && c in b'.outs && b'.outs[c] == b.outs[c] + [Entry(c, 0, NoSuchObject(call))])
  }

  /** The `_ => {}` arm: the lookup found no worker, and now the service is running. */
  predicate Overtaken(b: Broker, l: Label, c: ClientId, call: Invocation) {
    && l.Work? && l.c == c && c in b.pc && b.pc[c] == In(Activate(call))
    && call.obj in b.tb.services && b.tb.services[call.obj].state.Running?
  }

  lemma SectionCares(tb: Tables, c: ClientId, sec: Section, order: seq<ClientId>, call: Invocation)
    requires CallOf(In(sec)) == Some(call) && c in tb.clients
    ensures var o := Body(tb, c, sec, order);
            || CallOf(o.pc) == Some(call)
            || (exists w :: o.pc == Post([Letter(w, Req(Call(call)), 0)]))
            || (&& sec == Activate(call) && call.obj in tb.services
                && if tb.services[call.obj].state.Running? then o == Outcome(tb, Idle)
                   else && call.obj in o.tb.services
                        && o.tb.services[call.obj].pending == tb.services[call.obj].pending + [Call(call)])
  {
    match sec
    case PutCall(_, w) =>
      if w.Some? { assert Body(tb, c, sec, order).pc == Post([Letter(w.value, Req(Call(call)), 0)]); }
    case _ =>
  }

  lemma OwnStepCares(b: Broker, l: Label, call: Invocation)
    requires Enabled(b, l) && !InSection(b, l) && l.c in b.pc && CallOf(b.pc[l.c]) == Some(call)
    requires l.c in b.outs && (b.pc[l.c].Located? ==> b.pc[l.c].known)
    ensures Cared(b, Next(b, l), l.c, call)
  {
    if l.Send? {
      assert b.pc[l.c] == Refuse(call);
      assert Next(b, l).outs[l.c] == b.outs[l.c] + [Entry(l.c, 0, NoSuchObject(call))];
    }
  }

  /**
   Exactly when a call is dropped: the one step after which nobody cares for it any more is the activation that finds
   the service running although the lookup found no worker. Every other step, of any task, keeps it.
   */
  lemma CallDroppedExactly(b: Broker, l: Label, c: ClientId, call: Invocation)
    requires Reachable(b) && Enabled(b, l) && c in b.pc && CallOf(b.pc[c]) == Some(call)
    ensures !Cared(b, Next(b, l), c, call) <==> Overtaken(b, l, c, call)
  {
    AlwaysConnected(b);
    SameTasks(b);
    if l.c == c {
      if InSection(b, l) {
        SectionCares(b.tb, c, b.pc[c].sec, l.order, call);
      } else {
        OwnStepCares(b, l, call);
      }
    }
  }

  lemma SameTasks(b: Broker)
    requires Reachable(b)
    ensures b.pc.Keys == b.outs.Keys
  {
    var run :| IsRun(run) && run[|run| - 1] == b;
    var inv := (x: Broker) => x.pc.Keys == x.outs.Keys;
    Invariance(inv, run);
  }

  // ---------- leaving a queue ----------

  /** The section takes the call off the queue of `n`: a registration's flush, or a sweep. */
  predicate TakesOff(tb: Tables, c: ClientId, sec: Section, n: Name, call: Invocation)
    requires n in tb.services
  {
    sec == TakePending(n) || (sec.DropServices? && (tb.services[n].owner == Some(c) || call.id !in sec.active))
  }

  lemma SectionLeaves(tb: Tables, c: ClientId, sec: Section, order: seq<ClientId>, n: Name, call: Invocation)
    requires n in tb.services && Call(call) in tb.services[n].pending
    ensures var o := Body(tb, c, sec, order);
            && n in o.tb.services
            && (Call(call) !in o.tb.services[n].pending <==> TakesOff(tb, c, sec, n, call))
            && (sec == TakePending(n) ==> Req(Call(call)) in OwnMessages(o.pc))
  {
    var pending := tb.services[n].pending;
    if sec.DropServices? { RetainedExactly(pending, sec.active); }
    if sec == TakePending(n) {
      var i :| 0 <= i < |pending| && pending[i] == Call(call);
      assert (Requests(pending) + [Resp(Registered(n))])[i] == Req(Call(call));
    }
  }

  /**
   Exactly when a queued call leaves its queue in one step: a client registers the object, and then the call is among
   the messages its task goes on to send it; or a cleanup sweeps the services, and its client owns this one or its
   snapshot of active calls does not have the call.
   */
  lemma QueuedCallLeaves(b: Broker, l: Label, n: Name, call: Invocation)
    requires Enabled(b, l) && n in b.tb.services && Call(call) in b.tb.services[n].pending
    ensures n in Next(b, l).tb.services
    ensures Call(call) !in Next(b, l).tb.services[n].pending <==>
            InSection(b, l) && TakesOff(b.tb, l.c, b.pc[l.c].sec, n, call)
    ensures InSection(b, l) && b.pc[l.c].sec == TakePending(n) ==> Req(Call(call)) in OwnMessages(Next(b, l).pc[l.c])
  {
    if InSection(b, l) { SectionLeaves(b.tb, l.c, b.pc[l.c].sec, l.order, n, call); }
  }

  // ---------- the documented lock order ----------

  /** The order of the comment: clients, objects, subscriptions, calls, services. */
  function DocumentedRank(m: Mutex): nat {
    match m
    case MClients => 0
    case MObjects => 1
    case MSubs => 2
    case MCalls => 3
    case MServices => 4
  }

  /** The task waits for a mutex that the comment orders before one it holds. */
  ghost predicate BreaksOrder(pc: PC) {
    pc.Want? && exists m :: m in Holds(pc) && DocumentedRank(m) >= DocumentedRank(MutexOf(pc.sec))
  }

  lemma BreaksAt(pc: PC)
    ensures BreaksOrder(pc) <==> pc.Want? && pc.sec.FindRefused?
  {
    if pc.Want? && pc.sec.FindRefused? { assert MServices in Holds(pc); }
  }

  /** While a task refuses a call, it holds `services`, and its object is no service. */
  ghost predicate RefusalsRight(b: Broker) {
    LocksAgree(b) && forall c | c in b.pc && Refusing(b.pc[c]) :: CallOf(b.pc[c]).value.obj !in b.tb.services
  }

  predicate Refusing(pc: PC) {
    pc.Refuse? || ((pc.Want? || pc.In?) && pc.sec.FindRefused?)
  }

  lemma ServicesGuarded(tb: Tables, c: ClientId, sec: Section, order: seq<ClientId>)
    requires MutexOf(sec) != MServices
    ensures Body(tb, c, sec, order).tb.services == tb.services
  {
  }

  lemma RefusalStarts(b: Broker, l: Label)
    requires Enabled(b, l) && Refusing(Target(b, l))
    ensures l.c in b.pc
    ensures if InSection(b, l) && b.pc[l.c].sec.Activate?
            then var call := b.pc[l.c].sec.call; Target(b, l) == Want(FindRefused(call)) && call.obj !in b.tb.services
            else Refusing(b.pc[l.c]) && CallOf(b.pc[l.c]) == CallOf(Target(b, l))
  {
  }

  lemma OwnRefusal(b: Broker, l: Label)
    requires RefusalsRight(b) && Enabled(b, l) && Refusing(Target(b, l))
    ensures CallOf(Target(b, l)).value.obj !in TablesAfter(b, l).services
  {
    RefusalStarts(b, l);
    if InSection(b, l) {
      var sec := b.pc[l.c].sec;
      if sec.Activate? {
        assert Body(b.tb, l.c, sec, l.order).tb == b.tb;
      } else {
        assert sec.FindRefused?;
        ServicesGuarded(b.tb, l.c, sec, l.order);
      }
    }
  }

  /** A task in another section of `services` would hold it too. */
  lemma OthersRefusal(b: Broker, l: Label, c: ClientId)
    requires RefusalsRight(b) && Enabled(b, l) && c != l.c && c in b.pc && Refusing(b.pc[c])
    ensures CallOf(b.pc[c]).value.obj !in TablesAfter(b, l).services
  {
    assert MServices in Holds(b.pc[c]);
    assert b.locks[MServices] == c;
    if InSection(b, l) {
      assert MutexOf(b.pc[l.c].sec) in Holds(b.pc[l.c]);
      assert b.locks[MutexOf(b.pc[l.c].sec)] == l.c;
      ServicesGuarded(b.tb, l.c, b.pc[l.c].sec, l.order);
    }
  }

  lemma RefusalsStep(b: Broker, l: Label)
    requires RefusalsRight(b) && Enabled(b, l)
    ensures RefusalsRight(Next(b, l))
  {
    StepAgrees(b, l);
    var b' := Next(b, l);
    forall c | c in b'.pc && Refusing(b'.pc[c]) ensures CallOf(b'.pc[c]).value.obj !in b'.tb.services {
      if c == l.c { OwnRefusal(b, l); } else { OthersRefusal(b, l, c); }
    }
  }

  /**
   Exactly which tasks break the documented order: those about to look up the sender for a refusal. Such a task holds
   `services`, and the object of its call is no service.
   */
  lemma DocumentedOrderExactly(b: Broker, c: ClientId)
    requires Reachable(b) && c in b.pc
    ensures BreaksOrder(b.pc[c]) <==> b.pc[c].Want? && b.pc[c].sec.FindRefused?
    ensures BreaksOrder(b.pc[c]) ==>
              MServices in b.locks && b.locks[MServices] == c && b.pc[c].sec.call.obj !in b.tb.services
  {
    var run :| IsRun(run) && run[|run| - 1] == b;
    forall x, l | RefusalsRight(x) && Enabled(x, l) ensures RefusalsRight(Next(x, l)) { RefusalsStep(x, l); }
    Invariance(RefusalsRight, run);
    BreaksAt(b.pc[c]);
    if BreaksOrder(b.pc[c]) { assert MServices in Holds(b.pc[c]); }
  }

  /**
   The guards that lead a task there: the activation finds that the object is no service; it comes only after a lookup
   that found no owner, or one whose sender is gone.
   */
  lemma OrderBrokenFor(b: Broker, l: Label, call: Invocation)
    requires Enabled(b, l)
    ensures BreaksOrder(Target(b, l)) && CallOf(Target(b, l)) == Some(call) <==>
            InSection(b, l) && b.pc[l.c].sec == Activate(call) && call.obj !in b.tb.services
    ensures Target(b, l) == Want(Activate(call)) <==> InSection(b, l) && b.pc[l.c].sec == PutCall(call, None)
    ensures Target(b, l) == Want(PutCall(call, None)) <==> l.Work? && b.pc[l.c] == Located(call, None, true)
    ensures Target(b, l).Located? && Target(b, l).call == call && Target(b, l).worker.None? <==>
            InSection(b, l) && b.pc[l.c].sec == FindWorker(call)
            && !(call.obj in b.tb.objects && b.tb.objects[call.obj] in b.tb.clients)
  {
    BreaksAt(Target(b, l));
  }
}
