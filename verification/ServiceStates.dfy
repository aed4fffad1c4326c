/** Service activation at lock grain: single flight, empty queues of running services, and known objects. */
module ServiceStates {
  import opened Rpc
  import opened Activation
  import opened Sections
  import opened LockSteps
  import opened Ownership

  function Count(names: seq<Name>, n: Name): nat {
    multiset(names)[n]
  }

  /** 1 while the service is starting or running. */
  function Up(services: map<Name, ServiceEntry>, n: Name): nat {
    if n in services && services[n].state != Stopped then 1 else 0
  }

  /** From `b` to `b'` a service is started no more often than it is reset, up to whether it is up before and after. */
  ghost predicate Balanced(b: Broker, b': Broker, n: Name) {
    Even(b.hist, b.tb.services, b'.hist, b'.tb.services, n)
  }

  lemma CountAppend(names: seq<Name>, more: seq<Name>, n: Name)
    ensures Count(names + more, n) == Count(names, n) + Count(more, n)
  {
  }

  /** Starts, less resets and whether the service is up, do not increase; nor do resets decrease. */
  ghost predicate Even(h: History, services: map<Name, ServiceEntry>,
                       h': History, services': map<Name, ServiceEntry>, n: Name) {
    && Count(h'.resets, n) >= Count(h.resets, n)
    && Count(h'.starts, n) - Count(h.starts, n)
       <= Count(h'.resets, n) - Count(h.resets, n) + Up(services', n) - Up(services, n)
  }

  lemma SweepBalance(h: History, services: map<Name, ServiceEntry>, c: ClientId, active: set<CallId>, n: Name)
    ensures var owned := Listed(OwnedBy(services, c));
            Even(h, services, h.(resets := h.resets + owned), CleanServices(services, c, active), n)
  {
    var owned := Listed(OwnedBy(services, c));
    CountAppend(h.resets, owned, n);
    if n in services && services[n].owner == Some(c) { assert n in owned; }
  }

  lemma AnnounceBalance(h: History, services: map<Name, ServiceEntry>, c: ClientId, m: Name, sv: Name, n: Name)
    ensures Even(h, services, h.(resets := h.resets + [m]), Announce(services, c, m, sv), n)
  {
    CountAppend(h.resets, [m], n);
  }

  lemma ActivateBalance(h: History, tb: Tables, c: ClientId, call: Invocation, order: seq<ClientId>, n: Name)
    ensures Even(h, tb.services, Worked(h, tb, c, Activate(call)), Body(tb, c, Activate(call), order).tb.services, n)
  {
    var h', services := Worked(h, tb, c, Activate(call)), Body(tb, c, Activate(call), order).tb.services;
    if call.obj in tb.services && tb.services[call.obj].state == Stopped {
      CountAppend(h.starts, [call.obj], n);
      assert Count([call.obj], n) == if n == call.obj then 1 else 0;
    } else {
      assert h' == h && Up(services, n) == Up(tb.services, n);
    }
  }

  lemma SectionBalance(h: History, tb: Tables, c: ClientId, sec: Section, order: seq<ClientId>, n: Name)
    ensures Even(h, tb.services, Worked(h, tb, c, sec), Body(tb, c, sec, order).tb.services, n)
  {
    match sec
    case DropServices(active) => SweepBalance(h, tb.services, c, active, n);
    case PutService(m, sv) => AnnounceBalance(h, tb.services, c, m, sv, n);
    case Activate(call) => ActivateBalance(h, tb, c, call, order, n);
    case _ => OthersKeepUp(h, tb, c, sec, order, n);
  }

  lemma OthersKeepUp(h: History, tb: Tables, c: ClientId, sec: Section, order: seq<ClientId>, n: Name)
    requires !sec.DropServices? && !sec.PutService? && !sec.Activate?
    ensures Worked(h, tb, c, sec).starts == h.starts && Worked(h, tb, c, sec).resets == h.resets
    ensures Up(Body(tb, c, sec, order).tb.services, n) >= Up(tb.services, n)
  {
  }

  lemma {:induction false} StepBalance(b: Broker, b': Broker, n: Name)
    requires Step(b, b')
    ensures Balanced(b, b', n)
  {
    var l :| Enabled(b, l) && b' == Next(b, l);
    if InSection(b, l) { SectionBalance(b.hist, b.tb, l.c, b.pc[l.c].sec, l.order, n); }
  }

  /**
   Single flight: over any segment of any run, a service is started at most once more than it is reset, by a
   `RegisterService` or by its owner's cleanup. So between two starts of one service lies a reset.
   */
  lemma SingleFlight(run: seq<Broker>, i: nat, j: nat, n: Name)
    requires IsRun(run) && i <= j < |run|
    ensures Count(run[j].hist.starts, n) - Count(run[i].hist.starts, n)
            <= Count(run[j].hist.resets, n) - Count(run[i].hist.resets, n) + 1
  {
    var rel := (b: Broker, b': Broker) => Balanced(b, b', n);
    forall b, b' | Step(b, b') ensures rel(b, b') { StepBalance(b, b', n); }
    Segment(rel, run, i, j);
  }

  /** The service is stopped before and starting after. */
  predicate Starts(before: map<Name, ServiceEntry>, after: map<Name, ServiceEntry>, n: Name) {
    n in before && n in after && before[n].state.Stopped? && after[n].state.Starting?
  }

  lemma ActivateStarts(h: History, tb: Tables, c: ClientId, call: Invocation, order: seq<ClientId>, n: Name)
    ensures var services := Body(tb, c, Activate(call), order).tb.services;
            Count(Worked(h, tb, c, Activate(call)).starts, n) ==
            Count(h.starts, n) + (if Starts(tb.services, services, n) then 1 else 0)
  {
    CountAppend(h.starts, [call.obj], n);
    assert Count([call.obj], n) == if n == call.obj then 1 else 0;
  }

  lemma OthersStartNothing(h: History, tb: Tables, c: ClientId, sec: Section, order: seq<ClientId>, n: Name)
    requires !sec.Activate?
    ensures Worked(h, tb, c, sec).starts == h.starts && !Starts(tb.services, Body(tb, c, sec, order).tb.services, n)
  {
  }

  /** The section resets the service: it announces it, or cleans up after its owner. */
  predicate Resets(services: map<Name, ServiceEntry>, c: ClientId, sec: Section, n: Name) {
    || (sec.PutService? && sec.obj == n)
    || (sec.DropServices? && n in services && services[n].owner == Some(c))
  }

  lemma CountIn(names: seq<Name>, n: Name)
    ensures Count(names, n) > 0 <==> n in names
  {
  }

  lemma CleanupResets(h: History, tb: Tables, c: ClientId, active: set<CallId>, n: Name)
    ensures Count(Worked(h, tb, c, DropServices(active)).resets, n) > Count(h.resets, n) <==>
            n in tb.services && tb.services[n].owner == Some(c)
  {
    var owned := Listed(OwnedBy(tb.services, c));
    CountAppend(h.resets, owned, n);
    CountIn(owned, n);
  }

  lemma SectionResets(h: History, tb: Tables, c: ClientId, sec: Section, n: Name)
    ensures Count(Worked(h, tb, c, sec).resets, n) > Count(h.resets, n) <==> Resets(tb.services, c, sec, n)
  {
    match sec
    case DropServices(active) => CleanupResets(h, tb, c, active, n);
    case PutService(m, _) => CountAppend(h.resets, [m], n);
    case _ =>
  }

  /**
   What starts and resets are: a step starts a service exactly if it takes it from stopped to starting, and then once;
   and it resets exactly the service it announces, or those that its leaving client owned.
   */
  lemma StartsAndResets(b: Broker, l: Label, n: Name)
    requires Enabled(b, l)
    ensures Count(Next(b, l).hist.starts, n) ==
            Count(b.hist.starts, n) + (if Starts(b.tb.services, Next(b, l).tb.services, n) then 1 else 0)
    ensures Count(Next(b, l).hist.resets, n) > Count(b.hist.resets, n) <==>
            InSection(b, l) && Resets(b.tb.services, l.c, b.pc[l.c].sec, n)
  {
    if InSection(b, l) {
      var sec := b.pc[l.c].sec;
      SectionResets(b.hist, b.tb, l.c, sec, n);
      if sec.Activate? {
        ActivateStarts(b.hist, b.tb, l.c, sec.call, l.order, n);
      } else {
        OthersStartNothing(b.hist, b.tb, l.c, sec, l.order, n);
      }
    }
  }

  /** A running service has nothing queued. */
  ghost predicate RunningDrained(services: map<Name, ServiceEntry>) {
    forall n | n in services && services[n].state.Running? :: services[n].pending == []
  }

  lemma RunningHasEmptyQueue(b: Broker)
    requires Reachable(b)
    ensures RunningDrained(b.tb.services)
  {
    var run :| IsRun(run) && run[|run| - 1] == b;
    var inv := (x: Broker) => RunningDrained(x.tb.services);
    forall x, l | inv(x) && Enabled(x, l) ensures inv(Next(x, l)) {
      if InSection(x, l) { DrainedSection(x.tb, l.c, x.pc[l.c].sec, l.order); }
    }
    Invariance(inv, run);
  }

  lemma DrainedSection(tb: Tables, c: ClientId, sec: Section, order: seq<ClientId>)
    requires RunningDrained(tb.services)
    ensures RunningDrained(Body(tb, c, sec, order).tb.services)
  {
  }

  /** A call among `packets` names an object that `w` has registered. */
  ghost predicate Known(packets: seq<Packet>, w: ClientId, registered: set<(ClientId, Name)>) {
    forall p | p in packets && p.Req? && p.req.Call? :: (w, p.req.call.obj) in registered
  }

  /** Every call on its way to a worker from this program point names an object that worker has registered. */
  ghost predicate KnownFrom(pc: PC, c: ClientId, registered: set<(ClientId, Name)>) {
    match pc
    case Want(sec) => KnownIn(sec, c, registered)
    case In(sec) => KnownIn(sec, c, registered)
    case Located(call, worker, _) => worker.Some? ==> (worker.value, call.obj) in registered
    case Mine(msgs) => Known(msgs, c, registered)
    case Post(ls) => forall x | x in ls :: Known([x.packet], x.to, registered)
    case _ => true
  }

  ghost predicate KnownIn(sec: Section, c: ClientId, registered: set<(ClientId, Name)>) {
    match sec
    case TakePending(n) => (c, n) in registered
    case FindSelf(msgs) => Known(msgs, c, registered)
    case PutCall(call, worker) => worker.Some? ==> (worker.value, call.obj) in registered
    case _ => true
  }

  ghost predicate OwnersRegistered(objects: map<Name, ClientId>, registered: set<(ClientId, Name)>) {
    forall n | n in objects :: (objects[n], n) in registered
  }

  ghost predicate AllKnown(b: Broker) {
    && Owned(b)
    && OwnersRegistered(b.tb.objects, b.hist.registered)
    && (forall c | c in b.pc :: KnownFrom(b.pc[c], c, b.hist.registered))
    && (forall w, i | w in b.outs && 0 <= i < |b.outs[w]| :: Known([b.outs[w][i].packet], w, b.hist.registered))
  }

  lemma EventsAreNoCalls(tb: Tables, t: Topic, args: Value, nth: nat, list: seq<ClientId>)
    ensures forall x | x in Events(tb, t, args, nth, list) :: x.packet.Resp?
  {
  }

  lemma KnownSection(tb: Tables, c: ClientId, sec: Section, order: seq<ClientId>, h: History)
    requires KnownIn(sec, c, h.registered) && QueuesRight(tb.services, h.issued)
        && OwnersRegistered(tb.objects, h.registered)
    ensures var o, registered := Body(tb, c, sec, order), Worked(h, tb, c, sec).registered;
            KnownFrom(o.pc, c, registered) && OwnersRegistered(o.tb.objects, registered)
  {
    match sec
    case FindSubs(t, args, nth, list) => EventsAreNoCalls(tb, t, args, nth, list);
    case TakePending(n) =>
      if n in tb.services { assert QueueRight(n, tb.services[n].pending, h.issued); }
    case _ =>
  }

  lemma KnownPoints(b: Broker, l: Label)
    requires AllKnown(b) && Enabled(b, l)
    ensures b.hist.registered <= HistoryAfter(b, l).registered
    ensures OwnersRegistered(TablesAfter(b, l).objects, HistoryAfter(b, l).registered)
    ensures var pc := b.pc[l.c := Target(b, l)];
            forall c | c in pc :: KnownFrom(pc[c], c, HistoryAfter(b, l).registered)
  {
    if InSection(b, l) { KnownSection(b.tb, l.c, b.pc[l.c].sec, l.order, b.hist); }
    if l.c in b.pc { assert KnownFrom(b.pc[l.c], l.c, b.hist.registered); }
  }

  lemma {:induction false} AllKnownStep(b: Broker, l: Label)
    requires AllKnown(b) && Enabled(b, l)
    ensures AllKnown(Next(b, l))
  {
    OwnedStep(b, l);
    KnownPoints(b, l);
    var b' := Next(b, l);
    forall w, i | w in b'.outs && 0 <= i < |b'.outs[w]|
      ensures Known([b'.outs[w][i].packet], w, b'.hist.registered)
    {
      if w in b.outs && i < |b.outs[w]| { assert Known([b.outs[w][i].packet], w, b.hist.registered); }
    }
  }

  /** A call is only ever enqueued to a worker that has registered the object the call names. */
  lemma CallsNameRegisteredObjects(b: Broker, w: ClientId, i: nat)
    requires Reachable(b) && w in b.outs && i < |b.outs[w]|
    requires b.outs[w][i].packet.Req? && b.outs[w][i].packet.req.Call?
    ensures (w, b.outs[w][i].packet.req.call.obj) in b.hist.registered
  {
    var run :| IsRun(run) && run[|run| - 1] == b;
    forall x, l | AllKnown(x) && Enabled(x, l) ensures AllKnown(Next(x, l)) { AllKnownStep(x, l); }
    Invariance(AllKnown, run);
    assert Known([b.outs[w][i].packet], w, b.hist.registered);
  }
}
