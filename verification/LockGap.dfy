/**
 What holds for atomic handlers fails at lock grain: three runs in which a call of a connected client is lost, and one
 after which the tables disagree although every task is at rest.
 */
module LockGap {
  import opened Rpc
  import opened Activation
  import opened Sections
  import opened LockSteps
  import opened Solo
  import H = Hub
  import S = SoloRuns

  lemma ReachStep(b: Broker, l: Label)
    requires Reachable(b) && Enabled(b, l)
    ensures Reachable(Next(b, l))
  {
    var run :| IsRun(run) && run[|run| - 1] == b;
    assert Step(b, Next(b, l));
    assert IsRun(run + [Next(b, l)]);
    assert (run + [Next(b, l)])[|run|] == Next(b, l);
  }

  lemma ReachOwnStep(b: Broker, b': Broker, c: ClientId)
    requires Reachable(b) && OwnStep(b, b', c)
    ensures Reachable(b') && b'.hist.issued == b.hist.issued
  {
    var l: Label :| l.c == c && (l.Lock? || l.Work? || l.Send?) && Enabled(b, l) && b' == Next(b, l);
    ReachStep(b, l);
  }

  lemma ReachAlone(run: seq<Broker>, c: ClientId)
    requires IsSoloRun(run, c) && Reachable(run[0])
    ensures Reachable(run[|run| - 1]) && run[|run| - 1].hist.issued == run[0].hist.issued
  {
    var inv := (b: Broker) => Reachable(b) && b.hist.issued == run[0].hist.issued;
    forall b, b' | inv(b) && OwnStep(b, b', c) ensures inv(b') { ReachOwnStep(b, b', c); }
    SoloInvariance(inv, run, c);
  }

  lemma Reached(b: Broker, b': Broker, c: ClientId)
    requires Reachable(b) && Alone(b, b', c)
    ensures Reachable(b') && b'.hist.issued == b.hist.issued
  {
    var run :| IsSoloRun(run, c) && run[0] == b && run[|run| - 1] == b';
    ReachAlone(run, c);
  }

  /** A client connects. */
  lemma Joins(b: Broker, c: ClientId) returns (b': Broker)
    requires Reachable(b) && b.locks == map[] && c !in b.pc && c !in b.outs
    ensures Reachable(b') && b'.locks == map[] && b'.pc == b.pc[c := Idle] && b'.outs == b.outs[c := []]
    ensures b'.tb == b.tb.(clients := b.tb.clients + {c}) && b'.hist.issued == b.hist.issued
  {
    var b1 := Next(b, Spawn(c));
    ReachStep(b, Spawn(c));
    assert b1.locks == map[] && b1.pc == b.pc[c := Want(Join)];
    Nothing(b1, c);
    b' := Enter(b1, b1, c, b.tb, b.pc, Join, [], b1.outs);
    Reached(b1, b', c);
  }

  lemma Receives(b: Broker, c: ClientId, p: Packet) returns (b': Broker)
    requires Reachable(b) && b.locks == map[] && c in b.pc && b.pc[c] == Idle && Enabled(b, Recv(c, p))
    requires !(p.Req? && p.req.Publish?)
    ensures Reachable(b') && b'.locks == map[] && b'.pc == b.pc[c := Dispatch(p, 0)] && b'.outs == b.outs
        && b'.tb == b.tb
    ensures b'.hist == Received(b.hist, c, p)
  {
    b' := Next(b, Recv(c, p));
    ReachStep(b, Recv(c, p));
  }

  /** The call has been handled, and is recorded, but is in no queue, and no channel holds it or a reply to it. */
  ghost predicate Dropped(b: Broker, c: ClientId, call: Invocation) {
    && c in b.pc && b.pc[c] == Idle && call.id in b.tb.calls && b.tb.calls[call.id] == c
    && (forall n | n in b.tb.services :: b.tb.services[n].pending == [])
    && (forall d, i | d in b.outs && 0 <= i < |b.outs[d]| ::
          && (b.outs[d][i].packet.Req? ==> !b.outs[d][i].packet.req.Call?)
          && (b.outs[d][i].packet.Resp? ==> ReplyTo(b.outs[d][i].packet.resp).None?))
  }

  /** A call whose lookup found no worker is recorded. */
  lemma RecordsCall(b: Broker, x: ClientId, call: Invocation) returns (b': Broker)
    requires b.locks == map[] && x in b.pc && b.pc[x] == Want(PutCall(call, None))
    ensures var tb1 := b.tb.(calls := b.tb.calls[call.id := x]);
            Alone(b, b', x) && Stands(b', x, tb1, b.pc, Want(Activate(call)), FREE, b.outs)
  {
    Nothing(b, x);
    assert b.pc == b.pc[x := b.pc[x]];
    b' := Enter(b, b, x, b.tb, b.pc, PutCall(call, None), [], b.outs);
  }

  /** The caller's second half: record the call, and find the service running. */
  lemma DropsCall(b: Broker, x: ClientId, call: Invocation) returns (b': Broker)
    requires Reachable(b) && b.locks == map[] && x in b.pc && b.pc[x] == Want(PutCall(call, None))
    requires call.obj in b.tb.services && b.tb.services[call.obj].state.Running?
    ensures Reachable(b') && b'.outs == b.outs && b'.pc == b.pc[x := Idle]
    ensures b'.tb == b.tb.(calls := b.tb.calls[call.id := x])
  {
    var b1 := RecordsCall(b, x, call);
    var tb1 := b.tb.(calls := b.tb.calls[call.id := x]);
    b' := Enter(b, b1, x, tb1, b.pc, Activate(call), [], b.outs);
    Reached(b, b', x);
  }

  /** One more message, on the channel of `w`. */
  ghost predicate GotOne(outs: map<ClientId, seq<Entry>>, outs': map<ClientId, seq<Entry>>, w: ClientId, p: Packet) {
    forall d | d in outs' :: d in outs && Packets(outs'[d]) == Packets(outs[d]) + (if d == w then [p] else [])
  }

  /** One registration is all that has been enqueued. */
  lemma OnlyRegistered(outs: map<ClientId, seq<Entry>>, outs': map<ClientId, seq<Entry>>, w: ClientId, n: Name)
    requires forall d | d in outs :: outs[d] == []
    requires GotOne(outs, outs', w, Resp(Registered(n)))
    ensures forall d, i | d in outs' && 0 <= i < |outs'[d]| :: outs'[d][i].packet == Resp(Registered(n))
  {
    forall d, i | d in outs' && 0 <= i < |outs'[d]| ensures outs'[d][i].packet == Resp(Registered(n)) {
      assert Packets(outs[d]) == [] && Packets(outs'[d])[i] == outs'[d][i].packet;
    }
  }

  function RegisteredTables(tb: Tables, w: ClientId, n: Name): Tables
    requires n in tb.services
  {
    tb.(objects := tb.objects[n := w], services := tb.services[n := Register(tb.services[n], w)])
  }

  /** The worker registers the object meanwhile. */
  lemma Registers(b: Broker, w: ClientId, n: Name) returns (b': Broker)
    requires Reachable(b) && Ready(b, w) && b.pc[w] == Idle
    requires n in b.tb.services && b.tb.services[n].pending == []
    ensures Reachable(b') && b'.locks == map[] && b'.pc == b.pc[w := Idle] && b'.outs.Keys == b.outs.Keys
    ensures b'.tb == RegisteredTables(b.tb, w, n) && b'.hist.issued == b.hist.issued
    ensures GotOne(b.outs, b'.outs, w, Resp(Registered(n)))
  {
    var b1 := Receives(b, w, Req(RegisterObject(n)));
    assert Ready(b1, w) && b1.pc[w] == Dispatch(Req(RegisterObject(n)), 0) && b1.hist.issued == b.hist.issued;
    b' := RegistersAlone(b1, w, n);
    Reached(b1, b', w);
    assert b'.pc == b.pc[w := Idle];
  }

  lemma RegistersAlone(b: Broker, w: ClientId, n: Name) returns (b': Broker)
    requires Ready(b, w) && b.pc[w] == Dispatch(Req(RegisterObject(n)), 0)
    requires n in b.tb.services && b.tb.services[n].pending == []
    ensures Alone(b, b', w) && b'.locks == map[] && b'.pc == b.pc[w := Idle]
    ensures b'.tb == RegisteredTables(b.tb, w, n) && b'.outs.Keys == b.outs.Keys
    ensures GotOne(b.outs, b'.outs, w, Resp(Registered(n)))
  {
    b' := S.HandlerAlone(b, w, Req(RegisterObject(n)), 0);
    assert Requests([]) + [Resp(Registered(n))] == [Resp(Registered(n))];
    SeenTold(b.outs, b'.outs, w, Resp(Registered(n)));
  }

  lemma SeenTold(outs: map<ClientId, seq<Entry>>, outs': map<ClientId, seq<Entry>>, w: ClientId, p: Packet)
    requires w in outs && Seen(outs') == Seen(outs)[w := Seen(outs)[w] + [p]]
    ensures outs'.Keys == outs.Keys && GotOne(outs, outs', w, p)
  {
    assert outs'.Keys == Seen(outs').Keys && outs.Keys == Seen(outs).Keys;
    forall d | d in outs' ensures Packets(outs'[d]) == Packets(outs[d]) + (if d == w then [p] else []) {
      assert Seen(outs')[d] == Packets(outs'[d]) && Seen(outs)[d] == Packets(outs[d]);
    }
  }

  lemma BothJoin(x: ClientId, w: ClientId, n: Name, service: Name) returns (b: Broker)
    requires x != w
    ensures Reachable(b) && b.locks == map[] && b.outs == map[x := [], w := []] && b.pc == map[x := Idle, w := Idle]
    ensures b.tb == Tables({x, w}, map[], map[], map[], map[n := Fresh(service)]) && b.hist.issued == map[]
  {
    var b0 := Broker(Tables({}, map[], map[], map[], map[n := Fresh(service)]), map[], map[], map[],
                     History(map[], map[], {}, {}, [], []));
    assert IsRun([b0]) && [b0][|[b0]| - 1] == b0;
    var b1 := Joins(b0, x);
    b := Joins(b1, w);
    assert {} + {x} + {w} == {x, w};
  }

  /** The caller's first half: look the object up. */
  lemma LooksUp(b: Broker, x: ClientId, call: Invocation) returns (b': Broker)
    requires Reachable(b) && b.locks == map[] && x in b.pc && b.pc[x] == Idle && x in b.tb.clients
    requires call.id !in b.hist.issued
    ensures Reachable(b') && b'.locks == map[]
    ensures b'.pc == b.pc[x := Want(PutCall(call, H.WorkerFor(b.tb, call.obj)))]
    ensures b'.tb == b.tb && b'.outs == b.outs
  {
    var b1 := Receives(b, x, Req(Call(call)));
    b' := LooksUpAlone(b1, x, call);
    Reached(b1, b', x);
    assert b'.pc == b.pc[x := b'.pc[x]];
  }

  lemma LooksUpAlone(b: Broker, x: ClientId, call: Invocation) returns (b': Broker)
    requires b.locks == map[] && x in b.pc && b.pc[x] == Want(FindCaller(call)) && x in b.tb.clients
    ensures Alone(b, b', x)
    ensures Stands(b', x, b.tb, b.pc, Want(PutCall(call, H.WorkerFor(b.tb, call.obj))), FREE, b.outs)
  {
    Nothing(b, x);
    assert b.pc == b.pc[x := b.pc[x]];
    b' := Lookup(b, b, x, b.tb, b.pc, call, b.outs);
  }

  /**
   A call can be accepted and dropped: the caller looks up the object and finds no owner; before it goes on, the worker
   registers the object; and the call then meets a running service.
   */
  lemma CallDroppedAtLockGrain(x: ClientId, w: ClientId, call: Invocation, service: Name) returns (b: Broker)
    requires x != w
    ensures Reachable(b) && Dropped(b, x, call) && x in b.tb.clients
  {
    var b5 := RegisteredMeanwhile(x, w, call, service);
    b := DropsCall(b5, x, call);
  }

  /** The lookup has found no owner, and the worker has registered the object since. */
  lemma RegisteredMeanwhile(x: ClientId, w: ClientId, call: Invocation, service: Name) returns (b: Broker)
    requires x != w
    ensures Reachable(b) && b.locks == map[] && b.pc == map[x := Want(PutCall(call, None)), w := Idle]
    ensures x in b.tb.clients && call.obj in b.tb.services && b.tb.services[call.obj].state.Running?
    ensures forall n | n in b.tb.services :: b.tb.services[n].pending == []
    ensures forall d, i | d in b.outs && 0 <= i < |b.outs[d]| :: b.outs[d][i].packet == Resp(Registered(call.obj))
  {
    var b4 := NoWorkerFound(x, w, call, service);
    b := Registers(b4, w, call.obj);
    assert b.pc == map[x := Want(PutCall(call, None)), w := Idle];
    OnlyRegistered(b4.outs, b.outs, w, call.obj);
  }

  lemma NoWorkerFound(x: ClientId, w: ClientId, call: Invocation, service: Name) returns (b: Broker)
    requires x != w
    ensures Reachable(b) && Ready(b, w) && b.pc == map[x := Want(PutCall(call, None)), w := Idle]
    ensures b.outs == map[x := [], w := []] && b.tb.clients == {x, w}
    ensures b.tb.services == map[call.obj := Fresh(service)]
  {
    var b1 := BothJoin(x, w, call.obj, service);
    b := LooksUp(b1, x, call);
    assert b.pc == map[x := Want(PutCall(call, None)), w := Idle];
  }

  /** A client leaves, and is about to sweep the queues with the snapshot of active calls it has taken. */
  lemma LeavesUpToSweep(b: Broker, c: ClientId) returns (b': Broker)
    requires Reachable(b) && b.locks == map[] && c in b.pc && b.pc[c] == Idle
    ensures Reachable(b') && b'.locks == map[] && b'.outs == b.outs && b'.hist.issued == b.hist.issued
    ensures b'.tb == SweptButServices(b.tb, c) && b'.pc == b.pc[c := Want(DropServices(b'.tb.calls.Keys))]
  {
    var b1 := Next(b, Hangup(c));
    ReachStep(b, Hangup(c));
    assert b1.locks == map[] && b1.pc == b.pc[c := Leaving];
    var b2 := Next(b1, Work(c, []));
    ReachStep(b1, Work(c, []));
    assert b2.locks == map[] && b2.pc == b.pc[c := Want(DropClient)];
    b' := SoloToSweep(b2, c);
    Reached(b2, b', c);
    assert b'.pc == b.pc[c := b'.pc[c]];
  }

  /** The caller's second half again: record the call, and queue it at the stopped service. */
  lemma QueuesCall(b: Broker, x: ClientId, call: Invocation) returns (b': Broker)
    requires Reachable(b) && b.locks == map[] && x in b.pc && b.pc[x] == Want(PutCall(call, None))
    requires call.obj in b.tb.services && b.tb.services[call.obj].state.Stopped?
    ensures Reachable(b') && b'.locks == map[] && b'.outs == b.outs && b'.pc == b.pc[x := Idle]
    ensures var e := b.tb.services[call.obj];
            b'.tb == b.tb.(calls := b.tb.calls[call.id := x],
                           services := b.tb.services[
                             call.obj := e.(state := Starting, pending := e.pending + [Call(call)])])
  {
    var b1 := RecordsCall(b, x, call);
    var tb1 := b.tb.(calls := b.tb.calls[call.id := x]);
    b' := Enter(b, b1, x, tb1, b.pc, Activate(call), [], b.outs);
    Reached(b, b', x);
  }

  lemma Sweeps(b: Broker, c: ClientId, active: set<CallId>) returns (b': Broker)
    requires Reachable(b) && b.locks == map[] && c in b.pc && b.pc[c] == Want(DropServices(active))
    ensures Reachable(b') && b'.locks == map[] && b'.outs == b.outs && b'.pc == b.pc[c := Gone]
    ensures b'.tb == b.tb.(services := CleanServices(b.tb.services, c, active))
  {
    b' := SweepsAlone(b, c, active);
    Reached(b, b', c);
  }

  lemma SweepsAlone(b: Broker, c: ClientId, active: set<CallId>) returns (b': Broker)
    requires b.locks == map[] && c in b.pc && b.pc[c] == Want(DropServices(active))
    ensures Alone(b, b', c) && b'.locks == map[] && b'.outs == b.outs && b'.pc == b.pc[c := Gone]
    ensures b'.tb == b.tb.(services := CleanServices(b.tb.services, c, active))
  {
    Nothing(b, c);
    assert b.pc == b.pc[c := b.pc[c]];
    b' := Enter(b, b, c, b.tb, b.pc, DropServices(active), [], b.outs);
  }

  /**
   A queued call can be lost to the cleanup of a bystander: `y` snapshots the active calls, `x` has its call recorded
   and queued, and `y` then drops it as stale although `x` is connected.
   */
  lemma QueuedCallDroppedAtLockGrain(x: ClientId, y: ClientId, call: Invocation, service: Name) returns (b: Broker)
    requires x != y
    ensures Reachable(b) && Dropped(b, x, call) && x in b.tb.clients
    ensures call.obj in b.tb.services && b.tb.services[call.obj].state.Starting?
  {
    var none: set<CallId> := {};
    var b4 := QueuedTooLate(x, y, call, service, none);
    b := Sweeps(b4, y, none);
    SweptAway(b4.tb.services, y, none, call, b4.tb.services[call.obj]);
  }

  /** The call is queued after the snapshot, which is empty. */
  lemma QueuedTooLate(x: ClientId, y: ClientId, call: Invocation, service: Name, none: set<CallId>) returns (b: Broker)
    requires x != y && none == {}
    ensures Reachable(b) && b.locks == map[] && b.pc == map[x := Idle, y := Want(DropServices(none))]
    ensures b.outs == map[x := [], y := []] && b.tb.clients == {x} && b.tb.calls == map[call.id := x]
    ensures b.tb.services == map[call.obj := Fresh(service).(state := Starting, pending := [Call(call)])]
  {
    var b1 := BothJoin(x, y, call.obj, service);
    var b2 := LeavesUpToSweep(b1, y);
    NothingToSweep(b1.tb, x, y);
    assert b2.tb.calls.Keys == none;
    var b3 := LooksUp(b2, x, call);
    b := QueuesCall(b3, x, call);
    assert [] + [Call(call)] == [Call(call)];
    assert b.pc == map[x := Idle, y := Want(DropServices(none))];
  }

  lemma NothingToSweep(tb: Tables, x: ClientId, y: ClientId)
    requires x != y && tb.clients == {x, y} && tb.objects == map[] && tb.subs == map[] && tb.calls == map[]
    ensures SweptButServices(tb, y) == tb.(clients := {x})
  {
    var swept := SweptButServices(tb, y);
    assert swept.clients == {x} && swept.objects == map[] && swept.subs == map[] && swept.calls == map[];
  }

  /** A sweep with an empty snapshot drops the only call queued. */
  lemma SweptAway(services: map<Name, ServiceEntry>, y: ClientId, none: set<CallId>, call: Invocation, e: ServiceEntry)
    requires services == map[call.obj := e] && e.owner.None? && e.pending == [Call(call)] && call.id !in none
    ensures CleanServices(services, y, none) == map[call.obj := e.(pending := [])]
  {
    assert e.pending[1..] == [];
    assert Retained(e.pending, none) == [] + Retained([], none);
    assert CleanServices(services, y, none)[call.obj] == e.(pending := []);
  }

  /** The caller's second half once more: record the call, and post it to a worker that is gone. */
  lemma PostsToNobody(b: Broker, x: ClientId, w: ClientId, call: Invocation) returns (b': Broker)
    requires b.locks == map[] && x in b.pc && b.pc[x] == Want(PutCall(call, Some(w))) && w != x
    requires w in b.pc && b.pc[w] == Gone
    ensures Alone(b, b', x) && b'.outs == b.outs && b'.pc == b.pc[x := Idle]
    ensures b'.tb == b.tb.(calls := b.tb.calls[call.id := x])
  {
    Nothing(b, x);
    assert b.pc == b.pc[x := b.pc[x]];
    var b1 := Enter(b, b, x, b.tb, b.pc, PutCall(call, Some(w)), [], b.outs);
    assert b1.pc[x] == Post([Letter(w, Req(Call(call)), 0)]);
    b' := Next(b1, Send(x));
    Then(b, b1, Send(x));
    assert [Letter(w, Req(Call(call)), 0)][1..] == [];
    assert b'.pc == b.pc[x := Idle];
  }

  lemma PostedReached(b: Broker, x: ClientId, w: ClientId, call: Invocation) returns (b': Broker)
    requires Reachable(b) && b.locks == map[] && x in b.pc && b.pc[x] == Want(PutCall(call, Some(w))) && w != x
    requires w in b.pc && b.pc[w] == Gone
    ensures Reachable(b') && b'.outs == b.outs && b'.pc == b.pc[x := Idle]
    ensures b'.tb == b.tb.(calls := b.tb.calls[call.id := x])
  {
    b' := PostsToNobody(b, x, w, call);
    Reached(b, b', x);
  }

  /** The worker's queue stays empty when it leaves. */
  lemma SweptIdle(services: map<Name, ServiceEntry>, c: ClientId, active: set<CallId>)
    requires forall n | n in services :: services[n].pending == []
    ensures var swept := CleanServices(services, c, active); forall n | n in swept :: swept[n].pending == []
  {
  }

  /** A client registers an object, and a call for it looks it up. */
  lemma FindsWorker(x: ClientId, w: ClientId, call: Invocation, service: Name) returns (b: Broker)
    requires x != w
    ensures Reachable(b) && b.locks == map[] && b.pc == map[x := Want(PutCall(call, Some(w))), w := Idle]
    ensures x in b.tb.clients && forall n | n in b.tb.services :: b.tb.services[n].pending == []
    ensures forall d, i | d in b.outs && 0 <= i < |b.outs[d]| :: b.outs[d][i].packet == Resp(Registered(call.obj))
  {
    var b2 := OneRegistered(x, w, call.obj, service);
    b := LooksUp(b2, x, call);
    assert b.pc == map[x := Want(PutCall(call, Some(w))), w := Idle];
  }

  lemma OneRegistered(x: ClientId, w: ClientId, n: Name, service: Name) returns (b: Broker)
    requires x != w
    ensures Reachable(b) && b.locks == map[] && b.pc == map[x := Idle, w := Idle] && b.hist.issued == map[]
    ensures b.tb.clients == {x, w} && n in b.tb.objects && b.tb.objects[n] == w
    ensures forall m | m in b.tb.services :: b.tb.services[m].pending == []
    ensures forall d, i | d in b.outs && 0 <= i < |b.outs[d]| :: b.outs[d][i].packet == Resp(Registered(n))
  {
    var b1 := BothJoin(x, w, n, service);
    b := Registers(b1, w, n);
    assert b.pc == map[x := Idle, w := Idle];
    OnlyRegistered(b1.outs, b.outs, w, n);
  }

  /**
   A call can be posted to nobody: its lookup finds the worker, the worker leaves, and the call is then recorded and
   posted through the sender that was found.
   */
  lemma MessageDroppedAtLockGrain(x: ClientId, w: ClientId, call: Invocation, service: Name) returns (b: Broker)
    requires x != w
    ensures Reachable(b) && Dropped(b, x, call) && x in b.tb.clients && w in b.pc && b.pc[w] == Gone
  {
    var b1 := FindsWorker(x, w, call, service);
    var b2 := LeavesUpToSweep(b1, w);
    var b3 := Sweeps(b2, w, b2.tb.calls.Keys);
    SweptIdle(b2.tb.services, w, b2.tb.calls.Keys);
    b := PostedReached(b3, x, w, call);
  }

  /** A client that registers an object has put it, and not yet taken its calls. */
  lemma PutsObject(b: Broker, x: ClientId, n: Name) returns (b': Broker)
    requires Reachable(b) && b.locks == map[] && x in b.pc && b.pc[x] == Idle
    ensures Reachable(b') && b'.locks == map[] && b'.pc == b.pc[x := Want(TakePending(n))] && b'.outs == b.outs
    ensures b'.tb == b.tb.(objects := b.tb.objects[n := x])
  {
    var b1 := Receives(b, x, Req(RegisterObject(n)));
    Nothing(b1, x);
    assert b1.pc == b1.pc[x := b1.pc[x]];
    b' := Enter(b1, b1, x, b1.tb, b1.pc, PutObject(n), [], b1.outs);
    Reached(b1, b', x);
    assert b'.pc == b.pc[x := b'.pc[x]];
  }

  /** It takes them. */
  lemma TakesService(b: Broker, x: ClientId, n: Name) returns (b': Broker)
    requires Reachable(b) && b.locks == map[] && x in b.pc && b.pc[x] == Want(TakePending(n)) && x in b.tb.clients
    requires Open(b.tb, b.pc, b.outs) && n in b.tb.services
    ensures Reachable(b') && b'.locks == map[] && b'.pc == b.pc[x := Idle]
    ensures b'.tb == b.tb.(services := b.tb.services[n := Register(b.tb.services[n], x)])
  {
    b' := S.RestAlone(b, x);
    Reached(b, b', x);
  }

  /**
   The tables can disagree although nobody is at work, and stay so: `x` and `y` register the same object, `y` after `x`
   in the objects and before it in the services; when `y` leaves, the service runs on `x`, and nobody owns the object.
   */
  lemma DisagreementAtRest(x: ClientId, y: ClientId, n: Name, service: Name) returns (b: Broker)
    requires x != y
    ensures Reachable(b) && b.locks == map[] && b.pc == map[x := Idle, y := Gone] && x in b.tb.clients
    ensures n in b.tb.services && b.tb.services[n].state == Running(x) && b.tb.services[n].owner == Some(x)
    ensures n !in b.tb.objects
  {
    var b3 := PutTwice(x, y, n, service);
    var b4 := TakesService(b3, x, n);
    assert b4.pc == map[x := Idle, y := Idle];
    b := LeavesBehind(b4, x, y, n);
  }

  /** `x` has put the object, and `y` has registered it since. */
  lemma PutTwice(x: ClientId, y: ClientId, n: Name, service: Name) returns (b: Broker)
    requires x != y
    ensures Reachable(b) && b.locks == map[] && b.pc == map[x := Want(TakePending(n)), y := Idle]
    ensures b.outs.Keys == {x, y} && b.tb.clients == {x, y} && n in b.tb.services
    ensures n in b.tb.objects && b.tb.objects[n] == y
  {
    var b1 := BothJoin(x, y, n, service);
    var b2 := PutsObject(b1, x, n);
    assert b2.outs.Keys == {x, y} && b2.pc == map[x := Want(TakePending(n)), y := Idle];
    assert Ready(b2, y) && b2.pc[y] == Idle && b2.tb.services[n].pending == [];
    b := Registers(b2, y, n);
    assert b.pc == map[x := Want(TakePending(n)), y := Idle];
  }

  /** The owner of an object leaves, and the service runs on somebody else. */
  lemma LeavesBehind(b: Broker, x: ClientId, y: ClientId, n: Name) returns (b': Broker)
    requires Reachable(b) && b.locks == map[] && x != y && b.pc == map[x := Idle, y := Idle] && x in b.tb.clients
    requires n in b.tb.services && b.tb.services[n].state == Running(x) && b.tb.services[n].owner == Some(x)
    requires n in b.tb.objects && b.tb.objects[n] == y
    ensures Reachable(b') && b'.locks == map[] && b'.pc == map[x := Idle, y := Gone] && x in b'.tb.clients
    ensures n in b'.tb.services && b'.tb.services[n].state == Running(x) && b'.tb.services[n].owner == Some(x)
    ensures n !in b'.tb.objects
  {
    var b1 := LeavesUpToSweep(b, y);
    b' := Sweeps(b1, y, b1.tb.calls.Keys);
    assert b'.pc == map[x := Idle, y := Gone];
  }

  /** An unknown object: the refusal is looked up while `services` is held. */
  lemma HoldsServices(b: Broker, x: ClientId, call: Invocation) returns (b': Broker)
    requires b.locks == map[] && x in b.pc && b.pc[x] == Want(PutCall(call, None)) && call.obj !in b.tb.services
    ensures Alone(b, b', x) && b'.locks == map[MServices := x] && x in b'.pc && b'.pc[x] == Want(FindRefused(call))
  {
    var b1 := RecordsCall(b, x, call);
    var tb1 := b.tb.(calls := b.tb.calls[call.id := x]);
    var b2 := Takes(b, b1, x, tb1, b.pc, Activate(call), FREE, b.outs);
    var held := FREE[MServices := x];
    b' := Works(b, b2, x, tb1, b.pc, Activate(call), [], held, b.outs);
    assert Body(tb1, x, Activate(call), []).pc == Want(FindRefused(call));
    assert Kept(held, x, Want(FindRefused(call))) == held;
  }

  lemma HoldsReached(b: Broker, x: ClientId, call: Invocation) returns (b': Broker)
    requires Reachable(b) && b.locks == map[] && x in b.pc && b.pc[x] == Want(PutCall(call, None))
    requires call.obj !in b.tb.services
    ensures Reachable(b') && b'.locks == map[MServices := x] && x in b'.pc && b'.pc[x] == Want(FindRefused(call))
  {
    b' := HoldsServices(b, x, call);
    Reached(b, b', x);
  }

  /**
   The lock order documented in the source puts `clients` before `services`; a task can hold `services` and wait for
   `clients`. (There is no deadlock all the same: `LockOrder.NoMutexDeadlock`.)
   */
  lemma DocumentedOrderBroken(x: ClientId, w: ClientId, call: Invocation, other: Name, service: Name)
    returns (b: Broker)
    requires x != w && other != call.obj
    ensures Reachable(b) && MServices in b.locks && b.locks[MServices] == x
    ensures x in b.pc && b.pc[x].Want? && MutexOf(b.pc[x].sec) == MClients
  {
    var b3 := BothJoin(x, w, other, service);
    var b4 := LooksUp(b3, x, call);
    b := HoldsReached(b4, x, call);
  }
}
