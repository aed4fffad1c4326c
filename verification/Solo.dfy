/**
 The two grains agree: the lock steps of a handler, run with no other task in between, compute the atomic handler.
 Between them other tasks may step, and then they do not: `LockGap` exhibits such a run.
 */
module Solo {
  import opened Rpc
  import opened Sections
  import opened LockSteps
  import H = Hub

  /** One step of the broker's task for `c`, other than receiving a packet. */
  ghost predicate OwnStep(b: Broker, b': Broker, c: ClientId) {
    exists l: Label :: l.c == c && (l.Lock? || l.Work? || l.Send?) && Enabled(b, l) && b' == Next(b, l)
  }

  ghost predicate IsSoloRun(run: seq<Broker>, c: ClientId) {
    && run != []
    && forall i, j | 0 <= i < j < |run| && j == i + 1 :: OwnStep(run[i], run[j], c)
  }

  /** What is kept by every step of the task alone holds at the end of its run. */
  lemma {:induction false} SoloInvariance(inv: Broker -> bool, run: seq<Broker>, c: ClientId)
    requires IsSoloRun(run, c) && inv(run[0])
    requires forall b, b' | inv(b) && OwnStep(b, b', c) :: inv(b')
    ensures inv(run[|run| - 1])
  {
    if |run| > 1 {
      SoloInvariance(inv, run[..|run| - 1], c);
      assert OwnStep(run[|run| - 2], run[|run| - 1], c);
    }
  }

  /** Task `c` alone leads from `b` to `b'`. */
  ghost predicate Alone(b: Broker, b': Broker, c: ClientId) {
    exists run :: IsSoloRun(run, c) && run[0] == b && run[|run| - 1] == b'
  }

  lemma Then(b: Broker, b': Broker, l: Label)
    requires Alone(b, b', l.c) && (l.Lock? || l.Work? || l.Send?) && Enabled(b', l)
    ensures Alone(b, Next(b', l), l.c)
  {
    var run :| IsSoloRun(run, l.c) && run[0] == b && run[|run| - 1] == b';
    var longer := run + [Next(b', l)];
    assert OwnStep(b', Next(b', l), l.c);
    assert IsSoloRun(longer, l.c) && longer[0] == b && longer[|longer| - 1] == Next(b', l);
  }

  lemma Nothing(b: Broker, c: ClientId)
    ensures Alone(b, b, c)
  {
    assert IsSoloRun([b], c) && [b][0] == b;
  }

  /** Task `c` is at `pc`, holding `locks` all alone; the other tasks are at `base`. */
  ghost predicate Stands(b: Broker, c: ClientId, tb: Tables, base: map<ClientId, PC>, pc: PC,
                         locks: map<Mutex, ClientId>, outs: map<ClientId, seq<Entry>>) {
    b.tb == tb && b.pc == base[c := pc] && b.locks == locks && b.outs == outs
  }

  lemma Takes(b0: Broker, b: Broker, c: ClientId, tb: Tables, base: map<ClientId, PC>, sec: Section,
              locks: map<Mutex, ClientId>, outs: map<ClientId, seq<Entry>>) returns (b': Broker)
    requires Alone(b0, b, c) && Stands(b, c, tb, base, Want(sec), locks, outs) && MutexOf(sec) !in locks
    ensures Alone(b0, b', c) && Stands(b', c, tb, base, In(sec), locks[MutexOf(sec) := c], outs)
  {
    b' := Next(b, Lock(c));
    Then(b0, b, Lock(c));
    assert b'.pc == base[c := In(sec)];
  }

  /** The mutexes left when `c` moves to `pc`. */
  function Kept(locks: map<Mutex, ClientId>, c: ClientId, pc: PC): map<Mutex, ClientId> {
    map m | m in locks && (locks[m] != c || m in Holds(pc)) :: locks[m]
  }

  lemma Works(b0: Broker, b: Broker, c: ClientId, tb: Tables, base: map<ClientId, PC>, sec: Section,
              order: seq<ClientId>, locks: map<Mutex, ClientId>, outs: map<ClientId, seq<Entry>>) returns (b': Broker)
    requires Alone(b0, b, c) && Stands(b, c, tb, base, In(sec), locks, outs)
    requires sec.ReadSubs? ==> IsListing(order, Subscribers(tb, sec.topic))
    ensures var o := Body(tb, c, sec, order);
            Alone(b0, b', c) && Stands(b', c, o.tb, base, o.pc, Kept(locks, c, o.pc), outs)
  {
    var l := Work(c, order);
    b' := Next(b, l);
    Then(b0, b, l);
    assert b.pc[c] == In(sec);
    assert b'.pc == base[c := Target(b, l)];
  }

  lemma Moves(b0: Broker, b: Broker, c: ClientId, tb: Tables, base: map<ClientId, PC>, pc: PC,
              locks: map<Mutex, ClientId>, outs: map<ClientId, seq<Entry>>) returns (b': Broker)
    requires Alone(b0, b, c) && Stands(b, c, tb, base, pc, locks, outs) && (pc.Located? || pc.Unlock?)
    ensures var pc' := if pc.Located? then AfterLookup(pc.call, pc.worker, pc.known) else Idle;
            Alone(b0, b', c) && Stands(b', c, tb, base, pc', Kept(locks, c, pc'), outs)
  {
    var l := Work(c, []);
    b' := Next(b, l);
    Then(b0, b, l);
    assert b'.pc == base[c := Target(b, l)];
  }

  /** The channels after a message through the sender of `m.to`, which is open. */
  function Plus(outs: map<ClientId, seq<Entry>>, c: ClientId, m: Letter): map<ClientId, seq<Entry>> {
    if m.to in outs then outs[m.to := outs[m.to] + [Entry(c, m.nth, m.packet)]] else outs
  }

  const FREE: map<Mutex, ClientId> := map[]

  /** Take a mutex, work in its section, and release it. */
  lemma Enter(b0: Broker, b: Broker, c: ClientId, tb: Tables, base: map<ClientId, PC>, sec: Section,
              order: seq<ClientId>, outs: map<ClientId, seq<Entry>>) returns (b': Broker)
    requires Alone(b0, b, c) && Stands(b, c, tb, base, Want(sec), FREE, outs)
    requires Holds(Body(tb, c, sec, order).pc) == {}
    requires sec.ReadSubs? ==> IsListing(order, Subscribers(tb, sec.topic))
    ensures var o := Body(tb, c, sec, order); Alone(b0, b', c) && Stands(b', c, o.tb, base, o.pc, FREE, outs)
  {
    var b1 := Takes(b0, b, c, tb, base, sec, FREE, outs);
    b' := Works(b0, b1, c, tb, base, sec, order, FREE[MutexOf(sec) := c], outs);
    assert Kept(FREE[MutexOf(sec) := c], c, Body(tb, c, sec, order).pc) == FREE;
  }

  /** The double lookup of `handle_call`: `clients`, then `objects` inside. */
  lemma Lookup(b0: Broker, b: Broker, c: ClientId, tb: Tables, base: map<ClientId, PC>, call: Invocation,
               outs: map<ClientId, seq<Entry>>) returns (b': Broker)
    requires Alone(b0, b, c) && Stands(b, c, tb, base, Want(FindCaller(call)), FREE, outs) && c in tb.clients
    ensures Alone(b0, b', c)
    ensures Stands(b', c, tb, base, Want(PutCall(call, H.WorkerFor(tb, call.obj))), FREE, outs)
  {
    var one, two := FREE[MClients := c], FREE[MClients := c][MObjects := c];
    var located := Located(call, H.WorkerFor(tb, call.obj), true);
    var b1 := Takes(b0, b, c, tb, base, FindCaller(call), FREE, outs);
    var b2 := Works(b0, b1, c, tb, base, FindCaller(call), [], one, outs);
    assert Kept(one, c, Want(FindWorker(call))) == one;
    var b3 := Takes(b0, b2, c, tb, base, FindWorker(call), one, outs);
    var b4 := Works(b0, b3, c, tb, base, FindWorker(call), [], two, outs);
    assert Kept(two, c, located) == one;
    b' := Moves(b0, b4, c, tb, base, located, one, outs);
    assert Kept(one, c, Want(PutCall(call, H.WorkerFor(tb, call.obj)))) == FREE;
  }

  // ---------- channels as the atomic handlers see them ----------

  function Packets(log: seq<Entry>): (ps: seq<Packet>)
    ensures |ps| == |log|
  {
    seq(|log|, i requires 0 <= i < |log| => log[i].packet)
  }

  function Seen(outs: map<ClientId, seq<Entry>>): map<ClientId, seq<Packet>> {
    map c | c in outs :: Packets(outs[c])
  }

  lemma SeenPlus(outs: map<ClientId, seq<Entry>>, c: ClientId, m: Letter)
    requires m.to in outs
    ensures Seen(Plus(outs, c, m)) == Seen(outs)[m.to := Seen(outs)[m.to] + [m.packet]]
  {
    var e := Entry(c, m.nth, m.packet);
    assert Packets(outs[m.to] + [e]) == Packets(outs[m.to]) + [m.packet];
  }

  /** The atomic broker's view of the tables and channels. */
  function View(tb: Tables, outs: map<ClientId, seq<Entry>>): H.Hub {
    H.Hub(tb, Seen(outs), [], map[])
  }

  /** Every connected client's channel is open. */
  ghost predicate Open(tb: Tables, base: map<ClientId, PC>, outs: map<ClientId, seq<Entry>>) {
    forall d | d in tb.clients :: d in base && base[d] != Gone && d in outs
  }

  // ---------- the handlers ----------

  /** Task `c` has gone from `b` to `b'`, with the effect of the atomic handler that leads to `h`. */
  ghost predicate Performed(b: Broker, b': Broker, c: ClientId, h: H.Hub) {
    Alone(b, b', c) && b'.locks == map[] && b'.pc == b.pc[c := Idle] && b'.tb == h.tb && Seen(b'.outs) == h.outs
  }

  /** No mutex is taken, `c` is connected and about to handle something. */
  ghost predicate Ready(b: Broker, c: ClientId) {
    b.locks == map[] && c in b.pc && c in b.tb.clients && Open(b.tb, b.pc, b.outs)
  }

  /** The tables when all but the services have been cleaned up. */
  function SweptButServices(tb: Tables, c: ClientId): Tables {
    H.CleanTables(tb, c).(services := tb.services)
  }

  /** A cleanup up to its last part, for which it has taken its snapshot of the active calls. */
  lemma SoloToSweep(b: Broker, c: ClientId) returns (b': Broker)
    requires b.locks == map[] && c in b.pc && b.pc[c] == Want(DropClient)
    ensures var tb := SweptButServices(b.tb, c);
            Alone(b, b', c) && Stands(b', c, tb, b.pc, Want(DropServices(tb.calls.Keys)), FREE, b.outs)
  {
    Nothing(b, c);
    assert b.pc == b.pc[c := b.pc[c]];
    var tb := b.tb;
    b' := Enter(b, b, c, tb, b.pc, DropClient, [], b.outs);
    tb := Body(tb, c, DropClient, []).tb;
    b' := Enter(b, b', c, tb, b.pc, DropObjects, [], b.outs);
    tb := Body(tb, c, DropObjects, []).tb;
    b' := Enter(b, b', c, tb, b.pc, DropSubs, [], b.outs);
    tb := Body(tb, c, DropSubs, []).tb;
    b' := Enter(b, b', c, tb, b.pc, DropCalls, [], b.outs);
    tb := Body(tb, c, DropCalls, []).tb;
    b' := Enter(b, b', c, tb, b.pc, ReadCalls, [], b.outs);
  }

  /** A whole cleanup, once the reader has been joined. */
  lemma {:induction false} SoloCleanup(b: Broker, c: ClientId) returns (b': Broker)
    requires b.locks == map[] && c in b.pc && b.pc[c] == Want(DropClient)
    ensures Alone(b, b', c) && b'.locks == map[] && b'.pc == b.pc[c := Gone]
    ensures b'.tb == H.CleanTables(b.tb, c) && b'.outs == b.outs
  {
    b' := SoloToSweep(b, c);
    var tb := SweptButServices(b.tb, c);
    b' := Enter(b, b', c, tb, b.pc, DropServices(tb.calls.Keys), [], b.outs);
  }

  /** What the atomic broker makes of a packet. */
  function Handled(h: H.Hub, c: ClientId, p: Packet): H.Hub {
    match p
    case Req(r) => H.RequestAt(h, c, r)
    case Resp(r) => H.ResponseAt(h, r)
  }
}
