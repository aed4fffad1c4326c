/** Mutual exclusion and freedom from mutex deadlock, at lock grain. */
module LockOrder {
  import opened Rpc
  import opened Sections
  import opened LockSteps

  /** The lock table and the tasks' program points agree on who holds what. */
  ghost predicate LocksAgree(b: Broker) {
    HoldersAgree(b.locks, b.pc)
  }

  ghost predicate HoldersAgree(locks: map<Mutex, ClientId>, pc: map<ClientId, PC>) {
    && (forall m | m in locks :: locks[m] in pc && m in Holds(pc[locks[m]]))
    && (forall c, m | c in pc && m in Holds(pc[c]) :: m in locks && locks[m] == c)
  }

  lemma HoldsShrink(b: Broker, l: Label)
    requires Enabled(b, l) && !l.Spawn? && !l.Lock?
    ensures Holds(Target(b, l)) <= Holds(b.pc[l.c])
  {
    if l.Recv? { assert Holds(Target(b, l)) == {}; }
  }

  lemma LockAgrees(b: Broker, c: ClientId)
    requires LocksAgree(b) && Enabled(b, Lock(c))
    ensures LocksAgree(Next(b, Lock(c)))
  {
    var b', sec := Next(b, Lock(c)), b.pc[c].sec;
    assert b'.pc == b.pc[c := In(sec)] && b'.locks == b.locks[MutexOf(sec) := c];
  }

  lemma SpawnAgrees(b: Broker, c: ClientId)
    requires LocksAgree(b) && Enabled(b, Spawn(c))
    ensures LocksAgree(Next(b, Spawn(c)))
  {
    var b' := Next(b, Spawn(c));
    assert forall m | m in b.locks :: b.locks[m] != c;
    assert b'.pc == b.pc[c := Want(Join)] && b'.locks == b.locks;
  }

  lemma StepAgrees(b: Broker, l: Label)
    requires LocksAgree(b) && Enabled(b, l)
    ensures LocksAgree(Next(b, l))
  {
    match l
    case Lock(c) => LockAgrees(b, c);
    case Spawn(c) => SpawnAgrees(b, c);
    case _ =>
      HoldsShrink(b, l);
      ReleaseAgrees(b.locks, b.pc, l.c, Target(b, l));
  }

  /** A task that holds fewer mutexes at its new program point has released the others. */
  lemma ReleaseAgrees(locks: map<Mutex, ClientId>, pc: map<ClientId, PC>, c: ClientId, pc': PC)
    requires HoldersAgree(locks, pc) && c in pc && Holds(pc') <= Holds(pc[c])
    ensures HoldersAgree(map m | m in locks && (locks[m] != c || m in Holds(pc')) :: locks[m], pc[c := pc'])
  {
  }

  lemma LocksAlwaysAgree(b: Broker)
    requires Reachable(b)
    ensures LocksAgree(b)
  {
    var run :| IsRun(run) && run[|run| - 1] == b;
    forall x, l | LocksAgree(x) && Enabled(x, l) ensures LocksAgree(Next(x, l)) { StepAgrees(x, l); }
    Invariance(LocksAgree, run);
  }

  /** The task holding the mutex that `c` waits for. */
  ghost function Blocker(b: Broker, c: ClientId): Option<ClientId> {
    if c in b.pc && b.pc[c].Want? && MutexOf(b.pc[c].sec) in b.locks then Some(b.locks[MutexOf(b.pc[c].sec)]) else None
  }

  /** The end of the waits-for chain from `c`, following at most `n` edges. */
  ghost function ChainEnd(b: Broker, c: ClientId, n: nat): ClientId
    decreases n
  {
    if n == 0 || Blocker(b, c).None? then c else ChainEnd(b, Blocker(b, c).value, n - 1)
  }

  /** The order in which mutexes are really nested: services, clients, objects; the other two are held alone. */
  function Rank(m: Mutex): nat {
    match m
    case MServices => 0
    case MClients => 1
    case MObjects => 2
    case _ => 3
  }

  lemma WaitsUpwards(b: Broker, c: ClientId, d: ClientId)
    requires LocksAgree(b) && Blocker(b, c) == Some(d) && Blocker(b, d).Some?
    ensures Rank(MutexOf(b.pc[c].sec)) < Rank(MutexOf(b.pc[d].sec)) < 3
  {
  }

  lemma SomeListing(s: set<ClientId>) returns (order: seq<ClientId>)
    ensures IsListing(order, s)
  {
    if s == {} {
      order := [];
    } else {
      var c :| c in s;
      var rest := SomeListing(s - {c});
      order := [c] + rest;
    }
  }

  lemma UnblockedHolderCanStep(b: Broker, c: ClientId)
    requires LocksAgree(b) && c in b.pc && Holds(b.pc[c]) != {} && Blocker(b, c).None?
    ensures exists l: Label :: Enabled(b, l) && l.c == c && !l.Recv?
  {
    match b.pc[c]
    case Want(sec) => assert Enabled(b, Lock(c));
    case In(sec) =>
      var order := SomeListing(if sec.ReadSubs? then Subscribers(b.tb, sec.topic) else {});
      assert Enabled(b, Work(c, order));
    case Located(_, _, _) => assert Enabled(b, Work(c, []));
    case Unlock => assert Enabled(b, Work(c, []));
    case Refuse(_) => assert Enabled(b, Send(c));
    case _ =>
  }

  /** The waits-for chain of any waiting task ends, after at most three edges, at a task that can step by itself. */
  lemma NoMutexDeadlock(b: Broker, c: ClientId)
    requires Reachable(b) && Blocker(b, c).Some?
    ensures Blocker(b, ChainEnd(b, c, 3)).None?
    ensures exists l: Label :: Enabled(b, l) && l.c == ChainEnd(b, c, 3) && !l.Recv?
  {
    LocksAlwaysAgree(b);
    var d := Blocker(b, c).value;
    assert ChainEnd(b, c, 3) == ChainEnd(b, d, 2);
    var end := ChainEnd(b, c, 3);
    if Blocker(b, d).Some? {
      WaitsUpwards(b, c, d);
      var e := Blocker(b, d).value;
      assert ChainEnd(b, d, 2) == ChainEnd(b, e, 1);
      if Blocker(b, e).Some? {
        WaitsUpwards(b, d, e);
        var f := Blocker(b, e).value;
        assert ChainEnd(b, e, 1) == f;
        if Blocker(b, f).Some? { WaitsUpwards(b, e, f); }
      }
    }
    UnblockedHolderCanStep(b, end);
  }
}
