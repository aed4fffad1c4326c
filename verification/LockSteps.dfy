/**
 The broker at lock grain: any number of connection tasks, one step per mutex acquisition, critical section with its
 release, or channel send (src/broker.rs). Packets arriving from the peers are chosen by the environment.
 */
module LockSteps {
  import opened Rpc
  import opened Activation
  import opened Sections

  /** A message on a channel, with the task that sent it and its `nth` stamp. */
  datatype Entry = Entry(source: ClientId, nth: nat, packet: Packet)

  /** What has happened so far; the broker's own steps never read it, except that issued call ids are fresh. */
  datatype History = History(
    issued: map<CallId, Issue>,                    // calls received, by id
    published: map<(ClientId, Topic), seq<Value>>, // publishes received, per client and topic
    registered: set<(ClientId, Name)>,             // object registrations carried out
    subscribed: set<(ClientId, Topic)>,            // subscriptions carried out
    starts: seq<Name>,                             // services started
    resets: seq<Name>)                             // `RegisterService` carried out, or the owner cleaned up

  /** `outs[c]` is everything ever enqueued on the channel of client `c`, oldest first. */
  datatype Broker = Broker(
    tb: Tables,
    locks: map<Mutex, ClientId>,
    pc: map<ClientId, PC>,
    outs: map<ClientId, seq<Entry>>,
    hist: History)

  datatype Label =
    | Spawn(c: ClientId)
    | Recv(c: ClientId, packet: Packet)
    | Hangup(c: ClientId)
    | Lock(c: ClientId)
    | Work(c: ClientId, order: seq<ClientId>)
    | Send(c: ClientId)

  ghost predicate Initial(b: Broker) {
    && b.tb.clients == {} && b.tb.objects == map[] && b.tb.subs == map[] && b.tb.calls == map[]
    && (forall n | n in b.tb.services :: b.tb.services[n] == Fresh(b.tb.services[n].service))
    && b.locks == map[] && b.pc == map[] && b.outs == map[]
    && b.hist == History(map[], map[], {}, {}, [], [])
  }

  function Published(h: History, c: ClientId, t: Topic): seq<Value> {
    if (c, t) in h.published then h.published[(c, t)] else []
  }

  ghost predicate IsListing(order: seq<ClientId>, s: set<ClientId>) {
    && (forall i, j | 0 <= i < j < |order| :: order[i] != order[j])
    && (forall c :: c in order <==> c in s)
  }

  ghost predicate Enabled(b: Broker, l: Label) {
    if l.Spawn? then l.c !in b.pc && l.c !in b.outs
    else
      && l.c in b.pc
      && var pc := b.pc[l.c];
      match l
      case Recv(_, p) => pc == Idle && (p.Req? && p.req.Call? ==> p.req.call.id !in b.hist.issued)
      case Hangup(_) => pc == Idle
      case Lock(_) => pc.Want? && MutexOf(pc.sec) !in b.locks
      case Work(_, order) =>
        && (pc.In? || pc.Located? || pc.Unlock? || pc.Leaving?)
        && (pc.In? && pc.sec.ReadSubs? ==> IsListing(order, Subscribers(b.tb, pc.sec.topic)))
      case Send(_) => (pc.Mine? && pc.msgs != []) || (pc.Post? && pc.letters != []) || pc.Refuse?
      case Spawn(_) => false
  }

  function Received(h: History, c: ClientId, p: Packet): History {
    if p.Req? && p.req.Call? then h.(issued := h.issued[p.req.call.id := Issue(c, p.req.call.obj)])
    else if p.Req? && p.req.Publish?
    then h.(published := h.published[(c, p.req.topic) := Published(h, c, p.req.topic) + [p.req.args]])
    else h
  }

  /** The services that `cleanup_client` resets because `c` owned them, in some order. */
  ghost function OwnedBy(services: map<Name, ServiceEntry>, c: ClientId): set<Name> {
    set n | n in services && services[n].owner == Some(c)
  }

  ghost function Listed(s: set<Name>): (r: seq<Name>)
    ensures forall n :: n in r <==> n in s
    ensures forall i, j | 0 <= i < j < |r| :: r[i] != r[j]
  {
    if s == {} then [] else var n :| n in s; [n] + Listed(s - {n})
  }

  ghost function Worked(h: History, tb: Tables, c: ClientId, sec: Section): History {
    match sec
    case PutObject(n) => h.(registered := h.registered + {(c, n)})
    case PutSub(t) => h.(subscribed := h.subscribed + {(c, t)})
    case PutService(n, _) => h.(resets := h.resets + [n])
    case Activate(call) =>
      if call.obj in tb.services && tb.services[call.obj].state == Stopped
      then h.(starts := h.starts + [call.obj]) else h
    case DropServices(_) => h.(resets := h.resets + Listed(OwnedBy(tb.services, c)))
    case _ => h
  }

  /** The program point a step leads its task to. */
  function Target(b: Broker, l: Label): PC {
    if l.Spawn? then Want(Join)
    else if l.c !in b.pc then Gone
    else match l
      case Recv(c, p) =>
        Dispatch(p, if p.Req? && p.req.Publish? then |Published(b.hist, c, p.req.topic)| else 0)
      case Hangup(_) => Leaving
      case Lock(c) => if b.pc[c].Want? then In(b.pc[c].sec) else b.pc[c]
      case Work(c, order) =>
        (match b.pc[c]
         case In(sec) => Body(b.tb, c, sec, order).pc
         case Located(call, worker, known) => AfterLookup(call, worker, known)
         case Unlock => Idle
         case _ => Want(DropClient))
      case Send(c) =>
        (match b.pc[c]
         case Mine(msgs) => if msgs == [] then Idle else SendSelf(msgs[1..])
         case Post(ls) => if ls == [] then Idle else SendOut(ls[1..])
         case _ => Unlock)
  }

  predicate InSection(b: Broker, l: Label) {
    l.Work? && l.c in b.pc && b.pc[l.c].In?
  }

  function TablesAfter(b: Broker, l: Label): Tables {
    if InSection(b, l) then Body(b.tb, l.c, b.pc[l.c].sec, l.order).tb else b.tb
  }

  ghost function HistoryAfter(b: Broker, l: Label): History {
    if InSection(b, l) then Worked(b.hist, b.tb, l.c, b.pc[l.c].sec)
    else if l.Recv? then Received(b.hist, l.c, l.packet)
    else b.hist
  }

  /** A task keeps exactly the mutexes that its new program point holds, and acquires one by `Lock` only. */
  function LocksAfter(b: Broker, l: Label): map<Mutex, ClientId> {
    if l.Lock? && l.c in b.pc && b.pc[l.c].Want? then b.locks[MutexOf(b.pc[l.c].sec) := l.c]
    else map m | m in b.locks && (b.locks[m] != l.c || m in Holds(Target(b, l))) :: b.locks[m]
  }

  /** The message a `Send` step puts on a channel. */
  function Outgoing(b: Broker, c: ClientId): Letter
    requires c in b.pc
    requires (b.pc[c].Mine? && b.pc[c].msgs != []) || (b.pc[c].Post? && b.pc[c].letters != []) || b.pc[c].Refuse?
  {
    match b.pc[c]
    case Mine(msgs) => Letter(c, msgs[0], 0)
    case Post(ls) => ls[0]
    case Refuse(call) => Letter(c, NoSuchObject(call), 0)
  }

  /** A closed channel drops the message: the receiver lives until its task is `Gone`. */
  function Enqueue(b: Broker, source: ClientId, m: Letter): map<ClientId, seq<Entry>> {
    if m.to in b.pc && b.pc[m.to] != Gone && m.to in b.outs
    then b.outs[m.to := b.outs[m.to] + [Entry(source, m.nth, m.packet)]] else b.outs
  }

  ghost function OutsAfter(b: Broker, l: Label): map<ClientId, seq<Entry>>
    requires Enabled(b, l)
  {
    match l
    case Spawn(c) => b.outs[c := []]
    case Send(c) => Enqueue(b, c, Outgoing(b, c))
    case _ => b.outs
  }

  ghost function Next(b: Broker, l: Label): Broker
    requires Enabled(b, l)
  {
    Broker(TablesAfter(b, l), LocksAfter(b, l), b.pc[l.c := Target(b, l)], OutsAfter(b, l), HistoryAfter(b, l))
  }

  ghost predicate Step(b: Broker, b': Broker) {
    exists l :: Enabled(b, l) && b' == Next(b, l)
  }

  /** A run of the broker under arbitrary peers, up to its last state. */
  ghost predicate IsRun(run: seq<Broker>) {
    && run != [] && Initial(run[0])
    && forall i, j | 0 <= i < j < |run| && j == i + 1 :: Step(run[i], run[j])
  }

  ghost predicate Reachable(b: Broker) {
    exists run :: IsRun(run) && run[|run| - 1] == b
  }

  ghost predicate StepBy(b: Broker, l: Label, b': Broker) {
    Enabled(b, l) && b' == Next(b, l)
  }

  /** A run with the steps it is made of. */
  ghost predicate IsTrace(run: seq<Broker>, labels: seq<Label>) {
    && |run| == |labels| + 1 && Initial(run[0])
    && forall i, j | 0 <= i < |labels| && j == i + 1 :: StepBy(run[i], labels[i], run[j])
  }

  lemma TraceReaches(run: seq<Broker>, labels: seq<Label>, k: nat)
    requires IsTrace(run, labels) && k < |run|
    ensures Reachable(run[k])
  {
    var upTo := run[..k + 1];
    forall i, j | 0 <= i < j < |upTo| && j == i + 1 ensures Step(upTo[i], upTo[j]) {
      assert StepBy(run[i], labels[i], run[j]);
    }
    assert IsRun(upTo) && upTo[|upTo| - 1] == run[k];
  }

  /** A channel's log only grows. */
  lemma ChannelOnlyGrows(b: Broker, l: Label, c: ClientId)
    requires Enabled(b, l) && c in b.outs
    ensures c in Next(b, l).outs && b.outs[c] <= Next(b, l).outs[c]
  {
  }

  /** What holds initially and is kept by every step holds in every reachable state. */
  lemma {:induction false} Invariance(inv: Broker -> bool, run: seq<Broker>)
    requires IsRun(run)
    requires forall b | Initial(b) :: inv(b)
    requires forall b, l | inv(b) && Enabled(b, l) :: inv(Next(b, l))
    ensures inv(run[|run| - 1])
  {
    if |run| > 1 {
      Invariance(inv, run[..|run| - 1]);
      assert Step(run[|run| - 2], run[|run| - 1]);
    }
  }

  /** A transitive relation kept by every step holds between any two states of a run. */
  lemma {:induction false} Segment(rel: (Broker, Broker) -> bool, run: seq<Broker>, i: nat, j: nat)
    requires IsRun(run) && i <= j < |run|
    requires forall b :: rel(b, b)
    requires forall a, b, c | rel(a, b) && rel(b, c) :: rel(a, c)
    requires forall b, b' | Step(b, b') :: rel(b, b')
    ensures rel(run[i], run[j])
  {
    if i < j {
      Segment(rel, run, i, j - 1);
      assert Step(run[j - 1], run[j]);
    }
  }
}
