/**
 Every way a handler can run alone gives the result of the atomic handler: the only freedom its lock steps have, the
 order in which an event goes to the subscribers, does not show.
 */
module SoloRuns {
  import opened Rpc
  import opened Sections
  import opened LockSteps
  import opened Solo
  import H = Hub
  import O = LockOrder

  function TellAll(h: H.Hub, letters: seq<Letter>): H.Hub
    decreases |letters|
  {
    if letters == [] then h else TellAll(H.Tell(h, letters[0].to, [letters[0].packet]), letters[1..])
  }

  /** `handle_call` from the record of the call on, with the worker that the lookup found. */
  function Placed(h: H.Hub, c: ClientId, call: Invocation, worker: Option<ClientId>): H.Hub {
    var h1 := h.(tb := h.tb.(calls := h.tb.calls[call.id := c]));
    if worker.Some? then H.Tell(h1, worker.value, [Req(Call(call))]) else Activated(h1, c, call)
  }

  function Activated(h: H.Hub, c: ClientId, call: Invocation): H.Hub {
    if call.obj in h.tb.services then H.Enlist(h, call) else H.Tell(h, c, [NoSuchObject(call)])
  }

  /** The state that a task about to run `sec` leads to, if nobody else steps. */
  function FromSection(h: H.Hub, c: ClientId, sec: Section): H.Hub {
    match sec
    case Join => h.(tb := h.tb.(clients := h.tb.clients + {c}))
    case PutObject(n) => H.RegisterObjectAt(h, c, n)
    case TakePending(n) =>
      if n in h.tb.services
      then H.Tell(h.(tb := h.tb.(services := h.tb.services[n := Register(h.tb.services[n], c)])), c,
                  Requests(h.tb.services[n].pending) + [Resp(Registered(n))])
      else H.Tell(h, c, [Resp(Registered(n))])
    case FindSelf(msgs) => H.Tell(h, c, msgs)
    case PutService(n, sv) => H.RegisterServiceAt(h, c, n, sv)
    case FindCaller(call) => H.CallAt(h, c, call)
    case FindWorker(call) => H.CallAt(h, c, call)
    case PutCall(call, worker) => Placed(h, c, call, worker)
    case Activate(call) => Activated(h, c, call)
    case FindRefused(call) => H.Tell(h, c, [NoSuchObject(call)])
    case PutSub(t) => H.SubscribeAt(h, c, t)
    case ReadSubs(t, args, _) => H.PublishAt(h, t, args)
    case FindSubs(t, args, nth, list) => TellAll(h, Events(h.tb, t, args, nth, list))
    case AskObject(n) => H.HasObjectAt(h, c, n)
    case TakeCall(r) => H.ResponseAt(h, r)
    case _ => h.(tb := Swept(h.tb, c, sec))
  }

  /** What the rest of a cleanup, from `sec` on, makes of the tables. */
  function Swept(tb: Tables, c: ClientId, sec: Section): Tables {
    match sec
    case DropClient => H.CleanTables(tb, c)
    case DropObjects => H.CleanTables(tb, c).(clients := tb.clients)
    case DropSubs => H.CleanTables(tb, c).(clients := tb.clients, objects := tb.objects)
    case DropCalls => H.CleanTables(tb, c).(clients := tb.clients, objects := tb.objects, subs := tb.subs)
    case ReadCalls => tb.(services := CleanServices(tb.services, c, tb.calls.Keys))
    case DropServices(active) => tb.(services := CleanServices(tb.services, c, active))
    case _ => tb
  }

  /** The state that a task at `pc` leads to, if nobody else steps. */
  function Rest(h: H.Hub, c: ClientId, pc: PC): H.Hub {
    match pc
    case Want(sec) => FromSection(h, c, sec)
    case In(sec) => FromSection(h, c, sec)
    case Located(call, worker, known) =>
      if known then Placed(h, c, call, worker) else H.Tell(h, c, [Refusal(call, "Caller disconnected")])
    case Mine(msgs) => H.Tell(h, c, msgs)
    case Post(letters) => TellAll(h, letters)
    case Refuse(call) => H.Tell(h, c, [NoSuchObject(call)])
    case Leaving => H.Cleanup(h, c)
    case _ => h
  }

  /** The same tables and channels. */
  predicate Alike(h: H.Hub, h': H.Hub) {
    h.tb == h'.tb && h.outs == h'.outs
  }

  // ---------- the order of events does not show ----------

  function Spread(outs: map<ClientId, seq<Packet>>, clients: set<ClientId>, list: seq<ClientId>, p: Packet)
    : map<ClientId, seq<Packet>>
  {
    map d | d in outs :: if d in list && d in clients then outs[d] + [p] else outs[d]
  }

  lemma SpreadFirst(h: H.Hub, first: ClientId, rest: seq<ClientId>, p: Packet)
    requires first !in rest
    ensures Spread(H.Tell(h, first, [p]).outs, h.tb.clients, rest, p) == Spread(h.outs, h.tb.clients, [first] + rest, p)
  {
  }

  lemma {:induction false} SpreadEvents(h: H.Hub, t: Topic, args: Value, nth: nat, list: seq<ClientId>)
    requires forall i, j | 0 <= i < j < |list| :: list[i] != list[j]
    ensures var h' := TellAll(h, Events(h.tb, t, args, nth, list));
            h'.tb == h.tb && h'.outs == Spread(h.outs, h.tb.clients, list, Resp(Event(t, args)))
    decreases |list|
  {
    var p := Resp(Event(t, args));
    if list == [] {
      assert Spread(h.outs, h.tb.clients, list, p) == h.outs;
    } else {
      var first, others := list[0], list[1..];
      assert first !in others && list == [first] + others;
      SpreadFirst(h, first, others, p);
      FirstEvent(h, t, args, nth, list);
      SpreadEvents(H.Tell(h, first, [p]), t, args, nth, others);
    }
  }

  lemma FirstEvent(h: H.Hub, t: Topic, args: Value, nth: nat, list: seq<ClientId>)
    requires list != []
    ensures TellAll(h, Events(h.tb, t, args, nth, list)) ==
            TellAll(H.Tell(h, list[0], [Resp(Event(t, args))]), Events(h.tb, t, args, nth, list[1..]))
  {
    var rest, x := Events(h.tb, t, args, nth, list[1..]), Letter(list[0], Resp(Event(t, args)), nth);
    if list[0] in h.tb.clients {
      assert ([x] + rest)[1..] == rest && ([x] + rest)[0] == x;
    } else {
      assert [] + rest == rest;
    }
  }

  lemma PublishSpreads(h: H.Hub, t: Topic, args: Value, nth: nat, list: seq<ClientId>)
    requires IsListing(list, Subscribers(h.tb, t))
    ensures Alike(TellAll(h, Events(h.tb, t, args, nth, list)), H.PublishAt(h, t, args))
  {
    SpreadEvents(h, t, args, nth, list);
  }

  // ---------- one section ----------

  /** Those that a task at `pc` is about to send to are connected, and it has something to send. */
  ghost predicate Reachables(pc: PC, clients: set<ClientId>, calls: map<CallId, ClientId>) {
    match pc
    case Want(PutCall(_, w)) => w.Some? ==> w.value in clients
    case In(PutCall(_, w)) => w.Some? ==> w.value in clients
    case Want(TakeCall(r)) => CallerConnected(r, clients, calls)
    case In(TakeCall(r)) => CallerConnected(r, clients, calls)
    case Located(_, w, known) => known && (w.Some? ==> w.value in clients)
    case Mine(msgs) => msgs != []
    case Post(letters) => letters != [] && forall x | x in letters :: x.to in clients
    case _ => true
  }

  /** The caller that a reply is recorded for is connected. */
  predicate CallerConnected(r: Response, clients: set<ClientId>, calls: map<CallId, ClientId>) {
    ReplyTo(r).Some? && ReplyTo(r).value in calls ==> calls[ReplyTo(r).value] in clients
  }

  /** The task is in a handler, not in its cleanup or at its registration. */
  predicate Handling(pc: PC) {
    match pc
    case Want(sec) => InHandler(sec)
    case In(sec) => InHandler(sec)
    case Leaving => false
    case Gone => false
    case _ => true
  }

  predicate InHandler(sec: Section) {
    !sec.Join? && !sec.DropClient? && !sec.DropObjects? && !sec.DropSubs? && !sec.DropCalls? && !sec.ReadCalls?
    && !sec.DropServices?
  }

  lemma SelfSent(h: H.Hub, c: ClientId, msgs: seq<Packet>)
    ensures Rest(h, c, SendSelf(msgs)) == H.Tell(h, c, msgs)
  {
    if msgs == [] { H.TellNothing(h, c); }
  }

  lemma OneLetterSent(h: H.Hub, m: Letter)
    ensures TellAll(h, [m]) == H.Tell(h, m.to, [m.packet])
  {
    assert [m][1..] == [];
  }

  /** A handler's section leads on to points of the handler, and to connected clients. */
  lemma SectionStays(tb: Tables, c: ClientId, sec: Section, order: seq<ClientId>)
    requires InHandler(sec) && c in tb.clients && Reachables(In(sec), tb.clients, tb.calls)
    ensures var o := Body(tb, c, sec, order);
            Handling(o.pc) && Reachables(o.pc, tb.clients, o.tb.calls) && o.tb.clients == tb.clients
  {
    if sec.FindSubs? { EventsReach(tb, sec.topic, sec.args, sec.nth, sec.subs); }
  }

  lemma CallLeadsOn(h: H.Hub, c: ClientId, sec: Section)
    requires sec.FindCaller? || sec.FindWorker? || sec.PutCall? || sec.Activate? || sec.FindRefused?
    requires c in h.tb.clients
    ensures var o := Body(h.tb, c, sec, []); Alike(Rest(h.(tb := o.tb), c, o.pc), FromSection(h, c, sec))
  {
    match sec
    case FindWorker(call) => LookupLeadsOn(h, c, call);
    case PutCall(call, worker) => RecordLeadsOn(h, c, call, worker);
    case Activate(call) => ActivationLeadsOn(h, c, call);
    case _ =>
  }

  lemma LookupLeadsOn(h: H.Hub, c: ClientId, call: Invocation)
    requires c in h.tb.clients
    ensures Alike(Placed(h, c, call, H.WorkerFor(h.tb, call.obj)), H.CallAt(h, c, call))
  {
  }

  lemma RecordLeadsOn(h: H.Hub, c: ClientId, call: Invocation, worker: Option<ClientId>)
    ensures var o := Body(h.tb, c, PutCall(call, worker), []);
            Rest(h.(tb := o.tb), c, o.pc) == Placed(h, c, call, worker)
  {
    if worker.Some? {
      var tb1 := h.tb.(calls := h.tb.calls[call.id := c]);
      OneLetterSent(h.(tb := tb1), Letter(worker.value, Req(Call(call)), 0));
    }
  }

  lemma ActivationLeadsOn(h: H.Hub, c: ClientId, call: Invocation)
    ensures var o := Body(h.tb, c, Activate(call), []); Alike(Rest(h.(tb := o.tb), c, o.pc), Activated(h, c, call))
  {
  }

  lemma FlushLeadsOn(h: H.Hub, c: ClientId, n: Name)
    ensures var o := Body(h.tb, c, TakePending(n), []);
            Rest(h.(tb := o.tb), c, o.pc) == FromSection(h, c, TakePending(n))
  {
    var msgs := (if n in h.tb.services then Requests(h.tb.services[n].pending) else []) + [Resp(Registered(n))];
    assert [] + [Resp(Registered(n))] == [Resp(Registered(n))];
    SelfSent(h.(tb := Body(h.tb, c, TakePending(n), []).tb), c, msgs);
  }

  lemma PublishLeadsOn(h: H.Hub, c: ClientId, sec: Section, order: seq<ClientId>)
    requires sec.ReadSubs? && IsListing(order, Subscribers(h.tb, sec.topic))
    ensures var o := Body(h.tb, c, sec, order); Alike(Rest(h.(tb := o.tb), c, o.pc), FromSection(h, c, sec))
  {
    PublishSpreads(h, sec.topic, sec.args, sec.nth, order);
    assert order != [] ==> order[0] in order;
  }

  /** Running a handler's section leads on to the same state. */
  lemma SectionLeadsOn(h: H.Hub, c: ClientId, sec: Section, order: seq<ClientId>)
    requires InHandler(sec) && c in h.tb.clients
    requires sec.ReadSubs? ==> IsListing(order, Subscribers(h.tb, sec.topic))
    ensures var o := Body(h.tb, c, sec, order); Alike(Rest(h.(tb := o.tb), c, o.pc), FromSection(h, c, sec))
  {
    var h' := h.(tb := Body(h.tb, c, sec, order).tb);
    match sec
    case TakePending(n) => FlushLeadsOn(h, c, n);
    case FindSelf(msgs) => if msgs == [] { H.TellNothing(h, c); }
    case FindCaller(_) | FindWorker(_) | PutCall(_, _) | Activate(_) | FindRefused(_) => CallLeadsOn(h, c, sec);
    case PutSub(t) => SelfSent(h', c, [Resp(Subscribed(t))]);
    case AskObject(n) => SelfSent(h', c, [Resp(HasObjectResult(n, n in h.tb.objects))]);
    case ReadSubs(_, _, _) => PublishLeadsOn(h, c, sec, order);
    case TakeCall(r) =>
      if ReplyTo(r).Some? && ReplyTo(r).value in h.tb.calls {
        OneLetterSent(h', Letter(h.tb.calls[ReplyTo(r).value], Resp(r), 0));
      }
    case _ =>
  }

  // ---------- one step ----------

  /** A task in a handler, with everybody's channel open. */
  ghost predicate Proceeding(b: Broker, c: ClientId) {
    && c in b.pc && c in b.tb.clients && Handling(b.pc[c]) && Reachables(b.pc[c], b.tb.clients, b.tb.calls)
    && Open(b.tb, b.pc, b.outs)
  }

  ghost function Outlook(b: Broker, c: ClientId): H.Hub
    requires c in b.pc
  {
    Rest(View(b.tb, b.outs), c, b.pc[c])
  }

  lemma SectionStep(b: Broker, c: ClientId, order: seq<ClientId>)
    requires Proceeding(b, c) && Enabled(b, Work(c, order)) && InSection(b, Work(c, order))
    ensures var b' := Next(b, Work(c, order)); Proceeding(b', c) && Alike(Outlook(b', c), Outlook(b, c))
  {
    SectionLeadsOn(View(b.tb, b.outs), c, b.pc[c].sec, order);
    SectionStays(b.tb, c, b.pc[c].sec, order);
  }

  /** A message sent is the message told. */
  lemma SendTells(b: Broker, c: ClientId)
    requires Proceeding(b, c) && Enabled(b, Send(c))
    ensures var m := Outgoing(b, c);
            && m.to in b.tb.clients && Next(b, Send(c)).tb == b.tb
            && Alike(View(b.tb, Next(b, Send(c)).outs), H.Tell(View(b.tb, b.outs), m.to, [m.packet]))
  {
    var m := Outgoing(b, c);
    if b.pc[c].Post? { assert b.pc[c].letters[0] in b.pc[c].letters; }
    assert OutsAfter(b, Send(c)) == Plus(b.outs, c, m);
    SeenPlus(b.outs, c, m);
  }

  lemma TellAllAlike(h: H.Hub, h': H.Hub, letters: seq<Letter>)
    requires Alike(h, h')
    ensures Alike(TellAll(h, letters), TellAll(h', letters))
    decreases |letters|
  {
    if letters != [] {
      var m := letters[0];
      TellAllAlike(H.Tell(h, m.to, [m.packet]), H.Tell(h', m.to, [m.packet]), letters[1..]);
    }
  }

  lemma SendStep(b: Broker, c: ClientId)
    requires Proceeding(b, c) && Enabled(b, Send(c))
    ensures var b' := Next(b, Send(c)); Proceeding(b', c) && Alike(Outlook(b', c), Outlook(b, c))
  {
    SendTells(b, c);
    var b', h := Next(b, Send(c)), View(b.tb, b.outs);
    match b.pc[c]
    case Mine(msgs) =>
      SelfSent(View(b.tb, b'.outs), c, msgs[1..]);
      H.TellTwice(h, c, [msgs[0]], msgs[1..]);
      assert [msgs[0]] + msgs[1..] == msgs;
    case Post(letters) =>
      TellAllAlike(View(b.tb, b'.outs), H.Tell(h, letters[0].to, [letters[0].packet]), letters[1..]);
    case _ =>
  }

  lemma OwnStepLeadsOn(b: Broker, b': Broker, c: ClientId)
    requires Proceeding(b, c) && OwnStep(b, b', c)
    ensures Proceeding(b', c) && Alike(Outlook(b', c), Outlook(b, c))
    ensures forall d | d in b'.pc && d != c :: d in b.pc && b'.pc[d] == b.pc[d]
    ensures b'.pc == b.pc[c := b'.pc[c]]
  {
    var l: Label :| l.c == c && (l.Lock? || l.Work? || l.Send?) && Enabled(b, l) && b' == Next(b, l);
    if l.Send? {
      SendStep(b, c);
    } else if InSection(b, l) {
      SectionStep(b, c, l.order);
    }
  }

  // ---------- whole runs ----------

  /** The mutexes taken are those that the task holds. */
  ghost predicate OwnLocks(b: Broker, c: ClientId) {
    c in b.pc && forall m | m in b.locks :: b.locks[m] == c && m in Holds(b.pc[c])
  }

  lemma OwnLocksStep(b: Broker, b': Broker, c: ClientId)
    requires OwnLocks(b, c) && OwnStep(b, b', c)
    ensures OwnLocks(b', c)
  {
  }

  ghost predicate LedOn(b0: Broker, b: Broker, c: ClientId)
    requires c in b0.pc
  {
    Proceeding(b, c) && OwnLocks(b, c) && Alike(Outlook(b, c), Outlook(b0, c)) && b.pc == b0.pc[c := b.pc[c]]
  }

  lemma RunLeadsOn(run: seq<Broker>, c: ClientId)
    requires IsSoloRun(run, c) && Proceeding(run[0], c) && OwnLocks(run[0], c)
    ensures LedOn(run[0], run[|run| - 1], c)
  {
    assert run[0].pc == run[0].pc[c := run[0].pc[c]];
    var inv := (b: Broker) => c in run[0].pc && LedOn(run[0], b, c);
    forall b, b' | inv(b) && OwnStep(b, b', c) ensures inv(b') {
      OwnStepLeadsOn(b, b', c);
      OwnLocksStep(b, b', c);
    }
    SoloInvariance(inv, run, c);
  }

  lemma DispatchLeads(h: H.Hub, c: ClientId, p: Packet, nth: nat)
    ensures Alike(Rest(h, c, Dispatch(p, nth)), Handled(h, c, p)) && Handling(Dispatch(p, nth))
    ensures (p.Resp? ==> CallerConnected(p.resp, h.tb.clients, h.tb.calls)) ==>
              Reachables(Dispatch(p, nth), h.tb.clients, h.tb.calls)
  {
  }

  /**
   Whatever packet a connected client's task has received: every run of that task alone that comes to rest has the
   effect of the atomic handler, on the tables and on the channels.
   */
  lemma EveryHandlerRun(run: seq<Broker>, c: ClientId, p: Packet, nth: nat)
    requires IsSoloRun(run, c) && Ready(run[0], c) && run[0].pc[c] == Dispatch(p, nth)
    requires p.Resp? ==> CallerConnected(p.resp, run[0].tb.clients, run[0].tb.calls)
    requires c in run[|run| - 1].pc && run[|run| - 1].pc[c] == Idle
    ensures Performed(run[0], run[|run| - 1], c, Handled(View(run[0].tb, run[0].outs), c, p))
  {
    DispatchLeads(View(run[0].tb, run[0].outs), c, p, nth);
    RunLeadsOn(run, c);
    assert Alone(run[0], run[|run| - 1], c);
    assert run[|run| - 1].locks == map[];
  }

  // ---------- a handler can always run to its end ----------

  /** How far a task is from rest: a stage of its handler, */
  function Stage(pc: PC): nat {
    match pc
    case Want(sec) => SectionStage(sec)
    case In(sec) => SectionStage(sec)
    case Located(_, _, _) => 8
    case Mine(_) => 3
    case Refuse(_) => 4
    case Unlock => 3
    case Post(_) => 3
    case _ => 0
  }

  function SectionStage(sec: Section): nat {
    match sec
    case FindCaller(_) => 10
    case FindWorker(_) => 9
    case PutCall(_, _) => 7
    case Activate(_) => 6
    case FindRefused(_) => 5
    case PutObject(_) => 5
    case FindSelf(_) => 3
    case ReadSubs(_, _, _) => 5
    case _ => 4
  }

  /** then what it still has to send, */
  function Length(pc: PC): nat {
    match pc
    case Want(FindSelf(msgs)) => |msgs|
    case In(FindSelf(msgs)) => |msgs|
    case Mine(msgs) => |msgs|
    case Post(letters) => |letters|
    case _ => 0
  }

  /** then whether it is waiting for a mutex, or holds it. */
  function Half(pc: PC): nat {
    if pc.Want? then 2 else if pc.In? then 1 else 0
  }

  /** The next step of a handler. */
  lemma NextOwnStep(b: Broker, c: ClientId) returns (l: Label)
    requires Proceeding(b, c) && OwnLocks(b, c) && b.pc[c] != Idle
    ensures l.c == c && (l.Lock? || l.Work? || l.Send?) && Enabled(b, l)
  {
    match b.pc[c]
    case Want(sec) => l := Lock(c);
    case In(sec) =>
      var order := O.SomeListing(if sec.ReadSubs? then Subscribers(b.tb, sec.topic) else {});
      l := Work(c, order);
    case Located(_, _, _) | Unlock => l := Work(c, []);
    case _ => l := Send(c);
  }

  lemma StepsDown(b: Broker, l: Label)
    requires Proceeding(b, l.c) && (l.Lock? || l.Work? || l.Send?) && Enabled(b, l)
    ensures var pc, pc' := b.pc[l.c], Target(b, l);
            || Stage(pc') < Stage(pc)
            || (Stage(pc') == Stage(pc) && Length(pc') < Length(pc))
            || (Stage(pc') == Stage(pc) && Length(pc') == Length(pc) && Half(pc') < Half(pc))
  {
  }

  lemma {:induction false} Finishes(b0: Broker, b: Broker, c: ClientId) returns (b': Broker)
    requires Alone(b0, b, c) && Proceeding(b, c) && OwnLocks(b, c)
    ensures Alone(b0, b', c) && c in b'.pc && b'.pc[c] == Idle
    decreases Stage(b.pc[c]), Length(b.pc[c]), Half(b.pc[c])
  {
    if b.pc[c] == Idle {
      b' := b;
    } else {
      var l := NextOwnStep(b, c);
      StepsDown(b, l);
      var b1 := Next(b, l);
      assert OwnStep(b, b1, c);
      OwnStepLeadsOn(b, b1, c);
      OwnLocksStep(b, b1, c);
      Then(b0, b, l);
      b' := Finishes(b0, b1, c);
    }
  }

  /** A task in a handler can come to rest alone, and then its outlook has come true. */
  lemma RestAlone(b: Broker, c: ClientId) returns (b': Broker)
    requires b.locks == map[] && Proceeding(b, c)
    ensures Performed(b, b', c, Outlook(b, c))
  {
    Nothing(b, c);
    b' := Finishes(b, b, c);
    var run :| IsSoloRun(run, c) && run[0] == b && run[|run| - 1] == b';
    RunLeadsOn(run, c);
    assert b'.locks == map[];
  }

  /** With no mutex taken, the task can run to its end alone; and then the effect is that of the atomic handler. */
  lemma HandlerAlone(b: Broker, c: ClientId, p: Packet, nth: nat) returns (b': Broker)
    requires Ready(b, c) && b.pc[c] == Dispatch(p, nth)
    requires p.Resp? ==> CallerConnected(p.resp, b.tb.clients, b.tb.calls)
    ensures Performed(b, b', c, Handled(View(b.tb, b.outs), c, p))
  {
    DispatchLeads(View(b.tb, b.outs), c, p, nth);
    b' := RestAlone(b, c);
  }

  // ---------- cleanup ----------

  predicate Cleaning(pc: PC) {
    pc == Gone || ((pc.Want? || pc.In?) && !InHandler(pc.sec) && pc.sec != Join)
  }

  lemma SweepLeadsOn(tb: Tables, c: ClientId, sec: Section, order: seq<ClientId>)
    requires Cleaning(In(sec))
    ensures var o := Body(tb, c, sec, order);
            Cleaning(o.pc) && (if o.pc.Want? then Swept(o.tb, c, o.pc.sec) else o.tb) == Swept(tb, c, sec)
  {
  }

  /** The tables when the cleanup is over. */
  function Aftermath(tb: Tables, c: ClientId, pc: PC): Tables {
    if pc.Want? || pc.In? then Swept(tb, c, pc.sec) else tb
  }

  lemma CleaningStep(b: Broker, b': Broker, c: ClientId)
    requires c in b.pc && Cleaning(b.pc[c]) && OwnStep(b, b', c)
    ensures c in b'.pc && Cleaning(b'.pc[c]) && b'.outs == b.outs
    ensures Aftermath(b'.tb, c, b'.pc[c]) == Aftermath(b.tb, c, b.pc[c])
  {
    var l: Label :| l.c == c && (l.Lock? || l.Work? || l.Send?) && Enabled(b, l) && b' == Next(b, l);
    if InSection(b, l) { SweepLeadsOn(b.tb, c, b.pc[c].sec, l.order); }
  }

  /** Between the beginning of the cleanup in `b0` and its end. */
  ghost predicate OnTheWay(b0: Broker, b: Broker, c: ClientId) {
    && c in b.pc && Cleaning(b.pc[c]) && b.outs == b0.outs
    && Aftermath(b.tb, c, b.pc[c]) == H.CleanTables(b0.tb, c)
  }

  /** Every run of a cleanup alone, from its beginning to any point, leads to the cleaned tables and sends nothing. */
  lemma EveryCleanupRun(run: seq<Broker>, c: ClientId)
    requires IsSoloRun(run, c) && c in run[0].pc && run[0].pc[c] == Want(DropClient)
    ensures var b' := run[|run| - 1];
            OnTheWay(run[0], b', c) && (b'.pc[c] == Gone ==> b'.tb == H.CleanTables(run[0].tb, c))
  {
    var inv := (b: Broker) => OnTheWay(run[0], b, c);
    forall b, b' | inv(b) && OwnStep(b, b', c) ensures inv(b') { CleaningStep(b, b', c); }
    SoloInvariance(inv, run, c);
  }
}
