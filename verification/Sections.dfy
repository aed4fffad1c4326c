/**
 The broker's shared tables and its critical sections (src/broker.rs). A connection's task is always at one of the
 program points of `PC`; every table access happens inside one `Section`, under that section's mutex. Both grains of
 the model, the lock steps and the atomic handlers, are built on the same section bodies.
 */
module Sections {
  import opened Rpc
  import opened Activation

  /** `clients` holds the ids whose sender is registered: a connection has exactly one channel, named by its id. */
  datatype Tables = Tables(
    clients: set<ClientId>,
    objects: map<Name, ClientId>,
    subs: map<Topic, set<ClientId>>,
    calls: map<CallId, ClientId>,
    services: map<Name, ServiceEntry>)

  /** Who issued a call, and for which object. */
  datatype Issue = Issue(caller: ClientId, obj: Name)

  datatype Mutex = MClients | MObjects | MSubs | MCalls | MServices

  datatype Section =
    | Join
    | PutObject(obj: Name) | TakePending(obj: Name)
    | FindSelf(msgs: seq<Packet>)
    | PutService(obj: Name, service: Name)
    | FindCaller(call: Invocation) | FindWorker(call: Invocation)
    | PutCall(call: Invocation, worker: Option<ClientId>) | Activate(call: Invocation) | FindRefused(call: Invocation)
    | PutSub(topic: Topic)
    | ReadSubs(topic: Topic, args: Value, nth: nat)
    | FindSubs(topic: Topic, args: Value, nth: nat, subs: seq<ClientId>)
    | AskObject(obj: Name)
    | TakeCall(resp: Response)
    | DropClient | DropObjects | DropSubs | DropCalls | ReadCalls | DropServices(active: set<CallId>)

  /** One message for the channel of `to`; `nth` numbers the publishes of the sending client to the event's topic. */
  datatype Letter = Letter(to: ClientId, packet: Packet, nth: nat)

  datatype PC =
    | Idle
    | Want(sec: Section)                  // waiting for the section's mutex
    | In(sec: Section)                    // inside the section
    | Located(call: Invocation, worker: Option<ClientId>, known: bool)  // `objects` released, `clients` not yet
    | Mine(msgs: seq<Packet>)             // about to send msgs[0] to this task's own client
    | Post(letters: seq<Letter>)          // about to send through cloned senders
    | Refuse(call: Invocation)            // about to send the refusal, still holding `services`
    | Unlock                              // about to release `services`
    | Leaving                             // the reader has ended, the writer is being joined
    | Gone                                // cleaned up, channel closed

  /** The messages a task is sending to its own client. */
  function OwnMessages(pc: PC): seq<Packet> {
    if pc.Mine? then pc.msgs else if (pc.Want? || pc.In?) && pc.sec.FindSelf? then pc.sec.msgs else []
  }

  function One(b: bool): nat {
    if b then 1 else 0
  }

  function MutexOf(sec: Section): Mutex {
    match sec
    case Join | FindSelf(_) | FindCaller(_) | FindRefused(_) | FindSubs(_, _, _, _) | DropClient => MClients
    case PutObject(_) | FindWorker(_) | AskObject(_) | DropObjects => MObjects
    case PutSub(_) | ReadSubs(_, _, _) | DropSubs => MSubs
    case PutCall(_, _) | TakeCall(_) | DropCalls | ReadCalls => MCalls
    case TakePending(_) | PutService(_, _) | Activate(_) | DropServices(_) => MServices
  }

  /** The mutexes already held on entry to a section. */
  function Outer(sec: Section): set<Mutex> {
    match sec
    case FindWorker(_) => {MClients}
    case FindRefused(_) => {MServices}
    case _ => {}
  }

  function Holds(pc: PC): set<Mutex> {
    match pc
    case Want(sec) => Outer(sec)
    case In(sec) => Outer(sec) + {MutexOf(sec)}
    case Located(_, _, _) => {MClients}
    case Refuse(_) | Unlock => {MServices}
    case _ => {}
  }

  /** `handle_request` and `handle_response`: the first program point of the handler for a packet. */
  function Dispatch(p: Packet, nth: nat): PC {
    match p
    case Req(RegisterObject(n)) => Want(PutObject(n))
    case Req(RegisterService(n, sv)) => Want(PutService(n, sv))
    case Req(Call(call)) => Want(FindCaller(call))
    case Req(Subscribe(t)) => Want(PutSub(t))
    case Req(Publish(t, args)) => Want(ReadSubs(t, args, nth))
    case Req(HasObject(n)) => Want(AskObject(n))
    case Resp(r) => if ReplyTo(r).Some? then Want(TakeCall(r)) else Idle
  }

  function Refusal(call: Invocation, message: string): Packet {
    Resp(Error(Some(call.id), call.obj, message))
  }

  function NoSuchObject(call: Invocation): Packet {
    Refusal(call, "No such object '" + call.obj + "'")
  }

  function Requests(rs: seq<Request>): (ps: seq<Packet>)
    ensures |ps| == |rs| && forall i | 0 <= i < |rs| :: ps[i] == Req(rs[i])
  {
    seq(|rs|, i requires 0 <= i < |rs| => Req(rs[i]))
  }

  /** The next message of a handler that sends `msgs` to its own client, each with its own lookup. */
  function SendSelf(msgs: seq<Packet>): PC {
    if msgs == [] then Idle else Want(FindSelf(msgs))
  }

  function SendOut(letters: seq<Letter>): PC {
    if letters == [] then Idle else Post(letters)
  }

  function Subscribers(tb: Tables, t: Topic): set<ClientId> {
    if t in tb.subs then tb.subs[t] else {}
  }

  /** Event letters for those listed subscribers whose sender is still registered, in list order. */
  function Events(tb: Tables, t: Topic, args: Value, nth: nat, list: seq<ClientId>): seq<Letter> {
    if list == [] then []
    else (if list[0] in tb.clients then [Letter(list[0], Resp(Event(t, args)), nth)] else [])
         + Events(tb, t, args, nth, list[1..])
  }

  /** Events go to connected clients. */
  lemma EventsReach(tb: Tables, t: Topic, args: Value, nth: nat, list: seq<ClientId>)
    ensures forall x | x in Events(tb, t, args, nth, list) :: x.to in tb.clients
  {
  }

  function Register(e: ServiceEntry, c: ClientId): ServiceEntry {
    e.(state := Running(c), owner := Some(c), pending := [])
  }

  /** `handle_register_service`: a new entry, or a renamed one that is reset unless it runs on this very client. */
  function Announce(services: map<Name, ServiceEntry>, c: ClientId, n: Name, sv: Name): map<Name, ServiceEntry> {
    if n in services
    then var e := services[n].(service := sv);
         services[n := if e.state != Running(c) then e.(state := Stopped) else e]
    else services[n := Fresh(sv)]
  }

  /** Pending calls whose id is still active, in order; anything but a call is kept. */
  function Retained(pending: seq<Request>, active: set<CallId>): seq<Request> {
    if pending == [] then []
    else (if pending[0].Call? && pending[0].call.id !in active then [] else [pending[0]])
         + Retained(pending[1..], active)
  }

  lemma {:induction false} RetainedAppend(pending: seq<Request>, r: Request, active: set<CallId>)
    ensures Retained(pending + [r], active) ==
            Retained(pending, active) + (if r.Call? && r.call.id !in active then [] else [r])
  {
    if pending == [] {
      assert [] + [r] == [r] && [r][1..] == [];
    } else {
      RetainedAppend(pending[1..], r, active);
      assert (pending + [r])[1..] == pending[1..] + [r] && (pending + [r])[0] == pending[0];
      var one := if pending[0].Call? && pending[0].call.id !in active then [] else [pending[0]];
      var rest, last := Retained(pending[1..], active), if r.Call? && r.call.id !in active then [] else [r];
      assert one + (rest + last) == (one + rest) + last;
    }
  }

  lemma RetainedExactly(pending: seq<Request>, active: set<CallId>)
    ensures forall r :: r in Retained(pending, active) <==> r in pending && (r.Call? ==> r.call.id in active)
  {
  }

  /** One service entry after the owner-or-stale pass of `cleanup_client`. */
  function CleanEntry(e: ServiceEntry, c: ClientId, active: set<CallId>): ServiceEntry {
    if e.owner == Some(c) then e.(owner := None, state := Stopped, pending := [])
    else e.(pending := Retained(e.pending, active))
  }

  function WithoutObjectsOf(objects: map<Name, ClientId>, c: ClientId): map<Name, ClientId> {
    map n | n in objects && objects[n] != c :: objects[n]
  }

  function WithoutSubscriber(subs: map<Topic, set<ClientId>>, c: ClientId): map<Topic, set<ClientId>> {
    map t | t in subs :: subs[t] - {c}
  }

  function WithoutCallsOf(calls: map<CallId, ClientId>, c: ClientId): map<CallId, ClientId> {
    map id | id in calls && calls[id] != c :: calls[id]
  }

  function CleanServices(services: map<Name, ServiceEntry>, c: ClientId, active: set<CallId>): map<Name, ServiceEntry> {
    map n | n in services :: CleanEntry(services[n], c, active)
  }

  datatype Outcome = Outcome(tb: Tables, pc: PC)

  /**
   The body of a critical section run by the task of client `c`, and the program point it continues at.
   `order` is the iteration order of the subscriber set and matters to `ReadSubs` only.
   */
  function Body(tb: Tables, c: ClientId, sec: Section, order: seq<ClientId>): Outcome {
    match sec
    case Join => Outcome(tb.(clients := tb.clients + {c}), Idle)
    case PutObject(n) => Outcome(tb.(objects := tb.objects[n := c]), Want(TakePending(n)))
    case TakePending(n) =>
      if n in tb.services
      then Outcome(tb.(services := tb.services[n := Register(tb.services[n], c)]),
                   SendSelf(Requests(tb.services[n].pending) + [Resp(Registered(n))]))
      else Outcome(tb, SendSelf([Resp(Registered(n))]))
    case FindSelf(msgs) =>
      Outcome(tb, if msgs == [] then Idle else if c in tb.clients then Mine(msgs) else SendSelf(msgs[1..]))
    case PutService(n, sv) => Outcome(tb.(services := Announce(tb.services, c, n, sv)), Idle)
    case FindCaller(call) => Outcome(tb, Want(FindWorker(call)))
    case FindWorker(call) =>
      var worker := if call.obj in tb.objects && tb.objects[call.obj] in tb.clients
                    then Some(tb.objects[call.obj]) else None;
      Outcome(tb, Located(call, worker, c in tb.clients))
    case PutCall(call, worker) =>
      Outcome(tb.(calls := tb.calls[call.id := c]),
              if worker.Some? then Post([Letter(worker.value, Req(Call(call)), 0)]) else Want(Activate(call)))
    case Activate(call) =>
      if call.obj !in tb.services then Outcome(tb, Want(FindRefused(call)))
      else
        var e := tb.services[call.obj];
        (match e.state
         case Stopped =>
           var queued := e.(state := Starting, pending := e.pending + [Call(call)]);
           Outcome(tb.(services := tb.services[call.obj := queued]), Idle)
         case Starting =>
           Outcome(tb.(services := tb.services[call.obj := e.(pending := e.pending + [Call(call)])]), Idle)
         case Running(_) => Outcome(tb, Idle))
    case FindRefused(call) => Outcome(tb, if c in tb.clients then Refuse(call) else Unlock)
    case PutSub(t) =>
      Outcome(tb.(subs := tb.subs[t := Subscribers(tb, t) + {c}]), SendSelf([Resp(Subscribed(t))]))
    case ReadSubs(t, args, nth) =>
      Outcome(tb, if Subscribers(tb, t) == {} then Idle else Want(FindSubs(t, args, nth, order)))
    case FindSubs(t, args, nth, list) => Outcome(tb, SendOut(Events(tb, t, args, nth, list)))
    case AskObject(n) => Outcome(tb, SendSelf([Resp(HasObjectResult(n, n in tb.objects))]))
    case TakeCall(r) =>
      var id := ReplyTo(r);
      if id.Some? && id.value in tb.calls
      then Outcome(tb.(calls := tb.calls - {id.value}), Post([Letter(tb.calls[id.value], Resp(r), 0)]))
      else Outcome(tb, Idle)
    case DropClient => Outcome(tb.(clients := tb.clients - {c}), Want(DropObjects))
    case DropObjects => Outcome(tb.(objects := WithoutObjectsOf(tb.objects, c)), Want(DropSubs))
    case DropSubs => Outcome(tb.(subs := WithoutSubscriber(tb.subs, c)), Want(DropCalls))
    case DropCalls => Outcome(tb.(calls := WithoutCallsOf(tb.calls, c)), Want(ReadCalls))
    case ReadCalls => Outcome(tb, Want(DropServices(tb.calls.Keys)))
    case DropServices(active) => Outcome(tb.(services := CleanServices(tb.services, c, active)), Gone)
  }

  /** The program point after `handle_call` has released both lookups. */
  function AfterLookup(call: Invocation, worker: Option<ClientId>, known: bool): PC {
    if known then Want(PutCall(call, worker)) else SendSelf([Refusal(call, "Caller disconnected")])
  }
}
