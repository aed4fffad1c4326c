/**
 The broker with atomic handlers: one step is a whole `handle_*`, or a whole `cleanup_client` (src/broker.rs). The
 functions say what each handler does to the broker's state; `ServerState` is the code, proved to do exactly that.
 */
module Hub {
  import opened Rpc
  import opened Activation
  import opened Sections

  /**
   `outs[c]` is everything ever enqueued for client `c`, and has an entry for every client ever connected;
   `starts` are the services started; `issued` records the calls received.
   */
  datatype Hub = Hub(
    tb: Tables,
    outs: map<ClientId, seq<Packet>>,
    starts: seq<Name>,
    issued: map<CallId, Issue>)

  /** Messages through a sender: dropped unless the client is connected. */
  function Tell(h: Hub, c: ClientId, ps: seq<Packet>): Hub {
    if c in h.tb.clients && c in h.outs then h.(outs := h.outs[c := h.outs[c] + ps]) else h
  }

  function Connect(h: Hub, c: ClientId): Hub {
    h.(tb := h.tb.(clients := h.tb.clients + {c}), outs := h.outs[c := []])
  }

  function RegisterObjectAt(h: Hub, c: ClientId, n: Name): Hub {
    var tb := h.tb.(objects := h.tb.objects[n := c]);
    if n in tb.services
    then Tell(h.(tb := tb.(services := tb.services[n := Register(tb.services[n], c)])), c,
              Requests(tb.services[n].pending) + [Resp(Registered(n))])
    else Tell(h.(tb := tb), c, [Resp(Registered(n))])
  }

  function RegisterServiceAt(h: Hub, c: ClientId, n: Name, sv: Name): Hub {
    h.(tb := h.tb.(services := Announce(h.tb.services, c, n, sv)))
  }

  /** The owner of the object, if it has a sender. */
  function WorkerFor(tb: Tables, n: Name): Option<ClientId> {
    if n in tb.objects && tb.objects[n] in tb.clients then Some(tb.objects[n]) else None
  }

  /** Queue the call at a stopped or starting service, and start a stopped one. */
  function Enlist(h: Hub, call: Invocation): Hub
    requires call.obj in h.tb.services
  {
    var e := h.tb.services[call.obj];
    var queued := e.(state := Starting, pending := e.pending + [Call(call)]);
    match e.state
    case Stopped =>
      h.(tb := h.tb.(services := h.tb.services[call.obj := queued]), starts := h.starts + [e.service])
    case Starting => h.(tb := h.tb.(services := h.tb.services[call.obj := queued]))
    case Running(_) => h
  }

  function CallAt(h: Hub, c: ClientId, call: Invocation): Hub {
    if c !in h.tb.clients
    then Tell(h, c, [Refusal(call, "Caller disconnected")])
    else
      var h1 := h.(tb := h.tb.(calls := h.tb.calls[call.id := c]), issued := h.issued[call.id := Issue(c, call.obj)]);
      var worker := WorkerFor(h.tb, call.obj);
      if worker.Some? then Tell(h1, worker.value, [Req(Call(call))])
      else if call.obj in h.tb.services then Enlist(h1, call)
      else Tell(h1, c, [NoSuchObject(call)])
  }

  function SubscribeAt(h: Hub, c: ClientId, t: Topic): Hub {
    Tell(h.(tb := h.tb.(subs := h.tb.subs[t := Subscribers(h.tb, t) + {c}])), c, [Resp(Subscribed(t))])
  }

  function PublishAt(h: Hub, t: Topic, args: Value): Hub {
    h.(outs := map d | d in h.outs ::
         if d in Subscribers(h.tb, t) && d in h.tb.clients then h.outs[d] + [Resp(Event(t, args))] else h.outs[d])
  }

  function HasObjectAt(h: Hub, c: ClientId, n: Name): Hub {
    Tell(h, c, [Resp(HasObjectResult(n, n in h.tb.objects))])
  }

  function ResponseAt(h: Hub, r: Response): Hub {
    var id := ReplyTo(r);
    if id.Some? && id.value in h.tb.calls
    then Tell(h.(tb := h.tb.(calls := h.tb.calls - {id.value})), h.tb.calls[id.value], [Resp(r)])
    else h
  }

  function RequestAt(h: Hub, c: ClientId, r: Request): Hub {
    match r
    case RegisterObject(n) => RegisterObjectAt(h, c, n)
    case RegisterService(n, sv) => RegisterServiceAt(h, c, n, sv)
    case Call(call) => CallAt(h, c, call)
    case Subscribe(t) => SubscribeAt(h, c, t)
    case Publish(t, args) => PublishAt(h, t, args)
    case HasObject(n) => HasObjectAt(h, c, n)
  }

  function CleanTables(tb: Tables, c: ClientId): Tables {
    var calls := WithoutCallsOf(tb.calls, c);
    Tables(tb.clients - {c}, WithoutObjectsOf(tb.objects, c), WithoutSubscriber(tb.subs, c), calls,
           CleanServices(tb.services, c, calls.Keys))
  }

  function Cleanup(h: Hub, c: ClientId): Hub {
    h.(tb := CleanTables(h.tb, c))
  }

  // ---------- the code ----------

  class ServerState {
    var clients: set<ClientId>
    var objects: map<Name, ClientId>
    var subs: map<Topic, set<ClientId>>
    var calls: map<CallId, ClientId>
    var services: map<Name, ServiceEntry>
    var outs: map<ClientId, seq<Packet>>
    var starts: seq<Name>
    ghost var issued: map<CallId, Issue>

    ghost function State(): Hub
      reads this
    {
      Hub(Tables(clients, objects, subs, calls, services), outs, starts, issued)
    }

    constructor ()
      ensures State() == Hub(Tables({}, map[], map[], map[], map[]), map[], [], map[])
    {
      clients, objects, subs, calls, services := {}, map[], map[], map[], map[];
      outs, starts, issued := map[], [], map[];
    }

    /** `load_service_activations`, given the records of the readable files. */
    method LoadServiceActivations(items: seq<Item>)
      modifies `services
      ensures services == Loaded(items, old(services))
    {
      for i := 0 to |items|
        invariant services == Loaded(items[..i], old(services))
      {
        assert items[..i + 1][..i] == items[..i];
        if items[i].kind == REGISTER_SERVICE {
          services := services[items[i].obj := ServiceEntry(Stopped, items[i].service, [], None)];
        }
      }
      assert items[..|items|] == items;
    }

    method SpawnClient(c: ClientId)
      modifies this
      ensures State() == Connect(old(State()), c)
    {
      clients, outs := clients + {c}, outs[c := []];
    }

    method SendToClient(c: ClientId, p: Packet)
      modifies `outs
      ensures State() == Tell(old(State()), c, [p])
    {
      if c in clients && c in outs {
        outs := outs[c := outs[c] + [p]];
      }
    }

    method HandleRegisterObject(n: Name, c: ClientId)
      modifies this
      ensures State() == RegisterObjectAt(old(State()), c, n)
    {
      objects := objects[n := c];
      var pending: seq<Request> := [];
      if n in services {
        var entry := services[n];
        pending := entry.pending;
        services := services[n := entry.(state := Running(c), owner := Some(c), pending := [])];
      }
      ghost var flushing := State();
      assert Tell(flushing, c, Requests(pending[..0])) == flushing by {
        assert Requests(pending[..0]) == [];
        TellNothing(flushing, c);
      }
      for i := 0 to |pending|
        invariant State() == Tell(flushing, c, Requests(pending[..i]))
      {
        SendToClient(c, Req(pending[i]));
        assert Requests(pending[..i + 1]) == Requests(pending[..i]) + [Req(pending[i])];
        TellTwice(flushing, c, Requests(pending[..i]), [Req(pending[i])]);
      }
      SendToClient(c, Resp(Registered(n)));
      assert pending[..|pending|] == pending;
      TellTwice(flushing, c, Requests(pending), [Resp(Registered(n))]);
      assert Requests([]) + [Resp(Registered(n))] == [Resp(Registered(n))];
    }

    method HandleRegisterService(n: Name, sv: Name, c: ClientId)
      modifies `services
      ensures State() == RegisterServiceAt(old(State()), c, n, sv)
    {
      if n in services {
        var entry := services[n].(service := sv);
        if entry.state != Running(c) {
          entry := entry.(state := Stopped);
        }
        services := services[n := entry];
      } else {
        services := services[n := ServiceEntry(Stopped, sv, [], None)];
      }
    }

    method HandleCall(call: Invocation, c: ClientId)
      modifies this
      ensures State() == CallAt(old(State()), c, call)
    {
      var worker: Option<ClientId> := None;
      if call.obj in objects && objects[call.obj] in clients {
        worker := Some(objects[call.obj]);
      }
      if c !in clients {
        SendToClient(c, Refusal(call, "Caller disconnected"));
        return;
      }
      calls, issued := calls[call.id := c], issued[call.id := Issue(c, call.obj)];
      if worker.Some? {
        SendToClient(worker.value, Req(Call(call)));
        return;
      }
      if call.obj in services {
        var entry := services[call.obj];
        match entry.state {
          case Stopped =>
            services := services[call.obj := entry.(state := Starting, pending := entry.pending + [Call(call)])];
            starts := starts + [entry.service];
          case Starting =>
            services := services[call.obj := entry.(pending := entry.pending + [Call(call)])];
          case Running(_) =>
        }
      } else {
        SendToClient(c, NoSuchObject(call));
      }
    }

    method HandleSubscribe(t: Topic, c: ClientId)
      modifies this
      ensures State() == SubscribeAt(old(State()), c, t)
    {
      subs := subs[t := (if t in subs then subs[t] else {}) + {c}];
      SendToClient(c, Resp(Subscribed(t)));
    }

    method HandleHasObject(n: Name, c: ClientId)
      modifies `outs
      ensures State() == HasObjectAt(old(State()), c, n)
    {
      SendToClient(c, Resp(HasObjectResult(n, n in objects)));
    }

    method HandleResponse(r: Response)
      modifies this
      ensures State() == ResponseAt(old(State()), r)
    {
      var id := ReplyTo(r);
      if id.Some? && id.value in calls {
        var caller := calls[id.value];
        calls := calls - {id.value};
        SendToClient(caller, Resp(r));
      }
    }

    /** Send `p` through every one of these senders, in some order. */
    method Broadcast(senders: set<ClientId>, p: Packet)
      requires senders <= clients && senders <= outs.Keys
      modifies `outs
      ensures outs == map d | d in old(outs) :: if d in senders then old(outs)[d] + [p] else old(outs)[d]
    {
      var unsent := senders;
      while unsent != {}
        invariant unsent <= senders && outs.Keys == old(outs.Keys)
        invariant forall d | d in outs ::
          outs[d] == if d in senders && d !in unsent then old(outs)[d] + [p] else old(outs)[d]
        decreases |unsent|
      {
        var s :| s in unsent;
        outs, unsent := outs[s := outs[s] + [p]], unsent - {s};
      }
    }

    /** Those listeners that have a sender. */
    method SendersOf(listeners: set<ClientId>) returns (senders: set<ClientId>)
      ensures senders == listeners * clients
    {
      var todo := listeners;
      senders := {};
      while todo != {}
        invariant todo <= listeners
        invariant forall d :: d in senders <==> d in listeners && d !in todo && d in clients
        decreases |todo|
      {
        var s :| s in todo;
        if s in clients { senders := senders + {s}; }
        todo := todo - {s};
      }
    }

    /** The senders are collected first, under one lock, and then each is sent the event. */
    method HandlePublish(t: Topic, args: Value)
      requires clients <= outs.Keys
      modifies `outs
      ensures State() == PublishAt(old(State()), t, args)
    {
      var senders := SendersOf(if t in subs then subs[t] else {});
      Broadcast(senders, Resp(Event(t, args)));
    }

    /** The pending calls of one entry, drained and pushed back one by one. */
    method RetainActive(pending: seq<Request>, active: set<CallId>) returns (retained: seq<Request>)
      ensures retained == Retained(pending, active)
    {
      retained := [];
      for i := 0 to |pending|
        invariant retained == Retained(pending[..i], active)
      {
        var req := pending[i];
        RetainedAppend(pending[..i], req, active);
        assert pending[..i] + [req] == pending[..i + 1];
        if req.Call? {
          if req.call.id in active { retained := retained + [req]; }
        } else {
          retained := retained + [req];
        }
      }
      assert pending[..|pending|] == pending;
    }

    method DropSubscriptions(c: ClientId)
      modifies `subs
      ensures subs == WithoutSubscriber(old(subs), c)
    {
      var topics := subs.Keys;
      while topics != {}
        invariant topics <= subs.Keys == old(subs).Keys
        invariant forall t | t in subs :: subs[t] == if t in topics then old(subs)[t] else old(subs)[t] - {c}
        decreases |topics|
      {
        var t :| t in topics;
        subs, topics := subs[t := subs[t] - {c}], topics - {t};
      }
    }

    /** Reset the services that `c` owns, and drop stale pending calls from the others. */
    method SweepServices(c: ClientId, active: set<CallId>)
      modifies `services
      ensures services == CleanServices(old(services), c, active)
    {
      var names := services.Keys;
      while names != {}
        invariant names <= services.Keys == old(services).Keys
        invariant forall n | n in services ::
          services[n] == if n in names then old(services)[n] else CleanEntry(old(services)[n], c, active)
        decreases |names|
      {
        var n :| n in names;
        var entry := services[n];
        if entry.owner == Some(c) {
          entry := entry.(owner := None, state := Stopped, pending := []);
        } else {
          var retained := RetainActive(entry.pending, active);
          entry := entry.(pending := retained);
        }
        services, names := services[n := entry], names - {n};
      }
    }

    method CleanupClient(c: ClientId)
      modifies this
      ensures State() == Cleanup(old(State()), c)
    {
      clients := clients - {c};
      objects := map n | n in objects && objects[n] != c :: objects[n];
      DropSubscriptions(c);
      calls := map id | id in calls && calls[id] != c :: calls[id];
      var active := calls.Keys;
      SweepServices(c, active);
    }
  }

  lemma TellNothing(h: Hub, c: ClientId)
    ensures Tell(h, c, []) == h
  {
    if c in h.tb.clients && c in h.outs {
      assert h.outs[c] + [] == h.outs[c];
      assert h.outs[c := h.outs[c]] == h.outs;
    }
  }

  lemma TellTwice(h: Hub, c: ClientId, ps: seq<Packet>, qs: seq<Packet>)
    ensures Tell(Tell(h, c, ps), c, qs) == Tell(h, c, ps + qs)
  {
    if c in h.tb.clients && c in h.outs {
      assert (h.outs[c] + ps) + qs == h.outs[c] + (ps + qs);
      assert h.outs[c := h.outs[c] + ps][c := (h.outs[c] + ps) + qs] == h.outs[c := h.outs[c] + (ps + qs)];
    }
  }
}
