/**
 The broker with atomic handlers against its history: in every reachable state the tables, and what each event enqueues,
 are what the events so far say. The history is read off the list of events alone.
 */
module HubHistory {
  import opened Rpc
  import opened Activation
  import opened Sections
  import opened Hub
  import opened HubRuns

  // ---------- what the events say ----------

  /** The last client to register the object, unless it has left since. */
  function Owner(es: seq<Event>, n: Name): Option<ClientId> {
    if es == [] then None
    else
      var before, e := Owner(es[..|es| - 1], n), es[|es| - 1];
      if e.Asked? && e.req == RegisterObject(n) then Some(e.c)
      else if e.Left? && before == Some(e.c) then None
      else before
  }

  /** The clients that have subscribed to the topic and not left since. */
  function Listeners(es: seq<Event>, t: Topic): set<ClientId> {
    if es == [] then {}
    else
      var before, e := Listeners(es[..|es| - 1], t), es[|es| - 1];
      if e.Asked? && e.req == Subscribe(t) then before + {e.c}
      else if e.Left? then before - {e.c}
      else before
  }

  /** The client that has issued the call, unless it has left or the call has been replied to since. */
  function Awaiting(es: seq<Event>, id: CallId): Option<ClientId> {
    if es == [] then None
    else
      var before, e := Awaiting(es[..|es| - 1], id), es[|es| - 1];
      if e.Asked? && e.req.Call? && e.req.call.id == id then Some(e.c)
      else if e.Replied? && IsReplyTo(e.resp, id) then None
      else if e.Left? && before == Some(e.c) then None
      else before
  }

  /** The service name that was last announced for the object. */
  function Announced(es: seq<Event>, n: Name): Option<Name> {
    if es == [] then None
    else
      var e := es[|es| - 1];
      if e.Asked? && e.req.RegisterService? && e.req.obj == n then Some(e.req.service)
      else Announced(es[..|es| - 1], n)
  }

  /** The clients that have joined and not left. */
  function Here(es: seq<Event>): set<ClientId> {
    if es == [] then {}
    else
      var before, e := Here(es[..|es| - 1]), es[|es| - 1];
      if e.Joined? then before + {e.c} else if e.Left? then before - {e.c} else before
  }

  /** The name a service was last announced under; the initial services are those of `files`. */
  function ServiceName(files: map<Name, ServiceEntry>, es: seq<Event>, n: Name): Option<Name> {
    if Announced(es, n).Some? then Announced(es, n) else NameOf(files, n)
  }

  /** The service was called while nobody owned its object, and has not been announced or taken since. */
  predicate Summoned(files: map<Name, ServiceEntry>, es: seq<Event>, n: Name) {
    es != [] &&
    var front, e := es[..|es| - 1], es[|es| - 1];
    if e.Asked? && e.req.Call? && e.req.call.obj == n && Owner(front, n).None? && ServiceName(files, front, n).Some?
    then true
    else Summoned(files, front, n) && !Resolves(e, n)
  }

  /** The event takes the object or announces its service. */
  predicate Resolves(e: Event, n: Name) {
    e.Asked? && (e.req == RegisterObject(n) || (e.req.RegisterService? && e.req.obj == n))
  }

  // ---------- the tables ----------

  function Lookup<K, V>(m: map<K, V>, k: K): Option<V> {
    if k in m then Some(m[k]) else None
  }

  function NameOf(services: map<Name, ServiceEntry>, n: Name): Option<Name> {
    if n in services then Some(services[n].service) else None
  }

  ghost predicate ObjectsRight(objects: map<Name, ClientId>, es: seq<Event>) {
    forall n :: Lookup(objects, n) == Owner(es, n)
  }

  ghost predicate SubscribersRight(tb: Tables, es: seq<Event>) {
    forall t :: Subscribers(tb, t) == Listeners(es, t)
  }

  ghost predicate CallsRight(calls: map<CallId, ClientId>, es: seq<Event>) {
    forall id :: Lookup(calls, id) == Awaiting(es, id)
  }

  ghost predicate ServicesRight(services: map<Name, ServiceEntry>, files: map<Name, ServiceEntry>, es: seq<Event>) {
    && (forall n :: NameOf(services, n) == ServiceName(files, es, n))
    && (forall n :: IsStarting(services, n) <==> Summoned(files, es, n))
  }

  ghost predicate TablesRight(tb: Tables, files: map<Name, ServiceEntry>, es: seq<Event>) {
    && tb.clients == Here(es) && ObjectsRight(tb.objects, es) && SubscribersRight(tb, es) && CallsRight(tb.calls, es)
    && ServicesRight(tb.services, files, es)
  }

  lemma HereAfter(h: Hub, e: Event)
    requires Legal(h, e)
    ensures Apply(h, e).tb.clients ==
            if e.Joined? then h.tb.clients + {e.c} else if e.Left? then h.tb.clients - {e.c} else h.tb.clients
  {
    match e
    case Asked(c, r) => assert RequestAt(h, c, r).tb.clients == h.tb.clients;
    case _ =>
  }

  lemma OwnerAfter(h: Hub, e: Event, n: Name)
    requires Legal(h, e)
    ensures Lookup(Apply(h, e).tb.objects, n) ==
            if e.Asked? && e.req == RegisterObject(n) then Some(e.c)
            else if e.Left? && Lookup(h.tb.objects, n) == Some(e.c) then None
            else Lookup(h.tb.objects, n)
  {
    match e
    case Asked(c, r) => assert r.RegisterObject? || RequestAt(h, c, r).tb.objects == h.tb.objects;
    case _ =>
  }

  lemma CallsAfterRequest(h: Hub, c: ClientId, r: Request)
    requires c in h.tb.clients
    ensures RequestAt(h, c, r).tb.calls == if r.Call? then h.tb.calls[r.call.id := c] else h.tb.calls
  {
  }

  lemma CallerAfter(h: Hub, e: Event, id: CallId)
    requires Legal(h, e)
    ensures Lookup(Apply(h, e).tb.calls, id) ==
            if e.Asked? && e.req.Call? && e.req.call.id == id then Some(e.c)
            else if e.Replied? && IsReplyTo(e.resp, id) then None
            else if e.Left? && Lookup(h.tb.calls, id) == Some(e.c) then None
            else Lookup(h.tb.calls, id)
  {
    match e
    case Asked(c, r) => CallsAfterRequest(h, c, r);
    case _ =>
  }

  lemma NameAfter(h: Hub, e: Event, n: Name)
    requires Legal(h, e)
    ensures NameOf(Apply(h, e).tb.services, n) ==
            if e.Asked? && e.req.RegisterService? && e.req.obj == n then Some(e.req.service)
            else NameOf(h.tb.services, n)
  {
    match e
    case Asked(c, r) =>
      match r {
        case RegisterObject(_) =>
        case RegisterService(_, _) =>
        case Call(_) =>
        case _ => assert RequestAt(h, c, r).tb.services == h.tb.services;
      }
    case _ =>
  }

  lemma ListenersAfter(h: Hub, e: Event, t: Topic)
    requires Legal(h, e)
    ensures Subscribers(Apply(h, e).tb, t) ==
            if e.Asked? && e.req == Subscribe(t) then Subscribers(h.tb, t) + {e.c}
            else if e.Left? then Subscribers(h.tb, t) - {e.c}
            else Subscribers(h.tb, t)
  {
    match e
    case Asked(c, r) => assert r.Subscribe? || RequestAt(h, c, r).tb.subs == h.tb.subs;
    case _ =>
  }

  predicate IsStarting(services: map<Name, ServiceEntry>, n: Name) {
    n in services && services[n].state.Starting?
  }

  lemma StartingAfterRequest(h: Hub, c: ClientId, r: Request, n: Name)
    requires Agree(h) && c in h.tb.clients
    requires n in h.tb.services ==> EntryAgrees(h.tb, n, h.tb.services[n])
    ensures IsStarting(RequestAt(h, c, r).tb.services, n) <==>
              || (r.Call? && r.call.obj == n && n !in h.tb.objects && n in h.tb.services)
              || (IsStarting(h.tb.services, n) && !Resolves(Asked(c, r), n))
  {
    match r
    case RegisterObject(_) =>
    case RegisterService(_, _) =>
    case Call(call) => CallAccepts(h, c, call);
    case _ => assert RequestAt(h, c, r).tb.services == h.tb.services;
  }

  /** A service is starting from a call that nobody owns on, until it is announced or taken. */
  lemma StartingAfter(h: Hub, e: Event, n: Name)
    requires Agree(h) && Legal(h, e)
    ensures IsStarting(Apply(h, e).tb.services, n) <==>
              || (e.Asked? && e.req.Call? && e.req.call.obj == n && n !in h.tb.objects && n in h.tb.services)
              || (IsStarting(h.tb.services, n) && !Resolves(e, n))
  {
    if n in h.tb.services { assert EntryAgrees(h.tb, n, h.tb.services[n]); }
    match e
    case Asked(c, r) => StartingAfterRequest(h, c, r, n);
    case _ =>
  }

  lemma ServicesStep(h: Hub, files: map<Name, ServiceEntry>, es: seq<Event>, e: Event)
    requires Agree(h) && Legal(h, e) && ObjectsRight(h.tb.objects, es) && ServicesRight(h.tb.services, files, es)
    ensures ServicesRight(Apply(h, e).tb.services, files, es + [e])
  {
    var services := Apply(h, e).tb.services;
    assert (es + [e])[..|es|] == es;
    forall n ensures NameOf(services, n) == ServiceName(files, es + [e], n) {
      NameAfter(h, e, n);
      assert NameOf(h.tb.services, n) == ServiceName(files, es, n);
    }
    forall n ensures IsStarting(services, n) <==> Summoned(files, es + [e], n) {
      StartingAfter(h, e, n);
      assert NameOf(h.tb.services, n) == ServiceName(files, es, n) && Lookup(h.tb.objects, n) == Owner(es, n);
    }
  }

  lemma TablesStep(h: Hub, files: map<Name, ServiceEntry>, es: seq<Event>, e: Event)
    requires Agree(h) && Legal(h, e) && TablesRight(h.tb, files, es)
    ensures TablesRight(Apply(h, e).tb, files, es + [e])
  {
    var tb := Apply(h, e).tb;
    assert (es + [e])[..|es|] == es;
    HereAfter(h, e);
    forall n ensures Lookup(tb.objects, n) == Owner(es + [e], n) { OwnerAfter(h, e, n); }
    forall t ensures Subscribers(tb, t) == Listeners(es + [e], t) { ListenersAfter(h, e, t); }
    forall id ensures Lookup(tb.calls, id) == Awaiting(es + [e], id) { CallerAfter(h, e, id); }
    ServicesStep(h, files, es, e);
  }

  /**
   In every reachable state: the connected clients are those who joined and have not left; an object is owned by the
   last client to register it and not left; a topic's subscribers are those who have subscribed and not left; a call is
   recorded for its issuer until a reply to it or the issuer's departure; the services are those of the files and those
   announced, under the name last announced; and a service is starting from a call that nobody owned on.
   */
  lemma {:induction false} TablesFromHistory(h0: Hub, es: seq<Event>)
    requires Initial(h0) && LegalRun(h0, es)
    ensures TablesRight(After(h0, es).tb, h0.tb.services, es)
    decreases |es|
  {
    if es != [] {
      var front, e := es[..|es| - 1], es[|es| - 1];
      TablesFromHistory(h0, front);
      TablesAgree(h0, front);
      assert es == front + [e];
      TablesStep(After(h0, front), h0.tb.services, front, e);
    }
  }

  // ---------- what an event enqueues ----------

  /** `ps` are enqueued to `c`, and nothing else to anybody. */
  ghost predicate Enqueues(h: Hub, h': Hub, c: ClientId, ps: seq<Packet>) {
    c in h.outs && h'.outs == h.outs[c := h.outs[c] + ps]
  }

  /** A reply goes to the client that awaits it, word for word, and to nobody else; and then nobody awaits it. */
  lemma ReplyReachesCaller(h0: Hub, es: seq<Event>, w: ClientId, r: Response, id: CallId)
    requires Initial(h0) && LegalRun(h0, es) && Legal(After(h0, es), Replied(w, r)) && IsReplyTo(r, id)
    ensures var h := After(h0, es); var h' := Apply(h, Replied(w, r));
            && (Awaiting(es, id).Some? ==> Enqueues(h, h', Awaiting(es, id).value, [Resp(r)]))
            && (Awaiting(es, id).None? ==> h'.outs == h.outs)
            && id !in h'.tb.calls
            && h'.tb == h.tb.(calls := h'.tb.calls) && forall k | k != id :: k in h'.tb.calls <==> k in h.tb.calls
  {
    TablesAgree(h0, es);
    TablesFromHistory(h0, es);
  }

  /** Any other response that a client writes is ignored. */
  lemma OthersIgnored(h: Hub, w: ClientId, r: Response)
    requires forall id :: !IsReplyTo(r, id)
    ensures Apply(h, Replied(w, r)) == h
  {
    if ReplyTo(r).Some? { assert IsReplyTo(r, ReplyTo(r).value); }
  }

  /** The answer to an object query says whether the object has an owner. */
  lemma QueryAnsweredRight(h0: Hub, es: seq<Event>, c: ClientId, n: Name)
    requires Initial(h0) && LegalRun(h0, es) && Legal(After(h0, es), Asked(c, HasObject(n)))
    ensures var h := After(h0, es); var h' := Apply(h, Asked(c, HasObject(n)));
            Enqueues(h, h', c, [Resp(HasObjectResult(n, Owner(es, n).Some?))]) && h'.tb == h.tb
  {
    TablesAgree(h0, es);
    TablesFromHistory(h0, es);
  }

  /** A subscription is acknowledged, and recorded. */
  lemma SubscriptionAcknowledged(h0: Hub, es: seq<Event>, c: ClientId, t: Topic)
    requires Initial(h0) && LegalRun(h0, es) && Legal(After(h0, es), Asked(c, Subscribe(t)))
    ensures var h := After(h0, es); var h' := Apply(h, Asked(c, Subscribe(t)));
            && Enqueues(h, h', c, [Resp(Subscribed(t))])
            && forall u :: Subscribers(h'.tb, u) == Listeners(es, u) + (if u == t then {c} else {})
  {
    TablesAgree(h0, es);
    TablesFromHistory(h0, es);
    forall u
      ensures Subscribers(Apply(After(h0, es), Asked(c, Subscribe(t))).tb, u) ==
              Listeners(es, u) + (if u == t then {c} else {})
    {
      assert Subscribers(After(h0, es).tb, u) == Listeners(es, u);
    }
  }

  /** An event goes to exactly the clients that have subscribed and not left, once each. */
  lemma EventReachesListeners(h0: Hub, es: seq<Event>, p: ClientId, t: Topic, args: Value)
    requires Initial(h0) && LegalRun(h0, es) && Legal(After(h0, es), Asked(p, Publish(t, args)))
    ensures var h := After(h0, es); var h' := Apply(h, Asked(p, Publish(t, args)));
            && h'.outs.Keys == h.outs.Keys && Listeners(es, t) <= h.outs.Keys && h'.tb == h.tb
            && forall d | d in h.outs ::
                 h'.outs[d] == h.outs[d] + (if d in Listeners(es, t) then [Resp(Event(t, args))] else [])
  {
    TablesAgree(h0, es);
    TablesFromHistory(h0, es);
    var h := After(h0, es);
    assert Subscribers(h.tb, t) == Listeners(es, t);
    forall d | d in Listeners(es, t) ensures d in h.tb.clients && d in h.outs {}
    forall d | d in h.outs ensures h.outs[d] + [] == h.outs[d] {}
  }

  /** What has been queued for an object, as messages. */
  function Backlog(h: Hub, n: Name): seq<Packet> {
    if n in h.tb.services then Requests(h.tb.services[n].pending) else []
  }

  /** A registration makes the client the owner, hands it the backlog and then the acknowledgement. */
  lemma RegistrationAcknowledged(h0: Hub, es: seq<Event>, c: ClientId, n: Name)
    requires Initial(h0) && LegalRun(h0, es) && Legal(After(h0, es), Asked(c, RegisterObject(n)))
    ensures var h := After(h0, es); var h' := Apply(h, Asked(c, RegisterObject(n)));
            && Enqueues(h, h', c, Backlog(h, n) + [Resp(Registered(n))])
            && n in h'.tb.objects && h'.tb.objects[n] == c
            && (forall m | m != n :: m in h'.tb.objects <==> m in h.tb.objects)
            && (forall m | m != n && m in h.tb.objects :: h'.tb.objects[m] == h.tb.objects[m])
            && h'.tb.services.Keys == h.tb.services.Keys
            && (forall m | m != n && m in h.tb.services :: h'.tb.services[m] == h.tb.services[m])
            && (n in h.tb.services ==>
                  var was, e := h.tb.services[n], h'.tb.services[n];
                  e.state == Running(c) && e.owner == Some(c) && e.pending == [] && e.service == was.service)
  {
    TablesAgree(h0, es);
    assert Requests([]) + [Resp(Registered(n))] == [] + [Resp(Registered(n))] == [Resp(Registered(n))];
  }

  // ---------- services ----------

  /**
   Announcing a service names it. A new one is stopped, unowned and has nothing queued; an old one keeps its owner and
   its queue, and is stopped unless it runs on the announcing client. Nothing else changes, and nothing is sent.
   */
  lemma ServiceAnnounced(h: Hub, c: ClientId, n: Name, sv: Name)
    ensures var h' := Apply(h, Asked(c, RegisterService(n, sv)));
            && n in h'.tb.services && h'.tb.services[n].service == sv
            && (n !in h.tb.services ==>
                  var e := h'.tb.services[n]; e.state.Stopped? && e.owner.None? && e.pending == [])
            && (n in h.tb.services ==>
                  var was, e := h.tb.services[n], h'.tb.services[n];
                  && e.owner == was.owner && e.pending == was.pending
                  && (if was.state == Running(c) then e.state == was.state else e.state.Stopped?))
            && h'.tb.services.Keys == h.tb.services.Keys + {n}
            && (forall m | m != n && m in h.tb.services :: h'.tb.services[m] == h.tb.services[m])
            && h' == h.(tb := h.tb.(services := h'.tb.services))
  {
  }

  /**
   What becomes of a call, from the history alone: one for an owned object goes to the owner; one for a service that
   nobody owns is queued, and starts the service under the name it was last announced by, unless it is starting already;
   any other is refused.
   */
  lemma CallFollowsHistory(h0: Hub, es: seq<Event>, c: ClientId, call: Invocation)
    requires Initial(h0) && LegalRun(h0, es) && Legal(After(h0, es), Asked(c, Call(call)))
    ensures var h := After(h0, es); var h' := Apply(h, Asked(c, Call(call)));
            var owner, service := Owner(es, call.obj), ServiceName(h0.tb.services, es, call.obj);
            && (owner.Some? ==> Enqueues(h, h', owner.value, [Req(Call(call))]) && h'.starts == h.starts)
            && (owner.None? && service.Some? ==>
                  && h'.outs == h.outs && call.obj in h'.tb.services && h'.tb.services[call.obj].state.Starting?
                  && Backlog(h', call.obj) == Backlog(h, call.obj) + [Req(Call(call))]
                  && h'.starts ==
                       h.starts + (if Summoned(h0.tb.services, es, call.obj) then [] else [service.value]))
            && (owner.None? && service.None? ==>
                  && Enqueues(h, h', c, [Resp(Error(Some(call.id), call.obj, "No such object '" + call.obj + "'"))])
                  && h'.starts == h.starts)
  {
    var h := After(h0, es);
    TablesAgree(h0, es);
    TablesFromHistory(h0, es);
    CallArms(h, call.obj);
    assert Lookup(h.tb.objects, call.obj) == Owner(es, call.obj);
    assert NameOf(h.tb.services, call.obj) == ServiceName(h0.tb.services, es, call.obj);
    assert Summoned(h0.tb.services, es, call.obj) <==> IsStarting(h.tb.services, call.obj);
  }

  /** A departure stops the client's services and frees them; other services keep state, name and owner. */
  lemma DepartureResets(h0: Hub, es: seq<Event>, c: ClientId)
    requires Initial(h0) && LegalRun(h0, es) && Legal(After(h0, es), Left(c))
    ensures var h := After(h0, es); var h' := Apply(h, Left(c));
            && h'.outs == h.outs && h'.starts == h.starts && h'.tb.services.Keys == h.tb.services.Keys
            && forall n | n in h.tb.services ::
                 var was, e := h.tb.services[n], h'.tb.services[n];
                 if was.owner == Some(c) then e.state.Stopped? && e.owner.None? && e.pending == []
                 else e.state == was.state && e.owner == was.owner && e.service == was.service
  {
  }
}
