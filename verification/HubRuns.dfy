/** Runs of the broker with atomic handlers: the tables agree, and every call has exactly one outcome. */
module HubRuns {
  import opened Rpc
  import opened Activation
  import opened Sections
  import opened Hub

  datatype Event =
    | Joined(c: ClientId)
    | Asked(c: ClientId, req: Request)
    | Replied(c: ClientId, resp: Response)
    | Left(c: ClientId)

  function Apply(h: Hub, e: Event): Hub {
    match e
    case Joined(c) => Connect(h, c)
    case Asked(c, r) => RequestAt(h, c, r)
    case Replied(_, r) => ResponseAt(h, r)
    case Left(c) => Cleanup(h, c)
  }

  predicate Forwarded(h: Hub, c: ClientId, id: CallId) {
    c in h.outs && exists i | 0 <= i < |h.outs[c]| ::
      h.outs[c][i].Req? && h.outs[c][i].req.Call? && h.outs[c][i].req.call.id == id
  }

  /** Client ids and call ids are fresh, and only connected clients act. */
  predicate Legal(h: Hub, e: Event) {
    if e.Joined? then e.c !in h.outs
    else e.c in h.tb.clients && (e.Asked? && e.req.Call? ==> e.req.call.id !in h.issued)
  }

  /** A reply comes from a client that the call was forwarded to. */
  predicate Honest(h: Hub, e: Event) {
    e.Replied? && ReplyTo(e.resp).Some? ==> Forwarded(h, e.c, ReplyTo(e.resp).value)
  }

  function After(h: Hub, es: seq<Event>): Hub {
    if es == [] then h else Apply(After(h, es[..|es| - 1]), es[|es| - 1])
  }

  predicate LegalRun(h: Hub, es: seq<Event>) {
    es == [] || (LegalRun(h, es[..|es| - 1]) && Legal(After(h, es[..|es| - 1]), es[|es| - 1]))
  }

  predicate HonestRun(h: Hub, es: seq<Event>) {
    es == [] || (HonestRun(h, es[..|es| - 1]) && Honest(After(h, es[..|es| - 1]), es[|es| - 1]))
  }

  ghost predicate Initial(h: Hub) {
    && h.tb.clients == {} && h.tb.objects == map[] && h.tb.subs == map[] && h.tb.calls == map[]
    && (forall n | n in h.tb.services :: h.tb.services[n] == Fresh(h.tb.services[n].service))
    && h.outs == map[] && h.issued == map[]
  }

  // ---------- agreement between the tables ----------

  /** Owners, subscribers and recorded callers are connected. */
  ghost predicate Connected(h: Hub) {
    && h.tb.clients <= h.outs.Keys
    && (forall n | n in h.tb.objects :: h.tb.objects[n] in h.tb.clients)
    && (forall t, c | t in h.tb.subs && c in h.tb.subs[t] :: c in h.tb.clients)
    && (forall id | id in h.tb.calls :: h.tb.calls[id] in h.tb.clients && id in h.issued
         && h.issued[id].caller == h.tb.calls[id])
  }

  /** A running service runs on its owner, its owner owns the object, and an owned object has nothing queued. */
  ghost predicate EntryAgrees(tb: Tables, n: Name, e: ServiceEntry) {
    && (e.state.Running? ==> e.owner == Some(e.state.worker))
    && (e.owner.Some? ==> n in tb.objects && tb.objects[n] == e.owner.value)
    && (n in tb.objects ==> e.pending == [] && !e.state.Starting?)
  }

  ghost predicate DistinctCalls(pending: seq<Request>) {
    forall i, j | 0 <= i < j < |pending| && pending[i].Call? && pending[j].Call? ::
      pending[i].call.id != pending[j].call.id
  }

  /** Queued calls are issued calls for this object, and queued once. */
  ghost predicate QueueAgrees(h: Hub, n: Name, pending: seq<Request>) {
    && (forall i | 0 <= i < |pending| ::
          && pending[i].Call? && pending[i].call.obj == n && pending[i].call.id in h.issued
          && h.issued[pending[i].call.id].obj == n)
    && DistinctCalls(pending)
  }

  ghost predicate Agree(h: Hub) {
    && Connected(h)
    && forall n | n in h.tb.services ::
         EntryAgrees(h.tb, n, h.tb.services[n]) && QueueAgrees(h, n, h.tb.services[n].pending)
  }

  lemma DistinctFirst(first: Request, rest: seq<Request>)
    requires DistinctCalls(rest) && forall r | r in rest && r.Call? && first.Call? :: r.call.id != first.call.id
    ensures DistinctCalls([first] + rest)
  {
  }

  lemma {:induction false} RetainedDistinct(pending: seq<Request>, active: set<CallId>)
    requires DistinctCalls(pending)
    ensures DistinctCalls(Retained(pending, active))
  {
    if pending != [] {
      var first, rest := pending[0], Retained(pending[1..], active);
      RetainedDistinct(pending[1..], active);
      RetainedExactly(pending[1..], active);
      assert [] + rest == rest;
      forall r | r in rest && r.Call? && first.Call? ensures r.call.id != first.call.id { assert r in pending[1..]; }
      DistinctFirst(first, rest);
    }
  }

  lemma {:induction false} RetainedAgrees(h: Hub, n: Name, pending: seq<Request>, active: set<CallId>)
    requires QueueAgrees(h, n, pending)
    ensures QueueAgrees(h, n, Retained(pending, active))
  {
    RetainedDistinct(pending, active);
    RetainedExactly(pending, active);
    var kept := Retained(pending, active);
    forall i | 0 <= i < |kept| ensures kept[i] in pending { assert kept[i] in kept; }
  }

  /** The code's fall-through for a worker without a sender, and its arm for a running service, are never taken. */
  lemma CallArms(h: Hub, n: Name)
    requires Agree(h)
    ensures n in h.tb.objects ==> WorkerFor(h.tb, n) == Some(h.tb.objects[n])
    ensures n !in h.tb.objects && n in h.tb.services ==> !h.tb.services[n].state.Running?
  {
    if n in h.tb.services { assert EntryAgrees(h.tb, n, h.tb.services[n]); }
  }

  /** The entry of a stopped or starting service with one more call queued. */
  function Queued(e: ServiceEntry, call: Invocation): ServiceEntry {
    e.(state := Starting, pending := e.pending + [Call(call)])
  }

  /** What `handle_call` does to the tables. */
  ghost predicate Accepts(h: Hub, h': Hub, c: ClientId, call: Invocation) {
    && h'.tb == h.tb.(calls := h.tb.calls[call.id := c], services := h'.tb.services)
    && h'.issued == h.issued[call.id := Issue(c, call.obj)] && h'.outs.Keys == h.outs.Keys
    && h'.tb.services == if call.obj !in h.tb.objects && call.obj in h.tb.services
                         then h.tb.services[call.obj := Queued(h.tb.services[call.obj], call)] else h.tb.services
  }

  lemma CallAccepts(h: Hub, c: ClientId, call: Invocation)
    requires Agree(h) && c in h.tb.clients
    ensures Accepts(h, CallAt(h, c, call), c, call)
  {
    CallArms(h, call.obj);
  }

  lemma AcceptedAgrees(h: Hub, h': Hub, c: ClientId, call: Invocation)
    requires Agree(h) && c in h.tb.clients && call.id !in h.issued && Accepts(h, h', c, call)
    ensures Agree(h')
  {
    forall n | n in h'.tb.services
      ensures EntryAgrees(h'.tb, n, h'.tb.services[n]) && QueueAgrees(h', n, h'.tb.services[n].pending)
    {
      assert EntryAgrees(h.tb, n, h.tb.services[n]) && QueueAgrees(h, n, h.tb.services[n].pending);
    }
  }

  lemma {:induction false} CallAgrees(h: Hub, c: ClientId, call: Invocation)
    requires Agree(h) && c in h.tb.clients && call.id !in h.issued
    ensures Agree(CallAt(h, c, call))
  {
    CallAccepts(h, c, call);
    AcceptedAgrees(h, CallAt(h, c, call), c, call);
  }

  lemma RegisteringAgrees(h: Hub, c: ClientId, n: Name)
    requires Agree(h) && c in h.tb.clients
    ensures Agree(RegisterObjectAt(h, c, n))
  {
    RegisterTables(h, c, n);
    RegisteredAgrees(h, RegisterObjectAt(h, c, n), c, n);
  }

  /** What `handle_register_object` does to the tables. */
  ghost predicate Registers(h: Hub, h': Hub, c: ClientId, n: Name) {
    && h'.tb == h.tb.(objects := h.tb.objects[n := c], services := h'.tb.services)
    && h'.issued == h.issued && h'.outs.Keys == h.outs.Keys
    && h'.tb.services == if n in h.tb.services then h.tb.services[n := Register(h.tb.services[n], c)] else h.tb.services
  }

  lemma RegisterTables(h: Hub, c: ClientId, n: Name)
    ensures Registers(h, RegisterObjectAt(h, c, n), c, n)
  {
  }

  lemma RegisteredAgrees(h: Hub, h': Hub, c: ClientId, n: Name)
    requires Agree(h) && c in h.tb.clients && Registers(h, h', c, n)
    ensures Agree(h')
  {
    forall m | m in h'.tb.services
      ensures EntryAgrees(h'.tb, m, h'.tb.services[m]) && QueueAgrees(h', m, h'.tb.services[m].pending)
    {
      assert EntryAgrees(h.tb, m, h.tb.services[m]) && QueueAgrees(h, m, h.tb.services[m].pending);
    }
  }

  lemma AnnouncingAgrees(h: Hub, c: ClientId, n: Name, sv: Name)
    requires Agree(h)
    ensures Agree(RegisterServiceAt(h, c, n, sv))
  {
    var h' := RegisterServiceAt(h, c, n, sv);
    forall m | m in h'.tb.services
      ensures EntryAgrees(h'.tb, m, h'.tb.services[m]) && QueueAgrees(h', m, h'.tb.services[m].pending)
    {
      if m in h.tb.services {
        assert EntryAgrees(h.tb, m, h.tb.services[m]) && QueueAgrees(h, m, h.tb.services[m].pending);
      }
    }
  }

  /** Most events leave services, objects and the record of issued calls alone. */
  lemma OthersKeepServices(h: Hub, e: Event)
    requires e.Joined? || e.Replied? || (e.Asked? && (e.req.Subscribe? || e.req.Publish? || e.req.HasObject?))
    ensures var h' := Apply(h, e);
            h'.tb.services == h.tb.services && h'.tb.objects == h.tb.objects && h'.issued == h.issued
  {
  }

  lemma OthersStayConnected(h: Hub, e: Event)
    requires Connected(h) && Legal(h, e)
    requires e.Joined? || e.Replied? || (e.Asked? && (e.req.Subscribe? || e.req.Publish? || e.req.HasObject?))
    ensures Connected(Apply(h, e))
  {
  }

  /** Events that change neither services, objects, nor the record of issued calls. */
  lemma OtherAgrees(h: Hub, e: Event)
    requires Agree(h) && Legal(h, e)
    requires e.Joined? || e.Replied? || (e.Asked? && (e.req.Subscribe? || e.req.Publish? || e.req.HasObject?))
    ensures Agree(Apply(h, e))
  {
    var h' := Apply(h, e);
    OthersKeepServices(h, e);
    OthersStayConnected(h, e);
    forall n | n in h'.tb.services
      ensures EntryAgrees(h'.tb, n, h'.tb.services[n]) && QueueAgrees(h', n, h'.tb.services[n].pending)
    {
      assert EntryAgrees(h.tb, n, h.tb.services[n]) && QueueAgrees(h, n, h.tb.services[n].pending);
    }
  }

  lemma CleanupAgrees(h: Hub, c: ClientId)
    requires Agree(h)
    ensures Agree(Cleanup(h, c))
  {
    var h' := Cleanup(h, c);
    var active := WithoutCallsOf(h.tb.calls, c).Keys;
    forall n | n in h'.tb.services
      ensures EntryAgrees(h'.tb, n, h'.tb.services[n]) && QueueAgrees(h', n, h'.tb.services[n].pending)
    {
      assert EntryAgrees(h.tb, n, h.tb.services[n]) && QueueAgrees(h, n, h.tb.services[n].pending);
      RetainedAgrees(h, n, h.tb.services[n].pending, active);
    }
  }

  lemma {:induction false} AgreeStep(h: Hub, e: Event)
    requires Agree(h) && Legal(h, e)
    ensures Agree(Apply(h, e))
  {
    match e
    case Left(c) => CleanupAgrees(h, c);
    case Asked(c, Call(call)) => CallAgrees(h, c, call);
    case Asked(c, RegisterObject(n)) => RegisteringAgrees(h, c, n);
    case Asked(c, RegisterService(n, sv)) => AnnouncingAgrees(h, c, n, sv);
    case _ => OtherAgrees(h, e);
  }

  /** Cross-table agreement in every state of every run, whoever replies to what. */
  lemma {:induction false} TablesAgree(h: Hub, es: seq<Event>)
    requires Agree(h) && LegalRun(h, es)
    ensures Agree(After(h, es))
  {
    if es != [] {
      TablesAgree(h, es[..|es| - 1]);
      AgreeStep(After(h, es[..|es| - 1]), es[|es| - 1]);
    }
  }

  /** So the code's fall-through and its arm for a running service are dead in every reachable state. */
  lemma {:induction false} ArmsNeverTaken(h0: Hub, es: seq<Event>, n: Name)
    requires Initial(h0) && LegalRun(h0, es)
    ensures var h := After(h0, es); n in h.tb.objects ==> WorkerFor(h.tb, n) == Some(h.tb.objects[n])
    ensures var h := After(h0, es); n !in h.tb.objects && n in h.tb.services ==> !h.tb.services[n].state.Running?
  {
    TablesAgree(h0, es);
    CallArms(After(h0, es), n);
  }
}
