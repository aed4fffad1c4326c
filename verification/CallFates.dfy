/** What becomes of a call, with atomic handlers: one outcome on acceptance, and no queued call lost. */
module CallFates {
  import opened Rpc
  import opened Sections
  import opened Hub
  import opened HubRuns

  // ---------- one outcome ----------

  /** The call has gone to the object's owner, and nothing else was sent or queued. */
  ghost predicate WasForwarded(h: Hub, h': Hub, call: Invocation) {
    && call.obj in h.tb.objects && h.tb.objects[call.obj] in h.outs
    && h'.outs == h.outs[h.tb.objects[call.obj] := h.outs[h.tb.objects[call.obj]] + [Req(Call(call))]]
    && h'.tb.services == h.tb.services && h'.starts == h.starts
  }

  /** The call is last in its object's queue, a stopped service was started, and nothing was sent. */
  ghost predicate WasQueued(h: Hub, h': Hub, call: Invocation) {
    && call.obj in h.tb.services && h'.outs == h.outs
    && h'.tb.services == h.tb.services[call.obj := Queued(h.tb.services[call.obj], call)]
    && var e := h.tb.services[call.obj];
       h'.starts == h.starts + (if e.state.Stopped? then [e.service] else [])
  }

  /** The caller got one refusal, and nothing else was sent or queued. */
  ghost predicate WasRefused(h: Hub, h': Hub, c: ClientId, call: Invocation) {
    && call.obj !in h.tb.objects && call.obj !in h.tb.services && c in h.outs
    && h'.outs == h.outs[c := h.outs[c] + [NoSuchObject(call)]]
    && h'.tb.services == h.tb.services && h'.starts == h.starts
  }

  /** In every reachable state an accepted call is forwarded, queued, or refused: exactly one of the three. */
  lemma OneOutcome(h: Hub, c: ClientId, call: Invocation)
    requires Agree(h) && c in h.tb.clients && call.id !in h.issued
    ensures var h' := CallAt(h, c, call);
            One(WasForwarded(h, h', call)) + One(WasQueued(h, h', call)) + One(WasRefused(h, h', c, call)) == 1
    ensures var h' := CallAt(h, c, call); call.id in h'.tb.calls && h'.tb.calls[call.id] == c
  {
    var h' := CallAt(h, c, call);
    CallArms(h, call.obj);
    if call.obj in h.tb.objects {
      var log := h.outs[h.tb.objects[call.obj]];
      assert |h'.outs[h.tb.objects[call.obj]]| == |log| + 1;
    } else if call.obj !in h.tb.services {
      assert |h'.outs[c]| == |h.outs[c]| + 1;
    }
  }

  /** So along every run: whatever came before, a new call has one outcome. */
  lemma {:induction false} EveryCallOneOutcome(h0: Hub, es: seq<Event>, c: ClientId, call: Invocation)
    requires Initial(h0) && LegalRun(h0, es) && Legal(After(h0, es), Asked(c, Call(call)))
    ensures var h := After(h0, es); var h' := CallAt(h, c, call);
            && One(WasForwarded(h, h', call)) + One(WasQueued(h, h', call)) + One(WasRefused(h, h', c, call)) == 1
            && call.id in h'.tb.calls && h'.tb.calls[call.id] == c
  {
    TablesAgree(h0, es);
    OneOutcome(After(h0, es), c, call);
  }

  // ---------- no queued call is lost ----------

  predicate IsQueued(h: Hub, n: Name, id: CallId) {
    n in h.tb.services && exists r :: r in h.tb.services[n].pending && r.Call? && r.call.id == id
  }

  /** With honest replies, a queued call is recorded for its issuer and has been forwarded to nobody. */
  ghost predicate Kept(h: Hub) {
    && Agree(h)
    && (forall n, id | IsQueued(h, n, id) :: id in h.tb.calls)
    && (forall c, id | Forwarded(h, c, id) :: id in h.issued && forall n :: !IsQueued(h, n, id))
  }

  lemma QueuedIssued(h: Hub, n: Name, id: CallId)
    requires Agree(h) && IsQueued(h, n, id)
    ensures id in h.issued && h.issued[id].obj == n
  {
    assert QueueAgrees(h, n, h.tb.services[n].pending);
  }

  /** Logs only grow, and these are the messages that an event adds. */
  ghost predicate Sends(h: Hub, h': Hub, c: ClientId, ps: seq<Packet>) {
    && h'.outs.Keys >= h.outs.Keys
    && forall d | d in h'.outs ::
         if d in h.outs then h'.outs[d] == h.outs[d] || (d == c && h'.outs[d] == h.outs[d] + ps) else h'.outs[d] == []
  }

  lemma ForwardedBySending(h: Hub, h': Hub, c: ClientId, ps: seq<Packet>, d: ClientId, id: CallId)
    requires Sends(h, h', c, ps) && Forwarded(h', d, id)
    ensures Forwarded(h, d, id) || (d == c && exists r :: r in ps && r.Req? && r.req.Call? && r.req.call.id == id)
  {
    var i :| 0 <= i < |h'.outs[d]| && h'.outs[d][i].Req? && h'.outs[d][i].req.Call? && h'.outs[d][i].req.call.id == id;
    if d in h.outs {
      if i < |h.outs[d]| { assert h.outs[d][i] == h'.outs[d][i]; } else { assert h'.outs[d][i] in ps; }
    }
  }

  /** How to keep `Kept`: queued ids are old or fresh, and recorded; calls sent are queued nowhere. */
  lemma KeptBy(h: Hub, h': Hub, c: ClientId, ps: seq<Packet>)
    requires Kept(h) && Agree(h') && Sends(h, h', c, ps)
    requires forall id | id in h.issued :: id in h'.issued
    requires forall n, id | IsQueued(h', n, id) :: id in h'.tb.calls && (IsQueued(h, n, id) || id !in h.issued)
    requires forall r | r in ps && r.Req? && r.req.Call? ::
               r.req.call.id in h'.issued && forall n :: !IsQueued(h', n, r.req.call.id)
    ensures Kept(h')
  {
    forall d, id | Forwarded(h', d, id) ensures id in h'.issued && forall n :: !IsQueued(h', n, id) {
      ForwardedBySending(h, h', c, ps, d, id);
    }
  }

  lemma KeptByCall(h: Hub, c: ClientId, call: Invocation)
    requires Kept(h) && c in h.tb.clients && call.id !in h.issued
    ensures Kept(CallAt(h, c, call))
  {
    var h' := CallAt(h, c, call);
    CallAgrees(h, c, call);
    CallAccepts(h, c, call);
    OneOutcome(h, c, call);
    forall n, id | IsQueued(h', n, id) ensures id in h'.tb.calls && (IsQueued(h, n, id) || id == call.id) {
      var r :| r in h'.tb.services[n].pending && r.Call? && r.call.id == id;
      if r != Call(call) { assert IsQueued(h, n, id); }
    }
    if WasForwarded(h, h', call) {
      forall n ensures !IsQueued(h', n, call.id) { if IsQueued(h, n, call.id) { QueuedIssued(h, n, call.id); } }
      KeptBy(h, h', h.tb.objects[call.obj], [Req(Call(call))]);
    } else if WasRefused(h, h', c, call) {
      KeptBy(h, h', c, [NoSuchObject(call)]);
    } else {
      KeptBy(h, h', c, []);
    }
  }

  lemma KeptByRegistration(h: Hub, w: ClientId, n: Name)
    requires Kept(h) && w in h.tb.clients
    ensures Kept(RegisterObjectAt(h, w, n))
  {
    var h' := RegisterObjectAt(h, w, n);
    RegisteringAgrees(h, w, n);
    var pending := if n in h.tb.services then h.tb.services[n].pending else [];
    var ps := Requests(pending) + [Resp(Registered(n))];
    assert Requests([]) + [Resp(Registered(n))] == [Resp(Registered(n))];
    assert Sends(h, h', w, ps);
    forall m, id | IsQueued(h', m, id) ensures m != n && IsQueued(h, m, id) {}
    forall r | r in ps && r.Req? && r.req.Call?
      ensures r.req.call.id in h'.issued && forall m :: !IsQueued(h', m, r.req.call.id)
    {
      assert r.req in pending && IsQueued(h, n, r.req.call.id);
      QueuedIssued(h, n, r.req.call.id);
      forall m ensures !IsQueued(h', m, r.req.call.id) {
        if IsQueued(h', m, r.req.call.id) { QueuedIssued(h, m, r.req.call.id); }
      }
    }
    KeptBy(h, h', w, ps);
  }

  lemma KeptByService(h: Hub, c: ClientId, n: Name, sv: Name)
    requires Kept(h) && c in h.tb.clients
    ensures Kept(RegisterServiceAt(h, c, n, sv))
  {
    var h' := RegisterServiceAt(h, c, n, sv);
    AnnouncingAgrees(h, c, n, sv);
    forall m, id | IsQueued(h', m, id) ensures IsQueued(h, m, id) {}
    KeptBy(h, h', c, []);
  }

  lemma KeptByCleanup(h: Hub, c: ClientId)
    requires Kept(h)
    ensures Kept(Cleanup(h, c))
    ensures forall n, id | IsQueued(h, n, id) && !IsQueued(Cleanup(h, c), n, id) ::
        id in h.issued && h.issued[id].caller == c
  {
    var h' := Cleanup(h, c);
    CleanupAgrees(h, c);
    var active := WithoutCallsOf(h.tb.calls, c).Keys;
    forall n, id | IsQueued(h', n, id) ensures IsQueued(h, n, id) && id in active {
      var r :| r in h'.tb.services[n].pending && r.Call? && r.call.id == id;
      RetainedExactly(h.tb.services[n].pending, active);
    }
    forall n, id | IsQueued(h, n, id) && !IsQueued(h', n, id) ensures id in h.issued && h.issued[id].caller == c {
      var r :| r in h.tb.services[n].pending && r.Call? && r.call.id == id;
      assert EntryAgrees(h.tb, n, h.tb.services[n]);
      RetainedExactly(h.tb.services[n].pending, active);
    }
    KeptBy(h, h', c, []);
  }

  lemma KeptByOthers(h: Hub, e: Event)
    requires Kept(h) && Legal(h, e) && Honest(h, e)
    requires e.Joined? || e.Replied? || (e.Asked? && (e.req.Subscribe? || e.req.HasObject?))
    ensures Kept(Apply(h, e))
  {
    var h' := Apply(h, e);
    OtherAgrees(h, e);
    assert h'.tb.services == h.tb.services;
    forall n, id | IsQueued(h', n, id) ensures IsQueued(h, n, id) {}
    match e
    case Asked(c, Subscribe(t)) => KeptBy(h, h', c, [Resp(Subscribed(t))]);
    case Asked(c, HasObject(n)) => KeptBy(h, h', c, [Resp(HasObjectResult(n, n in h.tb.objects))]);
    case Replied(c, r) =>
      if ReplyTo(r).Some? && ReplyTo(r).value in h.tb.calls { KeptBy(h, h', h.tb.calls[ReplyTo(r).value], [Resp(r)]); }
    case _ => KeptBy(h, h', e.c, []);
  }

  lemma KeptByPublish(h: Hub, t: Topic, args: Value)
    requires Kept(h) && Agree(PublishAt(h, t, args))
    ensures Kept(PublishAt(h, t, args))
  {
    var h' := PublishAt(h, t, args);
    forall n, id | IsQueued(h', n, id) ensures IsQueued(h, n, id) {}
    forall d, id | Forwarded(h', d, id) ensures Forwarded(h, d, id) {
      var i :| 0 <= i < |h'.outs[d]| && h'.outs[d][i].Req? && h'.outs[d][i].req.Call?
          && h'.outs[d][i].req.call.id == id;
      assert i < |h.outs[d]| && h.outs[d][i] == h'.outs[d][i];
    }
  }

  lemma KeptStep(h: Hub, e: Event)
    requires Kept(h) && Legal(h, e) && Honest(h, e)
    ensures Kept(Apply(h, e))
  {
    match e
    case Left(c) => KeptByCleanup(h, c);
    case Asked(c, Call(call)) => KeptByCall(h, c, call);
    case Asked(c, RegisterObject(n)) => KeptByRegistration(h, c, n);
    case Asked(c, RegisterService(n, sv)) => KeptByService(h, c, n, sv);
    case Asked(c, Publish(t, args)) => AgreeStep(h, e); KeptByPublish(h, t, args);
    case _ => KeptByOthers(h, e);
  }

  lemma {:induction false} QueuedStayRecorded(h: Hub, es: seq<Event>)
    requires Kept(h) && LegalRun(h, es) && HonestRun(h, es)
    ensures Kept(After(h, es))
  {
    if es != [] {
      QueuedStayRecorded(h, es[..|es| - 1]);
      KeptStep(After(h, es[..|es| - 1]), es[|es| - 1]);
    }
  }

  /**
   Cross-table agreement from the start of any run: owners, subscribers and recorded callers are connected; a service
   with calls queued, or starting, is unowned; one that is running runs on the connected owner of its object; no call
   is queued twice; and, with honest replies, every queued call is recorded for the client that issued it.
   */
  lemma {:induction false} AgreementFromStart(h0: Hub, es: seq<Event>)
    requires Initial(h0) && LegalRun(h0, es)
    ensures var tb := After(h0, es).tb;
            && (forall n | n in tb.objects :: tb.objects[n] in tb.clients)
            && (forall t, c | t in tb.subs && c in tb.subs[t] :: c in tb.clients)
            && (forall id | id in tb.calls :: tb.calls[id] in tb.clients)
    ensures var tb := After(h0, es).tb; forall n | n in tb.services ::
            var e := tb.services[n];
            && (e.pending != [] || e.state.Starting? ==> n !in tb.objects && e.owner.None?)
            && (e.state.Running? ==>
                  && e.owner == Some(e.state.worker) && n in tb.objects && tb.objects[n] == e.state.worker
                  && e.state.worker in tb.clients && e.pending == [])
            && (forall i, j | 0 <= i < j < |e.pending| && e.pending[i].Call? && e.pending[j].Call? ::
                  e.pending[i].call.id != e.pending[j].call.id)
    ensures var h := After(h0, es); forall m, n, id | IsQueued(h, m, id) && IsQueued(h, n, id) :: m == n
    ensures var h := After(h0, es); HonestRun(h0, es) ==>
              forall n, id | IsQueued(h, n, id) ::
                  id in h.tb.calls && id in h.issued && h.tb.calls[id] == h.issued[id].caller
  {
    TablesAgree(h0, es);
    var h := After(h0, es);
    forall n | n in h.tb.services ensures EntryAgrees(h.tb, n, h.tb.services[n]) {}
    forall n, id | IsQueued(h, n, id) ensures id in h.issued && h.issued[id].obj == n { QueuedIssued(h, n, id); }
    if HonestRun(h0, es) { QueuedStayRecorded(h0, es); }
  }

  /** The `clear()` on an owner's disconnect never discards anything, in any reachable state. */
  lemma {:induction false} ClearDiscardsNothing(h0: Hub, es: seq<Event>, n: Name, c: ClientId)
    requires Initial(h0) && LegalRun(h0, es)
    requires var h := After(h0, es); n in h.tb.services && h.tb.services[n].owner == Some(c)
    ensures After(h0, es).tb.services[n].pending == []
  {
    TablesAgree(h0, es);
    assert EntryAgrees(After(h0, es).tb, n, After(h0, es).tb.services[n]);
  }

  /** With honest workers, a queued call leaves its queue only to a registrant, or because its caller has left. */
  lemma {:induction false} NoQueuedCallLost(h0: Hub, es: seq<Event>, e: Event, n: Name, id: CallId)
    requires Initial(h0) && LegalRun(h0, es) && HonestRun(h0, es)
    requires var h := After(h0, es); Legal(h, e) && Honest(h, e) && IsQueued(h, n, id)
    ensures var h := After(h0, es); var h' := Apply(h, e);
            || IsQueued(h', n, id)
            || (e.Asked? && e.req == RegisterObject(n) && Forwarded(h', e.c, id))
            || (id in h.issued && e == Left(h.issued[id].caller))
  {
    QueuedStayRecorded(h0, es);
    StaysOrGoes(After(h0, es), e, n, id);
  }

  lemma StaysOrGoes(h: Hub, e: Event, n: Name, id: CallId)
    requires Kept(h) && Legal(h, e) && IsQueued(h, n, id)
    ensures var h' := Apply(h, e);
            || IsQueued(h', n, id)
            || (e.Asked? && e.req == RegisterObject(n) && Forwarded(h', e.c, id))
            || (id in h.issued && e == Left(h.issued[id].caller))
  {
    var h' := Apply(h, e);
    var r :| r in h.tb.services[n].pending && r.Call? && r.call.id == id;
    match e
    case Left(c) => KeptByCleanup(h, c);
    case Asked(c, Call(call)) => CallAccepts(h, c, call); assert r in h'.tb.services[n].pending;
    case Asked(c, RegisterObject(m)) =>
      if m == n { FlushForwards(h, c, n, r); } else { assert r in h'.tb.services[n].pending; }
    case Asked(c, RegisterService(m, sv)) => assert r in h'.tb.services[n].pending;
    case _ =>
      OthersKeepServices(h, e);
      assert r in h'.tb.services[n].pending;
  }

  /** Registering an object forwards what is queued for it. */
  lemma FlushForwards(h: Hub, c: ClientId, n: Name, r: Request)
    requires c in h.tb.clients && c in h.outs && n in h.tb.services && r in h.tb.services[n].pending && r.Call?
    ensures Forwarded(RegisterObjectAt(h, c, n), c, r.call.id)
  {
    var pending := h.tb.services[n].pending;
    var i :| 0 <= i < |pending| && pending[i] == r;
    assert RegisterObjectAt(h, c, n).outs[c][|h.outs[c]| + i] == Req(r);
  }
}
