/** Calls reach a worker in the order they were issued, across service activation (atomic handlers). */
module Fifo {
  import opened Rpc
  import opened Sections
  import opened Hub
  import opened HubRuns
  import opened CallFates

  /** An issued call: its id and who waits for it. */
  datatype Ticket = Ticket(id: CallId, caller: ClientId)

  predicate IsCallFor(e: Event, n: Name) {
    e.Asked? && e.req.Call? && e.req.call.obj == n
  }

  /** The calls for `n` issued in a run, in order. */
  function IssuedFor(es: seq<Event>, n: Name): seq<Ticket> {
    if es == [] then []
    else
      var e := es[|es| - 1];
      IssuedFor(es[..|es| - 1], n) + (if IsCallFor(e, n) then [Ticket(e.req.call.id, e.c)] else [])
  }

  /** The clients that leave in a run. */
  function Leavers(es: seq<Event>): set<ClientId> {
    set e | e in es && e.Left? :: e.c
  }

  /** The tickets whose caller is not among `gone`, in order. */
  function Staying(ts: seq<Ticket>, gone: set<ClientId>): seq<Ticket> {
    if ts == [] then [] else (if ts[0].caller in gone then [] else [ts[0]]) + Staying(ts[1..], gone)
  }

  function Ids(ts: seq<Ticket>): (ids: seq<CallId>)
    ensures |ids| == |ts|
  {
    seq(|ts|, i requires 0 <= i < |ts| => ts[i].id)
  }

  function TicketsOf(issued: map<CallId, Issue>, pending: seq<Request>): seq<Ticket> {
    if pending == [] then []
    else (if pending[0].Call? && pending[0].call.id in issued
          then [Ticket(pending[0].call.id, issued[pending[0].call.id].caller)] else [])
         + TicketsOf(issued, pending[1..])
  }

  function QueueFor(h: Hub, n: Name): seq<Ticket> {
    if n in h.tb.services then TicketsOf(h.issued, h.tb.services[n].pending) else []
  }

  /** The ids of the calls for `n` in a channel's log, in order. */
  function CallsFor(log: seq<Packet>, n: Name): seq<CallId> {
    if log == [] then []
    else
      var p := log[|log| - 1];
      CallsFor(log[..|log| - 1], n) + (if p.Req? && p.req.Call? && p.req.call.obj == n then [p.req.call.id] else [])
  }

  // ---------- lists ----------

  lemma {:induction false} StayingAppend(ts: seq<Ticket>, t: Ticket, gone: set<ClientId>)
    ensures Staying(ts + [t], gone) == Staying(ts, gone) + (if t.caller in gone then [] else [t])
  {
    if ts == [] {
      assert [] + [t] == [t] && [t][1..] == [];
    } else {
      StayingAppend(ts[1..], t, gone);
      assert (ts + [t])[1..] == ts[1..] + [t] && (ts + [t])[0] == ts[0];
      var one := if ts[0].caller in gone then [] else [ts[0]];
      var rest, last := Staying(ts[1..], gone), if t.caller in gone then [] else [t];
      assert one + (rest + last) == (one + rest) + last;
    }
  }

  lemma {:induction false} StayingTwice(ts: seq<Ticket>, a: set<ClientId>, b: set<ClientId>)
    ensures Staying(Staying(ts, a), b) == Staying(ts, a + b)
  {
    if ts != [] {
      StayingTwice(ts[1..], a, b);
      var rest := Staying(ts[1..], a);
      assert ([ts[0]] + rest)[1..] == rest && [] + rest == rest;
    }
  }

  lemma {:induction false} StayingAll(ts: seq<Ticket>)
    ensures Staying(ts, {}) == ts
  {
    if ts != [] { StayingAll(ts[1..]); }
  }

  lemma {:induction false} TicketsAppend(issued: map<CallId, Issue>, pending: seq<Request>, call: Invocation)
    requires call.id in issued
    ensures TicketsOf(issued, pending + [Call(call)]) ==
            TicketsOf(issued, pending) + [Ticket(call.id, issued[call.id].caller)]
  {
    if pending == [] {
      assert [] + [Call(call)] == [Call(call)] && [Call(call)][1..] == [];
    } else {
      assert (pending + [Call(call)])[1..] == pending[1..] + [Call(call)];
      TicketsAppend(issued, pending[1..], call);
    }
  }

  lemma {:induction false} TicketsLater(issued: map<CallId, Issue>, issued': map<CallId, Issue>, pending: seq<Request>)
    requires forall r | r in pending :: r.Call? && r.call.id in issued
    requires forall id | id in issued :: id in issued' && issued'[id] == issued[id]
    ensures TicketsOf(issued', pending) == TicketsOf(issued, pending)
  {
    if pending != [] {
      assert pending[0] in pending;
      TicketsLater(issued, issued', pending[1..]);
    }
  }

  /** The drain-and-push loop of `cleanup_client` keeps exactly the calls of the others. */
  lemma {:induction false} RetainedStay(issued: map<CallId, Issue>, pending: seq<Request>, active: set<CallId>,
      c: ClientId)
    requires forall r | r in pending :: r.Call? && r.call.id in issued
    requires forall r | r in pending && r.Call? && r.call.id in issued ::
               r.call.id in active <==> issued[r.call.id].caller != c
    ensures TicketsOf(issued, Retained(pending, active)) == Staying(TicketsOf(issued, pending), {c})
  {
    if pending != [] {
      assert pending[0] in pending;
      RetainedStay(issued, pending[1..], active, c);
      var rest, tickets := Retained(pending[1..], active), TicketsOf(issued, pending[1..]);
      var t := Ticket(pending[0].call.id, issued[pending[0].call.id].caller);
      assert ([pending[0]] + rest)[1..] == rest && [] + rest == rest;
      assert ([t] + tickets)[1..] == tickets && ([t] + tickets)[0] == t;
      assert TicketsOf(issued, pending) == [t] + tickets;
    }
  }

  lemma {:induction false} CallsForAppend(log: seq<Packet>, ps: seq<Packet>, n: Name)
    ensures CallsFor(log + ps, n) == CallsFor(log, n) + CallsFor(ps, n)
  {
    if ps == [] {
      assert log + ps == log;
    } else {
      assert (log + ps)[..|log + ps| - 1] == log + ps[..|ps| - 1];
      CallsForAppend(log, ps[..|ps| - 1], n);
    }
  }

  // ---------- the backlog of an unowned service ----------

  /** Nobody registers `n` in the run. */
  predicate NoRegistration(es: seq<Event>, n: Name) {
    forall e | e in es :: !(e.Asked? && e.req == RegisterObject(n))
  }

  /** `n` is an activatable service that no client owns. */
  predicate Unowned(h: Hub, n: Name) {
    n in h.tb.services && n !in h.tb.objects
  }

  ghost predicate GoneOnes(h: Hub, gone: set<ClientId>) {
    forall c | c in gone :: c in h.outs && c !in h.tb.clients
  }

  lemma QueueIssued(h: Hub, n: Name)
    requires Agree(h) && n in h.tb.services
    ensures forall r | r in h.tb.services[n].pending :: r.Call? && r.call.id in h.issued && r.call.obj == n
  {
    assert QueueAgrees(h, n, h.tb.services[n].pending);
  }

  lemma QueueAfterCall(h: Hub, c: ClientId, call: Invocation, n: Name)
    requires Kept(h) && Legal(h, Asked(c, Call(call))) && Unowned(h, n)
    ensures var h' := CallAt(h, c, call);
            && Unowned(h', n)
            && QueueFor(h', n) == QueueFor(h, n) + (if call.obj == n then [Ticket(call.id, c)] else [])
  {
    CallAccepts(h, c, call);
    QueueIssued(h, n);
    var h', pending := CallAt(h, c, call), h.tb.services[n].pending;
    TicketsLater(h.issued, h'.issued, pending);
    if call.obj == n { TicketsAppend(h'.issued, pending, call); }
  }

  lemma QueueAfterLeave(h: Hub, c: ClientId, n: Name)
    requires Kept(h) && Unowned(h, n)
    ensures Unowned(Cleanup(h, c), n) && QueueFor(Cleanup(h, c), n) == Staying(QueueFor(h, n), {c})
  {
    QueueIssued(h, n);
    assert EntryAgrees(h.tb, n, h.tb.services[n]);
    var pending, active := h.tb.services[n].pending, WithoutCallsOf(h.tb.calls, c).Keys;
    forall r | r in pending && r.Call? && r.call.id in h.issued
      ensures r.call.id in active <==> h.issued[r.call.id].caller != c
    {
      assert IsQueued(h, n, r.call.id);
    }
    RetainedStay(h.issued, pending, active, c);
  }

  lemma QueueAfterOther(h: Hub, e: Event, n: Name)
    requires Kept(h) && Legal(h, e) && Unowned(h, n) && !e.Left?
    requires e.Asked? ==> !e.req.Call? && e.req != RegisterObject(n)
    ensures Unowned(Apply(h, e), n) && QueueFor(Apply(h, e), n) == QueueFor(h, n)
  {
    var h' := Apply(h, e);
    if !(e.Asked? && (e.req.RegisterObject? || e.req.RegisterService?)) { OthersKeepServices(h, e); }
    assert h'.issued == h.issued && n in h'.tb.services && h'.tb.services[n].pending == h.tb.services[n].pending;
  }

  lemma GoneStep(h: Hub, e: Event, gone: set<ClientId>)
    requires GoneOnes(h, gone) && Legal(h, e) && h.tb.clients <= h.outs.Keys
    ensures GoneOnes(Apply(h, e), Departed(gone, e))
  {
  }

  /** The clients gone after one more event. */
  function Departed(gone: set<ClientId>, e: Event): set<ClientId> {
    if e.Left? then gone + {e.c} else gone
  }

  lemma LeaversStep(es: seq<Event>)
    requires es != []
    ensures Leavers(es) == Departed(Leavers(es[..|es| - 1]), es[|es| - 1])
  {
    var front, e := es[..|es| - 1], es[|es| - 1];
    assert es == front + [e];
    forall c ensures c in Leavers(es) <==> c in Leavers(front) || (e.Left? && c == e.c) {
      if c in Leavers(front) { assert Left(c) in es; }
      if c in Leavers(es) { assert Left(c) in es; }
      if e.Left? && c == e.c { assert Left(c) in es; }
    }
  }

  /** The tickets to account for after one more event. */
  function Listed(ts: seq<Ticket>, e: Event, n: Name): seq<Ticket> {
    if IsCallFor(e, n) then ts + [Ticket(e.req.call.id, e.c)] else ts
  }

  lemma BacklogStep(h: Hub, e: Event, n: Name, ts: seq<Ticket>, gone: set<ClientId>)
    requires Kept(h) && Unowned(h, n) && GoneOnes(h, gone) && QueueFor(h, n) == Staying(ts, gone)
    requires Legal(h, e) && !(e.Asked? && e.req == RegisterObject(n))
    ensures Unowned(Apply(h, e), n) && GoneOnes(Apply(h, e), Departed(gone, e))
    ensures QueueFor(Apply(h, e), n) == Staying(Listed(ts, e, n), Departed(gone, e))
  {
    GoneStep(h, e, gone);
    if e.Left? {
      QueueAfterLeave(h, e.c, n);
      StayingTwice(ts, gone, {e.c});
    } else if e.Asked? && e.req.Call? {
      QueueAfterCall(h, e.c, e.req.call, n);
      StayingAppend(ts, Ticket(e.req.call.id, e.c), gone);
    } else {
      QueueAfterOther(h, e, n);
    }
  }

  lemma NothingIssued(ts: seq<Ticket>, n: Name)
    ensures Staying(ts + IssuedFor([], n), Leavers([])) == ts && Leavers([]) == {}
  {
    assert ts + IssuedFor([], n) == ts && Leavers([]) == {};
    StayingAll(ts);
  }

  lemma {:induction false} IssuedStep(ts: seq<Ticket>, es: seq<Event>, n: Name)
    requires es != []
    ensures ts + IssuedFor(es, n) == Listed(ts + IssuedFor(es[..|es| - 1], n), es[|es| - 1], n)
  {
  }

  /**
   While `n` is unowned, its queue is exactly what was queued before and the calls issued since, in issue order,
   without those whose callers have left.
   */
  lemma {:induction false} Backlog(h0: Hub, es: seq<Event>, n: Name)
    requires Kept(h0) && Unowned(h0, n) && LegalRun(h0, es) && HonestRun(h0, es) && NoRegistration(es, n)
    ensures Unowned(After(h0, es), n) && GoneOnes(After(h0, es), Leavers(es))
    ensures QueueFor(After(h0, es), n) == Staying(QueueFor(h0, n) + IssuedFor(es, n), Leavers(es))
  {
    if es == [] {
      NothingIssued(QueueFor(h0, n), n);
    } else {
      var front, e := es[..|es| - 1], es[|es| - 1];
      assert NoRegistration(front, n) && e in es;
      Backlog(h0, front, n);
      QueuedStayRecorded(h0, front);
      LeaversStep(es);
      IssuedStep(QueueFor(h0, n), es, n);
      BacklogStep(After(h0, front), e, n, QueueFor(h0, n) + IssuedFor(front, n), Leavers(front));
    }
  }

  // ---------- delivery to the owner ----------

  /** Calls flushed from the queue of `m`, as they count for `n`. */
  lemma {:induction false} FlushedCalls(issued: map<CallId, Issue>, pending: seq<Request>, m: Name, n: Name)
    requires forall r | r in pending :: r.Call? && r.call.id in issued && r.call.obj == m
    ensures CallsFor(Requests(pending) + [Resp(Registered(m))], n) ==
            if m == n then Ids(TicketsOf(issued, pending)) else []
  {
    var flush := Requests(pending);
    assert (flush + [Resp(Registered(m))])[..|flush|] == flush;
    FlushedOnly(issued, pending, m, n);
  }

  lemma {:induction false} FlushedOnly(issued: map<CallId, Issue>, pending: seq<Request>, m: Name, n: Name)
    requires forall r | r in pending :: r.Call? && r.call.id in issued && r.call.obj == m
    ensures CallsFor(Requests(pending), n) == if m == n then Ids(TicketsOf(issued, pending)) else []
  {
    if pending != [] {
      var front, r := pending[..|pending| - 1], pending[|pending| - 1];
      assert r in pending && front + [r] == pending;
      FlushedOnly(issued, front, m, n);
      FlushedLast(front, r, n);
      TicketsAppend(issued, front, r.call);
      assert Ids(TicketsOf(issued, pending)) == Ids(TicketsOf(issued, front)) + [r.call.id];
    }
  }

  lemma FlushedLast(front: seq<Request>, r: Request, n: Name)
    requires r.Call?
    ensures CallsFor(Requests(front + [r]), n) ==
            CallsFor(Requests(front), n) + (if r.call.obj == n then [r.call.id] else [])
  {
    assert Requests(front + [r])[..|front|] == Requests(front) && Requests(front + [r])[|front|] == Req(r);
  }

  /** No client but `w` registers `n` in the run. */
  predicate NoOtherOwner(es: seq<Event>, w: ClientId, n: Name) {
    forall e | e in es && e.Asked? && e.req == RegisterObject(n) :: e.c == w
  }

  /** `w` owns object `n`. */
  predicate Owns(h: Hub, w: ClientId, n: Name) {
    n in h.tb.objects && h.tb.objects[n] == w && w in h.tb.clients && w in h.outs
  }

  lemma DeliveredByCall(h: Hub, c: ClientId, call: Invocation, w: ClientId, n: Name)
    requires Kept(h) && Legal(h, Asked(c, Call(call))) && Owns(h, w, n)
    ensures var h' := CallAt(h, c, call);
            && Owns(h', w, n)
            && CallsFor(h'.outs[w], n) == CallsFor(h.outs[w], n) + (if call.obj == n then [call.id] else [])
  {
    CallAccepts(h, c, call);
    OneOutcome(h, c, call);
    CallsForAppend(h.outs[w], [Req(Call(call))], n);
    CallsForAppend(h.outs[w], [NoSuchObject(call)], n);
    assert [Req(Call(call))][..0] == [] && [NoSuchObject(call)][..0] == [];
  }

  lemma DeliveredByRegistration(h: Hub, c: ClientId, m: Name, w: ClientId, n: Name)
    requires Kept(h) && c in h.tb.clients && Owns(h, w, n) && (m == n ==> c == w)
    ensures var h' := RegisterObjectAt(h, c, m);
            Owns(h', w, n) && CallsFor(h'.outs[w], n) == CallsFor(h.outs[w], n)
  {
    var pending := if m in h.tb.services then h.tb.services[m].pending else [];
    if m in h.tb.services {
      QueueIssued(h, m);
      assert EntryAgrees(h.tb, m, h.tb.services[m]);
    }
    var flush := Requests(pending) + [Resp(Registered(m))];
    FlushedCalls(h.issued, pending, m, n);
    CallsForAppend(h.outs[w], flush, n);
    RegistrationSends(h, c, m, pending);
    assert TicketsOf(h.issued, []) == [] && CallsFor(h.outs[w], n) + [] == CallsFor(h.outs[w], n);
  }

  lemma RegistrationSends(h: Hub, c: ClientId, m: Name, pending: seq<Request>)
    requires pending == if m in h.tb.services then h.tb.services[m].pending else []
    ensures var h' := RegisterObjectAt(h, c, m); var flush := Requests(pending) + [Resp(Registered(m))];
            && h'.tb.clients == h.tb.clients && h'.tb.objects == h.tb.objects[m := c]
            && h'.outs == if c in h.tb.clients && c in h.outs then h.outs[c := h.outs[c] + flush] else h.outs
  {
    assert Requests([]) + [Resp(Registered(m))] == [Resp(Registered(m))];
  }

  lemma DeliveredByOther(h: Hub, e: Event, w: ClientId, n: Name)
    requires Kept(h) && Legal(h, e) && Owns(h, w, n) && e != Left(w)
    requires e.Asked? ==> !e.req.Call? && !e.req.RegisterObject?
    ensures Owns(Apply(h, e), w, n) && CallsFor(Apply(h, e).outs[w], n) == CallsFor(h.outs[w], n)
  {
    var log, log' := h.outs[w], Apply(h, e).outs[w];
    if log' != log { assert log' == log + [log'[|log'| - 1]] && log'[..|log'| - 1] == log; }
  }

  lemma {:induction false} DeliveryStep(h: Hub, e: Event, w: ClientId, n: Name)
    requires Kept(h) && Owns(h, w, n) && Legal(h, e) && e != Left(w)
    requires e.Asked? && e.req == RegisterObject(n) ==> e.c == w
    ensures Owns(Apply(h, e), w, n)
    ensures CallsFor(Apply(h, e).outs[w], n) ==
            CallsFor(h.outs[w], n) + (if IsCallFor(e, n) then [e.req.call.id] else [])
  {
    if e.Asked? && e.req.Call? {
      DeliveredByCall(h, e.c, e.req.call, w, n);
    } else if e.Asked? && e.req.RegisterObject? {
      DeliveredByRegistration(h, e.c, e.req.obj, w, n);
    } else {
      DeliveredByOther(h, e, w, n);
    }
  }

  lemma IssuedIds(es: seq<Event>, n: Name)
    requires es != []
    ensures var e := es[|es| - 1];
            Ids(IssuedFor(es, n)) ==
            Ids(IssuedFor(es[..|es| - 1], n)) + (if IsCallFor(e, n) then [e.req.call.id] else [])
  {
  }

  /** While `w` owns `n`, every call for `n` is sent to it, in issue order. */
  lemma {:induction false} Delivery(h1: Hub, es: seq<Event>, w: ClientId, n: Name)
    requires Kept(h1) && Owns(h1, w, n) && LegalRun(h1, es) && HonestRun(h1, es)
    requires NoOtherOwner(es, w, n) && w !in Leavers(es)
    ensures Owns(After(h1, es), w, n)
    ensures CallsFor(After(h1, es).outs[w], n) == CallsFor(h1.outs[w], n) + Ids(IssuedFor(es, n))
  {
    if es != [] {
      var front, e := es[..|es| - 1], es[|es| - 1];
      assert NoOtherOwner(front, w, n) && e in es;
      LeaversStep(es);
      Delivery(h1, front, w, n);
      QueuedStayRecorded(h1, front);
      DeliveryStep(After(h1, front), e, w, n);
      IssuedIds(es, n);
      var before, more := CallsFor(h1.outs[w], n), if IsCallFor(e, n) then [e.req.call.id] else [];
      assert (before + Ids(IssuedFor(front, n))) + more == before + (Ids(IssuedFor(front, n)) + more);
    }
  }

  /** A registration of an unowned service flushes its queue to the registrant, before `Registered`. */
  lemma FlushLog(h: Hub, w: ClientId, n: Name)
    requires Agree(h) && Unowned(h, n) && w in h.tb.clients
    ensures var h1 := RegisterObjectAt(h, w, n);
            && Owns(h1, w, n) && w in h.outs
            && h1.outs[w] == h.outs[w] + Requests(h.tb.services[n].pending) + [Resp(Registered(n))]
  {
    var flush := Requests(h.tb.services[n].pending);
    assert h.outs[w] + (flush + [Resp(Registered(n))]) == h.outs[w] + flush + [Resp(Registered(n))];
  }

  lemma FlushedQueue(h: Hub, log: seq<Packet>, n: Name)
    requires Agree(h) && Unowned(h, n)
    ensures var flush := Requests(h.tb.services[n].pending);
            && CallsFor(flush, n) == Ids(QueueFor(h, n))
            && CallsFor(log + flush + [Resp(Registered(n))], n) == CallsFor(log, n) + CallsFor(flush, n)
  {
    var flush := Requests(h.tb.services[n].pending);
    QueueIssued(h, n);
    FlushedOnly(h.issued, h.tb.services[n].pending, n, n);
    CallsForAppend(log, flush, n);
    CallsForAppend(log + flush, [Resp(Registered(n))], n);
    assert CallsFor([Resp(Registered(n))], n) == [] by { assert [Resp(Registered(n))][..0] == []; }
  }

  /**
   FIFO across activation: service `n` is unowned during `a`, then `w` registers it, and during `b` no other client
   registers it and `w` does not leave. Then the
   calls for `n` enqueued to `w` are the backlog, then every call issued in `b`, all in issue order; and the backlog
   is enqueued before `Registered`.
   */
  lemma {:induction false} FifoAcrossActivation(h0: Hub, a: seq<Event>, w: ClientId, n: Name, b: seq<Event>)
    requires Kept(h0) && Unowned(h0, n)
    requires LegalRun(h0, a) && HonestRun(h0, a) && NoRegistration(a, n) && w in After(h0, a).tb.clients
    requires var h1 := RegisterObjectAt(After(h0, a), w, n); LegalRun(h1, b) && HonestRun(h1, b)
    requires NoOtherOwner(b, w, n) && w !in Leavers(b)
    ensures var hA := After(h0, a); var h1 := RegisterObjectAt(hA, w, n); var hB := After(h1, b);
            var backlog := Ids(Staying(QueueFor(h0, n) + IssuedFor(a, n), Leavers(a)));
            && Unowned(hA, n) && w in hA.outs && w in h1.outs && w in hB.outs
            && CallsFor(hB.outs[w], n) == CallsFor(hA.outs[w], n) + backlog + Ids(IssuedFor(b, n))
            && CallsFor(Requests(hA.tb.services[n].pending), n) == backlog
            && h1.outs[w] == hA.outs[w] + Requests(hA.tb.services[n].pending) + [Resp(Registered(n))]
  {
    Backlog(h0, a, n);
    QueuedStayRecorded(h0, a);
    FlushLog(After(h0, a), w, n);
    FlushedQueue(After(h0, a), After(h0, a).outs[w], n);
    KeptByRegistration(After(h0, a), w, n);
    Delivery(RegisterObjectAt(After(h0, a), w, n), b, w, n);
  }
}
