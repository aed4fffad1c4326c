/** `cleanup_client` as an operation on arbitrary broker states: idempotent, and commuting for different clients. */
module CleanupAlgebra {
  import opened Rpc
  import opened Activation
  import opened Sections
  import opened Hub

  /** Filtering a queue by two sets of active calls, one after the other, is filtering it by both. */
  lemma {:induction false} RetainedTwice(pending: seq<Request>, a: set<CallId>, b: set<CallId>)
    ensures Retained(Retained(pending, a), b) == Retained(pending, a * b)
  {
    if pending != [] {
      RetainedTwice(pending[1..], a, b);
      var rest := Retained(pending[1..], a);
      assert ([pending[0]] + rest)[1..] == rest && [] + rest == rest;
    }
  }

  /** The loop of `cleanup_client` over one queue keeps order: it acts on two parts of a queue separately. */
  lemma {:induction false} RetainedInOrder(front: seq<Request>, back: seq<Request>, active: set<CallId>)
    ensures Retained(front + back, active) == Retained(front, active) + Retained(back, active)
  {
    if front == [] {
      assert front + back == back;
    } else {
      RetainedInOrder(front[1..], back, active);
      assert (front + back)[1..] == front[1..] + back && (front + back)[0] == front[0];
      var one := if front[0].Call? && front[0].call.id !in active then [] else [front[0]];
      var a, b := Retained(front[1..], active), Retained(back, active);
      assert one + (a + b) == (one + a) + b;
    }
  }

  /** It drops the calls that are not active, and keeps everything else as often as it was there. */
  lemma {:induction false} RetainedCounts(pending: seq<Request>, active: set<CallId>, r: Request)
    ensures multiset(Retained(pending, active))[r] ==
            if r.Call? && r.call.id !in active then 0 else multiset(pending)[r]
  {
    if pending != [] {
      RetainedCounts(pending[1..], active, r);
      assert pending == [pending[0]] + pending[1..];
    }
  }

  lemma EntryTwice(e: ServiceEntry, c: ClientId, d: ClientId, a: set<CallId>, b: set<CallId>)
    ensures CleanEntry(CleanEntry(e, c, a), d, b) ==
            if e.owner == Some(c) || e.owner == Some(d) then e.(owner := None, state := Stopped, pending := [])
            else e.(pending := Retained(e.pending, a * b))
  {
    RetainedTwice(e.pending, a, b);
  }

  /** The tables after two cleanups do not depend on their order. */
  lemma TablesTwice(tb: Tables, c: ClientId, d: ClientId)
    ensures CleanTables(CleanTables(tb, c), d) == CleanTables(CleanTables(tb, d), c)
  {
    var a, b := WithoutCallsOf(tb.calls, c).Keys, WithoutCallsOf(tb.calls, d).Keys;
    var both := WithoutCallsOf(WithoutCallsOf(tb.calls, c), d);
    assert both == WithoutCallsOf(WithoutCallsOf(tb.calls, d), c);
    assert a * both.Keys == both.Keys == b * both.Keys;
    ServicesTwice(tb.services, c, d, a, b, both.Keys);
    SubscribersTwice(tb.subs, c, d);
    assert WithoutObjectsOf(WithoutObjectsOf(tb.objects, c), d) == WithoutObjectsOf(WithoutObjectsOf(tb.objects, d), c);
    assert (tb.clients - {c}) - {d} == (tb.clients - {d}) - {c};
  }

  lemma ServicesTwice(services: map<Name, ServiceEntry>, c: ClientId, d: ClientId, a: set<CallId>, b: set<CallId>,
                      both: set<CallId>)
    requires a * both == both == b * both
    ensures CleanServices(CleanServices(services, c, a), d, both) ==
            CleanServices(CleanServices(services, d, b), c, both)
  {
    forall n | n in services
      ensures CleanEntry(CleanEntry(services[n], c, a), d, both) == CleanEntry(CleanEntry(services[n], d, b), c, both)
    {
      EntryTwice(services[n], c, d, a, both);
      EntryTwice(services[n], d, c, b, both);
    }
  }

  lemma SubscribersTwice(subs: map<Topic, set<ClientId>>, c: ClientId, d: ClientId)
    ensures WithoutSubscriber(WithoutSubscriber(subs, c), d) == WithoutSubscriber(WithoutSubscriber(subs, d), c)
  {
    forall t | t in subs ensures (subs[t] - {c}) - {d} == (subs[t] - {d}) - {c} {}
  }

  lemma TablesOnce(tb: Tables, c: ClientId)
    ensures CleanTables(CleanTables(tb, c), c) == CleanTables(tb, c)
  {
    var once := CleanTables(tb, c);
    var twice := CleanTables(once, c);
    assert WithoutCallsOf(once.calls, c) == once.calls;
    forall n | n in tb.services ensures twice.services[n] == once.services[n] {
      EntryTwice(tb.services[n], c, c, once.calls.Keys, once.calls.Keys);
      assert once.calls.Keys * once.calls.Keys == once.calls.Keys;
    }
    forall t | t in tb.subs ensures (tb.subs[t] - {c}) - {c} == tb.subs[t] - {c} {}
    assert twice.subs == once.subs && twice.services == once.services && twice.objects == once.objects;
  }

  /** Cleaning up the same client again changes nothing; two clients can be cleaned up in either order. */
  lemma CleanupIdempotentAndCommuting(h: Hub, c: ClientId, d: ClientId)
    ensures Cleanup(Cleanup(h, c), c) == Cleanup(h, c)
    ensures Cleanup(Cleanup(h, c), d) == Cleanup(Cleanup(h, d), c)
  {
    TablesOnce(h.tb, c);
    TablesTwice(h.tb, c, d);
  }
}
