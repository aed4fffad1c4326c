/** Whose call is where, at lock grain: facts about fresh call ids that hold whoever the peers are. */
module Ownership {
  import opened Rpc
  import opened Activation
  import opened Sections
  import opened LockSteps

  /** The call a task is handling for its own client. */
  function CallOf(pc: PC): Option<Invocation> {
    match pc
    case Want(FindCaller(call)) => Some(call)
    case In(FindCaller(call)) => Some(call)
    case Want(FindWorker(call)) => Some(call)
    case In(FindWorker(call)) => Some(call)
    case Located(call, _, _) => Some(call)
    case Want(PutCall(call, _)) => Some(call)
    case In(PutCall(call, _)) => Some(call)
    case Want(Activate(call)) => Some(call)
    case In(Activate(call)) => Some(call)
    case Want(FindRefused(call)) => Some(call)
    case In(FindRefused(call)) => Some(call)
    case Refuse(call) => Some(call)
    case _ => None
  }

  /** Every task's own call was issued by its client. */
  ghost predicate OwnCalls(pc: map<ClientId, PC>, issued: map<CallId, Issue>) {
    forall c | c in pc && CallOf(pc[c]).Some? ::
      var call := CallOf(pc[c]).value;
      call.id in issued && issued[call.id] == Issue(c, call.obj)
  }

  /** A recorded call is recorded for the client that issued it. */
  ghost predicate CallersRight(calls: map<CallId, ClientId>, issued: map<CallId, Issue>) {
    forall id | id in calls :: id in issued && issued[id].caller == calls[id]
  }

  /** A queue holds issued calls for its own object and nothing else. */
  ghost predicate QueueRight(n: Name, pending: seq<Request>, issued: map<CallId, Issue>) {
    forall r | r in pending :: r.Call? && r.call.obj == n && r.call.id in issued && issued[r.call.id].obj == n
  }

  ghost predicate QueuesRight(services: map<Name, ServiceEntry>, issued: map<CallId, Issue>) {
    forall n | n in services :: QueueRight(n, services[n].pending, issued)
  }

  ghost predicate Owned(b: Broker) {
    && OwnCalls(b.pc, b.hist.issued)
    && CallersRight(b.tb.calls, b.hist.issued)
    && QueuesRight(b.tb.services, b.hist.issued)
  }

  lemma IssuedGrows(b: Broker, l: Label)
    requires Enabled(b, l)
    ensures forall id | id in b.hist.issued ::
              id in HistoryAfter(b, l).issued && HistoryAfter(b, l).issued[id] == b.hist.issued[id]
  {
  }

  lemma CallOfKept(b: Broker, l: Label)
    requires Enabled(b, l) && !l.Recv? && CallOf(Target(b, l)).Some?
    ensures l.c in b.pc && CallOf(b.pc[l.c]) == CallOf(Target(b, l))
  {
  }

  lemma OwnCallsStep(b: Broker, l: Label)
    requires OwnCalls(b.pc, b.hist.issued) && Enabled(b, l)
    ensures OwnCalls(b.pc[l.c := Target(b, l)], HistoryAfter(b, l).issued)
  {
    IssuedGrows(b, l);
    if CallOf(Target(b, l)).Some? && !l.Recv? { CallOfKept(b, l); }
  }

  lemma CallersStep(tb: Tables, c: ClientId, sec: Section, order: seq<ClientId>, issued: map<CallId, Issue>)
    requires CallersRight(tb.calls, issued)
    requires sec.PutCall? ==> sec.call.id in issued && issued[sec.call.id].caller == c
    ensures CallersRight(Body(tb, c, sec, order).tb.calls, issued)
  {
  }

  lemma QueuesStep(tb: Tables, c: ClientId, sec: Section, order: seq<ClientId>, issued: map<CallId, Issue>)
    requires QueuesRight(tb.services, issued)
    requires sec.Activate? ==> sec.call.id in issued && issued[sec.call.id].obj == sec.call.obj
    ensures QueuesRight(Body(tb, c, sec, order).tb.services, issued)
  {
    var after := Body(tb, c, sec, order).tb.services;
    forall n | n in after ensures QueueRight(n, after[n].pending, issued) {
      if n in tb.services {
        assert QueueRight(n, tb.services[n].pending, issued);
        if sec.DropServices? { RetainedExactly(tb.services[n].pending, sec.active); }
      }
    }
  }

  lemma {:induction false} OwnedStep(b: Broker, l: Label)
    requires Owned(b) && Enabled(b, l)
    ensures Owned(Next(b, l))
  {
    OwnCallsStep(b, l);
    IssuedGrows(b, l);
    var issued := HistoryAfter(b, l).issued;
    if InSection(b, l) {
      var sec := b.pc[l.c].sec;
      CallersStep(b.tb, l.c, sec, l.order, b.hist.issued);
      QueuesStep(b.tb, l.c, sec, l.order, b.hist.issued);
      assert issued == b.hist.issued;
    } else {
      assert CallersRight(b.tb.calls, issued);
      forall n | n in b.tb.services ensures QueueRight(n, b.tb.services[n].pending, issued) {
        assert QueueRight(n, b.tb.services[n].pending, b.hist.issued);
      }
    }
  }
}
