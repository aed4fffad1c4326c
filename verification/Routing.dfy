/** At most one reply per call, on its caller's channel, in every reachable state of the closed system. */
module Routing {
  import opened Rpc
  import opened Sections
  import opened LockSteps
  import opened Ownership
  import opened Network
  import opened Tokens

  predicate IsReply(p: Packet) {
    p.Resp? && ReplyTo(p.resp).Some?
  }

  ghost predicate For(p: Packet, c: ClientId, minted: Register) {
    IsReply(p) ==> ReplyTo(p.resp).value in minted && minted[ReplyTo(p.resp).value].caller == c
  }

  /** Every reply that a task is about to send goes to the caller. */
  ghost predicate RepliesHome(pc: PC, c: ClientId, minted: Register) {
    && (forall p | p in OwnMessages(pc) :: For(p, c, minted))
    && (pc.Post? ==> forall x | x in pc.letters :: For(x.packet, x.to, minted))
  }

  ghost predicate Grown(m: Register, m': Register) {
    forall id | id in m :: id in m' && m'[id] == m[id]
  }

  /** A call on its way up was minted by its client and has not been received yet. */
  ghost predicate CallsComing(up: seq<Packet>, c: ClientId, minted: Register, issued: Register) {
    forall p | p in up && IsCall(p) ::
      p.req.call.id in minted && minted[p.req.call.id] == Issue(c, p.req.call.obj) && p.req.call.id !in issued
  }

  ghost predicate Wired(net: Net) {
    && net.up.Keys == net.b.pc.Keys && net.read.Keys == net.b.pc.Keys
    && net.peers.Keys == net.b.pc.Keys && net.b.outs.Keys == net.b.pc.Keys
    && (forall c | c in net.read :: net.read[c] <= |net.b.outs[c]|)
  }

  ghost predicate Routed(net: Net) {
    && Wired(net) && Owned(net.b) && Grown(net.b.hist.issued, net.minted)
    && (forall c | c in net.up :: CallsComing(net.up[c], c, net.minted, net.b.hist.issued))
    && (forall c | c in net.b.pc :: RepliesHome(net.b.pc[c], c, net.minted))
  }

  lemma EventsAreNoReplies(tb: Tables, t: Topic, args: Value, nth: nat, list: seq<ClientId>)
    ensures forall x | x in Events(tb, t, args, nth, list) :: !IsReply(x.packet)
  {
  }

  lemma HomeAfterSection(tb: Tables, c: ClientId, sec: Section, order: seq<ClientId>, issued: Register,
      minted: Register)
    requires RepliesHome(In(sec), c, minted) && CallersRight(tb.calls, issued) && Grown(issued, minted)
    ensures RepliesHome(Body(tb, c, sec, order).pc, c, minted)
  {
    if sec.FindSubs? { EventsAreNoReplies(tb, sec.topic, sec.args, sec.nth, sec.subs); }
  }

  lemma HomeAfterStep(b: Broker, l: Label, minted: Register)
    requires Enabled(b, l) && Owned(b) && Grown(b.hist.issued, minted)
    requires l.c in b.pc ==> RepliesHome(b.pc[l.c], l.c, minted)
    ensures RepliesHome(Target(b, l), l.c, minted)
  {
    if InSection(b, l) {
      HomeAfterSection(b.tb, l.c, b.pc[l.c].sec, l.order, b.hist.issued, minted);
    }
  }

  /** A step of the broker serves the same clients, and only adds to their channels. */
  lemma ChannelsGrow(b: Broker, l: Label)
    requires Enabled(b, l) && !l.Spawn?
    ensures Next(b, l).pc.Keys == b.pc.Keys && Next(b, l).outs.Keys == b.outs.Keys
    ensures forall c | c in b.outs :: |b.outs[c]| <= |Next(b, l).outs[c]|
  {
  }

  lemma WiredStep(net: Net, m: Move)
    requires Wired(net) && CanMove(net, m)
    ensures Wired(After(net, m))
  {
    match m
    case Deliver(c) => ChannelsGrow(net.b, Recv(c, net.up[c][0]));
    case Inner(l) => ChannelsGrow(net.b, l);
    case _ =>
  }

  lemma {:induction false} CarriedIn(ps: seq<Packet>, p: Packet, t: Tag)
    requires p in ps && Carries(p, true, t)
    ensures InPackets(ps, t) >= 1
  {
    if ps[0] != p { CarriedIn(ps[1..], p, t); }
  }

  /** Once the packet at the head is received, its call id is not among the calls still coming, from any client. */
  lemma ReceivedOnce(net: Net, tok: map<CallId, Place>, c: ClientId, d: ClientId)
    requires Routed(net) && Linear(net, tok) && c in net.up && net.up[c] != [] && IsCall(net.up[c][0]) && d in net.up
    ensures forall p | p in (if d == c then net.up[d][1..] else net.up[d]) && IsCall(p) ::
              p.req.call.id != net.up[c][0].req.call.id
  {
    var call := net.up[c][0].req.call;
    forall p | p in (if d == c then net.up[d][1..] else net.up[d]) && IsCall(p) && p.req.call.id == call.id
      ensures false
    {
      var t := TagOf(p.req.call);
      assert p in net.up[d] && net.up[c][0] in net.up[c];
      assert t == TagOf(call);
      assert Carries(net.up[c][0], true, t);
      CarriedIn(net.up[c], net.up[c][0], t);
      assert Lay(net)(UpFrom(c), t) > 0 && Sits(t, UpFrom(c), net.minted, tok);
      CarriedIn(net.up[d], p, t);
      if d == c { CarriedIn(net.up[c][1..], p, t); }
    }
  }

  lemma ComingAfterDelivery(net: Net, tok: map<CallId, Place>, c: ClientId, d: ClientId)
    requires Routed(net) && Linear(net, tok) && CanMove(net, Deliver(c)) && d in net.up
    ensures var net' := After(net, Deliver(c)); CallsComing(net'.up[d], d, net'.minted, net'.b.hist.issued)
  {
    assert CallsComing(net.up[d], d, net.minted, net.b.hist.issued);
    if IsCall(net.up[c][0]) { ReceivedOnce(net, tok, c, d); }
  }

  lemma ComingStep(net: Net, m: Move, tok: map<CallId, Place>, d: ClientId)
    requires Routed(net) && Linear(net, tok) && CanMove(net, m) && d in After(net, m).up
    ensures var net' := After(net, m); CallsComing(net'.up[d], d, net'.minted, net'.b.hist.issued)
  {
    if d in net.up { assert CallsComing(net.up[d], d, net.minted, net.b.hist.issued); }
    match m
    case Deliver(c) => ComingAfterDelivery(net, tok, c, d);
    case Inner(l) => IssuesNothing(net.b, l);
    case Connect(c, _) => IssuesNothing(net.b, Spawn(c));
    case Say(c, p) => ComingAfterSaying(net, c, p, d);
    case _ =>
  }

  lemma ComingAfterSaying(net: Net, c: ClientId, p: Packet, d: ClientId)
    requires Routed(net) && CanMove(net, Say(c, p)) && d in net.up
    ensures var net' := After(net, Say(c, p)); CallsComing(net'.up[d], d, net'.minted, net'.b.hist.issued)
  {
    assert CallsComing(net.up[d], d, net.minted, net.b.hist.issued);
  }

  lemma IssuedStep(net: Net, m: Move)
    requires Routed(net) && CanMove(net, m)
    ensures Grown(net.minted, After(net, m).minted) && Grown(After(net, m).b.hist.issued, After(net, m).minted)
  {
    MintedGrows(net, m);
    match m
    case Deliver(c) =>
      assert net.up[c][0] in net.up[c] && CallsComing(net.up[c], c, net.minted, net.b.hist.issued);
      assert After(net, m).b.hist.issued == Received(net.b.hist, c, net.up[c][0]).issued;
    case Inner(l) => IssuesNothing(net.b, l);
    case _ =>
  }

  lemma MintedGrows(net: Net, m: Move)
    requires CanMove(net, m)
    ensures Grown(net.minted, After(net, m).minted)
  {
  }

  lemma IssuesNothing(b: Broker, l: Label)
    requires Enabled(b, l) && !l.Recv?
    ensures HistoryAfter(b, l).issued == b.hist.issued
  {
  }

  lemma HomesStep(net: Net, m: Move, d: ClientId)
    requires Routed(net) && CanMove(net, m) && d in After(net, m).b.pc
    ensures RepliesHome(After(net, m).b.pc[d], d, After(net, m).minted)
  {
    MintedGrows(net, m);
    match m
    case Connect(c, _) => HomeInBroker(net, Spawn(c), d);
    case Deliver(c) => HomeInBroker(net, Recv(c, net.up[c][0]), d);
    case Inner(l) => HomeInBroker(net, l, d);
    case _ => assert RepliesHome(net.b.pc[d], d, net.minted);
  }

  lemma HomeInBroker(net: Net, l: Label, d: ClientId)
    requires Routed(net) && Enabled(net.b, l) && d in Next(net.b, l).pc
    ensures RepliesHome(Next(net.b, l).pc[d], d, net.minted)
  {
    if d == l.c { HomeAfterStep(net.b, l, net.minted); } else { assert RepliesHome(net.b.pc[d], d, net.minted); }
  }

  lemma {:induction false} OwnedMove(net: Net, m: Move)
    requires Owned(net.b) && CanMove(net, m)
    ensures Owned(After(net, m).b)
  {
    match m
    case Connect(c, _) => OwnedStep(net.b, Spawn(c));
    case Deliver(c) => OwnedStep(net.b, Recv(c, net.up[c][0]));
    case Inner(l) => OwnedStep(net.b, l);
    case _ =>
  }

  lemma {:induction false} RoutedStep(net: Net, m: Move, tok: map<CallId, Place>)
    requires Routed(net) && Linear(net, tok) && CanMove(net, m)
    ensures Routed(After(net, m))
  {
    var net' := After(net, m);
    WiredStep(net, m);
    OwnedMove(net, m);
    IssuedStep(net, m);
    forall d | d in net'.up ensures CallsComing(net'.up[d], d, net'.minted, net'.b.hist.issued) {
      ComingStep(net, m, tok, d);
    }
    forall d | d in net'.b.pc ensures RepliesHome(net'.b.pc[d], d, net'.minted) { HomesStep(net, m, d); }
  }
}
