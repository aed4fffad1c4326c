/** At most one reply to each call, and only on its caller's channel (closed system, lock grain). */
module Replies {
  import opened Rpc
  import opened Sections
  import opened LockSteps
  import opened Network
  import opened Tokens
  import opened Routing
  import opened Conservation

  /** Entry `i` on the channel of `c` is a reply to call `id`. */
  predicate IsReplyAt(outs: map<ClientId, seq<Entry>>, c: ClientId, i: nat, id: CallId) {
    c in outs && i < |outs[c]| && IsReply(outs[c][i].packet) && ReplyTo(outs[c][i].packet.resp) == Some(id)
  }

  /** The token is done, the channel is the caller's, and the reply names the object that was called. */
  ghost predicate Rightful(outs: map<ClientId, seq<Entry>>, c: ClientId, i: nat, id: CallId, minted: Register)
    requires IsReplyAt(outs, c, i, id)
  {
    id in minted && minted[id] == Issue(c, ReplyObject(outs[c][i].packet.resp))
  }

  ghost predicate Settled(outs: map<ClientId, seq<Entry>>, minted: Register, tok: map<CallId, Place>) {
    && (forall c, i: nat, id | IsReplyAt(outs, c, i, id) ::
         Rightful(outs, c, i, id, minted) && id in tok && tok[id] == Done)
    && (forall c, i: nat, d, j: nat, id | IsReplyAt(outs, c, i, id) && IsReplyAt(outs, d, j, id) :: c == d && i == j)
  }

  /** A settled call is on no move. */
  lemma SettledStays(net: Net, m: Move, tok: map<CallId, Place>, id: CallId)
    requires Routed(net) && Linear(net, tok) && CanMove(net, m) && id in MoveOf(net, m).ids && id in net.minted
    ensures id in tok && tok[id] != Done
  {
    TokensShift(net, tok, m);
    assert Somewhere(Lay(net), id);
    var p, t :| Lay(net)(p, t) > 0 && p != Done && t.id == id;
    assert Sits(t, p, net.minted, tok);
  }

  /** The reply that a `Send` step enqueues is the first to its call, and on the right channel. */
  lemma SentReply(net: Net, c: ClientId, tok: map<CallId, Place>)
    requires Routed(net) && Linear(net, tok) && CanMove(net, Inner(Send(c))) && IsReply(Outgoing(net.b, c).packet)
    ensures var x := Outgoing(net.b, c); var id := ReplyTo(x.packet.resp).value;
            && id in net.minted && net.minted[id] == Issue(x.to, ReplyObject(x.packet.resp))
            && id in tok && tok[id] != Done
  {
    var x := Outgoing(net.b, c);
    var t := Tag(ReplyTo(x.packet.resp).value, ReplyObject(x.packet.resp));
    SentHand(net.b, c, t);
    assert Lay(net)(Hand(c), t) > 0;
    assert Sits(t, Hand(c), net.minted, tok);
    assert RepliesHome(net.b.pc[c], c, net.minted);
    match net.b.pc[c]
    case Mine(msgs) => assert msgs[0] in OwnMessages(net.b.pc[c]);
    case Post(ls) => assert ls[0] in ls;
    case Refuse(call) =>
    case _ =>
  }

  lemma SettledBySend(net: Net, c: ClientId, tok: map<CallId, Place>)
    requires Routed(net) && Linear(net, tok) && Settled(net.b.outs, net.minted, tok) && CanMove(net, Inner(Send(c)))
    ensures var mv := MoveOf(net, Inner(Send(c)));
            Settled(OutsAfter(net.b, Send(c)), net.minted, Relocated(tok, mv.ids, mv.to))
  {
    var x := Outgoing(net.b, c);
    var mv := MoveOf(net, Inner(Send(c)));
    if IsReply(x.packet) { SentReply(net, c, tok); }
    var outs, outs' := net.b.outs, OutsAfter(net.b, Send(c));
    forall d, i: nat, id | IsReplyAt(outs', d, i, id) && !NewReply(outs, x, d, i, id)
      ensures IsReplyAt(outs, d, i, id) && outs'[d][i] == outs[d][i] && id !in mv.ids
    {
      SentOrOld(net.b, c, d, i, id);
      assert Rightful(outs, d, i, id, net.minted);
      if id in mv.ids { SettledStays(net, Inner(Send(c)), tok, id); }
    }
    forall d, i: nat, id | IsReplyAt(outs', d, i, id) && NewReply(outs, x, d, i, id)
      ensures outs'[d][i].packet == x.packet && mv.to == Done && id in mv.ids
    {
      SentOrOld(net.b, c, d, i, id);
    }
  }

  /** The place on a channel that the reply in letter `x` takes. */
  predicate NewReply(outs: map<ClientId, seq<Entry>>, x: Letter, d: ClientId, i: nat, id: CallId) {
    IsReply(x.packet) && ReplyTo(x.packet.resp) == Some(id) && d == x.to && d in outs && i == |outs[d]|
  }

  lemma SentOrOld(b: Broker, c: ClientId, d: ClientId, i: nat, id: CallId)
    requires Enabled(b, Send(c)) && IsReplyAt(OutsAfter(b, Send(c)), d, i, id)
    ensures var outs' := OutsAfter(b, Send(c));
            if NewReply(b.outs, Outgoing(b, c), d, i, id) then outs'[d][i].packet == Outgoing(b, c).packet
            else IsReplyAt(b.outs, d, i, id) && outs'[d][i] == b.outs[d][i]
  {
  }

  lemma SettledStep(net: Net, m: Move, tok: map<CallId, Place>)
    requires Routed(net) && Linear(net, tok) && Settled(net.b.outs, net.minted, tok) && CanMove(net, m)
    ensures var mv, net' := MoveOf(net, m), After(net, m);
            Settled(net'.b.outs, net'.minted, Relocated(tok, mv.ids, mv.to))
  {
    var mv, net' := MoveOf(net, m), After(net, m);
    TokensShift(net, tok, m);
    if m.Inner? && m.l.Send? {
      SettledBySend(net, m.l.c, tok);
    } else {
      var outs, outs' := net.b.outs, net'.b.outs;
      forall d, i: nat, id | IsReplyAt(outs', d, i, id) ensures IsReplyAt(outs, d, i, id) {}
      forall d, i: nat, id | IsReplyAt(outs', d, i, id)
        ensures Rightful(outs', d, i, id, net'.minted) && id !in mv.ids
      {
        assert Rightful(outs, d, i, id, net.minted);
        if id in mv.ids { SettledStays(net, m, tok, id); }
      }
    }
  }

  ghost predicate Conserved(net: Net, tok: map<CallId, Place>) {
    Routed(net) && Linear(net, tok) && Settled(net.b.outs, net.minted, tok)
  }

  ghost predicate Accounted(net: Net) {
    exists tok :: Conserved(net, tok)
  }

  lemma ConservedStep(net: Net, m: Move, tok: map<CallId, Place>)
    requires Conserved(net, tok) && CanMove(net, m)
    ensures var mv := MoveOf(net, m); Conserved(After(net, m), Relocated(tok, mv.ids, mv.to))
  {
    var mv, net' := MoveOf(net, m), After(net, m);
    RoutedStep(net, m, tok);
    TokensShift(net, tok, m);
    ShiftKeepsLinear(Lay(net), Lay(net'), net.minted, net'.minted, tok, mv.ids, mv.to);
    SettledStep(net, m, tok);
  }

  lemma AccountedAtStart(net: Net)
    requires Start(net)
    ensures Accounted(net)
  {
    assert Conserved(net, map[]);
  }

  lemma AccountedStep(net: Net, m: Move)
    requires Accounted(net) && CanMove(net, m)
    ensures Accounted(After(net, m))
  {
    var tok :| Conserved(net, tok);
    ConservedStep(net, m, tok);
  }

  lemma AlwaysAccounted(net: Net)
    requires NetReachable(net)
    ensures Accounted(net)
  {
    var run :| IsNetRun(run) && run[|run| - 1] == net;
    forall x | Start(x) ensures Accounted(x) { AccountedAtStart(x); }
    forall x, m | Accounted(x) && CanMove(x, m) ensures Accounted(After(x, m)) { AccountedStep(x, m); }
    NetInvariance(Accounted, run);
  }

  /** Whatever the interleaving: a reply is on its caller's channel and names the called object, and is the only one. */
  lemma AtMostOneReply(net: Net, id: CallId, c: ClientId, i: nat)
    requires NetReachable(net) && IsReplyAt(net.b.outs, c, i, id)
    ensures Rightful(net.b.outs, c, i, id, net.minted)
    ensures forall d, j: nat | IsReplyAt(net.b.outs, d, j, id) :: d == c && j == i
  {
    AlwaysAccounted(net);
  }

  /** A call is in at most one place, once; and nowhere any more when its reply has been enqueued. */
  lemma CallsLinear(net: Net, p: Place, t: Tag)
    requires NetReachable(net) && At(net, p, t) > 0
    ensures At(net, p, t) == 1
    ensures forall q, u | At(net, q, u) > 0 && u.id == t.id :: q == p && u == t
    ensures forall c, i: nat :: !IsReplyAt(net.b.outs, c, i, t.id)
  {
    AlwaysAccounted(net);
    var tok :| Conserved(net, tok);
    assert Lay(net)(p, t) > 0 && Sits(t, p, net.minted, tok);
    forall q, u | At(net, q, u) > 0 && u.id == t.id ensures q == p && u == t {
      assert Lay(net)(q, u) > 0 && Sits(u, q, net.minted, tok);
    }
  }

  /** Fresh ids stay fresh: a reader that is ready can always receive the next packet its peer has written. */
  lemma DeliveryNeverStuck(net: Net, c: ClientId)
    requires NetReachable(net) && c in net.up && net.up[c] != [] && c in net.b.pc && net.b.pc[c] == Idle
    ensures CanMove(net, Deliver(c))
  {
    AlwaysAccounted(net);
    assert CallsComing(net.up[c], c, net.minted, net.b.hist.issued);
    assert net.up[c][0] in net.up[c];
  }
}
