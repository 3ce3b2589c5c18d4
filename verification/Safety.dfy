/** What holds in every state that the two programs can reach, whatever the interleaving, on a
    reliable or on a lossy transport, polling or event-driven. */
module Safety {
  import opened Counting
  import opened Verbs
  import opened Endpoints
  import opened PingPongSystem
  import opened TokenInvariant
  import opened SystemInvariant

  /** Messages of `e` on its first `k` queue pairs that have not been delivered. */
  function InFlight(e: Endpoint, k: nat): nat
    requires k <= |e.sq| && k <= |e.wire|
  {
    if k == 0 then 0 else InFlight(e, k - 1) + |e.wire[k - 1]| + Bit(e.sq[k - 1] == Queued)
  }

  lemma {:induction false} InFlightTokens(c: Config, e: Endpoint, x: Side, t: seq<Token>, k: nat)
    requires e.Shape(c.n) && |t| == c.n && |c.Of(x).qpns| == c.n && k <= c.n && LinksInv(c, e, x, t)
    ensures InFlight(e, k) == Count(t[..k], Flying(x))
  {
    if k > 0 {
      InFlightTokens(c, e, x, t, k - 1);
      assert LinkInv(c, e, x, k - 1, t[k - 1]);
      assert t[..k] == t[..k - 1] + [t[k - 1]];
      CountAppend(t[..k - 1], t[k - 1]);
    }
  }

  lemma EndpointOf(c: Config, s: System, x: Side) returns (t: seq<Token>)
    requires Reachable(c, s)
    ensures c.Valid() && |t| == c.n && s.Shape(c.n)
    ensures EndpointInv(c, s.At(x), x, t) && EndpointInv(c, s.At(x.Peer()), x.Peer(), t)
    ensures CrossInv(c.n, s.At(x), s.At(x.Peer()), x, t) && CrossInv(c.n, s.At(x.Peer()), s.At(x), x.Peer(), t)
    ensures PayloadInv(c, s, t)
  {
    t := ReachableInv(c, s);
    hide EndpointInv, CrossInv, PayloadInv;
    PairFrom(c, s, t, x);
  }

  lemma EndpointsSuffice(c: Config, a: Endpoint, b: Endpoint, x: Side, t: seq<Token>)
    requires c.Valid() && a.Shape(c.n) && b.Shape(c.n) && |t| == c.n
    requires EndpointInv(c, a, x, t) && EndpointInv(c, b, x.Peer(), t)
    ensures InFlight(a, c.n) + Receives(b.Unprocessed()) <= c.n
    ensures InFlight(a, c.n) <= b.posted
    ensures forall q :: 0 <= q < c.n && a.wire[q] != [] ==> b.posted > 0
  {
    InFlightTokens(c, a, x, t, c.n);
    assert t[..c.n] == t;
    CountTwo(t, Flying(x), Arrived(x.Peer()));
    forall q | 0 <= q < c.n && a.wire[q] != [] ensures b.posted > 0 {
      assert LinkInv(c, a, x, q, t[q]);
      assert t[q] in t;
    }
  }

  /** Receiver-not-ready never happens: a side has posted at least as many receives as there are
      undelivered messages to it, also after it has left its loop. */
  lemma ReceivesSuffice(c: Config, s: System, x: Side)
    requires Reachable(c, s)
    ensures s.Shape(c.n)
    ensures InFlight(s.At(x), c.n) <= s.At(x.Peer()).posted
    ensures InFlight(s.At(x), c.n) + Receives(s.At(x.Peer()).Unprocessed()) <= c.n
  {
    hide CrossInv, PayloadInv, EndpointInv, Reachable, InFlight, Receives;
    var t := EndpointOf(c, s, x);
    EndpointsSuffice(c, s.At(x), s.At(x.Peer()), x, t);
  }

  /** Receive credit is conserved and every queue stays within its size: `routs` counts the
      receives posted and those completed but not processed, between one per queue pair and the
      receive depth; one poll can hold everything that is unprocessed. */
  lemma CreditsAndCapacities(c: Config, s: System, x: Side)
    requires Reachable(c, s)
    ensures var e := s.At(x);
      && e.routs == e.posted + Receives(e.Unprocessed())
      && c.n <= e.routs <= c.Of(x).rxDepth
      && e.posted <= c.Of(x).rxDepth
      && |e.Unprocessed()| <= 2 * c.n <= c.Of(x).rxDepth + c.n
      && |e.Unprocessed()| <= c.Of(x).numWc
  {
    hide Reachable, CrossInv, PayloadInv, LinksInv;
    var t := EndpointOf(c, s, x);
  }

  /** A completion for a number that no queue pair has, or of a request that the program never posts,
      would be refused as such; so would one that leaves too few receives or finds the slot taken. */
  lemma Refused(n: nat, sc: SideConfig, e: Endpoint, wc: Completion)
    requires e.Shape(n) && |sc.qpns| == n
    ensures ProcessOne(n, sc, e, wc) == Err(UnknownQp) <==> wc.qpn !in sc.qpns
    ensures ProcessOne(n, sc, e, wc) == Err(UnknownWrId) <==>
      wc.qpn in sc.qpns && wc.wrId != RECV_WRID && wc.wrId != SEND_WRID
    ensures ProcessOne(n, sc, e, wc) == Err(CannotPostReceive) <==>
      wc.qpn in sc.qpns && wc.wrId == RECV_WRID && e.routs - 1 <= n && e.routs - 1 < sc.rxDepth
      && (e.posted >= sc.rxDepth || sc.rxDepth - e.posted < sc.rxDepth - (e.routs - 1))
  {
  }

  /** Hence a message on the wire can always be delivered. */
  lemma DeliveryNeverBlocks(c: Config, s: System, x: Side, q: nat)
    requires Reachable(c, s) && q < c.n
    ensures s.Shape(c.n) && (Enabled(c, s, Deliver(x, q)) <==> s.At(x).wire[q] != [])
  {
    hide CrossInv, PayloadInv, EndpointInv, Reachable, InFlight, Receives;
    var t := EndpointOf(c, s, x);
    EndpointsSuffice(c, s.At(x), s.At(x.Peer()), x, t);
  }

  lemma TopUpOf(c: Config, e: Endpoint, x: Side, t: seq<Token>)
    requires c.Valid() && e.Shape(c.n) && |t| == c.n && EndpointInv(c, e, x, t)
    requires e.batch != [] && e.batch[0].wrId == RECV_WRID
    ensures Consumed(c.n, c.Of(x), e).routs == if e.routs - 1 > c.n then e.routs - 1 else c.Of(x).rxDepth
  {
    hide LinksInv, SideInv, EventInv, Consumed;
    BatchHead(c, e, x, t);
    RecvHead(c, e, x, t, FindQp(c.Of(x).qpns, e.batch[0].qpn));
  }

  lemma ProcessIsConsumed(c: Config, s: System, x: Side)
    requires s.Shape(c.n) && |c.client.qpns| == c.n == |c.server.qpns| && Enabled(c, s, Process(x))
    ensures Apply(c, s, Process(x)).At(x) == Consumed(c.n, c.Of(x), s.At(x))
  {
    hide Consumed;
  }

  /** A receive completion either leaves more receives than queue pairs, or makes the side post
      until it has exactly the receive depth again. */
  lemma TopUpRestoresDepth(c: Config, s: System, x: Side)
    requires Reachable(c, s) && s.Shape(c.n) && Enabled(c, s, Process(x)) && s.At(x).batch[0].wrId == RECV_WRID
    ensures Apply(c, s, Process(x)).At(x).routs ==
      if s.At(x).routs - 1 > c.n then s.At(x).routs - 1 else c.Of(x).rxDepth
  {
    hide CrossInv, PayloadInv, EndpointInv, Reachable, Consumed, Apply;
    var t := EndpointOf(c, s, x);
    ProcessIsConsumed(c, s, x);
    TopUpOf(c, s.At(x), x, t);
  }

  /** No error exit of the loop is ever taken: posting a send or a receive succeeds, and every
      completion is for a known queue pair and a known request. */
  lemma NeverFails(c: Config, s: System, x: Side)
    requires Reachable(c, s)
    ensures !s.At(x).stage.Failed?
  {
    hide Reachable, CrossInv, PayloadInv, LinksInv;
    var t := EndpointOf(c, s, x);
  }

  /** Messages posted never exceed the budget: `iters + n - 1` on a side whose iteration count is
      positive. Hence neither do the sends completed, nor what the peer receives. */
  lemma OvershootBound(c: Config, s: System, x: Side)
    requires Reachable(c, s)
    ensures s.At(x).scnt <= Posts(s.At(x)) <= Budget(c, x)
    ensures s.At(x.Peer()).rcnt <= Posts(s.At(x))
    ensures c.Of(x).iters >= 1 ==> Posts(s.At(x)) <= c.Of(x).iters + c.n - 1
  {
    hide Reachable, PayloadInv, LinksInv;
    var t := EndpointOf(c, s, x);
  }

  /** The pending mask tells the history of its queue pair: the send bit is set exactly while a
      send is unprocessed, the receive bit exactly while the peer owes a message. */
  lemma PendingIsHistory(c: Config, s: System, x: Side, q: nat)
    requires Reachable(c, s) && q < c.n
    ensures s.Shape(c.n)
    ensures var e := s.At(x);
      e.pending[q] == MaskOf(e.sq[q] != Empty,
                             (x == Client && !(e.stage.Starting? && e.stage.k <= q) && e.got[q] < e.sent[q]) ||
                             (x == Server && e.got[q] == e.sent[q]))
  {
    hide Reachable, PayloadInv;
    var t := EndpointOf(c, s, x);
    assert LinkInv(c, s.At(x), x, q, t[q]);
  }

  lemma CompletionsOf(c: Config, e: Endpoint, x: Side, t: seq<Token>, wc: Completion)
    requires c.Valid() && e.Shape(c.n) && |t| == c.n && LinksInv(c, e, x, t) && SideInv(c, e, x, t)
    requires wc in e.Unprocessed()
    ensures var q := FindQp(c.Of(x).qpns, wc.qpn);
      && 0 <= q < c.n
      && (wc.wrId == SEND_WRID || wc.wrId == RECV_WRID)
      && e.pending[q] & wc.wrId == wc.wrId
      && Count(e.Unprocessed(), wc) == 1
  {
    var q := FindQp(c.Of(x).qpns, wc.qpn);
    assert LinkInv(c, e, x, q, t[q]);
    assert wc == SendDone(c, x, q) || wc == RecvDone(c, x, q);
  }

  /** No completion is processed with its bit clear, and none is generated twice. */
  lemma CompletionsArePending(c: Config, s: System, x: Side, wc: Completion)
    requires Reachable(c, s) && wc in s.At(x).Unprocessed()
    ensures s.Shape(c.n)
    ensures var q := FindQp(c.Of(x).qpns, wc.qpn);
      && 0 <= q < c.n
      && (wc.wrId == SEND_WRID || wc.wrId == RECV_WRID)
      && s.At(x).pending[q] & wc.wrId == wc.wrId
      && Count(s.At(x).Unprocessed(), wc) == 1
  {
    hide PayloadInv, CrossInv, LinksInv, SideInv, Reachable;
    var t := EndpointOf(c, s, x);
    CompletionsOf(c, s.At(x), x, t, wc);
  }

  /** The depth-one send queue is never over-posted: whenever a side is about to post, the slot
      of that queue pair is free. */
  lemma SlotFreeWhenIdle(c: Config, s: System, x: Side, q: nat)
    requires Reachable(c, s) && q < c.n
    ensures s.Shape(c.n)
    ensures s.At(x).pending[q] & SEND_WRID == 0 <==> s.At(x).sq[q] == Empty
  {
    hide Reachable, PayloadInv, CrossInv;
    var t := EndpointOf(c, s, x);
    assert LinkInv(c, s.At(x), x, q, t[q]);
  }

  /** Event mode never loses a wakeup: an endpoint about to wait for an event while completions
      are unprocessed finds one; there is never more than one; and after the loop every event
      received has been acknowledged. */
  lemma NoLostWakeup(c: Config, s: System, x: Side)
    requires Reachable(c, s)
    ensures c.Of(x).useEvent && AtCondition(s.At(x)) && s.At(x).cq != [] ==> s.At(x).events == 1
    ensures s.At(x).events <= 1 && (s.At(x).armed ==> s.At(x).events == 0)
    ensures s.At(x).unacked == if s.At(x).stage == Left then 0 else s.At(x).numCqEvents
  {
    hide Reachable, PayloadInv, CrossInv, LinksInv, SideInv;
    var t := EndpointOf(c, s, x);
  }

  /** One poll takes everything that the completion queue holds. */
  lemma PollDrains(c: Config, s: System, x: Side)
    requires Reachable(c, s) && s.Shape(c.n) && Enabled(c, s, PollCq(x))
    ensures Apply(c, s, PollCq(x)).At(x).cq == [] && Apply(c, s, PollCq(x)).At(x).batch == s.At(x).cq
  {
    CreditsAndCapacities(c, s, x);
  }

  lemma DeliveredPayload(c: Config, s: System, t: seq<Token>)
    requires c.Valid() && s.Shape(c.n) && |t| == c.n && PayloadInv(c, s, t)
    requires Receives(s.server.Unprocessed()) == Count(t, Arrived(Server))
    ensures Receives(s.server.Unprocessed()) > 0 ==> s.server.buf == c.client.fill
  {
    if Receives(s.server.Unprocessed()) > 0 {
      var q :| 0 <= q < c.n && t[q] == Arrived(Server);
    }
  }

  /** The echo: the client's buffer keeps what it held at the start, every message carries that,
      and so does the server's buffer from the first delivery on. */
  lemma PayloadEcho(c: Config, s: System, x: Side)
    requires Reachable(c, s)
    ensures s.client.buf == c.client.fill
    ensures Carries(s.At(x).wire, c.client.fill)
    ensures s.server.rcnt > 0 || Receives(s.server.Unprocessed()) > 0 ==> s.server.buf == c.client.fill
  {
    hide CrossInv, LinksInv, EventInv, Reachable;
    var t := EndpointOf(c, s, Server);
    DeliveredPayload(c, s, t);
  }
}
