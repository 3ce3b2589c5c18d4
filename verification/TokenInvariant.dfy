/** Every queue pair carries one token, the right to send next. The invariant ties the state of
    both endpoints to the places of the tokens; every step moves at most one token. */
module TokenInvariant {
  import opened Counting
  import opened Verbs
  import opened Endpoints
  import opened PingPongSystem

  /** `Flying(x)`: in a message of `x`, queued or on the wire. `Arrived(x)`: in a receive
      completion that `x` has not processed. `Held(x)`: with `x`, which has not sent since.
      `Lost(x)`: dropped together with a message of `x`. */
  datatype Token = Flying(x: Side) | Arrived(x: Side) | Held(x: Side) | Lost(x: Side)

  /** Send requests posted whose completions have not been processed. */
  function Outstanding(e: Endpoint): int { |e.sq| - Count(e.sq, Empty) }

  /** Messages posted so far. */
  function Posts(e: Endpoint): int { e.scnt + Outstanding(e) }

  /** The most messages a side ever posts: the client opens with one per queue pair. */
  function Budget(c: Config, x: Side): int {
    if x == Client then (if c.client.iters <= 1 then c.n else c.client.iters + c.n - 1)
    else (if c.server.iters <= 0 then 0 else c.server.iters + c.n - 1)
  }

  /** Receive completions in a queue. */
  function Receives(u: seq<Completion>): nat {
    if u == [] then 0 else Bit(u[0].wrId == RECV_WRID) + Receives(u[1..])
  }

  lemma {:induction false} ReceivesAppend(u: seq<Completion>, wc: Completion)
    ensures Receives(u + [wc]) == Receives(u) + Bit(wc.wrId == RECV_WRID)
  {
    if u == [] {
      assert u + [wc] == [wc];
    } else {
      assert (u + [wc])[1..] == u[1..] + [wc];
      ReceivesAppend(u[1..], wc);
    }
  }

  lemma ReceivesPop(wc: Completion, u: seq<Completion>)
    ensures Receives([wc] + u) == Receives(u) + Bit(wc.wrId == RECV_WRID)
  {
    assert ([wc] + u)[1..] == u;
  }

  function SendDone(c: Config, x: Side, q: nat): Completion
    requires q < |c.Of(x).qpns|
  {
    Completion(SEND_WRID, c.Of(x).qpns[q])
  }

  function RecvDone(c: Config, x: Side, q: nat): Completion
    requires q < |c.Of(x).qpns|
  {
    Completion(RECV_WRID, c.Of(x).qpns[q])
  }

  /** What queue pair `q` of side `x` looks like while its token is `tok`. */
  ghost predicate LinkInv(c: Config, e: Endpoint, x: Side, q: nat, tok: Token)
    requires e.Shape(c.n) && |c.Of(x).qpns| == c.n && q < c.n
  {
    && |e.wire[q]| <= 1
    && (e.sq[q] == Queued ==> e.wire[q] == [])
    && (tok == Flying(x) <==> e.sq[q] == Queued || e.wire[q] != [])
    && e.pending[q] == MaskOf(e.sq[q] != Empty, tok != Held(x))
    && Count(e.Unprocessed(), SendDone(c, x, q)) == Bit(e.sq[q] == Completed)
    && Count(e.Unprocessed(), RecvDone(c, x, q)) == Bit(tok == Arrived(x))
    && (tok == Held(x) && e.sq[q] == Empty ==>
          e.scnt >= c.Of(x).iters || (e.stage.Starting? && e.stage.k <= q))
    && e.sent[q] + Bit(tok == Held(x)) == e.got[q] + Bit(x == Client)
    && (e.stage.Starting? && e.stage.k <= q ==> tok == Held(x) && e.sq[q] == Empty)
    && (c.reliable ==> !tok.Lost?)
  }

  /** What one endpoint looks like as a whole. */
  ghost predicate SideInv(c: Config, e: Endpoint, x: Side, t: seq<Token>)
    requires e.Shape(c.n) && |c.Of(x).qpns| == c.n
  {
    && e.routs == e.posted + Count(t, Arrived(x))
    && c.n <= e.routs <= c.Of(x).rxDepth
    && |e.Unprocessed()| == Count(t, Arrived(x)) + Count(e.sq, Completed)
    && Receives(e.Unprocessed()) == Count(t, Arrived(x))
    && Posts(e) <= Budget(c, x)
    && Posts(e) + Count(t, Held(x)) == e.rcnt + (if x == Client then c.n else 0)
    && (x == Client && !e.stage.Starting? ==> Posts(e) >= c.n)
    && !e.stage.Failed?
    && (e.stage.Starting? ==> x == Client && e.stage.k < c.n && Posts(e) == e.stage.k && e.scnt == 0 && e.batch == [])
    && (e.stage == Left ==> e.batch == [] && e.Done(c.Of(x).iters))
    && (forall wc :: wc in e.Unprocessed() ==> wc.qpn in c.Of(x).qpns && (wc.wrId == SEND_WRID || wc.wrId == RECV_WRID))
  }

  /** Completion events: one event or one armed notification at a time. */
  ghost predicate EventInv(sc: SideConfig, e: Endpoint) {
    && e.unacked == (if e.stage == Left then 0 else e.numCqEvents)
    && (e.stage == Woken || e.stage == Polling ==> e.batch == [] && sc.useEvent)
    && (!sc.useEvent ==> !e.armed && e.events == 0)
    && (sc.useEvent && e.stage == Woken ==> !e.armed && e.events == 0)
    && (sc.useEvent && e.stage != Woken ==> e.events == Bit(!e.armed))
    && (sc.useEvent && e.stage != Woken && e.stage != Polling && e.armed ==> e.cq == [])
  }

  ghost predicate Carries(wire: seq<seq<Byte>>, b: Byte) {
    forall q, i :: 0 <= q < |wire| && 0 <= i < |wire[q]| ==> wire[q][i] == b
  }

  /** The client's buffer always holds what it held at the start; so does every message, and the
      server's buffer once anything has been delivered to it. */
  ghost predicate PayloadInv(c: Config, s: System, t: seq<Token>)
    requires s.Shape(c.n) && |t| == c.n
  {
    && s.client.buf == c.client.fill
    && (s.server.rcnt > 0 ==> s.server.buf == c.client.fill)
    && (forall q :: 0 <= q < c.n && t[q] != Flying(Client) && t[q] != Held(Client) && t[q] != Lost(Client) ==>
          s.server.buf == c.client.fill)
    && Carries(s.client.wire, c.client.fill) && Carries(s.server.wire, c.client.fill)
  }

  /** The token is with a message of `x` that the peer has not processed. */
  predicate Owed(tok: Token, x: Side) { tok == Flying(x) || tok == Arrived(x.Peer()) || tok == Lost(x) }

  /** Between `a`, side `x`, and its peer `b`: the messages posted by `a` have been processed by
      `b`, or are accounted for by the tokens, in total and on each queue pair. */
  ghost predicate CrossInv(n: nat, a: Endpoint, b: Endpoint, x: Side, t: seq<Token>)
    requires a.Shape(n) && b.Shape(n) && |t| == n
  {
    && Posts(a) == b.rcnt + Count(t, Flying(x)) + Count(t, Arrived(x.Peer())) + Count(t, Lost(x))
    && forall q :: 0 <= q < n ==> a.sent[q] == b.got[q] + Bit(Owed(t[q], x))
  }

  ghost predicate LinksInv(c: Config, e: Endpoint, x: Side, t: seq<Token>)
    requires e.Shape(c.n) && |t| == c.n && |c.Of(x).qpns| == c.n
  {
    forall q :: 0 <= q < c.n ==> LinkInv(c, e, x, q, t[q])
  }

  ghost predicate EndpointInv(c: Config, e: Endpoint, x: Side, t: seq<Token>)
    requires c.Valid() && e.Shape(c.n) && |t| == c.n
  {
    LinksInv(c, e, x, t) && SideInv(c, e, x, t) && EventInv(c.Of(x), e)
  }

  /** The two endpoints, seen from side `x`. */
  ghost predicate PairInv(c: Config, a: Endpoint, b: Endpoint, x: Side, t: seq<Token>)
    requires c.Valid() && a.Shape(c.n) && b.Shape(c.n) && |t| == c.n
  {
    && EndpointInv(c, a, x, t) && EndpointInv(c, b, x.Peer(), t)
    && CrossInv(c.n, a, b, x, t) && CrossInv(c.n, b, a, x.Peer(), t)
  }

  ghost predicate Inv(c: Config, s: System, t: seq<Token>) {
    && c.Valid() && s.Shape(c.n) && |t| == c.n
    && PairInv(c, s.client, s.server, Client, t) && PayloadInv(c, s, t)
  }

  lemma InvFrom(c: Config, s: System, t: seq<Token>, x: Side)
    requires c.Valid() && s.Shape(c.n) && |t| == c.n && PayloadInv(c, s, t)
    requires PairInv(c, s.At(x), s.At(x.Peer()), x, t)
    ensures Inv(c, s, t)
  {
    hide EndpointInv, CrossInv, PayloadInv;
  }

  lemma PairFrom(c: Config, s: System, t: seq<Token>, x: Side)
    requires Inv(c, s, t)
    ensures PairInv(c, s.At(x), s.At(x.Peer()), x, t)
  {
    hide EndpointInv, CrossInv, PayloadInv;
  }

  /** Where the tokens are after a step. */
  function NextTokens(c: Config, s: System, step: Step, t: seq<Token>): (r: seq<Token>)
    requires c.Valid() && s.Shape(c.n) && |t| == c.n && Enabled(c, s, step)
    ensures |r| == c.n
  {
    match step
    case Deliver(x, q) => t[q := Arrived(x.Peer())]
    case Drop(x, q) => t[q := Lost(x)]
    case Start(x) => var k := s.At(x).stage.k; if k < c.n then t[k := Flying(x)] else t
    case Process(x) =>
      var wc := s.At(x).batch[0];
      var q := FindQp(c.Of(x).qpns, wc.qpn);
      if q < 0 then t
      else if Consumed(c.n, c.Of(x), s.At(x)).sq[q] == Queued then t[q := Flying(x)]
      else if wc.wrId == RECV_WRID then t[q := Held(x)]
      else t
    case _ => t
  }

  lemma InitialLink(c: Config, x: Side, q: nat)
    requires c.Valid() && q < c.n
    ensures LinkInv(c, Initial(c).At(x), x, q, Held(Client))
  {
    assert Initial(c).At(x).Unprocessed() == [];
  }

  lemma InitialSide(c: Config, x: Side, t: seq<Token>)
    requires c.Valid() && t == seq(c.n, _ => Held(Client))
    ensures SideInv(c, Initial(c).At(x), x, t)
  {
    CountUniform(t, Held(Client));
    CountUniform(Initial(c).At(x).sq, Empty);
    assert Arrived(x) !in t && (x == Server ==> Held(x) !in t);
    assert Initial(c).At(x).Unprocessed() == [] && Completed !in Initial(c).At(x).sq;
  }

  lemma InitialCross(c: Config, x: Side, t: seq<Token>)
    requires c.Valid() && t == seq(c.n, _ => Held(Client))
    ensures CrossInv(c.n, Initial(c).At(x), Initial(c).At(x.Peer()), x, t)
  {
    CountUniform(Initial(c).At(x).sq, Empty);
    assert Flying(x) !in t && Arrived(x.Peer()) !in t && Lost(x) !in t;
  }

  lemma InitialInv(c: Config)
    requires c.Valid()
    ensures Inv(c, Initial(c), seq(c.n, _ => Held(Client)))
  {
    hide LinkInv, SideInv, CrossInv;
    var t := seq(c.n, _ => Held(Client));
    forall x: Side, q | 0 <= q < c.n ensures LinkInv(c, Initial(c).At(x), x, q, t[q]) { InitialLink(c, x, q); }
    InitialSide(c, Client, t);
    InitialSide(c, Server, t);
    InitialCross(c, Client, t);
    InitialCross(c, Server, t);
  }
}
