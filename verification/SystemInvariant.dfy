/** The token invariant is inductive: it holds initially and every step of either endpoint or
    device preserves it, so it holds in every state of every run. */
module SystemInvariant {
  import opened Counting
  import opened Verbs
  import opened Endpoints
  import opened PingPongSystem
  import opened TokenInvariant
  import opened StepInvariant

  // ---- Accounting between the two sides ----

  /** A token moves without any message being posted or processed. */
  lemma CrossKeep(n: nat, a: Endpoint, a': Endpoint, b: Endpoint, b': Endpoint,
                  x: Side, t: seq<Token>, q: nat, v: Token)
    requires a.Shape(n) && a'.Shape(n) && b.Shape(n) && b'.Shape(n) && |t| == n && q < n
    requires CrossInv(n, a, b, x, t)
    requires a'.sent == a.sent && Posts(a') == Posts(a) && b'.got == b.got && b'.rcnt == b.rcnt
    requires Owed(t[q], x) == Owed(v, x)
    ensures CrossInv(n, a', b', x, t[q := v])
  {
    CountUpdate(t, q, v);
  }

  /** A message is posted. */
  lemma CrossPost(n: nat, a: Endpoint, a': Endpoint, b: Endpoint, x: Side, t: seq<Token>, q: nat)
    requires a.Shape(n) && a'.Shape(n) && b.Shape(n) && |t| == n && q < n
    requires CrossInv(n, a, b, x, t)
    requires a'.sent == a.sent[q := a.sent[q] + 1] && Posts(a') == Posts(a) + 1
    requires !Owed(t[q], x)
    ensures CrossInv(n, a', b, x, t[q := Flying(x)])
  {
    CountUpdate(t, q, Flying(x));
  }

  /** A receive completion is processed. */
  lemma CrossProcess(n: nat, a: Endpoint, b: Endpoint, b': Endpoint, x: Side, t: seq<Token>, q: nat, v: Token)
    requires a.Shape(n) && b.Shape(n) && b'.Shape(n) && |t| == n && q < n
    requires CrossInv(n, a, b, x, t)
    requires b'.got == b.got[q := b.got[q] + 1] && b'.rcnt == b.rcnt + 1
    requires t[q] == Arrived(x.Peer()) && !Owed(v, x)
    ensures CrossInv(n, a, b', x, t[q := v])
  {
    CountUpdate(t, q, v);
  }

  lemma CrossSame(n: nat, a: Endpoint, a': Endpoint, b: Endpoint, b': Endpoint, x: Side, t: seq<Token>)
    requires a.Shape(n) && a'.Shape(n) && b.Shape(n) && b'.Shape(n) && |t| == n
    requires CrossInv(n, a, b, x, t)
    requires a'.sent == a.sent && Posts(a') == Posts(a) && b'.got == b.got && b'.rcnt == b.rcnt
    ensures CrossInv(n, a', b', x, t)
  {
  }

  // ---- Both endpoints, one lemma per kind of step ----

  lemma TransmitPair(c: Config, a: Endpoint, b: Endpoint, x: Side, t: seq<Token>, q: nat)
    requires c.Valid() && a.Shape(c.n) && b.Shape(c.n) && |t| == c.n && q < c.n && PairInv(c, a, b, x, t)
    requires a.sq[q] == Queued
    ensures PairInv(c, Transmitted(a, q), b, x, t)
  {
    hide EndpointInv, CrossInv, Posts;
    TransmittedInv(c, a, x, t, q);
    CrossSame(c.n, a, Transmitted(a, q), b, b, x, t);
    CrossSame(c.n, b, b, a, Transmitted(a, q), x.Peer(), t);
  }

  lemma DeliverPair(c: Config, a: Endpoint, b: Endpoint, x: Side, t: seq<Token>, q: nat, m: Byte)
    requires c.Valid() && a.Shape(c.n) && b.Shape(c.n) && |t| == c.n && q < c.n && PairInv(c, a, b, x, t)
    requires a.wire[q] != [] && b.posted > 0
    ensures PairInv(c, Departed(a, q), Received(b, c.Of(x.Peer()).qpns[q], m), x, t[q := Arrived(x.Peer())])
  {
    hide EndpointInv, CrossInv;
    var y := x.Peer();
    var b' := Received(b, c.Of(y).qpns[q], m);
    DepartedInv(c, a, x, t, q, Arrived(y));
    ReceivedInv(c, b, y, t, q, m);
    CrossKeep(c.n, a, Departed(a, q), b, b', x, t, q, Arrived(y));
    CrossKeep(c.n, b, b', a, Departed(a, q), y, t, q, Arrived(y));
  }

  lemma DropPair(c: Config, a: Endpoint, b: Endpoint, x: Side, t: seq<Token>, q: nat)
    requires c.Valid() && a.Shape(c.n) && b.Shape(c.n) && |t| == c.n && q < c.n && PairInv(c, a, b, x, t)
    requires a.wire[q] != [] && !c.reliable
    ensures t[q] == Flying(x)
    ensures PairInv(c, Departed(a, q), b, x, t[q := Lost(x)])
  {
    hide EndpointInv, CrossInv;
    DepartedInv(c, a, x, t, q, Lost(x));
    TokenElsewhere(c, b, x.Peer(), t, q, Lost(x));
    CrossKeep(c.n, a, Departed(a, q), b, b, x, t, q, Lost(x));
    CrossKeep(c.n, b, b, a, Departed(a, q), x.Peer(), t, q, Lost(x));
  }

  lemma AckPair(c: Config, a: Endpoint, b: Endpoint, x: Side, t: seq<Token>, q: nat)
    requires c.Valid() && a.Shape(c.n) && b.Shape(c.n) && |t| == c.n && q < c.n && PairInv(c, a, b, x, t)
    requires a.sq[q] == Sent
    ensures PairInv(c, Acked(a, q, c.Of(x).qpns[q]), b, x, t)
  {
    hide EndpointInv, CrossInv, Posts;
    var a' := Acked(a, q, c.Of(x).qpns[q]);
    AckedInv(c, a, x, t, q);
    CrossSame(c.n, a, a', b, b, x, t);
    CrossSame(c.n, b, b, a, a', x.Peer(), t);
  }

  lemma StartPair(c: Config, a: Endpoint, b: Endpoint, x: Side, t: seq<Token>)
    requires c.Valid() && a.Shape(c.n) && b.Shape(c.n) && |t| == c.n && PairInv(c, a, b, x, t)
    requires a.stage.Starting?
    ensures x == Client && a.stage.k < c.n && t[a.stage.k] == Held(x)
    ensures PairInv(c, PostFirst(c.n, a), b, x, t[a.stage.k := Flying(x)])
  {
    hide EndpointInv, CrossInv;
    var k, a' := a.stage.k, PostFirst(c.n, a);
    StartedInv(c, a, x, t);
    TokenElsewhere(c, b, x.Peer(), t, k, Flying(x));
    CountUpdate(a.sq, k, Queued);
    CrossPost(c.n, a, a', b, x, t, k);
    CrossKeep(c.n, b, b, a, a', x.Peer(), t, k, Flying(x));
  }

  lemma LoopPair(c: Config, a: Endpoint, a': Endpoint, b: Endpoint, x: Side, t: seq<Token>)
    requires c.Valid() && a.Shape(c.n) && a'.Shape(c.n) && b.Shape(c.n) && |t| == c.n
    requires PairInv(c, a, b, x, t) && EndpointInv(c, a', x, t)
    requires a'.sent == a.sent && a'.got == a.got && a'.scnt == a.scnt && a'.rcnt == a.rcnt && a'.sq == a.sq
    ensures PairInv(c, a', b, x, t)
  {
    hide EndpointInv, CrossInv;
    CrossSame(c.n, a, a', b, b, x, t);
    CrossSame(c.n, b, b, a, a', x.Peer(), t);
  }

  lemma SendPair(c: Config, a: Endpoint, a': Endpoint, b: Endpoint, x: Side, t: seq<Token>, q: nat, post: bool)
    requires c.Valid() && a.Shape(c.n) && a'.Shape(c.n) && b.Shape(c.n) && |t| == c.n && q < c.n
    requires a.batch != [] && a.batch[0] == SendDone(c, x, q) && a.stage == Running && a.sq[q] == Completed
    requires post == (a.scnt + 1 < c.Of(x).iters && t[q] == Held(x))
    requires a' == AfterSend(a, q, post, t[q] != Held(x))
    requires PairInv(c, a, b, x, t)
    ensures PairInv(c, a', b, x, if post then t[q := Flying(x)] else t)
  {
    hide EndpointInv, CrossInv, Posts;
    AfterSendInv(c, a, x, t, q, post, t[q] != Held(x));
    if post {
      TokenElsewhere(c, b, x.Peer(), t, q, Flying(x));
      CrossPost(c.n, a, a', b, x, t, q);
      CrossKeep(c.n, b, b, a, a', x.Peer(), t, q, Flying(x));
    } else {
      CrossSame(c.n, a, a', b, b, x, t);
      CrossSame(c.n, b, b, a, a', x.Peer(), t);
    }
  }

  lemma RecvPair(c: Config, a: Endpoint, a': Endpoint, b: Endpoint, x: Side, t: seq<Token>, q: nat, v: Token)
    requires c.Valid() && a.Shape(c.n) && a'.Shape(c.n) && b.Shape(c.n) && |t| == c.n && q < c.n
    requires a.batch != [] && a.batch[0] == RecvDone(c, x, q) && a.stage == Running
    requires t[q] == Arrived(x) && TopUp(c, a, x) >= 0
    requires a' == AfterRecv(a, q, TopUp(c, a, x), Replies(c, a, x, q))
    requires v == if Replies(c, a, x, q) then Flying(x) else Held(x)
    requires PairInv(c, a, b, x, t)
    ensures PairInv(c, a', b, x, t[q := v])
  {
    hide EndpointInv, CrossInv, Posts;
    AfterRecvInv(c, a, x, t, q);
    TokenElsewhere(c, b, x.Peer(), t, q, v);
    CrossProcess(c.n, b, a, a', x.Peer(), t, q, v);
    if Replies(c, a, x, q) { CrossPost(c.n, a, a', b, x, t, q); } else { CrossKeep(c.n, a, a', b, b, x, t, q, v); }
  }

  // ---- Payload ----

  /** Actions that touch neither a buffer nor a wire, and at most start a new message. */
  lemma PayloadLocal(c: Config, s: System, s': System, t: seq<Token>, t': seq<Token>)
    requires s.Shape(c.n) && s'.Shape(c.n) && |t| == |t'| == c.n && PayloadInv(c, s, t)
    requires s'.client.buf == s.client.buf && s'.server.buf == s.server.buf
    requires s'.client.wire == s.client.wire && s'.server.wire == s.server.wire
    requires s'.server.rcnt > s.server.rcnt ==> s.server.buf == c.client.fill
    requires forall q :: 0 <= q < c.n && t'[q] != t[q] ==>
      t'[q] == Flying(Client) || t'[q] == Held(Client) || s.server.buf == c.client.fill
    ensures PayloadInv(c, s', t')
  {
  }

  lemma PayloadTransmit(c: Config, s: System, t: seq<Token>, x: Side, q: nat)
    requires c.Valid() && s.Shape(c.n) && |t| == c.n && PayloadInv(c, s, t) && Enabled(c, s, Transmit(x, q))
    requires t[q] == Flying(x)
    ensures PayloadInv(c, Apply(c, s, Transmit(x, q)), t)
  {
    assert s.At(x).buf == c.client.fill;
  }

  lemma PayloadDeliver(c: Config, s: System, t: seq<Token>, x: Side, q: nat)
    requires c.Valid() && s.Shape(c.n) && |t| == c.n && PayloadInv(c, s, t) && Enabled(c, s, Deliver(x, q))
    requires t[q] == Flying(x)
    ensures PayloadInv(c, Apply(c, s, Deliver(x, q)), t[q := Arrived(x.Peer())])
  {
    assert s.At(x).wire[q][0] == c.client.fill;
  }

  lemma PayloadDrop(c: Config, s: System, t: seq<Token>, x: Side, q: nat)
    requires c.Valid() && s.Shape(c.n) && |t| == c.n && PayloadInv(c, s, t) && Enabled(c, s, Drop(x, q))
    requires t[q] == Flying(x)
    ensures PayloadInv(c, Apply(c, s, Drop(x, q)), t[q := Lost(x)])
  {
    assert x == Server ==> s.server.buf == c.client.fill;
  }

  // ---- Every step ----

  lemma FlyingToken(c: Config, e: Endpoint, x: Side, t: seq<Token>, q: nat)
    requires c.Valid() && e.Shape(c.n) && |t| == c.n && q < c.n && EndpointInv(c, e, x, t)
    requires e.sq[q] == Queued || e.wire[q] != []
    ensures t[q] == Flying(x)
  {
    assert LinkInv(c, e, x, q, t[q]);
  }

  lemma TransmitStep(c: Config, s: System, t: seq<Token>, x: Side, q: nat)
    requires Inv(c, s, t) && Enabled(c, s, Transmit(x, q))
    ensures Inv(c, Apply(c, s, Transmit(x, q)), t)
  {
    hide EndpointInv, CrossInv, PayloadInv;
    PairFrom(c, s, t, x);
    FlyingToken(c, s.At(x), x, t, q);
    TransmitPair(c, s.At(x), s.At(x.Peer()), x, t, q);
    PayloadTransmit(c, s, t, x, q);
    InvFrom(c, Apply(c, s, Transmit(x, q)), t, x);
  }

  lemma DeliverStep(c: Config, s: System, t: seq<Token>, x: Side, q: nat)
    requires Inv(c, s, t) && Enabled(c, s, Deliver(x, q))
    ensures t[q] == Flying(x)
    ensures Inv(c, Apply(c, s, Deliver(x, q)), t[q := Arrived(x.Peer())])
  {
    hide EndpointInv, CrossInv, PayloadInv;
    PairFrom(c, s, t, x);
    FlyingToken(c, s.At(x), x, t, q);
    DeliverPair(c, s.At(x), s.At(x.Peer()), x, t, q, s.At(x).wire[q][0]);
    PayloadDeliver(c, s, t, x, q);
    InvFrom(c, Apply(c, s, Deliver(x, q)), t[q := Arrived(x.Peer())], x);
  }

  lemma AckStep(c: Config, s: System, t: seq<Token>, x: Side, q: nat)
    requires Inv(c, s, t) && Enabled(c, s, Ack(x, q))
    ensures Inv(c, Apply(c, s, Ack(x, q)), t)
  {
    var s' := Apply(c, s, Ack(x, q));
    PayloadLocal(c, s, s', t, t);
    hide EndpointInv, CrossInv, PayloadInv;
    PairFrom(c, s, t, x);
    AckPair(c, s.At(x), s.At(x.Peer()), x, t, q);
    InvFrom(c, s', t, x);
  }

  lemma DropStep(c: Config, s: System, t: seq<Token>, x: Side, q: nat)
    requires Inv(c, s, t) && Enabled(c, s, Drop(x, q))
    ensures t[q] == Flying(x) && !c.reliable
    ensures Inv(c, Apply(c, s, Drop(x, q)), t[q := Lost(x)])
  {
    hide EndpointInv, CrossInv, PayloadInv;
    PairFrom(c, s, t, x);
    DropPair(c, s.At(x), s.At(x.Peer()), x, t, q);
    PayloadDrop(c, s, t, x, q);
    InvFrom(c, Apply(c, s, Drop(x, q)), t[q := Lost(x)], x);
  }

  lemma StartStep(c: Config, s: System, t: seq<Token>, x: Side)
    requires Inv(c, s, t) && Enabled(c, s, Start(x))
    ensures x == Client && s.At(x).stage.k < c.n && t[s.At(x).stage.k] == Held(x)
    ensures Inv(c, Apply(c, s, Start(x)), t[s.At(x).stage.k := Flying(x)])
  {
    hide EndpointInv, CrossInv, PayloadInv;
    PairFrom(c, s, t, x);
    StartPair(c, s.At(x), s.At(x.Peer()), x, t);
    PayloadLocal(c, s, Apply(c, s, Start(x)), t, t[s.At(x).stage.k := Flying(x)]);
    InvFrom(c, Apply(c, s, Start(x)), t[s.At(x).stage.k := Flying(x)], x);
  }

  /** The actions of the loop that only change its stage. */
  lemma LoopStep(c: Config, s: System, t: seq<Token>, step: Step)
    requires Inv(c, s, t) && Enabled(c, s, step)
    requires step.GetEvent? || step.Rearm? || step.PollCq? || step.Leave?
    ensures Inv(c, Apply(c, s, step), t)
  {
    hide EndpointInv, CrossInv, PayloadInv;
    var x := step.x;
    var e := s.At(x);
    PairFrom(c, s, t, x);
    match step {
      case GetEvent(_) => EventTakenInv(c, e, x, t);
      case Rearm(_) => RearmedInv(c, e, x, t);
      case PollCq(_) => PollInv(c, e, x, t);
      case Leave(_) => DepartingInv(c, e, x, t);
    }
    LoopPair(c, e, Apply(c, s, step).At(x), s.At(x.Peer()), x, t);
    PayloadLocal(c, s, Apply(c, s, step), t, t);
    InvFrom(c, Apply(c, s, step), t, x);
  }

  /** The oldest completion of a batch is one that the device generated for a queue pair of this
      side, and the token of that queue pair says which. */
  lemma BatchHead(c: Config, e: Endpoint, x: Side, t: seq<Token>)
    requires c.Valid() && e.Shape(c.n) && |t| == c.n && EndpointInv(c, e, x, t) && e.batch != []
    ensures var q := FindQp(c.Of(x).qpns, e.batch[0].qpn);
      && 0 <= q < c.n
      && (e.batch[0] == SendDone(c, x, q) || (e.batch[0] == RecvDone(c, x, q) && t[q] == Arrived(x)))
      && e.pending[q] == MaskOf(e.sq[q] != Empty, t[q] != Held(x))
  {
    assert e.Unprocessed()[0] == e.batch[0];
    var q := FindQp(c.Of(x).qpns, e.batch[0].qpn);
    assert LinkInv(c, e, x, q, t[q]);
  }

  lemma SendHead(c: Config, e: Endpoint, x: Side, t: seq<Token>, q: nat)
    requires c.Valid() && e.Shape(c.n) && |t| == c.n && q < c.n && EndpointInv(c, e, x, t)
    requires e.batch != [] && e.batch[0] == SendDone(c, x, q)
    ensures FindQp(c.Of(x).qpns, e.batch[0].qpn) == q && e.sq[q] == Completed
    ensures var post := e.scnt + 1 < c.Of(x).iters && t[q] == Held(x);
      Consumed(c.n, c.Of(x), e) == AfterSend(e, q, post, t[q] != Held(x))
  {
    assert LinkInv(c, e, x, q, t[q]);
    ConsumedSend(c, e, x, q, t[q]);
    FindQpUnique(c.Of(x).qpns, q);
  }

  lemma SendStep(c: Config, s: System, t: seq<Token>, x: Side, q: nat) returns (t': seq<Token>)
    requires c.Valid() && s.Shape(c.n) && |t| == c.n && q < c.n
    requires Enabled(c, s, Process(x)) && s.At(x).batch[0] == SendDone(c, x, q)
    requires Inv(c, s, t)
    ensures t' == NextTokens(c, s, Process(x), t) && Inv(c, Apply(c, s, Process(x)), t')
    ensures t' == t || (t[q] == Held(x) && t' == t[q := Flying(x)])
  {
    hide EndpointInv, CrossInv, PayloadInv, Consumed;
    var e := s.At(x);
    PairFrom(c, s, t, x);
    SendHead(c, e, x, t, q);
    var post := e.scnt + 1 < c.Of(x).iters && t[q] == Held(x);
    var s' := Apply(c, s, Process(x));
    t' := if post then t[q := Flying(x)] else t;
    SendPair(c, e, s'.At(x), s.At(x.Peer()), x, t, q, post);
    assert t' == NextTokens(c, s, Process(x), t);
    HeldPayload(c, s, t, q);
    PayloadLocal(c, s, s', t, t');
    InvFrom(c, s', t', x);
  }

  lemma HeldPayload(c: Config, s: System, t: seq<Token>, q: nat)
    requires c.Valid() && s.Shape(c.n) && |t| == c.n && q < c.n && PayloadInv(c, s, t)
    ensures t[q] == Held(Server) || t[q] == Arrived(Server) ==> s.server.buf == c.client.fill
  {
  }

  lemma RecvHead(c: Config, e: Endpoint, x: Side, t: seq<Token>, q: nat)
    requires c.Valid() && e.Shape(c.n) && |t| == c.n && q < c.n && EndpointInv(c, e, x, t)
    requires e.batch != [] && e.batch[0] == RecvDone(c, x, q)
    ensures FindQp(c.Of(x).qpns, e.batch[0].qpn) == q && t[q] == Arrived(x) && TopUp(c, e, x) >= 0
    ensures e.sq[q] != Queued
    ensures Consumed(c.n, c.Of(x), e) == AfterRecv(e, q, TopUp(c, e, x), Replies(c, e, x, q))
  {
    assert LinkInv(c, e, x, q, t[q]);
    RecvFacts(c, e, x, q, t);
    ConsumedRecv(c, e, x, q);
    FindQpUnique(c.Of(x).qpns, q);
  }

  lemma RecvStep(c: Config, s: System, t: seq<Token>, x: Side, q: nat) returns (t': seq<Token>)
    requires c.Valid() && s.Shape(c.n) && |t| == c.n && q < c.n
    requires Enabled(c, s, Process(x)) && s.At(x).batch[0] == RecvDone(c, x, q)
    requires Inv(c, s, t)
    ensures t' == NextTokens(c, s, Process(x), t) && Inv(c, Apply(c, s, Process(x)), t')
    ensures t[q] == Arrived(x)
    ensures t' == t[q := if Replies(c, s.At(x), x, q) then Flying(x) else Held(x)]
  {
    hide EndpointInv, CrossInv, PayloadInv, Consumed;
    var e := s.At(x);
    PairFrom(c, s, t, x);
    RecvHead(c, e, x, t, q);
    var v := if Replies(c, e, x, q) then Flying(x) else Held(x);
    var s' := Apply(c, s, Process(x));
    RecvPair(c, e, s'.At(x), s.At(x.Peer()), x, t, q, v);
    t' := t[q := v];
    assert t' == NextTokens(c, s, Process(x), t);
    HeldPayload(c, s, t, q);
    PayloadLocal(c, s, s', t, t');
    InvFrom(c, s', t', x);
  }

  /** Messages of `y` that are lost. */
  function LostBy(t: seq<Token>, y: Side): nat { Count(t, Lost(y)) }

  lemma LostMove(t: seq<Token>, q: nat, v: Token)
    requires q < |t|
    ensures forall y :: LostBy(t[q := v], y) == LostBy(t, y) - Bit(t[q] == Lost(y)) + Bit(v == Lost(y))
  {
    CountUpdate(t, q, v);
  }

  /** A completion is processed: the token stays, or moves without being lost. */
  lemma ProcessStep(c: Config, s: System, t: seq<Token>, x: Side)
    requires Inv(c, s, t) && Enabled(c, s, Process(x))
    ensures Inv(c, Apply(c, s, Process(x)), NextTokens(c, s, Process(x), t))
    ensures forall y :: LostBy(NextTokens(c, s, Process(x), t), y) == LostBy(t, y)
  {
    hide EndpointInv, CrossInv, PayloadInv, NextTokens, Apply, LostBy;
    PairFrom(c, s, t, x);
    BatchHead(c, s.At(x), x, t);
    var q := FindQp(c.Of(x).qpns, s.At(x).batch[0].qpn);
    LostMove(t, q, Flying(x));
    LostMove(t, q, Held(x));
    if s.At(x).batch[0] == SendDone(c, x, q) {
      var _ := SendStep(c, s, t, x, q);
    } else {
      var _ := RecvStep(c, s, t, x, q);
    }
  }

  /** Every step preserves the invariant, and loses a token exactly when it drops a message. */
  lemma StepPreserves(c: Config, s: System, t: seq<Token>, step: Step)
    requires Inv(c, s, t) && Enabled(c, s, step)
    ensures Inv(c, Apply(c, s, step), NextTokens(c, s, step, t))
    ensures forall y :: LostBy(NextTokens(c, s, step, t), y) == LostBy(t, y) + Bit(step.Drop? && step.x == y)
    ensures step.Drop? ==> !c.reliable
  {
    var x := step.x;
    hide PairInv, PayloadInv, LostBy, Apply;
    match step {
      case Transmit(_, q) => TransmitStep(c, s, t, x, q);
      case Deliver(_, q) =>
        DeliverStep(c, s, t, x, q);
        LostMove(t, q, Arrived(x.Peer()));
      case Ack(_, q) => AckStep(c, s, t, x, q);
      case Drop(_, q) => DropStep(c, s, t, x, q); LostMove(t, q, Lost(x));
      case Start(_) => StartStep(c, s, t, x); LostMove(t, s.At(x).stage.k, Flying(x));
      case Process(_) => ProcessStep(c, s, t, x);
      case _ => LoopStep(c, s, t, step);
    }
  }

  /** Messages of `y` that a sequence of steps drops. */
  function DropsBy(steps: seq<Step>, y: Side): nat {
    if steps == [] then 0 else Bit(steps[0].Drop? && steps[0].x == y) + DropsBy(steps[1..], y)
  }

  function Drops(steps: seq<Step>): nat { DropsBy(steps, Client) + DropsBy(steps, Server) }

  lemma {:induction false} RunPreserves(c: Config, s: System, t: seq<Token>, steps: seq<Step>) returns (t': seq<Token>)
    requires Inv(c, s, t) && Run(c, s, steps)
    ensures Inv(c, Final(c, s, steps), t')
    ensures forall y :: LostBy(t', y) == LostBy(t, y) + DropsBy(steps, y)
    decreases |steps|
  {
    hide PairInv, PayloadInv, LostBy;
    if steps == [] {
      t' := t;
    } else {
      StepPreserves(c, s, t, steps[0]);
      t' := RunPreserves(c, Apply(c, s, steps[0]), NextTokens(c, s, steps[0], t), steps[1..]);
    }
  }

  /** The states that the two programs can be in. */
  ghost predicate Reachable(c: Config, s: System) {
    c.Valid() && exists steps :: Run(c, Initial(c), steps) && s == Final(c, Initial(c), steps)
  }

  /** In every state of every run the tokens are somewhere. */
  lemma ReachableInv(c: Config, s: System) returns (t: seq<Token>)
    requires Reachable(c, s)
    ensures Inv(c, s, t)
  {
    var steps :| Run(c, Initial(c), steps) && s == Final(c, Initial(c), steps);
    InitialInv(c);
    t := RunPreserves(c, Initial(c), seq(c.n, _ => Held(Client)), steps);
  }
}
