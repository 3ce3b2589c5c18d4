/** The condition for completion is exact. A schedule that delivers to one side only while that
    side has nothing in progress keeps it from running ahead; when the iteration counts do not
    fit, such a schedule leaves the other side waiting for ever. */
module Throttle {
  import opened Counting
  import opened Verbs
  import opened Endpoints
  import opened PingPongSystem
  import opened TokenInvariant
  import opened StepInvariant
  import opened SystemInvariant
  import opened Termination
  import opened Completion
  import opened Safety

  /** The messages that a throttled side posts at most. */
  function Cap(c: Config, x: Side): int {
    if x == Client then Max(c.client.iters, c.n) else Max(c.server.iters, 0)
  }

  predicate Idle(e: Endpoint) { e.stage == Left || (e.Unprocessed() == [] && Outstanding(e) == 0) }

  /** Every step is permitted but a delivery to `x` while `x` is busy. */
  predicate Permitted(s: System, x: Side, step: Step) {
    step.Deliver? && step.x == x.Peer() ==> Idle(s.At(x))
  }

  /** A throttled side has at most one message to answer, and only when all its sends are done;
      so it never posts while another send is outstanding, except to open. */
  ghost predicate ThrottledInv(c: Config, e: Endpoint, x: Side, t: seq<Token>)
    requires e.Shape(c.n) && |t| == c.n
  {
    && Posts(e) <= Cap(c, x)
    && (e.stage != Left ==>
          && (Count(t, Arrived(x)) == 0 || (Count(t, Arrived(x)) == 1 && Outstanding(e) == 0))
          && (forall q :: 0 <= q < c.n && t[q] == Held(x) ==> e.sq[q] == Empty))
  }

  lemma InitialThrottled(c: Config, x: Side)
    requires c.Valid()
    ensures ThrottledInv(c, Initial(c).At(x), x, seq(c.n, _ => Held(Client)))
  {
    CountUniform(Initial(c).At(x).sq, Empty);
    var t: seq<Token> := seq(c.n, _ => Held(Client));
    assert Arrived(x) !in t;
  }

  /** Steps that move no token of `x` and post nothing. */
  lemma SameThrottled(c: Config, e: Endpoint, e': Endpoint, x: Side, t: seq<Token>, t': seq<Token>)
    requires e.Shape(c.n) && e'.Shape(c.n) && |t| == |t'| == c.n && ThrottledInv(c, e, x, t)
    requires Posts(e') == Posts(e) && Outstanding(e') <= Outstanding(e) && (e.stage == Left ==> e'.stage == Left)
    requires Count(t', Arrived(x)) == Count(t, Arrived(x)) && Outstanding(e') >= 0
    requires forall q :: 0 <= q < c.n && t'[q] == Held(x) ==>
      t[q] == Held(x) && (e.sq[q] == Empty ==> e'.sq[q] == Empty)
    ensures ThrottledInv(c, e', x, t')
  {
  }

  lemma ReceivedThrottled(c: Config, e: Endpoint, x: Side, t: seq<Token>, q: nat, m: Byte)
    requires c.Valid() && e.Shape(c.n) && |t| == c.n && q < c.n && EndpointInv(c, e, x, t) && ThrottledInv(c, e, x, t)
    requires e.posted > 0 && t[q] == Flying(x.Peer()) && Idle(e)
    ensures ThrottledInv(c, Received(e, c.Of(x).qpns[q], m), x, t[q := Arrived(x)])
  {
    hide LinksInv, EventInv;
    CountUpdate(t, q, Arrived(x));
  }

  lemma StartFacts(c: Config, e: Endpoint, x: Side, t: seq<Token>)
    requires c.Valid() && e.Shape(c.n) && |t| == c.n && EndpointInv(c, e, x, t) && e.stage.Starting?
    ensures x == Client && e.stage.k < c.n && e.sq[e.stage.k] == Empty && t[e.stage.k] == Held(x)
    ensures Posts(e) == e.stage.k == Outstanding(e)
    ensures e.stage.k == 0 ==> Arrived(x) !in t
  {
    assert LinkInv(c, e, x, e.stage.k, t[e.stage.k]);
    if e.stage.k == 0 {
      forall q | 0 <= q < c.n ensures t[q] == Held(x) {
        assert LinkInv(c, e, x, q, t[q]);
      }
    }
  }

  lemma StartedThrottled(c: Config, e: Endpoint, x: Side, t: seq<Token>)
    requires c.Valid() && e.Shape(c.n) && |t| == c.n && ThrottledInv(c, e, x, t) && e.stage.Starting?
    requires x == Client && e.stage.k < c.n && e.sq[e.stage.k] == Empty && t[e.stage.k] == Held(x)
    requires Posts(e) == e.stage.k == Outstanding(e)
    requires e.stage.k == 0 ==> Arrived(x) !in t
    ensures ThrottledInv(c, PostFirst(c.n, e), x, t[e.stage.k := Flying(x)])
  {
    CountUpdate(t, e.stage.k, Flying(x));
    CountUpdate(e.sq, e.stage.k, Queued);
  }

  lemma AfterSendThrottled(c: Config, e: Endpoint, x: Side, t: seq<Token>, q: nat)
    requires e.Shape(c.n) && |t| == c.n && q < c.n && ThrottledInv(c, e, x, t)
    requires e.batch != [] && e.sq[q] == Completed && e.stage == Running
    ensures t[q] != Held(x)
    ensures ThrottledInv(c, AfterSend(e, q, false, true), x, t)
  {
    CountUpdate(e.sq, q, Empty);
  }

  lemma AfterRecvThrottled(c: Config, e: Endpoint, x: Side, t: seq<Token>, q: nat, k: nat)
    requires e.Shape(c.n) && |t| == c.n && q < c.n && ThrottledInv(c, e, x, t)
    requires e.batch != [] && t[q] == Arrived(x) && e.stage == Running
    ensures ThrottledInv(c, AfterRecv(e, q, k, Replies(c, e, x, q)), x,
                         t[q := if Replies(c, e, x, q) then Flying(x) else Held(x)])
  {
    assert t[q] in t;
    CountUpdate(t, q, if Replies(c, e, x, q) then Flying(x) else Held(x));
    CountUpdate(e.sq, q, Queued);
    if e.sq[q] != Empty {
      assert e.sq[q] in e.sq;
      CountTwo(e.sq, Empty, e.sq[q]);
    } else if e.stage != Left {
      assert Outstanding(e) == 0;
    }
  }

  lemma ConsumedThrottled(c: Config, s: System, t: seq<Token>, x: Side)
    requires Inv(c, s, t) && Enabled(c, s, Process(x)) && ThrottledInv(c, s.At(x), x, t)
    ensures ThrottledInv(c, Apply(c, s, Process(x)).At(x), x, NextTokens(c, s, Process(x), t))
  {
    hide EndpointInv, CrossInv, PayloadInv, Consumed, ThrottledInv;
    var e := s.At(x);
    PairFrom(c, s, t, x);
    BatchHead(c, e, x, t);
    var q := FindQp(c.Of(x).qpns, e.batch[0].qpn);
    if e.batch[0] == SendDone(c, x, q) {
      SendHead(c, e, x, t, q);
      AfterSendThrottled(c, e, x, t, q);
    } else {
      RecvHead(c, e, x, t, q);
      AfterRecvThrottled(c, e, x, t, q, TopUp(c, e, x));
    }
  }

  /** `x` sees the same tokens before and after. */
  ghost predicate SameView(t: seq<Token>, t': seq<Token>, x: Side) {
    && |t'| == |t| && Count(t', Arrived(x)) == Count(t, Arrived(x))
    && forall q :: 0 <= q < |t| && t'[q] == Held(x) ==> t[q] == Held(x)
  }

  lemma MovedElsewhere(t: seq<Token>, q: nat, v: Token, x: Side)
    requires q < |t| && t[q] != Arrived(x) && v != Arrived(x) && v != Held(x)
    ensures SameView(t, t[q := v], x)
  {
    CountUpdate(t, q, v);
  }

  lemma PeerProcessTokens(c: Config, s: System, t: seq<Token>, x: Side)
    requires Inv(c, s, t) && Enabled(c, s, Process(x.Peer()))
    ensures SameView(t, NextTokens(c, s, Process(x.Peer()), t), x)
  {
    hide EndpointInv, CrossInv, PayloadInv, Consumed, SameView, NextTokens, Apply;
    var y := x.Peer();
    PairFrom(c, s, t, y);
    BatchHead(c, s.At(y), y, t);
    var q := FindQp(c.Of(y).qpns, s.At(y).batch[0].qpn);
    if s.At(y).batch[0] == SendDone(c, y, q) {
      var t' := SendStep(c, s, t, y, q);
      SameTokens(t, x);
      if t' != t { MovedElsewhere(t, q, Flying(y), x); }
    } else {
      var t' := RecvStep(c, s, t, y, q);
      MovedElsewhere(t, q, t'[q], x);
    }
  }

  lemma SameTokens(t: seq<Token>, x: Side)
    ensures SameView(t, t, x)
  {
  }

  /** What a step of the peer does to the tokens of `x`: nothing, unless it delivers to `x`. */
  lemma PeerTokens(c: Config, s: System, t: seq<Token>, step: Step, x: Side)
    requires Inv(c, s, t) && Enabled(c, s, step) && step.x == x.Peer() && !step.Deliver?
    ensures SameView(t, NextTokens(c, s, step, t), x)
  {
    hide EndpointInv, CrossInv, PayloadInv, Consumed, SameView, Apply;
    var y := x.Peer();
    PairFrom(c, s, t, y);
    match step {
      case Drop(_, q) =>
        FlyingToken(c, s.At(y), y, t, q);
        MovedElsewhere(t, q, Lost(y), x);
      case Start(_) =>
        StartFacts(c, s.At(y), y, t);
        MovedElsewhere(t, s.At(y).stage.k, Flying(y), x);
      case Process(_) => PeerProcessTokens(c, s, t, x);
      case _ => SameTokens(t, x);
    }
  }

  lemma OtherUnchanged(c: Config, s: System, step: Step)
    requires s.Shape(c.n) && |c.client.qpns| == c.n == |c.server.qpns| && Enabled(c, s, step) && !step.Deliver?
    ensures Apply(c, s, step).At(step.x.Peer()) == s.At(step.x.Peer())
  {
    hide Consumed, Poll, Transmitted, Departed, Received, Acked, PostFirst, EventTaken, Rearmed, Departing;
  }

  lemma PeerThrottled(c: Config, s: System, t: seq<Token>, step: Step, x: Side)
    requires Inv(c, s, t) && Enabled(c, s, step) && step.x == x.Peer() && Permitted(s, x, step)
    requires ThrottledInv(c, s.At(x), x, t)
    ensures ThrottledInv(c, Apply(c, s, step).At(x), x, NextTokens(c, s, step, t))
  {
    hide EndpointInv, CrossInv, PayloadInv, Consumed, Received, Apply, ThrottledInv;
    PairFrom(c, s, t, x);
    if step.Deliver? {
      FlyingToken(c, s.At(x.Peer()), x.Peer(), t, step.q);
      ReceivedThrottled(c, s.At(x), x, t, step.q, s.At(x.Peer()).wire[step.q][0]);
      DeliveredAt(c, s, x.Peer(), step.q);
    } else {
      PeerTokens(c, s, t, step, x);
      OtherUnchanged(c, s, step);
      hide NextTokens, Enabled;
      SameThrottled(c, s.At(x), s.At(x), x, t, NextTokens(c, s, step, t));
    }
  }

  lemma DeliveredAt(c: Config, s: System, x: Side, q: nat)
    requires s.Shape(c.n) && |c.client.qpns| == c.n == |c.server.qpns| && Enabled(c, s, Deliver(x, q))
    ensures Apply(c, s, Deliver(x, q)).At(x.Peer())
         == Received(s.At(x.Peer()), c.Of(x.Peer()).qpns[q], s.At(x).wire[q][0])
  {
    hide Received;
  }

  lemma TransmittedThrottled(c: Config, e: Endpoint, x: Side, t: seq<Token>, q: nat)
    requires e.Shape(c.n) && |t| == c.n && q < c.n && ThrottledInv(c, e, x, t) && e.sq[q] == Queued
    ensures ThrottledInv(c, Transmitted(e, q), x, t)
  {
    CountUpdate(e.sq, q, Sent);
  }

  lemma AckedThrottled(c: Config, e: Endpoint, x: Side, t: seq<Token>, q: nat, qpn: int)
    requires e.Shape(c.n) && |t| == c.n && q < c.n && ThrottledInv(c, e, x, t) && e.sq[q] == Sent
    ensures ThrottledInv(c, Acked(e, q, qpn), x, t)
  {
    CountUpdate(e.sq, q, Completed);
  }

  lemma DepartedThrottled(c: Config, e: Endpoint, x: Side, t: seq<Token>, q: nat, v: Token)
    requires e.Shape(c.n) && |t| == c.n && q < c.n && ThrottledInv(c, e, x, t) && e.wire[q] != []
    requires t[q] == Flying(x) && (v == Arrived(x.Peer()) || v == Lost(x))
    ensures ThrottledInv(c, Departed(e, q), x, t[q := v])
  {
    CountUpdate(t, q, v);
  }

  lemma LoopThrottled(c: Config, e: Endpoint, x: Side, t: seq<Token>)
    requires e.Shape(c.n) && |t| == c.n && ThrottledInv(c, e, x, t)
    ensures e.events > 0 && e.stage == Running ==> ThrottledInv(c, EventTaken(e), x, t)
    ensures e.stage == Woken ==> ThrottledInv(c, Rearmed(e), x, t)
    ensures e.stage == Running || e.stage == Polling ==> ThrottledInv(c, Poll(c.Of(x), e), x, t)
    ensures ThrottledInv(c, Departing(e), x, t)
  {
  }

  lemma OwnThrottled(c: Config, s: System, t: seq<Token>, step: Step, x: Side)
    requires Inv(c, s, t) && Enabled(c, s, step) && step.x == x
    requires ThrottledInv(c, s.At(x), x, t)
    ensures ThrottledInv(c, Apply(c, s, step).At(x), x, NextTokens(c, s, step, t))
  {
    hide EndpointInv, CrossInv, PayloadInv, ThrottledInv;
    hide Consumed, Poll, Transmitted, Departed, Received, Acked, PostFirst, EventTaken, Rearmed, Departing;
    var e := s.At(x);
    PairFrom(c, s, t, x);
    match step {
      case Start(_) =>
        StartFacts(c, e, x, t);
        StartedThrottled(c, e, x, t);
      case Transmit(_, q) => TransmittedThrottled(c, e, x, t, q);
      case Ack(_, q) => AckedThrottled(c, e, x, t, q, c.Of(x).qpns[q]);
      case Deliver(_, q) =>
        FlyingToken(c, e, x, t, q);
        DepartedThrottled(c, e, x, t, q, Arrived(x.Peer()));
      case Drop(_, q) =>
        FlyingToken(c, e, x, t, q);
        DepartedThrottled(c, e, x, t, q, Lost(x));
      case Process(_) => ConsumedThrottled(c, s, t, x);
      case _ => LoopThrottled(c, e, x, t);
    }
  }

  // ---- A throttled run can always be taken to its end ----

  lemma BusyCanAct(c: Config, e: Endpoint, x: Side, t: seq<Token>)
    requires c.Valid() && e.Shape(c.n) && |t| == c.n && EndpointInv(c, e, x, t) && !Idle(e)
    ensures CanAct(c.Of(x), e) || exists q :: 0 <= q < c.n && (e.sq[q] == Queued || e.sq[q] == Sent)
  {
    hide LinksInv;
    if !CanAct(c.Of(x), e) {
      Waiting(c, e, x, t);
      if forall q :: 0 <= q < c.n ==> e.sq[q] == Empty { CountUniform(e.sq, Empty); }
      var q :| 0 <= q < c.n && e.sq[q] != Empty;
      assert e.sq[q] in e.sq;
    }
  }

  /** A side that is busy always has a permitted step of its own. */
  lemma BusyIsEnabled(c: Config, s: System, t: seq<Token>, x: Side)
    requires Inv(c, s, t) && c.reliable && !Idle(s.At(x))
    ensures exists step: Step :: Enabled(c, s, step) && Permitted(s, x, step)
  {
    hide CrossInv, PayloadInv, EndpointInv, InFlight, Receives, CanAct, Idle;
    PairFrom(c, s, t, x);
    var e := s.At(x);
    BusyCanAct(c, e, x, t);
    if CanAct(c.Of(x), e) {
      ActingIsEnabled(c, s, x);
    } else {
      EndpointsSuffice(c, e, s.At(x.Peer()), x, t);
      var q :| 0 <= q < c.n && (e.sq[q] == Queued || e.sq[q] == Sent);
      var step := if e.sq[q] == Queued then Transmit(x, q) else if e.wire[q] == [] then Ack(x, q) else Deliver(x, q);
      assert Enabled(c, s, step);
    }
  }

  /** When no permitted step is left, no step is left at all. */
  lemma ThrottledStuck(c: Config, s: System, t: seq<Token>, x: Side)
    requires Inv(c, s, t) && c.reliable
    requires forall step: Step :: Enabled(c, s, step) ==> !Permitted(s, x, step)
    ensures Stuck(c, s)
  {
    hide PairInv, PayloadInv, Enabled, Idle;
    if step :| Enabled(c, s, step) {
      BusyIsEnabled(c, s, t, x);
    }
  }

  lemma {:induction false} ThrottledRun(c: Config, s: System, t: seq<Token>, x: Side)
    returns (steps: seq<Step>, t': seq<Token>)
    requires Inv(c, s, t) && c.reliable && ThrottledInv(c, s.At(x), x, t)
    ensures Run(c, s, steps) && Stuck(c, Final(c, s, steps))
    ensures Inv(c, Final(c, s, steps), t') && Posts(Final(c, s, steps).At(x)) <= Cap(c, x)
    decreases TotalWork(c, s)
  {
    hide PairInv, PayloadInv, TotalWork, Enabled, Apply, Permitted, NextTokens, Posts, Cap;
    if step :| Enabled(c, s, step) && Permitted(s, x, step) {
      var s1 := Apply(c, s, step);
      var t1 := NextTokens(c, s, step, t);
      StepPreserves(c, s, t, step);
      StepUsesWork(c, s, t, step);
      WorkNonNegative(c, s, t);
      if step.x == x { OwnThrottled(c, s, t, step, x); } else { PeerThrottled(c, s, t, step, x); }
      var rest;
      rest, t' := ThrottledRun(c, s1, t1, x);
      steps := [step] + rest;
      assert steps[1..] == rest;
    } else {
      ThrottledStuck(c, s, t, x);
      steps, t' := [], t;
    }
  }
}
