/** Deadlock freedom. A state in which no step can be taken is one in which both programs have
    left their loops, provided nothing was lost and the iteration counts of the two sides fit. */
module Completion {
  import opened Counting
  import opened Verbs
  import opened Endpoints
  import opened PingPongSystem
  import opened TokenInvariant
  import opened SystemInvariant
  import opened Safety

  function Max(a: int, b: int): int { if a >= b then a else b }

  /** The messages that are left when so many of either side are lost suffice for both sides. */
  predicate Suffices(c: Config, lostByClient: nat, lostByServer: nat) {
    && c.client.iters + lostByServer <= Max(c.server.iters, 0)
    && c.server.iters + lostByClient <= Max(c.client.iters, c.n)
  }

  /** The iteration counts for which no interleaving can leave a side waiting for ever. */
  predicate Settles(c: Config) { Suffices(c, 0, 0) }

  /** The message loop can take a step of its own. */
  predicate CanAct(sc: SideConfig, e: Endpoint) {
    || e.stage.Starting? || e.stage == Woken || e.stage == Polling
    || (e.stage == Running && e.batch != [])
    || (AtCondition(e) && (e.Done(sc.iters) || (if sc.useEvent then e.events > 0 else e.cq != [])))
  }

  /** A loop that cannot act has left, or has processed everything and waits for more: in event
      mode because no event can be missing. */
  lemma Waiting(c: Config, e: Endpoint, x: Side, t: seq<Token>)
    requires c.Valid() && e.Shape(c.n) && |t| == c.n && EndpointInv(c, e, x, t)
    requires !CanAct(c.Of(x), e)
    ensures e.stage == Left || (AtCondition(e) && e.cq == [] && !e.Done(c.Of(x).iters))
  {
    hide LinksInv;
  }

  lemma ActingIsEnabled(c: Config, s: System, x: Side)
    requires s.Shape(c.n) && CanAct(c.Of(x), s.At(x))
    ensures exists step: Step :: step.x == x && Enabled(c, s, step) && !IsDeviceStep(step)
  {
    var e := s.At(x);
    var step :=
      if e.stage.Starting? then Start(x) else if e.stage == Woken then Rearm(x)
      else if e.stage == Polling then PollCq(x) else if e.batch != [] then Process(x)
      else if e.Done(c.Of(x).iters) then Leave(x)
      else if c.Of(x).useEvent then GetEvent(x) else PollCq(x);
    assert Enabled(c, s, step);
  }

  /** The device of `x` has nothing left to transmit, deliver or acknowledge. */
  predicate Drained(e: Endpoint) {
    && (forall q :: 0 <= q < |e.sq| ==> e.sq[q] == Empty || e.sq[q] == Completed)
    && (forall q :: 0 <= q < |e.wire| ==> e.wire[q] == [])
  }

  lemma DrainedWhenStuck(c: Config, s: System, x: Side)
    requires s.Shape(c.n) && Stuck(c, s)
    requires forall q :: 0 <= q < c.n && s.At(x).wire[q] != [] ==> s.At(x.Peer()).posted > 0
    ensures Drained(s.At(x))
  {
    forall q | 0 <= q < c.n ensures s.At(x).wire[q] == [] {
      assert !Enabled(c, s, Deliver(x, q));
    }
    forall q | 0 <= q < c.n ensures s.At(x).sq[q] == Empty || s.At(x).sq[q] == Completed {
      assert !Enabled(c, s, Transmit(x, q));
      assert !Enabled(c, s, Ack(x, q));
    }
  }

  lemma StuckSide(c: Config, s: System, t: seq<Token>, x: Side)
    requires Inv(c, s, t) && Stuck(c, s)
    ensures Drained(s.At(x)) && !CanAct(c.Of(x), s.At(x))
  {
    hide CrossInv, PayloadInv, EndpointInv, InFlight, Receives, Enabled, CanAct, Drained;
    PairFrom(c, s, t, x);
    EndpointsSuffice(c, s.At(x), s.At(x.Peer()), x, t);
    DrainedWhenStuck(c, s, x);
    if CanAct(c.Of(x), s.At(x)) { ActingIsEnabled(c, s, x); }
  }

  /** What is left to know of a side once its device is drained and its loop does not act. */
  lemma Quiet(c: Config, e: Endpoint, x: Side, t: seq<Token>)
    requires c.Valid() && e.Shape(c.n) && |t| == c.n && EndpointInv(c, e, x, t)
    requires Drained(e) && !CanAct(c.Of(x), e)
    ensures Count(t, Flying(x)) == 0
    ensures e.stage != Left ==>
      && Count(t, Arrived(x)) == 0 && Posts(e) == e.scnt && !e.Done(c.Of(x).iters)
      && (Count(t, Held(x)) > 0 ==> e.scnt >= c.Of(x).iters)
    ensures e.stage == Left ==> e.Done(c.Of(x).iters) && e.scnt <= Posts(e)
    ensures x == Client ==> Posts(e) >= c.n
    ensures Posts(e) + Count(t, Held(x)) == e.rcnt + (if x == Client then c.n else 0)
  {
    Waiting(c, e, x, t);
    forall q | 0 <= q < c.n ensures t[q] != Flying(x) {
      assert LinkInv(c, e, x, q, t[q]);
    }
    if e.stage != Left {
      assert e.Unprocessed() == [];
      assert forall q :: 0 <= q < c.n && e.sq[q] == Completed ==> Completed in e.sq;
      CountUniform(e.sq, Empty);
      if Count(t, Held(x)) > 0 {
        var q :| 0 <= q < c.n && t[q] == Held(x);
        assert LinkInv(c, e, x, q, t[q]);
      }
    }
  }

  /** The counting argument: with every message delivered or lost, a side that still waits would
      have to be one whose loop condition is already false. */
  lemma BothDone(c: Config, s: System, t: seq<Token>)
    requires Inv(c, s, t) && Stuck(c, s) && Suffices(c, LostBy(t, Client), LostBy(t, Server))
    ensures BothLeft(s)
  {
    hide LinksInv, SideInv, EventInv, PayloadInv, Stuck, CanAct, Drained;
    StuckSide(c, s, t, Client);
    StuckSide(c, s, t, Server);
    Quiet(c, s.client, Client, t);
    Quiet(c, s.server, Server, t);
  }
}
