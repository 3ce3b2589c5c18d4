/** What every maximal run comes to: when both programs finish, and with which counts. */
module Outcomes {
  import opened Counting
  import opened Endpoints
  import opened PingPongSystem
  import opened TokenInvariant
  import opened SystemInvariant
  import opened Completion
  import opened Throttle
  import opened Safety

  /** A maximal run: no step can follow. */
  ghost predicate Maximal(c: Config, steps: seq<Step>)
    requires |c.client.qpns| == c.n == |c.server.qpns|
  {
    Run(c, Initial(c), steps) && Stuck(c, Final(c, Initial(c), steps))
  }

  ghost predicate Completes(c: Config, steps: seq<Step>)
    requires |c.client.qpns| == c.n == |c.server.qpns| && Run(c, Initial(c), steps)
  {
    BothLeft(Final(c, Initial(c), steps))
  }

  lemma FinalTokens(c: Config, steps: seq<Step>) returns (t: seq<Token>)
    requires c.Valid() && Run(c, Initial(c), steps)
    ensures Inv(c, Final(c, Initial(c), steps), t)
    ensures forall y :: LostBy(t, y) == DropsBy(steps, y)
  {
    hide Inv, Run, Final, Initial, DropsBy, LostBy;
    InitialInv(c);
    var t0: seq<Token> := seq(c.n, _ => Held(Client));
    NoneLost(t0);
    t := RunPreserves(c, Initial(c), t0, steps);
  }

  lemma NoneLost(t: seq<Token>)
    requires forall q :: 0 <= q < |t| ==> t[q] == Held(Client)
    ensures forall y :: LostBy(t, y) == 0
  {
    assert forall y :: Lost(y) !in t;
  }

  lemma {:induction false} ReliableDropsNothing(c: Config, s: System, steps: seq<Step>)
    requires c.reliable && s.Shape(c.n) && |c.client.qpns| == c.n == |c.server.qpns| && Run(c, s, steps)
    ensures Drops(steps) == 0
    decreases |steps|
  {
    hide Apply;
    if steps != [] { ReliableDropsNothing(c, Apply(c, s, steps[0]), steps[1..]); }
  }

  /** At most one message is lost per queue pair, in any run. */
  lemma LossBound(c: Config, steps: seq<Step>)
    requires c.Valid() && Run(c, Initial(c), steps)
    ensures Drops(steps) <= c.n
  {
    hide PairInv, PayloadInv, Run, Final, Initial, DropsBy;
    var t := FinalTokens(c, steps);
    assert LostBy(t, Client) == DropsBy(steps, Client) && LostBy(t, Server) == DropsBy(steps, Server);
    CountTwo(t, Lost(Client), Lost(Server));
  }

  /** On either transport, a maximal run in which the messages that were not lost suffice has ended
      both loops, whatever the interleaving and wherever the losses were. */
  lemma SufficientRunsComplete(c: Config, steps: seq<Step>)
    requires c.Valid() && Maximal(c, steps) && Suffices(c, DropsBy(steps, Client), DropsBy(steps, Server))
    ensures Completes(c, steps)
  {
    hide Inv, Run, Final, Initial, DropsBy, Stuck;
    var t := FinalTokens(c, steps);
    BothDone(c, Final(c, Initial(c), steps), t);
  }

  /** In particular if nothing was lost and the iteration counts fit; equal counts always do. */
  lemma LosslessRunsComplete(c: Config, steps: seq<Step>)
    requires c.Valid() && Maximal(c, steps) && Settles(c) && Drops(steps) == 0
    ensures Completes(c, steps)
  {
    hide Inv, Run, Final, Initial, DropsBy, Stuck;
    SufficientRunsComplete(c, steps);
  }

  /** What each side has received is bounded by what the other has posted. */
  lemma ReceivedAtMostPosted(c: Config, s: System, t: seq<Token>, x: Side)
    requires Inv(c, s, t)
    ensures s.At(x.Peer()).rcnt + Count(t, Lost(x)) <= Posts(s.At(x)) <= Budget(c, x)
    ensures s.At(x).stage == Left ==> s.At(x).rcnt >= c.Of(x).iters && s.At(x).scnt >= c.Of(x).iters
    ensures s.At(x).scnt <= Posts(s.At(x))
  {
    hide LinksInv, EventInv, PayloadInv;
    PairFrom(c, s, t, x);
  }

  /** If the iteration counts do not fit, some maximal run leaves a side waiting for ever. */
  lemma MismatchStalls(c: Config) returns (steps: seq<Step>)
    requires c.Valid() && c.reliable && !Settles(c)
    ensures Maximal(c, steps) && !Completes(c, steps)
  {
    hide PairInv, PayloadInv, Run, Final, Initial, Stuck;
    var x := if c.client.iters > Max(c.server.iters, 0) then Server else Client;
    var t := seq(c.n, _ => Held(Client));
    InitialInv(c);
    InitialThrottled(c, x);
    var t';
    steps, t' := ThrottledRun(c, Initial(c), t, x);
    ReceivedAtMostPosted(c, Final(c, Initial(c), steps), t', x);
    ReceivedAtMostPosted(c, Final(c, Initial(c), steps), t', x.Peer());
  }

  /** Deadlock freedom, exactly: on a reliable connection every maximal run ends both loops if
      and only if the iteration counts fit. */
  lemma CompletionIff(c: Config)
    requires c.Valid() && c.reliable
    ensures Settles(c) <==> forall steps :: Maximal(c, steps) ==> Completes(c, steps)
  {
    hide Run, Final, Initial, Stuck, DropsBy;
    if Settles(c) {
      forall steps | Maximal(c, steps) ensures Completes(c, steps) {
        ReliableDropsNothing(c, Initial(c), steps);
        LosslessRunsComplete(c, steps);
      }
    } else {
      var steps := MismatchStalls(c);
    }
  }

  /** One queue pair, any transport and any two iteration counts: a maximal run completes if and
      only if the messages that were not lost suffice. */
  lemma SingleQueuePairCounts(c: Config, steps: seq<Step>)
    requires c.Valid() && c.n == 1 && Maximal(c, steps)
    ensures Completes(c, steps) <==> Suffices(c, DropsBy(steps, Client), DropsBy(steps, Server))
    ensures c.client.iters >= 1 || c.server.iters >= 2 ==>
      (Completes(c, steps) <==> c.client.iters == c.server.iters && Drops(steps) == 0)
    ensures c.reliable ==> (Completes(c, steps) <==>
      c.client.iters == c.server.iters || (c.client.iters <= 0 && c.server.iters <= 1))
  {
    hide PairInv, PayloadInv, Run, Final, Initial, DropsBy, Stuck;
    var s := Final(c, Initial(c), steps);
    var t := FinalTokens(c, steps);
    if c.reliable { ReliableDropsNothing(c, Initial(c), steps); }
    assert LostBy(t, Client) == DropsBy(steps, Client) && LostBy(t, Server) == DropsBy(steps, Server);
    ReceivedAtMostPosted(c, s, t, Client);
    ReceivedAtMostPosted(c, s, t, Server);
    if Suffices(c, DropsBy(steps, Client), DropsBy(steps, Server)) { SufficientRunsComplete(c, steps); }
  }

  /** One queue pair, equal positive counts: a maximal run completes if and only if nothing was
      lost, at most one message is, and on completion all four counters are exact. */
  lemma SingleQueuePair(c: Config, steps: seq<Step>)
    requires c.Valid() && c.n == 1 && Maximal(c, steps)
    requires c.client.iters == c.server.iters >= 1
    ensures Completes(c, steps) <==> Drops(steps) == 0
    ensures Drops(steps) <= 1
    ensures Completes(c, steps) ==>
      var s := Final(c, Initial(c), steps);
      s.client.scnt == s.client.rcnt == s.server.scnt == s.server.rcnt == c.client.iters
  {
    hide PairInv, PayloadInv, Run, Final, Initial, DropsBy, Stuck;
    var s := Final(c, Initial(c), steps);
    var t := FinalTokens(c, steps);
    LossBound(c, steps);
    SingleQueuePairCounts(c, steps);
    ReceivedAtMostPosted(c, s, t, Client);
    ReceivedAtMostPosted(c, s, t, Server);
  }

  /** The two sides of a single queue pair stay within one message of each other, and neither
      posts more than its iteration count, or the client its opening message. */
  lemma SingleQueuePairInStep(c: Config, s: System)
    requires Reachable(c, s) && c.n == 1
    ensures Posts(s.server) <= Posts(s.client) <= Posts(s.server) + 1
    ensures Posts(s.client) <= Max(c.client.iters, 1) && Posts(s.server) <= Max(c.server.iters, 0)
  {
    hide LinksInv, EventInv, PayloadInv, Reachable;
    var t := EndpointOf(c, s, Client);
    CountTwo(t, Held(Client), Held(Server));
    CountThree(t);
  }

  lemma CountThree(t: seq<Token>)
    ensures Count(t, Flying(Client)) + Count(t, Arrived(Server)) + Count(t, Held(Server))
          + Count(t, Lost(Client)) <= |t|
  {
    if t != [] {
      CountPop(t);
      CountThree(t[1..]);
    }
  }
}
