/** When both programs can finish, if not always: the counts for which some run ends both loops. */
module SomeRun {
  import opened Counting
  import opened Verbs
  import opened Endpoints
  import opened PingPongSystem
  import opened TokenInvariant
  import opened SystemInvariant
  import opened Termination
  import opened Completion
  import opened Safety
  import opened Alternation
  import opened Outcomes
  import opened PerQueuePair
  import opened Overshoot

  // ---- Enough messages ----

  /** Once each side has posted as many messages as the other counts, both finish. For the server's
      the client's counting fewer than the server will do. */
  lemma EnoughPosted(c: Config, s: System, t: seq<Token>)
    requires Inv(c, s, t) && Stuck(c, s) && c.reliable
    requires Posts(s.client) >= c.server.iters
    requires Posts(s.server) >= c.client.iters || c.server.iters >= c.client.iters
    ensures BothLeft(s)
  {
    hide LinksInv, SideInv, EventInv, PayloadInv, Stuck, CanAct, Drained, Posts;
    StuckSide(c, s, t, Client);
    StuckSide(c, s, t, Server);
    Quiet(c, s.client, Client, t);
    Quiet(c, s.server, Server, t);
    NoLoss(c, s, t);
  }

  lemma NoLoss(c: Config, s: System, t: seq<Token>)
    requires Inv(c, s, t) && c.reliable
    ensures LostBy(t, Client) == 0 && LostBy(t, Server) == 0
  {
    hide PairInv, PayloadInv;
    forall q | 0 <= q < c.n ensures !t[q].Lost? { NotLost(c, s, t, q); }
  }

  // ---- Posts only grow ----

  lemma {:induction false} TotalMonotone(a: seq<nat>, b: seq<nat>)
    requires |a| == |b| && forall i :: 0 <= i < |a| ==> a[i] <= b[i]
    ensures Total(a) <= Total(b)
  {
    if a != [] { TotalMonotone(a[..|a| - 1], b[..|b| - 1]); }
  }

  lemma StepGrows(c: Config, s: System, t: seq<Token>, step: Step, x: Side)
    requires Inv(c, s, t) && Enabled(c, s, step) && Sums(s.client) && Sums(s.server)
    ensures Posts(Apply(c, s, step).At(x)) >= Posts(s.At(x))
  {
    hide PairInv, PayloadInv, Apply, Enabled, Posts;
    StepSums(c, s, t, step);
    var s' := Apply(c, s, step);
    forall q | 0 <= q < c.n ensures s.At(x).sent[q] <= s'.At(x).sent[q] { OneSender(c, s, step, q); }
    TotalMonotone(s.At(x).sent, s'.At(x).sent);
  }

  /** Every state can be taken to one where nothing more can happen, with no fewer messages posted. */
  lemma {:induction false} ToTheEnd(c: Config, s: System, t: seq<Token>) returns (steps: seq<Step>, t': seq<Token>)
    requires Inv(c, s, t) && Sums(s.client) && Sums(s.server)
    ensures Run(c, s, steps) && Stuck(c, Final(c, s, steps)) && Inv(c, Final(c, s, steps), t')
    ensures Posts(Final(c, s, steps).client) >= Posts(s.client) && Posts(Final(c, s, steps).server) >= Posts(s.server)
    decreases TotalWork(c, s)
  {
    hide PairInv, PayloadInv, TotalWork, Enabled, Apply, NextTokens, Posts, Sums;
    if step :| Enabled(c, s, step) {
      StepPreserves(c, s, t, step);
      StepUsesWork(c, s, t, step);
      WorkNonNegative(c, s, t);
      StepSums(c, s, t, step);
      StepGrows(c, s, t, step, Client);
      StepGrows(c, s, t, step, Server);
      var rest;
      rest, t' := ToTheEnd(c, Apply(c, s, step), NextTokens(c, s, step, t));
      steps := [step] + rest;
      assert steps[1..] == rest;
    } else {
      steps, t' := [], t;
    }
  }

  // ---- The client runs ahead on the first queue pair ----

  /** Only the first queue pair's messages leave the client. */
  predicate OnFirst(step: Step) { step.Transmit? && step.x == Client ==> step.q == 0 }

  /** On every other queue pair the client's opening message is still queued, or still to be posted. */
  predicate OthersQueued(cl: Endpoint, t: seq<Token>)
    requires |cl.sq| == |t|
  {
    forall q :: 1 <= q < |t| ==>
      || (t[q] == Flying(Client) && cl.sq[q] == Queued)
      || (t[q] == Held(Client) && cl.sq[q] == Empty && cl.stage.Starting? && cl.stage.k <= q)
  }

  ghost predicate FirstInv(c: Config, s: System, t: seq<Token>) { Inv(c, s, t) && OthersQueued(s.client, t) }

  lemma StartQueues(n: nat, cl: Endpoint, t: seq<Token>)
    requires cl.Shape(n) && n == |t| && OthersQueued(cl, t) && cl.stage.Starting? && cl.stage.k < n
    requires cl.sq[cl.stage.k] == Empty
    ensures OthersQueued(PostFirst(n, cl), t[cl.stage.k := Flying(Client)])
  {
  }

  lemma ProcessOnFirst(c: Config, s: System, t: seq<Token>, x: Side)
    requires FirstInv(c, s, t) && Enabled(c, s, Process(x))
    ensures OthersQueued(Apply(c, s, Process(x)).client, NextTokens(c, s, Process(x), t))
  {
    hide PairInv, PayloadInv, Apply, NextTokens;
    var q, isSend, m, post, e', t' := Processed(c, s, t, x);
  }

  lemma StepOnFirst(c: Config, s: System, t: seq<Token>, step: Step)
    requires FirstInv(c, s, t) && c.reliable && Enabled(c, s, step) && OnFirst(step)
    ensures FirstInv(c, Apply(c, s, step), NextTokens(c, s, step, t))
  {
    hide PairInv, PayloadInv, Consumed, PostFirst;
    StepPreserves(c, s, t, step);
    match step {
      case Deliver(x, q) => OnTheWire(c, s, t, x, q);
      case Start(x) =>
        AboutToStart(c, s, t, x);
        StartQueues(c.n, s.client, t);
      case Process(x) => ProcessOnFirst(c, s, t, x);
      case _ =>
    }
  }

  lemma {:induction false} FirstRun(c: Config, s: System, t: seq<Token>) returns (steps: seq<Step>, t': seq<Token>)
    requires FirstInv(c, s, t) && c.reliable
    ensures Run(c, s, steps) && FirstInv(c, Final(c, s, steps), t')
    ensures forall step :: Enabled(c, Final(c, s, steps), step) ==> !OnFirst(step)
    decreases TotalWork(c, s)
  {
    hide PairInv, PayloadInv, OthersQueued, TotalWork, Enabled, Apply, OnFirst, NextTokens;
    if step :| Enabled(c, s, step) && OnFirst(step) {
      StepOnFirst(c, s, t, step);
      StepUsesWork(c, s, t, step);
      WorkNonNegative(c, s, t);
      var rest;
      rest, t' := FirstRun(c, Apply(c, s, step), NextTokens(c, s, step, t));
      steps := [step] + rest;
      assert steps[1..] == rest;
    } else {
      steps, t' := [], t;
    }
  }

  ghost predicate FirstDone(c: Config, s: System)
    requires s.Shape(c.n)
  {
    forall step :: Enabled(c, s, step) ==> !OnFirst(step)
  }

  lemma FirstDoneSide(c: Config, s: System, t: seq<Token>, x: Side)
    requires Inv(c, s, t) && FirstDone(c, s)
    ensures !CanAct(c.Of(x), s.At(x)) && forall q :: 0 <= q < c.n ==> s.At(x).wire[q] == []
  {
    hide CrossInv, PayloadInv, EndpointInv, InFlight, Receives, CanAct;
    PairFrom(c, s, t, x);
    EndpointsSuffice(c, s.At(x), s.At(x.Peer()), x, t);
    if CanAct(c.Of(x), s.At(x)) { ActingIsEnabled(c, s, x); }
    forall q | 0 <= q < c.n ensures s.At(x).wire[q] == [] {
      assert !Enabled(c, s, Deliver(x, q));
    }
  }

  lemma FirstSlot(c: Config, s: System, t: seq<Token>, x: Side)
    requires Inv(c, s, t) && FirstDone(c, s) && c.reliable
    ensures s.At(x).wire[0] == [] && s.At(x).sq[0] != Queued && s.At(x).sq[0] != Sent
  {
    hide PairInv, PayloadInv, CanAct;
    FirstDoneSide(c, s, t, x);
    assert !Enabled(c, s, Transmit(x, 0)) && !Enabled(c, s, Ack(x, 0));
  }

  /** The first queue pair when nothing more can happen on it. */
  lemma FirstLink(c: Config, e: Endpoint, x: Side, t: seq<Token>)
    requires c.Valid() && e.Shape(c.n) && |t| == c.n && EndpointInv(c, e, x, t) && !CanAct(c.Of(x), e)
    requires e.wire[0] == [] && e.sq[0] != Queued && e.sq[0] != Sent
    ensures t[0] != Flying(x) && !e.stage.Starting?
    ensures e.stage == Left ==> e.scnt >= c.Of(x).iters
    ensures e.stage != Left ==> e.sq[0] == Empty && t[0] != Arrived(x)
    ensures e.stage != Left && t[0] == Held(x) ==> e.scnt >= c.Of(x).iters
  {
    Waiting(c, e, x, t);
    assert LinkInv(c, e, x, 0, t[0]);
  }

  lemma FirstPair(c: Config, s: System, t: seq<Token>, x: Side)
    requires Inv(c, s, t) && FirstDone(c, s) && c.reliable
    ensures t[0] != Flying(x) && !s.At(x).stage.Starting?
    ensures s.At(x).stage == Left ==> s.At(x).scnt >= c.Of(x).iters
    ensures s.At(x).stage != Left ==> s.At(x).sq[0] == Empty && t[0] != Arrived(x)
    ensures s.At(x).stage != Left && t[0] == Held(x) ==> s.At(x).scnt >= c.Of(x).iters
  {
    hide EndpointInv, CrossInv, PayloadInv, CanAct;
    PairFrom(c, s, t, x);
    FirstDoneSide(c, s, t, x);
    FirstSlot(c, s, t, x);
    FirstLink(c, s.At(x), x, t);
  }

  lemma QueuedCounts(cl: Endpoint, t: seq<Token>)
    requires |cl.sq| == |t| > 0 && OthersQueued(cl, t) && !cl.stage.Starting? && t[0] != Flying(Client)
    ensures Outstanding(cl) >= |t| - 1
    ensures Count(t, Flying(Client)) == |t| - 1
    ensures Count(t, Held(Client)) == Bit(t[0] == Held(Client))
    ensures Count(t, Arrived(Client)) == Bit(t[0] == Arrived(Client))
    ensures Count(t, Flying(Server)) == Bit(t[0] == Flying(Server))
  {
    CountRest(t, Flying(Client));
    CountRest(cl.sq, Queued);
    CountTwo(cl.sq, Queued, Empty);
    CountOther(t, Held(Client));
    CountOther(t, Arrived(Client));
    CountOther(t, Flying(Server));
  }

  /** The client has then posted as many messages as `OvershootBound` allows, if the server's count
      is large enough. */
  lemma ClientReaches(c: Config, s: System, t: seq<Token>)
    requires FirstInv(c, s, t) && FirstDone(c, s) && c.reliable && c.server.iters >= c.client.iters
    ensures Posts(s.client) >= c.client.iters + c.n - 1
  {
    hide PayloadInv, LinksInv, EventInv, FirstDone, OthersQueued;
    FirstPair(c, s, t, Client);
    FirstPair(c, s, t, Server);
    NoLoss(c, s, t);
    QueuedCounts(s.client, t);
    NotLost(c, s, t, 0);
  }

  lemma NotLost(c: Config, s: System, t: seq<Token>, q: nat)
    requires Inv(c, s, t) && c.reliable && q < c.n
    ensures !t[q].Lost?
  {
    hide CrossInv, PayloadInv, SideInv, EventInv;
    assert LinkInv(c, s.client, Client, q, t[q]);
  }

  lemma ClientOvershoots(c: Config) returns (s: System)
    requires c.Valid() && c.reliable && c.server.iters >= c.client.iters
    ensures Reachable(c, s) && Posts(s.client) >= c.client.iters + c.n - 1
  {
    hide PairInv, PayloadInv, Run, Final, Posts, Enabled, OnFirst;
    InitialInv(c);
    var steps, t := FirstRun(c, Initial(c), seq(c.n, _ => Held(Client)));
    s := Final(c, Initial(c), steps);
    assert Reachable(c, s);
    ClientReaches(c, s, t);
  }

  // ---- The condition ----

  /** A state with enough messages posted lies on a run that ends both loops. */
  lemma FromThere(c: Config, s: System) returns (steps: seq<Step>)
    requires Reachable(c, s) && c.reliable && Posts(s.client) >= c.server.iters
    requires Posts(s.server) >= c.client.iters || c.server.iters >= c.client.iters
    ensures c.Valid() && Maximal(c, steps) && Completes(c, steps)
  {
    hide PairInv, PayloadInv, Run, Final, Initial, Stuck, Posts;
    var first :| Run(c, Initial(c), first) && s == Final(c, Initial(c), first);
    InitialInv(c);
    var t := RunPreserves(c, Initial(c), seq(c.n, _ => Held(Client)), first);
    CountersAreSums(c, s, Client);
    CountersAreSums(c, s, Server);
    var rest, t' := ToTheEnd(c, s, t);
    RunAppend(c, Initial(c), first, rest);
    steps := first + rest;
    EnoughPosted(c, Final(c, s, rest), t');
  }

  /** If the counts fit, every maximal run completes, and there is one. */
  lemma AnyRun(c: Config) returns (steps: seq<Step>)
    requires c.Valid() && c.reliable && Settles(c)
    ensures Maximal(c, steps) && Completes(c, steps)
  {
    hide PairInv, PayloadInv, Run, Final, Initial, Stuck, DropsBy;
    InitialInv(c);
    InitialSums(c, Client);
    InitialSums(c, Server);
    var t;
    steps, t := ToTheEnd(c, Initial(c), seq(c.n, _ => Held(Client)));
    ReliableDropsNothing(c, Initial(c), steps);
    LosslessRunsComplete(c, steps);
  }

  lemma SomeRunCompletes(c: Config) returns (steps: seq<Step>)
    requires c.Valid() && c.reliable
    requires c.client.iters <= Budget(c, Server) && c.server.iters <= Budget(c, Client)
    ensures Maximal(c, steps) && Completes(c, steps)
  {
    hide Reachable, Maximal, Completes, Posts, Run;
    if Settles(c) {
      steps := AnyRun(c);
    } else if c.client.iters > c.server.iters {
      var s := ServerOvershoots(c);
      steps := FromThere(c, s);
    } else {
      var s := ClientOvershoots(c);
      steps := FromThere(c, s);
    }
  }

  /** On a reliable connection some maximal run ends both loops if and only if neither count exceeds
      what the other side can ever post. */
  lemma SomeRunCompletesIff(c: Config)
    requires c.Valid() && c.reliable
    ensures (exists steps :: Maximal(c, steps) && Completes(c, steps))
       <==> c.client.iters <= Budget(c, Server) && c.server.iters <= Budget(c, Client)
  {
    hide PairInv, PayloadInv, Run, Final, Initial, Stuck, Posts;
    if steps :| Maximal(c, steps) && Completes(c, steps) {
      var t := FinalTokens(c, steps);
      ReceivedAtMostPosted(c, Final(c, Initial(c), steps), t, Client);
      ReceivedAtMostPosted(c, Final(c, Initial(c), steps), t, Server);
    }
    if c.client.iters <= Budget(c, Server) && c.server.iters <= Budget(c, Client) {
      var steps := SomeRunCompletes(c);
    }
  }
}
