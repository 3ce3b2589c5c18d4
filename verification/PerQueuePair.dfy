/** What the global counters say about a single queue pair: their sums are the totals, and nothing
    more. The iteration count is therefore not a count per queue pair. */
module PerQueuePair {
  import opened Counting
  import opened Verbs
  import opened Endpoints
  import opened PingPongSystem
  import opened TokenInvariant
  import opened StepInvariant
  import opened SystemInvariant
  import opened Termination
  import opened Throttle
  import opened Outcomes

  function Total(s: seq<nat>): nat {
    if s == [] then 0 else Total(s[..|s| - 1]) + s[|s| - 1]
  }

  lemma {:induction false} TotalIncrement(s: seq<nat>, i: nat)
    requires i < |s|
    ensures Total(s[i := s[i] + 1]) == Total(s) + 1
  {
    var u := s[i := s[i] + 1];
    if i == |s| - 1 {
      assert u[..|u| - 1] == s[..|s| - 1];
    } else {
      TotalIncrement(s[..|s| - 1], i);
      assert u[..|u| - 1] == s[..|s| - 1][i := s[i] + 1];
    }
  }

  lemma {:induction false} TotalZero(s: seq<nat>)
    requires forall i :: 0 <= i < |s| ==> s[i] == 0
    ensures Total(s) == 0
  {
    if s != [] { TotalZero(s[..|s| - 1]); }
  }

  lemma {:induction false} TotalAtLeast(s: seq<nat>, k: nat)
    requires forall i :: 0 <= i < |s| ==> s[i] >= k
    ensures Total(s) >= |s| * k
  {
    if s != [] { TotalAtLeast(s[..|s| - 1], k); }
  }

  lemma PigeonHole(s: seq<nat>, k: nat)
    requires Total(s) < |s| * k
    ensures exists i :: 0 <= i < |s| && s[i] < k
  {
    if forall i :: 0 <= i < |s| ==> s[i] >= k { TotalAtLeast(s, k); }
  }

  /** The messages posted on the queue pairs add up to the posts of the side, and the receive
      completions processed on them to its counter. */
  ghost predicate Sums(e: Endpoint) { Total(e.sent) == Posts(e) && Total(e.got) == e.rcnt }

  lemma StartedSums(c: Config, e: Endpoint)
    requires e.Shape(c.n) && e.stage.Starting? && e.stage.k < c.n && e.sq[e.stage.k] == Empty && Sums(e)
    ensures Sums(PostFirst(c.n, e))
  {
    CountUpdate(e.sq, e.stage.k, Queued);
    TotalIncrement(e.sent, e.stage.k);
  }

  lemma AfterSendSums(c: Config, e: Endpoint, q: nat, post: bool, recv: bool)
    requires e.Shape(c.n) && q < c.n && e.sq[q] == Completed && e.batch != [] && Sums(e)
    ensures Sums(AfterSend(e, q, post, recv))
  {
    CountUpdate(e.sq, q, if post then Queued else Empty);
    TotalIncrement(e.sent, q);
  }

  lemma AfterRecvSums(c: Config, e: Endpoint, q: nat, k: nat, post: bool)
    requires e.Shape(c.n) && q < c.n && (post ==> e.sq[q] == Empty) && e.batch != [] && Sums(e)
    ensures Sums(AfterRecv(e, q, k, post))
  {
    CountUpdate(e.sq, q, Queued);
    TotalIncrement(e.sent, q);
    TotalIncrement(e.got, q);
  }

  lemma ConsumedSums(c: Config, e: Endpoint, x: Side, t: seq<Token>)
    requires c.Valid() && e.Shape(c.n) && |t| == c.n && EndpointInv(c, e, x, t) && e.batch != [] && Sums(e)
    ensures Sums(Consumed(c.n, c.Of(x), e))
  {
    hide EndpointInv, Consumed, Sums;
    BatchHead(c, e, x, t);
    var q := FindQp(c.Of(x).qpns, e.batch[0].qpn);
    if e.batch[0] == SendDone(c, x, q) {
      SendHead(c, e, x, t, q);
      AfterSendSums(c, e, q, e.scnt + 1 < c.Of(x).iters && t[q] == Held(x), t[q] != Held(x));
    } else {
      RecvHead(c, e, x, t, q);
      AfterRecvSums(c, e, q, TopUp(c, e, x), Replies(c, e, x, q));
    }
  }

  /** The device posts nothing and processes nothing. */
  lemma DeviceSums(e: Endpoint, q: nat, qpn: int)
    requires q < |e.sq| == |e.wire| && Sums(e)
    ensures e.sq[q] == Queued ==> Sums(Transmitted(e, q))
    ensures e.sq[q] == Sent ==> Sums(Acked(e, q, qpn))
  {
    CountUpdate(e.sq, q, Sent);
    CountUpdate(e.sq, q, Completed);
  }

  lemma SameSums(e: Endpoint, e': Endpoint)
    requires Sums(e) && e'.scnt == e.scnt && e'.rcnt == e.rcnt && e'.sq == e.sq && e'.sent == e.sent && e'.got == e.got
    ensures Sums(e')
  {
  }

  lemma StepSums(c: Config, s: System, t: seq<Token>, step: Step)
    requires Inv(c, s, t) && Enabled(c, s, step) && Sums(s.client) && Sums(s.server)
    ensures Sums(Apply(c, s, step).client) && Sums(Apply(c, s, step).server)
  {
    hide EndpointInv, CrossInv, PayloadInv, Consumed, PostFirst, Sums;
    var x := step.x;
    var e := s.At(x);
    PairFrom(c, s, t, x);
    StageFacts(c, e, x, t);
    match step {
      case Transmit(_, q) => DeviceSums(e, q, 0);
      case Ack(_, q) => DeviceSums(e, q, c.Of(x).qpns[q]);
      case Start(_) => StartedSums(c, e);
      case Process(_) => ConsumedSums(c, e, x, t);
      case _ =>
        SameSums(s.client, Apply(c, s, step).client);
        SameSums(s.server, Apply(c, s, step).server);
    }
  }

  lemma {:induction false} RunSums(c: Config, s: System, t: seq<Token>, steps: seq<Step>)
    requires Inv(c, s, t) && Run(c, s, steps) && Sums(s.client) && Sums(s.server)
    ensures Sums(Final(c, s, steps).client) && Sums(Final(c, s, steps).server)
    decreases |steps|
  {
    hide PairInv, PayloadInv, Apply, Enabled, Sums;
    if steps != [] {
      StepSums(c, s, t, steps[0]);
      StepPreserves(c, s, t, steps[0]);
      RunSums(c, Apply(c, s, steps[0]), NextTokens(c, s, steps[0], t), steps[1..]);
    }
  }

  lemma InitialSums(c: Config, x: Side)
    requires c.Valid()
    ensures Sums(Initial(c).At(x))
  {
    var e := Initial(c).At(x);
    CountUniform(e.sq, Empty);
    TotalZero(e.sent);
    TotalZero(e.got);
  }

  /** In every reachable state the sends counted and outstanding are the messages posted on the
      queue pairs together, and the receives counted are those processed on them together. */
  lemma CountersAreSums(c: Config, s: System, x: Side)
    requires Reachable(c, s)
    ensures Total(s.At(x).sent) == Posts(s.At(x))
    ensures Total(s.At(x).got) == s.At(x).rcnt
  {
    hide Run, Final, Initial, Posts;
    var steps :| Run(c, Initial(c), steps) && s == Final(c, Initial(c), steps);
    InitialInv(c);
    InitialSums(c, Client);
    InitialSums(c, Server);
    RunSums(c, Initial(c), seq(c.n, _ => Held(Client)), steps);
  }

  /** Both sides have posted at least `k` messages on every queue pair. */
  predicate AtLeastEach(n: nat, s: System, k: int)
    requires s.Shape(n)
  {
    forall q :: 0 <= q < n ==> s.client.sent[q] >= k && s.server.sent[q] >= k
  }

  lemma OnePair(c: Config, steps: seq<Step>)
    requires c.Valid() && c.n == 1 && c.reliable && c.client.iters == c.server.iters && Maximal(c, steps)
    ensures AtLeastEach(1, Final(c, Initial(c), steps), c.client.iters)
  {
    hide PairInv, PayloadInv, Run, Final, Initial, Stuck, Posts;
    var s := Final(c, Initial(c), steps);
    SingleQueuePairCounts(c, steps);
    var t := FinalTokens(c, steps);
    ReceivedAtMostPosted(c, s, t, Client);
    ReceivedAtMostPosted(c, s, t, Server);
    assert Reachable(c, s);
    CountersAreSums(c, s, Client);
    CountersAreSums(c, s, Server);
    TotalOfOne(s.client.sent);
    TotalOfOne(s.server.sent);
  }

  lemma TotalOfOne(s: seq<nat>)
    requires |s| == 1
    ensures Total(s) == s[0]
  {
    assert s[..0] == [];
  }

  /** With two queue pairs or more there is a maximal run in which the server posts fewer than `k`
      messages on one of them. */
  lemma SomePairStarves(c: Config) returns (steps: seq<Step>)
    requires c.Valid() && c.n >= 2 && c.reliable && c.server.iters >= 1
    ensures Maximal(c, steps)
    ensures exists q :: 0 <= q < c.n && Final(c, Initial(c), steps).server.sent[q] < c.server.iters
  {
    hide PairInv, PayloadInv, Run, Final, Initial, Stuck, Posts;
    InitialInv(c);
    InitialThrottled(c, Server);
    var t';
    steps, t' := ThrottledRun(c, Initial(c), seq(c.n, _ => Held(Client)), Server);
    var s := Final(c, Initial(c), steps);
    assert Reachable(c, s);
    CountersAreSums(c, s, Server);
    assert c.n * c.server.iters >= 2 * c.server.iters;
    PigeonHole(s.server.sent, c.server.iters);
  }

  /** The iteration count is a number of exchanges per queue pair exactly when there is only one
      queue pair, or nothing is asked for. */
  lemma CountIsPerPairIff(c: Config)
    requires c.Valid() && c.reliable && c.client.iters == c.server.iters
    ensures (forall steps :: Maximal(c, steps) ==> AtLeastEach(c.n, Final(c, Initial(c), steps), c.client.iters))
       <==> c.n == 1 || c.client.iters <= 0
  {
    hide Run, Final, Initial, Stuck;
    if c.n == 1 {
      forall steps | Maximal(c, steps) ensures AtLeastEach(1, Final(c, Initial(c), steps), c.client.iters) {
        OnePair(c, steps);
      }
    } else if c.client.iters >= 1 {
      var steps := SomePairStarves(c);
    }
  }
}
