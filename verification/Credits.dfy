/** How many receives a side has left, from how many it has processed: the depth at the start, one
    fewer with each, and the depth again when no more than one per queue pair would be left. */
module Credits {
  import opened Verbs
  import opened Endpoints
  import opened PingPongSystem
  import opened TokenInvariant
  import opened SystemInvariant
  import opened Division

  function Left(depth: nat, n: nat, rcnt: nat): int
    requires n <= depth
  {
    if n == depth then depth else depth - rcnt % (depth - n)
  }

  lemma ModStep(r: nat, m: nat)
    requires m > 0
    ensures (r + 1) % m == if r % m + 1 == m then 0 else r % m + 1
  {
    var k, i := r / m, r % m;
    assert r + 1 == k * m + (i + 1);
    if i + 1 == m {
      assert r + 1 == (k + 1) * m;
      DivModOf(k + 1, 0, m);
    } else {
      DivModOf(k, i + 1, m);
    }
  }

  predicate Exact(sc: SideConfig, n: nat, e: Endpoint)
    requires n <= sc.rxDepth
  {
    e.routs == Left(sc.rxDepth, n, e.rcnt)
  }

  lemma ConsumedExact(c: Config, e: Endpoint, x: Side, t: seq<Token>)
    requires c.Valid() && e.Shape(c.n) && |t| == c.n && EndpointInv(c, e, x, t) && e.batch != []
    requires Exact(c.Of(x), c.n, e)
    ensures Exact(c.Of(x), c.n, Consumed(c.n, c.Of(x), e))
  {
    hide EndpointInv, Consumed;
    BatchHead(c, e, x, t);
    var q := FindQp(c.Of(x).qpns, e.batch[0].qpn);
    if e.batch[0] == SendDone(c, x, q) {
      SendHead(c, e, x, t, q);
    } else {
      RecvHead(c, e, x, t, q);
      if c.n < c.Of(x).rxDepth { ModStep(e.rcnt, c.Of(x).rxDepth - c.n); }
    }
  }

  lemma StepExact(c: Config, s: System, t: seq<Token>, step: Step)
    requires Inv(c, s, t) && Enabled(c, s, step)
    requires Exact(c.client, c.n, s.client) && Exact(c.server, c.n, s.server)
    ensures Exact(c.client, c.n, Apply(c, s, step).client) && Exact(c.server, c.n, Apply(c, s, step).server)
  {
    hide EndpointInv, CrossInv, PayloadInv, Consumed, Left;
    if step.Process? {
      PairFrom(c, s, t, step.x);
      ConsumedExact(c, s.At(step.x), step.x, t);
    }
  }

  lemma {:induction false} RunExact(c: Config, s: System, t: seq<Token>, steps: seq<Step>)
    requires Inv(c, s, t) && Run(c, s, steps)
    requires Exact(c.client, c.n, s.client) && Exact(c.server, c.n, s.server)
    ensures Exact(c.client, c.n, Final(c, s, steps).client) && Exact(c.server, c.n, Final(c, s, steps).server)
    decreases |steps|
  {
    hide PairInv, PayloadInv, Apply, Enabled, Exact;
    if steps != [] {
      StepExact(c, s, t, steps[0]);
      StepPreserves(c, s, t, steps[0]);
      RunExact(c, Apply(c, s, steps[0]), NextTokens(c, s, steps[0], t), steps[1..]);
    }
  }

  lemma InitialExact(c: Config, x: Side)
    requires c.Valid()
    ensures Exact(c.Of(x), c.n, Initial(c).At(x))
  {
    if c.n < c.Of(x).rxDepth { DivModOf(0, 0, c.Of(x).rxDepth - c.n); }
  }

  lemma ReachedExact(c: Config, s: System)
    requires Reachable(c, s)
    ensures c.Valid() && Exact(c.client, c.n, s.client) && Exact(c.server, c.n, s.server)
  {
    hide Run, Final, Initial, Exact, PairInv, PayloadInv;
    var steps :| Run(c, Initial(c), steps) && s == Final(c, Initial(c), steps);
    InitialInv(c);
    InitialExact(c, Client);
    InitialExact(c, Server);
    RunExact(c, Initial(c), seq(c.n, _ => Held(Client)), steps);
  }

  /** The credit of every reachable state, exactly. In particular every receive of the depth is posted
      at the start, and none is added before `rxDepth - n` have been processed. */
  lemma CreditIsExact(c: Config, s: System, x: Side)
    requires Reachable(c, s)
    ensures c.Valid() && var e, depth := s.At(x), c.Of(x).rxDepth;
      && (e.rcnt < depth - c.n ==> e.routs == depth - e.rcnt)
      && (c.n < depth ==> e.routs == depth - e.rcnt % (depth - c.n))
      && (c.n == depth ==> e.routs == depth)
  {
    hide Reachable, Left;
    ReachedExact(c, s);
    LeftFacts(c.Of(x).rxDepth, c.n, s.At(x).rcnt);
  }

  lemma LeftFacts(depth: nat, n: nat, rcnt: nat)
    requires n <= depth
    ensures rcnt < depth - n ==> Left(depth, n, rcnt) == depth - rcnt
    ensures n < depth ==> Left(depth, n, rcnt) == depth - rcnt % (depth - n)
    ensures n == depth ==> Left(depth, n, rcnt) == depth
  {
    if rcnt < depth - n { DivModOf(0, rcnt, depth - n); }
  }
}
