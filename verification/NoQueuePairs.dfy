/** The start-up check lets a program run without a single queue pair. Then nothing is ever sent, and
    a loop ends only if it has nothing to do. */
module NoQueuePairs {
  import opened Endpoints
  import opened PingPongSystem
  import opened Outcomes

  predicate NoPairs(c: Config) { c.n == 0 && c.client.qpns == [] && c.server.qpns == [] }

  /** Nothing has happened to a side but that it was started, or has left. */
  predicate Untouched(e: Endpoint) {
    && e.Shape(0) && e.cq == [] && e.batch == [] && e.events == 0 && e.scnt == 0 && e.rcnt == 0
    && (e.stage == Starting(0) || e.stage == Running || e.stage == Left)
  }

  predicate LeftIfDone(iters: int, e: Endpoint) { e.stage == Left ==> iters <= 0 }

  predicate Quiescent(c: Config, s: System) {
    && Untouched(s.client) && Untouched(s.server)
    && LeftIfDone(c.client.iters, s.client) && LeftIfDone(c.server.iters, s.server)
  }

  lemma StepQuiescent(c: Config, s: System, step: Step)
    requires NoPairs(c) && Quiescent(c, s) && Enabled(c, s, step)
    ensures Quiescent(c, Apply(c, s, step))
  {
  }

  lemma {:induction false} RunQuiescent(c: Config, s: System, steps: seq<Step>)
    requires NoPairs(c) && Quiescent(c, s) && Run(c, s, steps)
    ensures Quiescent(c, Final(c, s, steps))
    decreases |steps|
  {
    hide Apply, Enabled;
    if steps != [] {
      StepQuiescent(c, s, steps[0]);
      RunQuiescent(c, Apply(c, s, steps[0]), steps[1..]);
    }
  }

  lemma InitialQuiescent(c: Config)
    requires NoPairs(c)
    ensures Quiescent(c, Initial(c))
  {
  }

  /** With nothing to do both programs leave. */
  lemma NothingToDo(c: Config, steps: seq<Step>)
    requires NoPairs(c) && Maximal(c, steps) && c.client.iters <= 0 && c.server.iters <= 0
    ensures Completes(c, steps)
  {
    hide Run, Final, Initial;
    InitialQuiescent(c);
    RunQuiescent(c, Initial(c), steps);
    var s := Final(c, Initial(c), steps);
    assert !Enabled(c, s, Start(Client)) && !Enabled(c, s, Start(Server));
    assert !Enabled(c, s, Leave(Client)) && !Enabled(c, s, Leave(Server));
  }

  /** With something to do the client starts, and then both wait for ever. */
  lemma BothWait(c: Config)
    requires NoPairs(c) && c.client.iters >= 1 && c.server.iters >= 1
    ensures Maximal(c, [Start(Client)]) && !Completes(c, [Start(Client)])
  {
    var s := Apply(c, Initial(c), Start(Client));
    assert [Start(Client)][1..] == [];
    assert Run(c, s, []) && Final(c, s, []) == s;
    forall step ensures !Enabled(c, s, step) {
    }
  }

  /** Equal counts: both programs always finish exactly if there is nothing to do. */
  lemma CompletesWithoutPairsIff(c: Config)
    requires NoPairs(c) && c.client.iters == c.server.iters
    ensures (forall steps :: Maximal(c, steps) ==> Completes(c, steps)) <==> c.client.iters <= 0
  {
    hide Run, Final, Initial, Stuck;
    if c.client.iters <= 0 {
      forall steps | Maximal(c, steps) ensures Completes(c, steps) { NothingToDo(c, steps); }
    } else {
      BothWait(c);
    }
  }
}
