/** Completion events: a side counts every event that it takes, and acknowledges as many at the end. */
module Events {
  import opened Verbs
  import opened Endpoints
  import opened PingPongSystem
  import opened SystemInvariant
  import opened Safety

  /** How often side `x` gets an event in a run. */
  function EventsTaken(steps: seq<Step>, x: Side): nat {
    if steps == [] then 0 else Bit(steps[0] == GetEvent(x)) + EventsTaken(steps[1..], x)
  }

  lemma ConsumedCounts(n: nat, sc: SideConfig, e: Endpoint)
    requires e.Shape(n) && |sc.qpns| == n && e.batch != []
    ensures Consumed(n, sc, e).numCqEvents == e.numCqEvents
  {
  }

  lemma StepCounts(c: Config, s: System, step: Step, x: Side)
    requires s.Shape(c.n) && |c.client.qpns| == c.n == |c.server.qpns| && Enabled(c, s, step)
    ensures Apply(c, s, step).At(x).numCqEvents == s.At(x).numCqEvents + Bit(step == GetEvent(x))
  {
    if step.Process? { ConsumedCounts(c.n, c.Of(step.x), s.At(step.x)); }
    hide Consumed;
  }

  lemma {:induction false} RunCounts(c: Config, s: System, steps: seq<Step>, x: Side)
    requires s.Shape(c.n) && |c.client.qpns| == c.n == |c.server.qpns| && Run(c, s, steps)
    ensures Final(c, s, steps).At(x).numCqEvents == s.At(x).numCqEvents + EventsTaken(steps, x)
    decreases |steps|
  {
    hide Apply, Enabled;
    if steps != [] {
      StepCounts(c, s, steps[0], x);
      RunCounts(c, Apply(c, s, steps[0]), steps[1..], x);
    }
  }

  /** At the end of every run a side has counted the events that it took, and has still to acknowledge
      them all, or none once it has left its loop. */
  lemma EventsAreCounted(c: Config, steps: seq<Step>, x: Side)
    requires c.Valid() && Run(c, Initial(c), steps)
    ensures var e := Final(c, Initial(c), steps).At(x);
      && e.numCqEvents == EventsTaken(steps, x)
      && e.unacked == if e.stage == Left then 0 else EventsTaken(steps, x)
  {
    hide Run, Final;
    RunCounts(c, Initial(c), steps, x);
    assert Reachable(c, Final(c, Initial(c), steps));
    NoLostWakeup(c, Final(c, Initial(c), steps), x);
  }
}
