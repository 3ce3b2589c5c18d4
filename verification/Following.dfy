/** Every run of the system is followed by the program: cut at the actions of one side, the run of the
    system tells the devices what to do in between, and the program's own context then ends as that
    side does in the run. */
module Following {
  import opened Verbs
  import opened Endpoints
  import opened PingPongSystem
  import opened SystemInvariant
  import opened Driver
  import opened Refinement
  import opened Completion
  import opened Outcomes
  import opened Events

  // ---- Cutting a run ----

  /** How many steps come before the next action of the program of `x`. */
  function OutsideCount(steps: seq<Step>, x: Side): (k: nat)
    ensures k <= |steps| && forall i :: 0 <= i < k ==> IsOutside(steps[i], x)
    ensures k < |steps| ==> !IsOutside(steps[k], x)
  {
    if steps == [] || !IsOutside(steps[0], x) then 0 else 1 + OutsideCount(steps[1..], x)
  }

  function Before(steps: seq<Step>, x: Side): seq<Step> { steps[..OutsideCount(steps, x)] }

  /** From the next action of the program on. */
  function From(steps: seq<Step>, x: Side): (rest: seq<Step>)
    ensures |rest| <= |steps| && steps == Before(steps, x) + rest && (rest != [] ==> !IsOutside(rest[0], x))
  {
    steps[OutsideCount(steps, x)..]
  }

  /** A piece of a run, and the rest of it. */
  datatype Cut<+T> = Cut(piece: T, rest: seq<Step>)

  /** The completions processed in a row, with what surrounds each. */
  function CutBatch(steps: seq<Step>, x: Side): (r: Cut<seq<seq<Step>>>)
    ensures |r.rest| <= |steps|
    decreases |steps|
  {
    var rest := From(steps, x);
    if rest != [] && rest[0].Process? then
      var more := CutBatch(rest[1..], x);
      Cut([Before(steps, x)] + more.piece, more.rest)
    else Cut([], steps)
  }

  /** A round, if the program makes one: up to the poll, and its batch. */
  function CutRound(steps: seq<Step>, x: Side): (r: Cut<Phase>)
    requires From(steps, x) != [] && !From(steps, x)[0].Leave?
    ensures |r.rest| < |steps|
  {
    var rest := From(steps, x);
    if rest[0].GetEvent? then
      var toRearm := From(rest[1..], x);
      var rearmed := if toRearm == [] then [] else toRearm[1..];
      var toPoll := From(rearmed, x);
      var b := CutBatch(if toPoll == [] then [] else toPoll[1..], x);
      Cut(Phase(Before(steps, x), Before(rest[1..], x), Before(rearmed, x), b.piece), b.rest)
    else
      var b := CutBatch(rest[1..], x);
      Cut(Phase(Before(steps, x), [], [], b.piece), b.rest)
  }

  function CutLoop(steps: seq<Step>, x: Side): seq<Phase>
    decreases |steps|
  {
    var rest := From(steps, x);
    if rest == [] || rest[0].Leave? then []
    else [CutRound(steps, x).piece] + CutLoop(CutRound(steps, x).rest, x)
  }

  /** The opening of the client. */
  function CutOpening(steps: seq<Step>): (r: Cut<seq<seq<Step>>>)
    ensures |r.rest| <= |steps|
    decreases |steps|
  {
    var rest := From(steps, Client);
    if rest != [] && rest[0].Start? then
      var more := CutOpening(rest[1..]);
      Cut([Before(steps, Client)] + more.piece, more.rest)
    else Cut([], steps)
  }

  // ---- The program's own part of an endpoint ----

  predicate SameProgram(e: Endpoint, e': Endpoint) {
    && e'.stage == e.stage && e'.batch == e.batch && e'.scnt == e.scnt && e'.rcnt == e.rcnt
    && e'.routs == e.routs && e'.pending == e.pending && e'.numCqEvents == e.numCqEvents && e'.unacked == e.unacked
    && e'.sent == e.sent && e'.got == e.got
  }

  lemma OutsideKeeps(c: Config, s: System, step: Step, x: Side)
    requires c.Valid() && s.Shape(c.n) && Enabled(c, s, step) && IsOutside(step, x)
    ensures SameProgram(s.At(x), Apply(c, s, step).At(x))
  {
    hide Consumed, PostFirst;
  }

  /** Up to the next action of `x`: the system is where `Outside` takes it, the program where it was. */
  lemma {:induction false} PrefixRuns(c: Config, s: System, x: Side, steps: seq<Step>)
    requires c.Valid() && s.Shape(c.n) && Run(c, s, steps)
    ensures var o := Outside(c, s, x, Before(steps, x)).s;
      && Run(c, o, From(steps, x)) && Final(c, o, From(steps, x)) == Final(c, s, steps)
      && SameProgram(s.At(x), o.At(x))
    decreases |steps|
  {
    hide Enabled, Apply, IsOutside, SeenBy;
    if steps != [] && IsOutside(steps[0], x) {
      var s' := Apply(c, s, steps[0]);
      OutsideKeeps(c, s, steps[0], x);
      PrefixRuns(c, s', x, steps[1..]);
      assert Before(steps, x)[1..] == Before(steps[1..], x);
      assert From(steps, x) == From(steps[1..], x);
    } else {
      assert Before(steps, x) == [] && From(steps, x) == steps;
    }
  }

  /** A run that leaves the loop later has an action of the program next. */
  lemma ActionFollows(c: Config, s: System, x: Side, steps: seq<Step>)
    requires c.Valid() && s.Shape(c.n) && Run(c, s, steps)
    requires Final(c, s, steps).At(x).stage == Left && s.At(x).stage != Left
    ensures From(steps, x) != []
    ensures Enabled(c, Outside(c, s, x, Before(steps, x)).s, From(steps, x)[0]) && From(steps, x)[0].x == x
  {
    hide Enabled, Apply;
    PrefixRuns(c, s, x, steps);
  }

  /** `rest` takes `s` to the end of a run in which `x` has left its loop. */
  predicate LeadsTo(c: Config, s: System, x: Side, rest: seq<Step>, end: System)
    requires c.Valid() && s.Shape(c.n)
  {
    Run(c, s, rest) && Final(c, s, rest) == end && end.At(x).stage == Left
  }

  /** The next action of `x`, after the steps before it. */
  lemma NextAction(c: Config, s: System, x: Side, steps: seq<Step>, end: System)
    requires Reachable(c, s) && c.Valid() && s.Shape(c.n) && LeadsTo(c, s, x, steps, end) && s.At(x).stage != Left
    ensures var o, rest := Outside(c, s, x, Before(steps, x)).s, From(steps, x);
      && rest != [] && rest[0].x == x && !IsDeviceStep(rest[0]) && Enabled(c, o, rest[0])
      && Reachable(c, o) && Reachable(c, Apply(c, o, rest[0]))
      && LeadsTo(c, Apply(c, o, rest[0]), x, rest[1..], end)
      && SameProgram(s.At(x), o.At(x))
  {
    hide Enabled, Apply, Reachable, Outside, SameProgram, IsDeviceStep;
    PrefixRuns(c, s, x, steps);
    StageKept(c, s, x, steps);
    OutsideRefines(c, s, x, Before(steps, x));
    ReachStep(c, Outside(c, s, x, Before(steps, x)).s, From(steps, x)[0]);
  }

  lemma StageKept(c: Config, s: System, x: Side, steps: seq<Step>)
    requires c.Valid() && s.Shape(c.n) && Run(c, s, steps)
    requires Final(c, s, steps).At(x).stage == Left && s.At(x).stage != Left
    ensures From(steps, x) != [] && From(steps, x)[0].x == x && !IsDeviceStep(From(steps, x)[0])
  {
    hide Enabled, Apply;
    ActionFollows(c, s, x, steps);
  }

  lemma {:induction false} BatchFollows(c: Config, s: System, x: Side, steps: seq<Step>, end: System)
    requires Reachable(c, s) && c.Valid() && s.Shape(c.n) && LeadsTo(c, s, x, steps, end) && s.At(x).stage == Running
    ensures var b := CutBatch(steps, x);
      var s' := Batch(c, s, x, b.piece).s;
      Reachable(c, s') && AtCondition(s'.At(x)) && LeadsTo(c, s', x, b.rest, end)
    decreases |s.At(x).batch|
  {
    hide Reachable, Outside, Apply, LeadsTo;
    NextAction(c, s, x, steps, end);
    var o, rest := Outside(c, s, x, Before(steps, x)).s, From(steps, x);
    if s.At(x).batch == [] {
      assert !rest[0].Process?;
    } else {
      assert rest[0] == Process(x);
      HeadSucceeds(c, o, x);
      BatchShrinks(c, o, x);
      BatchFollows(c, Apply(c, o, rest[0]), x, rest[1..], end);
    }
  }

  lemma NothingBefore(c: Config, s: System, x: Side)
    requires c.Valid() && s.Shape(c.n)
    ensures Outside(c, s, x, []).s == s
  {
  }

  /** A polling round. */
  lemma PollingFollows(c: Config, s: System, x: Side, steps: seq<Step>, end: System)
    requires Reachable(c, s) && c.Valid() && s.Shape(c.n) && LeadsTo(c, s, x, steps, end)
    requires AtCondition(s.At(x)) && !s.At(x).Done(c.Of(x).iters) && !c.Of(x).useEvent
    ensures From(steps, x) != [] && From(steps, x)[0] == PollCq(x)
    ensures var r := CutRound(steps, x);
      var s' := RoundPhase(c, s, x, r.piece).s;
      Reachable(c, s') && AtCondition(s'.At(x)) && LeadsTo(c, s', x, r.rest, end)
  {
    hide Reachable, Outside, LeadsTo, Batch, Before, From, CutBatch;
    NextAction(c, s, x, steps, end);
    var o, rest := Outside(c, s, x, Before(steps, x)).s, From(steps, x);
    assert rest[0] == PollCq(x);
    NothingBefore(c, o, x);
    BatchFollows(c, Apply(c, o, PollCq(x)), x, rest[1..], end);
  }

  /** The part of an event-driven round from its event on. */
  lemma EventFollows(c: Config, g: System, x: Side, steps: seq<Step>, end: System)
    requires Reachable(c, g) && c.Valid() && g.Shape(c.n) && LeadsTo(c, g, x, steps, end) && g.At(x).stage == Woken
    ensures From(steps, x) != [] && From(steps, x)[0] == Rearm(x)
    ensures var u := Outside(c, g, x, Before(steps, x)).s;
      && Enabled(c, u, Rearm(x)) && Reachable(c, u) && Apply(c, u, Rearm(x)).At(x).stage == Polling
      && Reachable(c, Apply(c, u, Rearm(x))) && LeadsTo(c, Apply(c, u, Rearm(x)), x, From(steps, x)[1..], end)
  {
    hide Reachable, Outside, LeadsTo, Before, From;
    NextAction(c, g, x, steps, end);
  }

  lemma RearmedFollows(c: Config, v: System, x: Side, steps: seq<Step>, end: System)
    requires Reachable(c, v) && c.Valid() && v.Shape(c.n) && LeadsTo(c, v, x, steps, end) && v.At(x).stage == Polling
    ensures From(steps, x) != [] && From(steps, x)[0] == PollCq(x)
    ensures var o := Outside(c, v, x, Before(steps, x)).s;
      var b := CutBatch(From(steps, x)[1..], x);
      && Enabled(c, o, PollCq(x))
      && var s' := Batch(c, Apply(c, o, PollCq(x)), x, b.piece).s;
        Reachable(c, s') && AtCondition(s'.At(x)) && LeadsTo(c, s', x, b.rest, end)
  {
    hide Reachable, Outside, LeadsTo, Batch, Before, From, CutBatch;
    NextAction(c, v, x, steps, end);
    var o, rest := Outside(c, v, x, Before(steps, x)).s, From(steps, x);
    assert rest[0] == PollCq(x);
    BatchFollows(c, Apply(c, o, PollCq(x)), x, rest[1..], end);
  }

  lemma EventRoundFollows(c: Config, s: System, x: Side, steps: seq<Step>, end: System)
    requires Reachable(c, s) && c.Valid() && s.Shape(c.n) && LeadsTo(c, s, x, steps, end)
    requires AtCondition(s.At(x)) && !s.At(x).Done(c.Of(x).iters) && c.Of(x).useEvent
    ensures From(steps, x) != [] && From(steps, x)[0] == GetEvent(x)
    ensures var r := CutRound(steps, x);
      var s' := RoundPhase(c, s, x, r.piece).s;
      Reachable(c, s') && AtCondition(s'.At(x)) && LeadsTo(c, s', x, r.rest, end)
  {
    hide Reachable, Outside, LeadsTo, Batch, Before, From, CutBatch;
    NextAction(c, s, x, steps, end);
    var o, rest := Outside(c, s, x, Before(steps, x)).s, From(steps, x);
    assert rest[0] == GetEvent(x);
    var g := Apply(c, o, GetEvent(x));
    EventFollows(c, g, x, rest[1..], end);
    var u := Outside(c, g, x, Before(rest[1..], x)).s;
    var rearmed := From(rest[1..], x)[1..];
    RearmedFollows(c, Apply(c, u, Rearm(x)), x, rearmed, end);
  }

  // ---- The end ----

  /** A side whose loop condition is false only leaves. */
  lemma {:induction false} DoneStays(c: Config, s: System, x: Side, steps: seq<Step>)
    requires c.Valid() && s.Shape(c.n) && Run(c, s, steps) && Final(c, s, steps).At(x).stage == Left
    requires s.At(x).stage == Left || (AtCondition(s.At(x)) && s.At(x).Done(c.Of(x).iters))
    ensures SameProgram(if s.At(x).stage == Left then s.At(x) else Departing(s.At(x)), Final(c, s, steps).At(x))
    decreases |steps|
  {
    hide Apply, Enabled, IsOutside;
    if steps != [] {
      DoneStep(c, s, x, steps[0]);
      DoneStays(c, Apply(c, s, steps[0]), x, steps[1..]);
    }
  }

  lemma DoneStep(c: Config, s: System, x: Side, step: Step)
    requires c.Valid() && s.Shape(c.n) && Enabled(c, s, step)
    requires s.At(x).stage == Left || (AtCondition(s.At(x)) && s.At(x).Done(c.Of(x).iters))
    ensures SameProgram(s.At(x), Apply(c, s, step).At(x))
         || (s.At(x).stage != Left && Apply(c, s, step).At(x) == Departing(s.At(x)))
  {
    hide Consumed, PostFirst, Apply;
    if IsOutside(step, x) { OutsideKeeps(c, s, step, x); } else { Leaves(c, s, x, step); }
  }

  lemma Leaves(c: Config, s: System, x: Side, step: Step)
    requires c.Valid() && s.Shape(c.n) && Enabled(c, s, step) && step == Leave(x)
    ensures Apply(c, s, step).At(x) == Departing(s.At(x))
  {
  }

  // ---- Following a run ----

  /** The loop makes the rounds that the run makes, and ends as the run does. */
  lemma {:induction false} LoopFollows(c: Config, s: System, x: Side, steps: seq<Step>, end: System)
    requires Reachable(c, s) && c.Valid() && s.Shape(c.n) && LeadsTo(c, s, x, steps, end) && AtCondition(s.At(x))
    ensures SameProgram(end.At(x), LoopPhases(c, s, x, CutLoop(steps, x)).s.At(x))
    decreases |steps|
  {
    hide Reachable, Outside, RoundPhase, CutRound, Before, From, Apply;
    if s.At(x).Done(c.Of(x).iters) {
      DoneStays(c, s, x, steps);
      Leaves(c, s, x, Leave(x));
    } else {
      RoundFollows(c, s, x, steps, end);
      var r := CutRound(steps, x);
      LoopFollows(c, RoundPhase(c, s, x, r.piece).s, x, r.rest, end);
      assert CutLoop(steps, x)[1..] == CutLoop(r.rest, x);
    }
  }

  lemma RoundFollows(c: Config, s: System, x: Side, steps: seq<Step>, end: System)
    requires Reachable(c, s) && c.Valid() && s.Shape(c.n) && LeadsTo(c, s, x, steps, end)
    requires AtCondition(s.At(x)) && !s.At(x).Done(c.Of(x).iters)
    ensures From(steps, x) != [] && !From(steps, x)[0].Leave?
    ensures var r := CutRound(steps, x);
      var s' := RoundPhase(c, s, x, r.piece).s;
      Reachable(c, s') && AtCondition(s'.At(x)) && LeadsTo(c, s', x, r.rest, end)
  {
    hide Reachable, RoundPhase, CutRound, Before, From, LeadsTo;
    if c.Of(x).useEvent { EventRoundFollows(c, s, x, steps, end); } else { PollingFollows(c, s, x, steps, end); }
  }

  lemma {:induction false} OpeningFollows(c: Config, s: System, steps: seq<Step>, end: System)
    requires Reachable(c, s) && c.Valid() && s.Shape(c.n) && LeadsTo(c, s, Client, steps, end)
    requires s.client.stage.Starting? || AtCondition(s.client)
    ensures var r := CutOpening(steps);
      var s' := Opening(c, s, r.piece).s;
      Reachable(c, s') && AtCondition(s'.client) && LeadsTo(c, s', Client, r.rest, end)
    decreases if s.client.stage.Starting? then c.n + 1 - s.client.stage.k else 0
  {
    hide Reachable, Outside, Apply, LeadsTo, Before, From, PostFirst;
    NextAction(c, s, Client, steps, end);
    var o, rest := Outside(c, s, Client, Before(steps, Client)).s, From(steps, Client);
    if s.client.stage.Starting? {
      StartingFacts(c, s);
      assert rest[0] == Start(Client);
      var s' := Apply(c, o, Start(Client));
      StartApplies(c, o);
      StartsOn(c.n, o.client);
      StartingFacts(c, s');
      OpeningFollows(c, s', rest[1..], end);
    } else {
      assert !rest[0].Start?;
    }
  }

  lemma StartApplies(c: Config, s: System)
    requires c.Valid() && s.Shape(c.n) && Enabled(c, s, Start(Client))
    ensures Apply(c, s, Start(Client)).client == PostFirst(c.n, s.client)
  {
    hide PostFirst;
  }

  /** What the methods are given so that they follow a run of the system. */
  function OpeningOf(steps: seq<Step>, x: Side): seq<seq<Step>> { if x == Server then [] else CutOpening(steps).piece }

  function PhasesOf(steps: seq<Step>, x: Side): seq<Phase> {
    CutLoop(if x == Server then steps else CutOpening(steps).rest, x)
  }

  /** Every run in which side `x` leaves its loop is followed by the program of `x`. */
  lemma ProgramFollows(c: Config, x: Side, steps: seq<Step>)
    requires c.Valid() && Run(c, Initial(c), steps) && Final(c, Initial(c), steps).At(x).stage == Left
    ensures var start := Opened(c, x, OpeningOf(steps, x)).s;
      SameProgram(Final(c, Initial(c), steps).At(x), LoopPhases(c, start, x, PhasesOf(steps, x)).s.At(x))
  {
    hide Reachable, Opening, CutOpening, CutLoop, LoopPhases, Run, Final;
    var end := Final(c, Initial(c), steps);
    StartReachable(c);
    if x == Client {
      OpeningFollows(c, Initial(c), steps, end);
      LoopFollows(c, Opening(c, Initial(c), CutOpening(steps).piece).s, x, CutOpening(steps).rest, end);
    } else {
      LoopFollows(c, Initial(c), x, steps, end);
    }
  }

  /** The program along a run: its own context ends outside the loop, with the counters, the credit,
      the masks and the events that its side has at the end of the run. */
  method RunAlong(c: Config, x: Side, steps: seq<Step>) returns (ctx: Context, r: Result<()>)
    requires c.Valid() && c.n <= MAX_QP
    requires Run(c, Initial(c), steps) && Final(c, Initial(c), steps).At(x).stage == Left
    ensures fresh(ctx) && ctx.Valid() && ctx.numQp == c.n && r.Ok? && ctx.stage == Left
    ensures var e := Final(c, Initial(c), steps).At(x);
      && ctx.scnt == e.scnt && ctx.rcnt == e.rcnt && ctx.routs == e.routs && ctx.pending[..c.n] == e.pending
      && ctx.sent == e.sent && ctx.got == e.got
    ensures ctx.numCqEvents == EventsTaken(steps, x) && ctx.unacked == 0
  {
    hide Run, Final, Initial, LoopPhases, Opened, Reachable, OpeningOf, PhasesOf;
    ProgramFollows(c, x, steps);
    EventsAreCounted(c, steps, x);
    ctx, r := RunProgram(c, x, OpeningOf(steps, x), PhasesOf(steps, x));
    ghost var v := ctx.View([]);
    assert ctx.stage == v.stage;
  }

  /** In particular every maximal run in which the messages that were not lost suffice, on a reliable
      connection every maximal run if the counts fit, is followed by both programs to their ends. */
  lemma MaximalRunsAreFollowed(c: Config, x: Side, steps: seq<Step>)
    requires c.Valid() && Maximal(c, steps) && Suffices(c, DropsBy(steps, Client), DropsBy(steps, Server))
    ensures Final(c, Initial(c), steps).At(x).stage == Left
    ensures exists opening, phases ::
      var e := LoopPhases(c, Opened(c, x, opening).s, x, phases).s.At(x);
      && e.stage == Left && e.scnt == Final(c, Initial(c), steps).At(x).scnt
      && e.rcnt == Final(c, Initial(c), steps).At(x).rcnt
  {
    hide Run, Final, Initial, Stuck, DropsBy, LoopPhases, Opened, OpeningOf, PhasesOf;
    SufficientRunsComplete(c, steps);
    ProgramFollows(c, x, steps);
    var opening, phases := OpeningOf(steps, x), PhasesOf(steps, x);
    var e := LoopPhases(c, Opened(c, x, opening).s, x, phases).s.At(x);
    assert e.stage == Left && e.scnt == Final(c, Initial(c), steps).At(x).scnt;
  }
}
