/** What the program's methods compute is a run of the two-party system, whatever the devices and
    the other program do in the meantime. `Reached` pairs the state that the system comes to with
    what the device of side `x` did on the way, which is what `Driver` takes as an argument. */
module Refinement {
  import opened Verbs
  import opened Endpoints
  import opened PingPongSystem
  import opened SystemInvariant
  import opened TokenInvariant
  import opened Driver

  datatype Reached<+T> = Reached(s: System, seen: T)

  /** Steps that do not belong to the program of `x`. */
  predicate IsOutside(step: Step, x: Side) { step.x != x || IsDeviceStep(step) }

  /** What the device of `x` does in an outside step. */
  function SeenBy(c: Config, s: System, step: Step, x: Side): (evs: seq<DeviceEvent>)
    requires s.Shape(c.n) && Enabled(c, s, step)
    ensures |evs| <= 1
  {
    match step
    case Transmit(y, q) => if y == x then [Sends(q)] else []
    case Deliver(y, q) => if y == x then [Departs(q)] else [Arrives(q, s.At(y).wire[q][0])]
    case Ack(y, q) => if y == x then [Acks(q)] else []
    case Drop(y, q) => if y == x then [Departs(q)] else []
    case _ => []
  }

  lemma StepSeen(c: Config, s: System, step: Step, x: Side)
    requires c.Valid() && s.Shape(c.n) && Enabled(c, s, step) && IsOutside(step, x)
    ensures Apply(c, s, step).At(x) == Generated(c.n, c.Of(x), s.At(x), SeenBy(c, s, step, x))
  {
    hide Consumed, PostFirst;
    var evs := SeenBy(c, s, step, x);
    if evs != [] { assert evs[1..] == []; }
  }

  /** Outside steps, those that are possible. */
  function Outside(c: Config, s: System, x: Side, steps: seq<Step>): (r: Reached<seq<DeviceEvent>>)
    requires c.Valid() && s.Shape(c.n)
    ensures r.s.Shape(c.n)
    decreases |steps|
  {
    if steps == [] then Reached(s, [])
    else if Enabled(c, s, steps[0]) && IsOutside(steps[0], x) then
      var r := Outside(c, Apply(c, s, steps[0]), x, steps[1..]);
      Reached(r.s, SeenBy(c, s, steps[0], x) + r.seen)
    else Outside(c, s, x, steps[1..])
  }

  lemma {:induction false} GeneratedAppend(n: nat, sc: SideConfig, e: Endpoint,
                                           a: seq<DeviceEvent>, b: seq<DeviceEvent>)
    requires e.Shape(n) && |sc.qpns| == n && |a| <= 1
    ensures Generated(n, sc, e, a + b) == Generated(n, sc, Generated(n, sc, e, a), b)
  {
    hide DeviceAct;
    if a == [] {
      assert a + b == b;
    } else {
      assert (a + b)[1..] == b && a[1..] == [];
    }
  }

  lemma ReachStep(c: Config, s: System, step: Step)
    requires Reachable(c, s) && s.Shape(c.n) && Enabled(c, s, step)
    ensures Reachable(c, Apply(c, s, step))
  {
    hide Apply, Enabled;
    var first :| Run(c, Initial(c), first) && s == Final(c, Initial(c), first);
    assert [step][1..] == [];
    RunAppend(c, Initial(c), first, [step]);
  }

  /** The endpoint of `x` sees of outside steps what its device did. */
  lemma {:induction false} OutsideRefines(c: Config, s: System, x: Side, steps: seq<Step>)
    requires Reachable(c, s) && s.Shape(c.n)
    ensures var r := Outside(c, s, x, steps);
      Reachable(c, r.s) && r.s.At(x) == Generated(c.n, c.Of(x), s.At(x), r.seen)
    decreases |steps|
  {
    hide Reachable, Enabled, Apply, SeenBy, Generated;
    ValidHere(c, s);
    if steps == [] {
      NoEvents(c.n, c.Of(x), s.At(x));
    } else if Enabled(c, s, steps[0]) && IsOutside(steps[0], x) {
      var s' := Apply(c, s, steps[0]);
      ReachStep(c, s, steps[0]);
      StepSeen(c, s, steps[0], x);
      OutsideRefines(c, s', x, steps[1..]);
      GeneratedAppend(c.n, c.Of(x), s.At(x), SeenBy(c, s, steps[0], x), Outside(c, s', x, steps[1..]).seen);
    } else {
      OutsideRefines(c, s, x, steps[1..]);
    }
  }

  lemma ValidHere(c: Config, s: System)
    requires Reachable(c, s)
    ensures c.Valid()
  {
    hide Run, Final, Initial;
  }

  lemma NoEvents(n: nat, sc: SideConfig, e: Endpoint)
    requires e.Shape(n) && |sc.qpns| == n
    ensures Generated(n, sc, e, []) == e
  {
  }

  lemma {:induction false} OutsideFrame(c: Config, s: System, x: Side, steps: seq<Step>)
    requires c.Valid() && s.Shape(c.n)
    ensures var e, e' := s.At(x), Outside(c, s, x, steps).s.At(x);
      e'.stage == e.stage && e'.batch == e.batch && e'.scnt == e.scnt && e'.rcnt == e.rcnt
    decreases |steps|
  {
    hide Apply, Enabled, SeenBy, Generated, IsOutside;
    if steps != [] {
      if Enabled(c, s, steps[0]) && IsOutside(steps[0], x) {
        StepSeen(c, s, steps[0], x);
        GeneratedFrame(c.n, c.Of(x), s.At(x), SeenBy(c, s, steps[0], x), []);
        OutsideFrame(c, Apply(c, s, steps[0]), x, steps[1..]);
      } else {
        OutsideFrame(c, s, x, steps[1..]);
      }
    }
  }

  /** The program of `x` processes its batch, with outside steps before each completion. */
  function Batch(c: Config, s: System, x: Side, working: seq<seq<Step>>): (r: Reached<seq<seq<DeviceEvent>>>)
    requires c.Valid() && s.Shape(c.n)
    ensures r.s.Shape(c.n)
    decreases |s.At(x).batch|, if s.At(x).stage == Running then 1 else 0
  {
    if s.At(x).batch == [] || s.At(x).stage != Running then Reached(s, [])
    else
      OutsideFrame(c, s, x, First(working));
      var o := Outside(c, s, x, First(working));
      BatchShrinks(c, o.s, x);
      var r := Batch(c, Apply(c, o.s, Process(x)), x, Rest(working));
      Reached(r.s, [o.seen] + r.seen)
  }

  lemma BatchShrinks(c: Config, s: System, x: Side)
    requires c.Valid() && s.Shape(c.n) && s.At(x).batch != [] && s.At(x).stage == Running
    ensures Enabled(c, s, Process(x))
    ensures var e := Apply(c, s, Process(x)).At(x);
      |e.batch| < |s.At(x).batch| || (e.batch == s.At(x).batch && e.stage.Failed?)
  {
    var e := s.At(x);
    if ProcessOne(c.n, c.Of(x), e.(batch := e.batch[1..]), e.batch[0]).Ok? {
      ProcessOneFrame(c.n, c.Of(x), e.(batch := e.batch[1..]), e.batch[0]);
    }
    hide ProcessOne;
  }

  /** What surrounds the actions of the program in one round. */
  datatype Phase = Phase(waiting: seq<Step>, rearming: seq<Step>, polling: seq<Step>, working: seq<seq<Step>>)

  /** The program is about to poll. */
  predicate ReadyToPoll(c: Config, s: System, x: Side) {
    if c.Of(x).useEvent then s.At(x).stage == Polling else AtCondition(s.At(x)) && !s.At(x).Done(c.Of(x).iters)
  }

  /** From the poll on. */
  function PollPhase(c: Config, s: System, x: Side, ph: Phase, a: Activity): (r: Reached<Activity>)
    requires c.Valid() && s.Shape(c.n) && ReadyToPoll(c, s, x)
    ensures r.s.Shape(c.n) && r.seen.waiting == a.waiting && r.seen.rearming == a.rearming
  {
    OutsideFrame(c, s, x, ph.polling);
    var o := Outside(c, s, x, ph.polling);
    if !c.Of(x).useEvent && o.s.At(x).cq == [] then Reached(o.s, a.(polling := o.seen))
    else
      var r := Batch(c, Apply(c, o.s, PollCq(x)), x, ph.working);
      Reached(r.s, a.(polling := o.seen, working := r.seen))
  }

  /** A round of the loop. */
  function RoundPhase(c: Config, s: System, x: Side, ph: Phase): (r: Reached<Activity>)
    requires c.Valid() && s.Shape(c.n) && AtCondition(s.At(x)) && !s.At(x).Done(c.Of(x).iters)
    ensures r.s.Shape(c.n)
  {
    OutsideFrame(c, s, x, ph.waiting);
    var o := Outside(c, s, x, ph.waiting);
    var a := Activity(o.seen, [], [], []);
    if !c.Of(x).useEvent then PollPhase(c, o.s, x, ph, a)
    else if o.s.At(x).events == 0 then Reached(o.s, a)
    else
      var g := Apply(c, o.s, GetEvent(x));
      OutsideFrame(c, g, x, ph.rearming);
      var u := Outside(c, g, x, ph.rearming);
      PollPhase(c, Apply(c, u.s, Rearm(x)), x, ph, a.(rearming := u.seen))
  }

  /** The loop, up to its end or as long as we watch. */
  function LoopPhases(c: Config, s: System, x: Side, phases: seq<Phase>): (r: Reached<seq<Activity>>)
    requires c.Valid() && s.Shape(c.n)
    ensures r.s.Shape(c.n)
    decreases |phases|
  {
    if !AtCondition(s.At(x)) then Reached(s, [])
    else if s.At(x).Done(c.Of(x).iters) then Reached(Apply(c, s, Leave(x)), [])
    else if phases == [] then Reached(s, [])
    else
      var r := RoundPhase(c, s, x, phases[0]);
      var more := LoopPhases(c, r.s, x, phases[1..]);
      Reached(more.s, [r.seen] + more.seen)
  }

  // ---- Refinement ----

  /** In a reachable state the next completion is processed without an error. */
  lemma HeadSucceeds(c: Config, s: System, x: Side)
    requires Reachable(c, s) && s.Shape(c.n) && s.At(x).stage == Running && s.At(x).batch != []
    ensures c.Valid() && Enabled(c, s, Process(x)) && Reachable(c, Apply(c, s, Process(x)))
    ensures var e := s.At(x);
      ProcessOne(c.n, c.Of(x), e.(batch := e.batch[1..]), e.batch[0]) == Ok(Apply(c, s, Process(x)).At(x))
    ensures Apply(c, s, Process(x)).At(x).stage == Running
  {
    hide Reachable, EndpointInv, CrossInv, PayloadInv, ProcessOne, Inv;
    var t := ReachableInv(c, s);
    ValidHere(c, s);
    HeadNeverFails(c, s, t, x);
    ReachStep(c, s, Process(x));
    var e := s.At(x);
    ProcessOneFrame(c.n, c.Of(x), e.(batch := e.batch[1..]), e.batch[0]);
  }

  lemma HeadNeverFails(c: Config, s: System, t: seq<Token>, x: Side)
    requires Inv(c, s, t) && s.At(x).stage == Running && s.At(x).batch != []
    ensures ProcessOne(c.n, c.Of(x), s.At(x).(batch := s.At(x).batch[1..]), s.At(x).batch[0]).Ok?
  {
    hide EndpointInv, CrossInv, PayloadInv, ProcessOne;
    var e := s.At(x);
    PairFrom(c, s, t, x);
    BatchHead(c, e, x, t);
    var q := FindQp(c.Of(x).qpns, e.batch[0].qpn);
    if e.batch[0] == SendDone(c, x, q) { SendHead(c, e, x, t, q); } else { RecvHead(c, e, x, t, q); }
    FailedIsFailed(c, e, x);
  }

  lemma FailedIsFailed(c: Config, e: Endpoint, x: Side)
    requires e.Shape(c.n) && |c.Of(x).qpns| == c.n && e.batch != [] && e.stage == Running
    ensures Consumed(c.n, c.Of(x), e).stage.Failed?
       <==> ProcessOne(c.n, c.Of(x), e.(batch := e.batch[1..]), e.batch[0]).Err?
  {
    if ProcessOne(c.n, c.Of(x), e.(batch := e.batch[1..]), e.batch[0]).Ok? {
      ProcessOneFrame(c.n, c.Of(x), e.(batch := e.batch[1..]), e.batch[0]);
    }
    hide ProcessOne;
  }

  lemma {:induction false} BatchRefines(c: Config, s: System, x: Side, working: seq<seq<Step>>)
    requires Reachable(c, s) && c.Valid() && s.Shape(c.n) && s.At(x).stage == Running
    ensures var r := Batch(c, s, x, working);
      && Reachable(c, r.s) && AtCondition(r.s.At(x))
      && ProcessAll(c.n, c.Of(x), s.At(x), r.seen) == Ok(r.s.At(x))
    decreases |s.At(x).batch|
  {
    hide Reachable, Outside, ProcessOne, Apply, Enabled, Generated;
    if s.At(x).batch != [] {
      var o := Outside(c, s, x, First(working));
      OutsideRefines(c, s, x, First(working));
      OutsideFrame(c, s, x, First(working));
      BatchShrinks(c, o.s, x);
      HeadSucceeds(c, o.s, x);
      var s' := Apply(c, o.s, Process(x));
      BatchRefines(c, s', x, Rest(working));
      assert Batch(c, s, x, working).seen[1..] == Batch(c, s', x, Rest(working)).seen;
    }
  }

  lemma PollRefines(c: Config, s: System, x: Side, ph: Phase, a: Activity)
    requires Reachable(c, s) && c.Valid() && s.Shape(c.n) && ReadyToPoll(c, s, x)
    ensures var r := PollPhase(c, s, x, ph, a);
      && Reachable(c, r.s) && AtCondition(r.s.At(x))
      && PollRound(c.n, c.Of(x), s.At(x), r.seen) == Ok(r.s.At(x))
  {
    hide Reachable, Outside, Batch, ProcessAll, Generated;
    OutsideRefines(c, s, x, ph.polling);
    OutsideFrame(c, s, x, ph.polling);
    var o := Outside(c, s, x, ph.polling);
    if c.Of(x).useEvent || o.s.At(x).cq != [] {
      ReachStep(c, o.s, PollCq(x));
      BatchRefines(c, Apply(c, o.s, PollCq(x)), x, ph.working);
    }
  }

  lemma RoundRefines(c: Config, s: System, x: Side, ph: Phase)
    requires Reachable(c, s) && c.Valid() && s.Shape(c.n) && AtCondition(s.At(x)) && !s.At(x).Done(c.Of(x).iters)
    ensures var r := RoundPhase(c, s, x, ph);
      && Reachable(c, r.s) && AtCondition(r.s.At(x))
      && Round(c.n, c.Of(x), s.At(x), r.seen) == Ok(r.s.At(x))
  {
    hide Reachable, Outside, PollPhase, PollRound, Generated;
    OutsideRefines(c, s, x, ph.waiting);
    OutsideFrame(c, s, x, ph.waiting);
    var o := Outside(c, s, x, ph.waiting);
    var a := Activity(o.seen, [], [], []);
    if !c.Of(x).useEvent {
      PollRefines(c, o.s, x, ph, a);
    } else if o.s.At(x).events > 0 {
      ReachStep(c, o.s, GetEvent(x));
      var g := Apply(c, o.s, GetEvent(x));
      OutsideRefines(c, g, x, ph.rearming);
      OutsideFrame(c, g, x, ph.rearming);
      var u := Outside(c, g, x, ph.rearming);
      ReachStep(c, u.s, Rearm(x));
      PollRefines(c, Apply(c, u.s, Rearm(x)), x, ph, a.(rearming := u.seen));
    }
  }

  /** The message loop, started in a reachable state, never takes an error exit, and its effect is
      that of a run of the system, whatever the devices and the other program do meanwhile. */
  lemma {:induction false} LoopRefines(c: Config, s: System, x: Side, phases: seq<Phase>)
    requires Reachable(c, s) && c.Valid() && s.Shape(c.n) && AtCondition(s.At(x))
    ensures var r := LoopPhases(c, s, x, phases);
      && Reachable(c, r.s)
      && Loop(c.n, c.Of(x), s.At(x), r.seen) == Ok(r.s.At(x))
    decreases |phases|
  {
    hide Reachable, RoundPhase, Round;
    if s.At(x).Done(c.Of(x).iters) {
      ReachStep(c, s, Leave(x));
    } else if phases != [] {
      RoundRefines(c, s, x, phases[0]);
      var r := RoundPhase(c, s, x, phases[0]);
      LoopRefines(c, r.s, x, phases[1..]);
      assert LoopPhases(c, s, x, phases).seen[1..] == LoopPhases(c, r.s, x, phases[1..]).seen;
    }
  }

  /** The program of the client opens, with outside steps before each post. */
  function Opening(c: Config, s: System, working: seq<seq<Step>>): (r: Reached<seq<seq<DeviceEvent>>>)
    requires c.Valid() && s.Shape(c.n)
    ensures r.s.Shape(c.n)
    decreases if s.client.stage.Starting? then c.n + 1 - s.client.stage.k else 0
  {
    if !s.client.stage.Starting? || s.client.stage.k >= c.n then Reached(s, [])
    else
      OutsideFrame(c, s, Client, First(working));
      var o := Outside(c, s, Client, First(working));
      var r := Opening(c, Apply(c, o.s, Start(Client)), Rest(working));
      Reached(r.s, [o.seen] + r.seen)
  }

  lemma {:induction false} OpeningRefines(c: Config, s: System, working: seq<seq<Step>>)
    requires Reachable(c, s) && c.Valid() && s.Shape(c.n)
    ensures var r := Opening(c, s, working);
      Reachable(c, r.s) && OpenAll(c.n, c.client, s.client, r.seen) == r.s.client
    ensures s.client.stage.Starting? ==> AtCondition(Opening(c, s, working).s.client)
    decreases if s.client.stage.Starting? then c.n + 1 - s.client.stage.k else 0
  {
    hide Reachable, Outside, Generated, PostFirst;
    StartingFacts(c, s);
    if s.client.stage.Starting? {
      var o := Outside(c, s, Client, First(working));
      OutsideRefines(c, s, Client, First(working));
      OutsideFrame(c, s, Client, First(working));
      ReachStep(c, o.s, Start(Client));
      var s' := Apply(c, o.s, Start(Client));
      StartingFacts(c, s');
      StartsOn(c.n, o.s.client);
      OpeningRefines(c, s', Rest(working));
      assert Opening(c, s, working).seen[1..] == Opening(c, s', Rest(working)).seen;
    }
  }

  lemma StartsOn(n: nat, e: Endpoint)
    requires e.Shape(n) && e.stage.Starting? && e.stage.k <= n
    ensures var p := PostFirst(n, e);
      p.batch == e.batch && (p.stage == Running || p.stage.Failed? || p.stage == Starting(e.stage.k + 1))
  {
  }

  lemma StartingFacts(c: Config, s: System)
    requires Reachable(c, s)
    ensures s.Shape(c.n) && !s.client.stage.Failed?
    ensures s.client.stage.Starting? ==> s.client.stage.k < c.n && s.client.batch == []
  {
    hide Reachable, LinksInv, EventInv, CrossInv, PayloadInv;
    var t := ReachableInv(c, s);
  }

  lemma StartReachable(c: Config)
    requires c.Valid()
    ensures Reachable(c, Initial(c))
  {
    assert Run(c, Initial(c), []) && Final(c, Initial(c), []) == Initial(c);
  }

  // ---- The programs ----

  /** The system in which side `x` is about to enter its loop; `opening` surrounds the client's first
      posts. */
  function Opened(c: Config, x: Side, opening: seq<seq<Step>>): (r: Reached<seq<seq<DeviceEvent>>>)
    requires c.Valid()
    ensures r.s.Shape(c.n)
  {
    if x == Server then Reached(Initial(c), []) else Opening(c, Initial(c), opening)
  }

  lemma OpenedRefines(c: Config, x: Side, opening: seq<seq<Step>>)
    requires c.Valid()
    ensures var r := Opened(c, x, opening);
      && Reachable(c, r.s) && AtCondition(r.s.At(x))
      && (x == Client ==> OpenAll(c.n, c.client, InitialEndpoint(c.n, c.client, Client), r.seen) == r.s.client)
  {
    hide Reachable, Opening, OpenAll;
    StartReachable(c);
    if x == Client { OpeningRefines(c, Initial(c), opening); }
  }

  /** Each program as a whole, on its own context: it posts its receives, opens and loops. Whatever
      the devices and the other program do between any two of its actions, no error exit is taken,
      and the context ends up as the endpoint of the system after the corresponding run. */
  method RunProgram(c: Config, x: Side, opening: seq<seq<Step>>, phases: seq<Phase>)
    returns (ctx: Context, r: Result<()>)
    requires c.Valid() && c.n <= MAX_QP
    ensures fresh(ctx) && ctx.Valid() && ctx.numQp == c.n && ctx.sc == c.Of(x) && r.Ok?
    ensures var end := LoopPhases(c, Opened(c, x, opening).s, x, phases).s;
      Reachable(c, end) && ctx.View([]) == end.At(x)
  {
    hide LoopPhases, Reachable, Opening, OpenAll, Loop;
    ctx := new Context(c.n, c.Of(x));
    OpenedRefines(c, x, opening);
    if x == Client {
      var ok := ctx.OpenClient(Opened(c, x, opening).seen);
    } else {
      ctx.OpenServer();
    }
    var s := Opened(c, x, opening).s;
    LoopRefines(c, s, x, phases);
    var wc := new Completion[ctx.sc.numWc];
    r := ctx.MessageLoop(wc, LoopPhases(c, s, x, phases).seen);
  }
}
