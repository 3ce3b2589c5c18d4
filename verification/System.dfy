/** Two endpoints and the steps they take: the message loops one action at a time, the devices
    in any order in between. */
module PingPongSystem {
  import opened Verbs
  import opened Endpoints

  datatype Side = Client | Server {
    function Peer(): Side { if this == Client then Server else Client }
  }

  /** `reliable` tells a reliable connection from an unreliable one (connected or datagram). */
  datatype Config = Config(n: nat, reliable: bool, client: SideConfig, server: SideConfig) {
    function Of(x: Side): SideConfig { if x == Client then client else server }

    /** What the programs check or the device guarantees: at least one receive per queue pair,
        a poll array that holds two completions per queue pair, distinct queue pair numbers. */
    predicate ValidSide(x: Side) {
      && n <= Of(x).rxDepth && 2 * n <= Of(x).numWc
      && |Of(x).qpns| == n && Distinct(Of(x).qpns)
    }

    predicate Valid() { 1 <= n && ValidSide(Client) && ValidSide(Server) }
  }

  datatype System = System(client: Endpoint, server: Endpoint) {
    function At(x: Side): Endpoint { if x == Client then client else server }

    function With(x: Side, e: Endpoint): System {
      if x == Client then this.(client := e) else this.(server := e)
    }

    predicate Shape(n: nat) { client.Shape(n) && server.Shape(n) }
  }

  /** `Transmit`: the device reads the buffer of a queued send and puts the message on the wire.
      `Deliver`: the message reaches the peer's buffer and a receive completes there. `Ack`: the
      send completes. `Drop`: the message is lost. The others are actions of a message loop. */
  datatype Step =
    | Transmit(x: Side, q: nat) | Deliver(x: Side, q: nat) | Ack(x: Side, q: nat) | Drop(x: Side, q: nat)
    | Start(x: Side) | GetEvent(x: Side) | Rearm(x: Side) | PollCq(x: Side) | Process(x: Side) | Leave(x: Side)

  predicate IsDeviceStep(step: Step) { step.Transmit? || step.Deliver? || step.Ack? || step.Drop? }

  predicate AtCondition(e: Endpoint) { e.stage == Running && e.batch == [] }

  predicate Enabled(c: Config, s: System, step: Step)
    requires s.Shape(c.n)
  {
    var e := s.At(step.x);
    var sc := c.Of(step.x);
    match step
    case Transmit(_, q) => q < c.n && e.sq[q] == Queued
    case Deliver(x, q) => q < c.n && e.wire[q] != [] && s.At(x.Peer()).posted > 0
    case Ack(_, q) => q < c.n && e.sq[q] == Sent && (c.reliable ==> e.wire[q] == [])
    case Drop(_, q) => !c.reliable && q < c.n && e.wire[q] != []
    case Start(_) => e.stage.Starting?
    case GetEvent(_) => AtCondition(e) && !e.Done(sc.iters) && sc.useEvent && e.events > 0
    case Rearm(_) => e.stage == Woken
    case PollCq(_) => e.stage == Polling || (AtCondition(e) && !e.Done(sc.iters) && !sc.useEvent && e.cq != [])
    case Process(_) => e.stage == Running && e.batch != []
    case Leave(_) => AtCondition(e) && e.Done(sc.iters)
  }

  function Apply(c: Config, s: System, step: Step): (r: System)
    requires s.Shape(c.n) && Enabled(c, s, step)
    requires |c.client.qpns| == c.n == |c.server.qpns|
    ensures r.Shape(c.n)
  {
    var x := step.x;
    var e := s.At(x);
    match step
    case Transmit(_, q) => s.With(x, Transmitted(e, q))
    case Deliver(_, q) =>
      s.With(x, Departed(e, q)).With(x.Peer(), Received(s.At(x.Peer()), c.Of(x.Peer()).qpns[q], e.wire[q][0]))
    case Ack(_, q) => s.With(x, Acked(e, q, c.Of(x).qpns[q]))
    case Drop(_, q) => s.With(x, Departed(e, q))
    case Start(_) => s.With(x, PostFirst(c.n, e))
    case GetEvent(_) => s.With(x, EventTaken(e))
    case Rearm(_) => s.With(x, Rearmed(e))
    case PollCq(_) => s.With(x, Poll(c.Of(x), e))
    case Process(_) => s.With(x, Consumed(c.n, c.Of(x), e))
    case Leave(_) => s.With(x, Departing(e))
  }

  /** After the handshake: every receive posted, the server waiting for the first messages, the
      client about to post them. */
  function InitialEndpoint(n: nat, sc: SideConfig, x: Side): (e: Endpoint)
    ensures e.Shape(n)
  {
    Endpoint(
      0, 0, sc.rxDepth, seq(n, _ => if x == Client then 0 else RECV_WRID),
      [], 0, if x == Client then Starting(0) else Running,
      sc.rxDepth, seq(n, _ => Empty), seq(n, _ => []), [],
      sc.useEvent, 0, 0, sc.fill,
      seq(n, _ => 0), seq(n, _ => 0))
  }

  function Initial(c: Config): (s: System)
    ensures s.Shape(c.n)
  {
    System(InitialEndpoint(c.n, c.client, Client), InitialEndpoint(c.n, c.server, Server))
  }

  /** The steps can be taken one after the other from `s`. */
  predicate Run(c: Config, s: System, steps: seq<Step>)
    requires s.Shape(c.n) && |c.client.qpns| == c.n == |c.server.qpns|
    decreases |steps|
  {
    steps == [] || (Enabled(c, s, steps[0]) && Run(c, Apply(c, s, steps[0]), steps[1..]))
  }

  function Final(c: Config, s: System, steps: seq<Step>): (r: System)
    requires s.Shape(c.n) && |c.client.qpns| == c.n == |c.server.qpns| && Run(c, s, steps)
    ensures r.Shape(c.n)
    decreases |steps|
  {
    if steps == [] then s else Final(c, Apply(c, s, steps[0]), steps[1..])
  }

  lemma {:induction false} RunAppend(c: Config, s: System, first: seq<Step>, rest: seq<Step>)
    requires s.Shape(c.n) && |c.client.qpns| == c.n == |c.server.qpns|
    requires Run(c, s, first) && Run(c, Final(c, s, first), rest)
    ensures Run(c, s, first + rest) && Final(c, s, first + rest) == Final(c, Final(c, s, first), rest)
    decreases |first|
  {
    hide Apply, Enabled;
    if first == [] {
      assert first + rest == rest;
    } else {
      assert (first + rest)[1..] == first[1..] + rest;
      RunAppend(c, Apply(c, s, first[0]), first[1..], rest);
    }
  }

  /** No step at all can be taken. */
  ghost predicate Stuck(c: Config, s: System)
    requires s.Shape(c.n)
  {
    forall step :: !Enabled(c, s, step)
  }

  predicate BothLeft(s: System) { s.client.stage == Left && s.server.stage == Left }
}
