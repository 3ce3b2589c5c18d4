/** One endpoint of the ping-pong: the counters of the message loop, the pending mask of every
    queue pair, and the device objects that the loop drives. The functions below are the
    specification of the loop body; `Driver` runs it on mutable state. */
module Endpoints {
  import opened Verbs

  /** What one side is configured with. `numWc` is the size of the array that a poll fills. */
  datatype SideConfig = SideConfig(iters: int, rxDepth: nat, useEvent: bool, numWc: nat, qpns: seq<int>, fill: Byte)

  /** Where the loop stands. `Starting(k)`: the client has posted its first message on `k` queue
      pairs. `Running`: at the loop condition, or processing a non-empty batch. `Woken`: got a
      completion event. `Polling`: asked for the next event, about to poll. */
  datatype Stage = Starting(k: nat) | Running | Woken | Polling | Left | Failed(error: Error)

  /** `posted`, `sq`, `wire`, `cq`, `armed`, `events` and `unacked` belong to the device; `wire[q]`
      holds the messages sent on queue pair `q` and not yet delivered to the peer. `sent` and
      `got` are history: messages posted and receive completions processed per queue pair. */
  datatype Endpoint = Endpoint(
    scnt: nat, rcnt: nat, routs: int, pending: seq<Mask>,
    batch: seq<Completion>, numCqEvents: nat, stage: Stage,
    posted: nat, sq: seq<SendSlot>, wire: seq<seq<Byte>>, cq: seq<Completion>,
    armed: bool, events: nat, unacked: int, buf: Byte,
    sent: seq<nat>, got: seq<nat>)
  {
    predicate Shape(n: nat) {
      && |pending| == n && |sq| == n && |wire| == n && |sent| == n && |got| == n
    }

    /** Completions generated and not yet processed, oldest first. */
    function Unprocessed(): seq<Completion> { batch + cq }

    predicate Done(iters: int) { rcnt >= iters && scnt >= iters }
  }

  /** How many receives `PostRecv` posts when asked for `m`: it stops when the queue is full. */
  function PostedBy(room: int, m: int): nat {
    if m <= 0 || room <= 0 then 0 else if m <= room then m else room
  }

  /** `--routs`, and the top-up when too few receives are left. */
  function TakeCredit(n: nat, rxDepth: nat, e: Endpoint): Result<Endpoint> {
    var left := e.routs - 1;
    if left > n then Ok(e.(routs := left))
    else
      var k := PostedBy(rxDepth - e.posted, rxDepth - left);
      if left + k < rxDepth then Err(CannotPostReceive)
      else Ok(e.(routs := left + k, posted := e.posted + k))
  }

  function PostSend(e: Endpoint, q: nat): (r: Result<Endpoint>)
    requires q < |e.sq| && q < |e.sent|
    ensures r.Ok? ==> |r.value.sq| == |e.sq| && |r.value.sent| == |e.sent|
  {
    if e.sq[q] != Empty then Err(CannotPostSend)
    else Ok(e.(sq := e.sq[q := Queued], sent := e.sent[q := e.sent[q] + 1]))
  }

  /** Posts a message and marks both of its requests pending. */
  function PostNext(n: nat, e: Endpoint, q: nat): (r: Result<Endpoint>)
    requires e.Shape(n) && q < n
    ensures r.Ok? ==> r.value.Shape(n)
  {
    match PostSend(e, q)
    case Ok(p) => Ok(p.(pending := p.pending[q := RECV_WRID | SEND_WRID]))
    case Err(err) => Err(err)
  }

  function ClearPending(e: Endpoint, q: nat, wrId: Mask): Endpoint
    requires q < |e.pending|
  {
    e.(pending := e.pending[q := e.pending[q] & !wrId])
  }

  /** Clears the bit of the completed request and, when nothing is pending on the queue pair and
      the send budget is not used up, posts the next message. */
  function Respond(n: nat, iters: int, e: Endpoint, q: nat, wrId: Mask): (r: Result<Endpoint>)
    requires e.Shape(n) && q < n
    ensures r.Ok? ==> r.value.Shape(n)
  {
    var cleared := ClearPending(e, q, wrId);
    if cleared.scnt < iters && cleared.pending[q] == 0 then PostNext(n, cleared, q) else Ok(cleared)
  }

  /** The body of the loop over polled completions. Consuming a send completion frees the slot. */
  function ProcessOne(n: nat, sc: SideConfig, e: Endpoint, wc: Completion): (r: Result<Endpoint>)
    requires e.Shape(n) && |sc.qpns| == n
    ensures r.Ok? ==> r.value.Shape(n)
  {
    var q := FindQp(sc.qpns, wc.qpn);
    if q < 0 then Err(UnknownQp)
    else if wc.wrId == SEND_WRID then
      Respond(n, sc.iters, e.(scnt := e.scnt + 1, sq := e.sq[q := Empty]), q, SEND_WRID)
    else if wc.wrId == RECV_WRID then
      match TakeCredit(n, sc.rxDepth, e)
      case Ok(p) => Respond(n, sc.iters, p.(rcnt := p.rcnt + 1, got := p.got[q := p.got[q] + 1]), q, RECV_WRID)
      case Err(err) => Err(err)
    else Err(UnknownWrId)
  }

  /** A poll returns as many completions as there are, up to the size of the array. */
  function Polled(sc: SideConfig, e: Endpoint): nat {
    if |e.cq| <= sc.numWc then |e.cq| else sc.numWc
  }

  function Poll(sc: SideConfig, e: Endpoint): Endpoint {
    var k := Polled(sc, e);
    e.(batch := e.cq[..k], cq := e.cq[k..], stage := Running)
  }

  /** The device adds a completion; an armed queue fires one event and disarms. */
  function Complete(e: Endpoint, wc: Completion): Endpoint {
    if e.armed then e.(cq := e.cq + [wc], armed := false, events := e.events + 1)
    else e.(cq := e.cq + [wc])
  }

  /** The device reads the buffer of a queued send and puts the message on the wire. */
  function Transmitted(e: Endpoint, q: nat): Endpoint
    requires q < |e.sq| && q < |e.wire|
  {
    e.(sq := e.sq[q := Sent], wire := e.wire[q := e.wire[q] + [e.buf]])
  }

  /** The oldest message on the wire is gone, delivered or lost. */
  function Departed(e: Endpoint, q: nat): Endpoint
    requires q < |e.wire| && e.wire[q] != []
  {
    e.(wire := e.wire[q := e.wire[q][1..]])
  }

  /** A message takes a posted receive and lands in the buffer. */
  function Received(e: Endpoint, qpn: int, m: Byte): Endpoint
    requires e.posted > 0
  {
    Complete(e.(posted := e.posted - 1, buf := m), Completion(RECV_WRID, qpn))
  }

  function Acked(e: Endpoint, q: nat, qpn: int): Endpoint
    requires q < |e.sq|
  {
    Complete(e.(sq := e.sq[q := Completed]), Completion(SEND_WRID, qpn))
  }

  function EventTaken(e: Endpoint): Endpoint
    requires e.events > 0
  {
    e.(events := e.events - 1, unacked := e.unacked + 1, numCqEvents := e.numCqEvents + 1, stage := Woken)
  }

  function Rearmed(e: Endpoint): Endpoint { e.(armed := true, stage := Polling) }

  /** The oldest completion of the batch is processed; an error ends the program. */
  function Consumed(n: nat, sc: SideConfig, e: Endpoint): (r: Endpoint)
    requires e.Shape(n) && |sc.qpns| == n && e.batch != []
    ensures r.Shape(n)
  {
    match ProcessOne(n, sc, e.(batch := e.batch[1..]), e.batch[0])
    case Ok(p) => p
    case Err(err) => e.(stage := Failed(err))
  }

  /** The client posts its first message on one more queue pair, then enters the loop. */
  function PostFirst(n: nat, e: Endpoint): (r: Endpoint)
    requires e.Shape(n) && e.stage.Starting?
    ensures r.Shape(n)
  {
    var k := e.stage.k;
    if k >= n then e.(stage := Running)
    else
      match PostNext(n, e, k)
      case Ok(p) => p.(stage := if k + 1 == n then Running else Starting(k + 1))
      case Err(err) => e.(stage := Failed(err))
  }

  /** Past the loop: all events received are acknowledged. */
  function Departing(e: Endpoint): Endpoint { e.(stage := Left, unacked := e.unacked - e.numCqEvents) }
}
