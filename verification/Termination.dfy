/** Every run ends: each step uses up some of the work that can still be done. */
module Termination {
  import opened Counting
  import opened Verbs
  import opened Endpoints
  import opened PingPongSystem
  import opened TokenInvariant
  import opened StepInvariant
  import opened SystemInvariant

  function StageWork(stage: Stage): nat {
    match stage
    case Starting(_) => 2
    case Running => 1
    case Woken => 3
    case Polling => 2
    case Left => 0
    case Failed(_) => 0
  }

  /** The steps that a message can still cause: 14 before it is posted, 13 when it is queued, 6
      for its delivery and 6 for its acknowledgement (a completion and an event each), 2 for a
      completion in the queue, 1 in a batch, 3 for an event. */
  function Work(c: Config, e: Endpoint, x: Side): int {
    14 * (Budget(c, x) - Posts(e)) + 13 * Count(e.sq, Queued) + 6 * Count(e.sq, Sent)
    + 6 * (|e.wire| - Count(e.wire, []))
    + 2 * |e.cq| + |e.batch| + 3 * e.events + StageWork(e.stage)
  }

  function TotalWork(c: Config, s: System): int { Work(c, s.client, Client) + Work(c, s.server, Server) }

  lemma CompleteWork(c: Config, e: Endpoint, x: Side, wc: Completion)
    ensures Work(c, Complete(e, wc), x) <= Work(c, e, x) + 5
  {
  }

  lemma TransmittedWork(c: Config, e: Endpoint, x: Side, q: nat)
    requires e.Shape(c.n) && q < c.n && e.sq[q] == Queued && e.wire[q] == []
    ensures Work(c, Transmitted(e, q), x) == Work(c, e, x) - 1
  {
    CountUpdate(e.sq, q, Sent);
    CountUpdate(e.wire, q, e.wire[q] + [e.buf]);
  }

  lemma DepartedWork(c: Config, e: Endpoint, x: Side, q: nat)
    requires e.Shape(c.n) && q < c.n && |e.wire[q]| == 1
    ensures Work(c, Departed(e, q), x) == Work(c, e, x) - 6
  {
    CountUpdate(e.wire, q, e.wire[q][1..]);
  }

  lemma ReceivedWork(c: Config, e: Endpoint, x: Side, qpn: int, m: Byte)
    requires e.posted > 0
    ensures Work(c, Received(e, qpn, m), x) <= Work(c, e, x) + 5
  {
    CompleteWork(c, e.(posted := e.posted - 1, buf := m), x, Completion(RECV_WRID, qpn));
  }

  lemma AckedWork(c: Config, e: Endpoint, x: Side, q: nat, qpn: int)
    requires e.Shape(c.n) && q < c.n && e.sq[q] == Sent
    ensures Work(c, Acked(e, q, qpn), x) < Work(c, e, x)
  {
    CountUpdate(e.sq, q, Completed);
    CompleteWork(c, e.(sq := e.sq[q := Completed]), x, Completion(SEND_WRID, qpn));
  }

  lemma StartedWork(c: Config, e: Endpoint, x: Side)
    requires e.Shape(c.n) && e.stage.Starting? && e.stage.k < c.n && e.sq[e.stage.k] == Empty
    ensures Work(c, PostFirst(c.n, e), x) < Work(c, e, x)
  {
    CountUpdate(e.sq, e.stage.k, Queued);
  }

  lemma PollWork(c: Config, e: Endpoint, x: Side)
    requires c.Valid() && e.batch == []
    requires e.stage == Polling || (e.stage == Running && e.cq != [])
    ensures Work(c, Poll(c.Of(x), e), x) < Work(c, e, x)
  {
  }

  lemma AfterSendWork(c: Config, e: Endpoint, x: Side, q: nat, post: bool, recv: bool)
    requires e.Shape(c.n) && q < c.n && e.sq[q] == Completed && e.batch != []
    ensures Work(c, AfterSend(e, q, post, recv), x) < Work(c, e, x)
  {
    CountUpdate(e.sq, q, if post then Queued else Empty);
  }

  lemma AfterRecvWork(c: Config, e: Endpoint, x: Side, q: nat, k: nat, post: bool)
    requires e.Shape(c.n) && q < c.n && (post ==> e.sq[q] == Empty) && e.batch != []
    ensures Work(c, AfterRecv(e, q, k, post), x) < Work(c, e, x)
  {
    CountUpdate(e.sq, q, Queued);
  }

  lemma ConsumedWork(c: Config, e: Endpoint, x: Side, t: seq<Token>)
    requires c.Valid() && e.Shape(c.n) && |t| == c.n && EndpointInv(c, e, x, t) && e.batch != []
    ensures Work(c, Consumed(c.n, c.Of(x), e), x) < Work(c, e, x)
  {
    hide EndpointInv, Consumed, Work;
    BatchHead(c, e, x, t);
    var q := FindQp(c.Of(x).qpns, e.batch[0].qpn);
    if e.batch[0] == SendDone(c, x, q) {
      SendHead(c, e, x, t, q);
      AfterSendWork(c, e, x, q, e.scnt + 1 < c.Of(x).iters && t[q] == Held(x), t[q] != Held(x));
    } else {
      RecvHead(c, e, x, t, q);
      AfterRecvWork(c, e, x, q, TopUp(c, e, x), Replies(c, e, x, q));
    }
  }

  lemma LinkFacts(c: Config, e: Endpoint, x: Side, t: seq<Token>, q: nat)
    requires c.Valid() && e.Shape(c.n) && |t| == c.n && q < c.n && EndpointInv(c, e, x, t)
    ensures |e.wire[q]| <= 1 && (e.sq[q] == Queued ==> e.wire[q] == [])
  {
    assert LinkInv(c, e, x, q, t[q]);
  }

  lemma StageFacts(c: Config, e: Endpoint, x: Side, t: seq<Token>)
    requires c.Valid() && e.Shape(c.n) && |t| == c.n && EndpointInv(c, e, x, t)
    ensures e.stage == Polling ==> e.batch == []
    ensures e.stage.Starting? ==> e.stage.k < c.n && e.sq[e.stage.k] == Empty
    ensures Work(c, e, x) >= 0
  {
    if e.stage.Starting? { assert LinkInv(c, e, x, e.stage.k, t[e.stage.k]); }
    CountTwo(e.sq, Queued, Sent);
  }

  lemma LoopWork(c: Config, e: Endpoint, x: Side)
    ensures e.events > 0 && e.stage == Running ==> Work(c, EventTaken(e), x) < Work(c, e, x)
    ensures e.stage == Woken ==> Work(c, Rearmed(e), x) < Work(c, e, x)
    ensures e.stage == Running ==> Work(c, Departing(e), x) < Work(c, e, x)
  {
  }

  lemma WorkAt(c: Config, s: System, x: Side)
    ensures TotalWork(c, s) == Work(c, s.At(x), x) + Work(c, s.At(x.Peer()), x.Peer())
  {
    hide Work;
  }

  lemma DeliverUsesWork(c: Config, s: System, t: seq<Token>, x: Side, q: nat)
    requires Inv(c, s, t) && Enabled(c, s, Deliver(x, q))
    ensures TotalWork(c, Apply(c, s, Deliver(x, q))) < TotalWork(c, s)
  {
    hide EndpointInv, CrossInv, PayloadInv, Departed, Received, Work, TotalWork;
    var y := x.Peer();
    PairFrom(c, s, t, x);
    LinkFacts(c, s.At(x), x, t, q);
    DepartedWork(c, s.At(x), x, q);
    ReceivedWork(c, s.At(y), y, c.Of(y).qpns[q], s.At(x).wire[q][0]);
    WorkAt(c, s, x);
    WorkAt(c, Apply(c, s, Deliver(x, q)), x);
  }

  lemma StepUsesWork(c: Config, s: System, t: seq<Token>, step: Step)
    requires Inv(c, s, t) && Enabled(c, s, step)
    ensures TotalWork(c, Apply(c, s, step)) < TotalWork(c, s)
  {
    hide EndpointInv, CrossInv, PayloadInv, Consumed, Poll, Transmitted, Departed, Received, Acked, PostFirst;
    hide Work, TotalWork, EventTaken, Rearmed, Departing;
    var x := step.x;
    var e := s.At(x);
    PairFrom(c, s, t, x);
    StageFacts(c, e, x, t);
    LoopWork(c, e, x);
    WorkAt(c, s, x);
    WorkAt(c, Apply(c, s, step), x);
    match step {
      case Transmit(_, q) => LinkFacts(c, e, x, t, q); TransmittedWork(c, e, x, q);
      case Deliver(_, q) => DeliverUsesWork(c, s, t, x, q);
      case Ack(_, q) => AckedWork(c, e, x, q, c.Of(x).qpns[q]);
      case Drop(_, q) => LinkFacts(c, e, x, t, q); DepartedWork(c, e, x, q);
      case Start(_) => StartedWork(c, e, x);
      case PollCq(_) => PollWork(c, e, x);
      case Process(_) => ConsumedWork(c, e, x, t);
      case _ =>
    }
  }

  lemma WorkNonNegative(c: Config, s: System, t: seq<Token>)
    requires Inv(c, s, t)
    ensures TotalWork(c, s) >= 0
  {
    hide EndpointInv, CrossInv, PayloadInv, Work;
    StageFacts(c, s.client, Client, t);
    StageFacts(c, s.server, Server, t);
  }

  lemma {:induction false} RunUsesWork(c: Config, s: System, t: seq<Token>, steps: seq<Step>)
    requires Inv(c, s, t) && Run(c, s, steps)
    ensures |steps| <= TotalWork(c, s)
    decreases |steps|
  {
    hide PairInv, PayloadInv, TotalWork, Apply;
    if steps == [] {
      WorkNonNegative(c, s, t);
    } else {
      StepUsesWork(c, s, t, steps[0]);
      StepPreserves(c, s, t, steps[0]);
      RunUsesWork(c, Apply(c, s, steps[0]), NextTokens(c, s, steps[0], t), steps[1..]);
    }
  }

  /** Every run is finite, with a bound that both programs' parameters fix in advance. */
  lemma RunsTerminate(c: Config, steps: seq<Step>)
    requires c.Valid() && Run(c, Initial(c), steps)
    ensures |steps| <= 14 * (Budget(c, Client) + Budget(c, Server)) + 3
  {
    hide PairInv, PayloadInv, Run, TotalWork, Inv;
    InitialInv(c);
    InitialWork(c);
    RunUsesWork(c, Initial(c), seq(c.n, _ => Held(Client)), steps);
  }

  lemma InitialWork(c: Config)
    ensures TotalWork(c, Initial(c)) == 14 * (Budget(c, Client) + Budget(c, Server)) + 3
  {
    CountUniform(Initial(c).client.sq, Empty);
    CountUniform(Initial(c).server.sq, Empty);
    CountTwo(Initial(c).client.sq, Empty, Queued);
    CountTwo(Initial(c).server.sq, Empty, Queued);
    CountTwo(Initial(c).client.sq, Empty, Sent);
    CountTwo(Initial(c).server.sq, Empty, Sent);
    CountUniform(Initial(c).client.wire, []);
    CountUniform(Initial(c).server.wire, []);
  }
}
