/** Completions are processed one by one in the order in which the device generated them. */
module CompletionOrder {
  import opened Verbs
  import opened Endpoints
  import opened PingPongSystem
  import opened TokenInvariant
  import opened SystemInvariant
  import opened Safety
  import opened Refinement

  /** What a step adds to the completion queue of side `x`: a delivery to it completes a receive, an
      acknowledgement of its own message a send. */
  function Generates(c: Config, step: Step, x: Side): seq<Completion>
    requires |c.client.qpns| == c.n == |c.server.qpns|
    requires IsDeviceStep(step) ==> step.q < c.n
  {
    match step
    case Deliver(y, q) => if y == x then [] else [Completion(RECV_WRID, c.Of(x).qpns[q])]
    case Ack(y, q) => if y == x then [Completion(SEND_WRID, c.Of(x).qpns[q])] else []
    case _ => []
  }

  /** The completions of side `x` in a run, in order. */
  function Generated(c: Config, s: System, steps: seq<Step>, x: Side): seq<Completion>
    requires s.Shape(c.n) && |c.client.qpns| == c.n == |c.server.qpns| && Run(c, s, steps)
    decreases |steps|
  {
    if steps == [] then []
    else Generates(c, steps[0], x) + Generated(c, Apply(c, s, steps[0]), steps[1..], x)
  }

  /** How many completions side `x` processes in a run. */
  function Processed(steps: seq<Step>, x: Side): nat {
    if steps == [] then 0 else Bit(steps[0] == Process(x)) + Processed(steps[1..], x)
  }

  /** How many of the completions are for requests with an identifier. */
  function Of(wrId: Mask, s: seq<Completion>): nat {
    if s == [] then 0 else Bit(s[0].wrId == wrId) + Of(wrId, s[1..])
  }

  /** The first `k` of `all` have been processed since `e`, the rest have not. */
  predicate Follows(e: Endpoint, r: Endpoint, all: seq<Completion>, k: nat) {
    && k <= |all| && r.Unprocessed() == all[k..]
    && r.scnt == e.scnt + Of(SEND_WRID, all[..k]) && r.rcnt == e.rcnt + Of(RECV_WRID, all[..k])
  }

  /** Answering changes neither the counters nor what is still to be processed. */
  lemma RespondKeeps(n: nat, iters: int, e: Endpoint, q: nat, wrId: Mask)
    requires e.Shape(n) && q < n
    ensures var r := Respond(n, iters, e, q, wrId);
      r.Ok? ==>
        && r.value.scnt == e.scnt && r.value.rcnt == e.rcnt
        && r.value.batch == e.batch && r.value.cq == e.cq && r.value.stage == e.stage
  {
  }

  lemma ProcessOneCounts(n: nat, sc: SideConfig, e: Endpoint, wc: Completion)
    requires e.Shape(n) && |sc.qpns| == n && ProcessOne(n, sc, e, wc).Ok?
    ensures var r := ProcessOne(n, sc, e, wc).value;
      && r.batch == e.batch && r.cq == e.cq && r.stage == e.stage
      && r.scnt == e.scnt + Bit(wc.wrId == SEND_WRID) && r.rcnt == e.rcnt + Bit(wc.wrId == RECV_WRID)
  {
    hide Respond, FindQp;
    var q := FindQp(sc.qpns, wc.qpn);
    if wc.wrId == SEND_WRID {
      RespondKeeps(n, sc.iters, e.(scnt := e.scnt + 1, sq := e.sq[q := Empty]), q, SEND_WRID);
    } else {
      var p := TakeCredit(n, sc.rxDepth, e).value;
      RespondKeeps(n, sc.iters, p.(rcnt := p.rcnt + 1, got := p.got[q := p.got[q] + 1]), q, RECV_WRID);
    }
  }

  lemma ConsumedInOrder(n: nat, sc: SideConfig, e: Endpoint)
    requires e.Shape(n) && |sc.qpns| == n && e.batch != [] && !Consumed(n, sc, e).stage.Failed?
    ensures Follows(e, Consumed(n, sc, e), e.Unprocessed() + [], 1)
  {
    hide ProcessOne, Of;
    ProcessOneCounts(n, sc, e.(batch := e.batch[1..]), e.batch[0]);
    OfOne(e.batch[0]);
    var all := e.Unprocessed() + [];
    assert all[..1] == [e.batch[0]] && all[1..] == e.batch[1..] + e.cq;
  }

  lemma OfOne(wc: Completion)
    ensures forall wrId :: Of(wrId, [wc]) == Bit(wc.wrId == wrId)
  {
  }

  lemma StepInOrder(c: Config, s: System, step: Step, x: Side)
    requires s.Shape(c.n) && |c.client.qpns| == c.n == |c.server.qpns| && Enabled(c, s, step)
    requires !Apply(c, s, step).At(x).stage.Failed? && (s.At(x).stage == Polling ==> s.At(x).batch == [])
    ensures Follows(s.At(x), Apply(c, s, step).At(x), s.At(x).Unprocessed() + Generates(c, step, x),
                    Bit(step == Process(x)))
  {
    hide Consumed, Follows, PostFirst, Poll;
    var e, r := s.At(x), Apply(c, s, step).At(x);
    if step == Process(x) {
      ConsumedInOrder(c.n, c.Of(x), e);
    } else if step == Start(x) {
      FirstPosted(c.n, e);
    } else if step == PollCq(x) {
      PollKeeps(c.Of(x), e);
    } else {
      OtherStep(c, s, step, x);
      Unchanged(e, r, Generates(c, step, x));
    }
  }

  lemma OtherStep(c: Config, s: System, step: Step, x: Side)
    requires s.Shape(c.n) && |c.client.qpns| == c.n == |c.server.qpns| && Enabled(c, s, step)
    requires step != Process(x) && step != Start(x) && step != PollCq(x)
    ensures var e, r := s.At(x), Apply(c, s, step).At(x);
      r.batch == e.batch && r.cq == e.cq + Generates(c, step, x) && r.scnt == e.scnt && r.rcnt == e.rcnt
  {
    hide Consumed, PostFirst, Poll;
  }

  lemma PollsEmpty(c: Config, s: System, x: Side)
    requires Reachable(c, s) && s.At(x).stage == Polling
    ensures s.At(x).batch == []
  {
    hide Reachable, CrossInv, PayloadInv, LinksInv, SideInv;
    var t := EndpointOf(c, s, x);
  }

  lemma FirstPosted(n: nat, e: Endpoint)
    requires e.Shape(n) && e.stage.Starting?
    ensures Follows(e, PostFirst(n, e), e.Unprocessed() + [], 0)
  {
  }

  /** Nor does a poll, wherever it cuts the queue. */
  lemma PollKeeps(sc: SideConfig, e: Endpoint)
    requires e.batch == []
    ensures Follows(e, Poll(sc, e), e.Unprocessed() + [], 0)
  {
  }

  lemma Unchanged(e: Endpoint, r: Endpoint, more: seq<Completion>)
    requires r.batch == e.batch && r.cq == e.cq + more && r.scnt == e.scnt && r.rcnt == e.rcnt
    ensures Follows(e, r, e.Unprocessed() + more, 0)
  {
  }

  lemma OfAppend(wrId: Mask, s: seq<Completion>, t: seq<Completion>)
    ensures Of(wrId, s + t) == Of(wrId, s) + Of(wrId, t)
  {
    if s != [] {
      assert (s + t)[1..] == s[1..] + t;
      OfAppend(wrId, s[1..], t);
    } else {
      assert s + t == t;
    }
  }

  lemma FollowsOn(e: Endpoint, f: Endpoint, r: Endpoint, first: seq<Completion>, rest: seq<Completion>,
                  j: nat, k: nat)
    requires Follows(e, f, e.Unprocessed() + first, j) && Follows(f, r, f.Unprocessed() + rest, k)
    ensures Follows(e, r, e.Unprocessed() + (first + rest), j + k)
  {
    var all := e.Unprocessed() + (first + rest);
    var was := e.Unprocessed() + first;
    var later := f.Unprocessed() + rest;
    assert later == all[j..] && all[..j] == was[..j];
    assert all[..j + k] == was[..j] + later[..k];
    assert all[j + k..] == later[k..];
    OfAppend(SEND_WRID, was[..j], later[..k]);
    OfAppend(RECV_WRID, was[..j], later[..k]);
  }

  lemma {:induction false} RunInOrder(c: Config, s: System, steps: seq<Step>, x: Side)
    requires c.Valid() && Reachable(c, s) && s.Shape(c.n) && Run(c, s, steps)
    ensures Follows(s.At(x), Final(c, s, steps).At(x), s.At(x).Unprocessed() + Generated(c, s, steps, x),
                    Processed(steps, x))
    decreases |steps|
  {
    hide Apply, Enabled, Reachable, Follows;
    if steps == [] {
      NothingYet(s.At(x));
    } else {
      var r := Apply(c, s, steps[0]);
      DeviceNames(c, s, steps[0]);
      ReachStep(c, s, steps[0]);
      NeverFails(c, r, x);
      if s.At(x).stage == Polling { PollsEmpty(c, s, x); }
      StepInOrder(c, s, steps[0], x);
      RunInOrder(c, r, steps[1..], x);
      FollowsOn(s.At(x), r.At(x), Final(c, s, steps).At(x), Generates(c, steps[0], x),
                Generated(c, r, steps[1..], x), Bit(steps[0] == Process(x)), Processed(steps[1..], x));
    }
  }

  lemma DeviceNames(c: Config, s: System, step: Step)
    requires s.Shape(c.n) && Enabled(c, s, step)
    ensures IsDeviceStep(step) ==> step.q < c.n
  {
  }

  lemma NothingYet(e: Endpoint)
    ensures Follows(e, e, e.Unprocessed() + [], 0)
  {
  }

  /** Of the completions generated for a side in any run, the oldest have been processed, each once;
      the others wait in order in the batch and the queue. The counters count the first. */
  lemma ProcessedInOrder(c: Config, steps: seq<Step>, x: Side)
    requires c.Valid() && Run(c, Initial(c), steps)
    ensures var all, k, e := Generated(c, Initial(c), steps, x), Processed(steps, x), Final(c, Initial(c), steps).At(x);
      && k <= |all| && e.batch + e.cq == all[k..]
      && e.scnt == Of(SEND_WRID, all[..k]) && e.rcnt == Of(RECV_WRID, all[..k])
  {
    hide Run, Final;
    StartReachable(c);
    RunInOrder(c, Initial(c), steps, x);
    var all := Generated(c, Initial(c), steps, x);
    assert Initial(c).At(x).Unprocessed() + all == all;
  }
}
