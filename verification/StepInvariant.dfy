/** Every action of an endpoint and of its device preserves the endpoint's invariant. Each is
    proved for one queue pair at a time, then for the endpoint as a whole. */
module StepInvariant {
  import opened Counting
  import opened Verbs
  import opened Endpoints
  import opened PingPongSystem
  import opened TokenInvariant

  /** Completions of different queue pairs or of different kinds are different. */
  lemma DistinctCompletions(c: Config, x: Side, q: nat, p: nat)
    requires c.Valid() && q < c.n && p < c.n
    ensures SendDone(c, x, q) != RecvDone(c, x, p)
    ensures q != p ==> SendDone(c, x, q) != SendDone(c, x, p) && RecvDone(c, x, q) != RecvDone(c, x, p)
  {
  }

  lemma PopUnprocessed(e: Endpoint, e': Endpoint)
    requires e.batch != [] && e'.batch == e.batch[1..] && e'.cq == e.cq
    ensures e.Unprocessed() == [e.batch[0]] + e'.Unprocessed()
    ensures |e.Unprocessed()| == |e'.Unprocessed()| + 1
    ensures Receives(e.Unprocessed()) == Receives(e'.Unprocessed()) + Bit(e.batch[0].wrId == RECV_WRID)
    ensures forall wc :: wc in e'.Unprocessed() ==> wc in e.Unprocessed()
  {
    assert e.Unprocessed() == [e.batch[0]] + e'.Unprocessed();
    ReceivesPop(e.batch[0], e'.Unprocessed());
  }

  lemma CompleteEvents(sc: SideConfig, e: Endpoint, wc: Completion)
    requires EventInv(sc, e)
    ensures EventInv(sc, Complete(e, wc))
    ensures Complete(e, wc).Unprocessed() == e.Unprocessed() + [wc]
  {
  }

  /** An endpoint does not notice a token that moves between places it does not see. */
  lemma TokenElsewhere(c: Config, e: Endpoint, x: Side, t: seq<Token>, q: nat, v: Token)
    requires c.Valid() && e.Shape(c.n) && |t| == c.n && q < c.n && EndpointInv(c, e, x, t)
    requires t[q] != Flying(x) && t[q] != Arrived(x) && t[q] != Held(x)
    requires v != Flying(x) && v != Arrived(x) && v != Held(x)
    requires c.reliable ==> !v.Lost?
    ensures EndpointInv(c, e, x, t[q := v])
  {
    CountUpdate(t, q, v);
  }

  // ---- Transmit ----

  lemma TransmittedLink(c: Config, e: Endpoint, x: Side, q: nat, p: nat, tok: Token)
    requires c.Valid() && e.Shape(c.n) && q < c.n && p < c.n && LinkInv(c, e, x, p, tok)
    requires e.sq[q] == Queued
    ensures LinkInv(c, Transmitted(e, q), x, p, tok)
  {
    assert Transmitted(e, q).Unprocessed() == e.Unprocessed();
  }

  lemma TransmittedInv(c: Config, e: Endpoint, x: Side, t: seq<Token>, q: nat)
    requires c.Valid() && e.Shape(c.n) && |t| == c.n && q < c.n && EndpointInv(c, e, x, t)
    requires e.sq[q] == Queued
    ensures EndpointInv(c, Transmitted(e, q), x, t)
    ensures Posts(Transmitted(e, q)) == Posts(e)
  {
    forall p | 0 <= p < c.n ensures LinkInv(c, Transmitted(e, q), x, p, t[p]) {
      TransmittedLink(c, e, x, q, p, t[p]);
    }
    CountUpdate(e.sq, q, Sent);
    assert Transmitted(e, q).Unprocessed() == e.Unprocessed();
  }

  // ---- Deliver and Drop: the sender's side ----

  lemma DepartedLink(c: Config, e: Endpoint, x: Side, q: nat, p: nat, tok: Token, v: Token)
    requires c.Valid() && e.Shape(c.n) && q < c.n && p < c.n && LinkInv(c, e, x, p, tok)
    requires e.wire[q] != []
    requires v == Arrived(x.Peer()) || (v == Lost(x) && !c.reliable)
    ensures LinkInv(c, Departed(e, q), x, p, if p == q then v else tok)
  {
    assert Departed(e, q).Unprocessed() == e.Unprocessed();
  }

  lemma DepartedSide(c: Config, e: Endpoint, x: Side, t: seq<Token>, q: nat, v: Token)
    requires c.Valid() && e.Shape(c.n) && |t| == c.n && q < c.n && SideInv(c, e, x, t)
    requires e.wire[q] != [] && t[q] == Flying(x)
    requires v == Arrived(x.Peer()) || v == Lost(x)
    ensures SideInv(c, Departed(e, q), x, t[q := v])
  {
    CountUpdate(t, q, v);
    assert Departed(e, q).Unprocessed() == e.Unprocessed();
  }

  lemma DepartedInv(c: Config, e: Endpoint, x: Side, t: seq<Token>, q: nat, v: Token)
    requires c.Valid() && e.Shape(c.n) && |t| == c.n && q < c.n && EndpointInv(c, e, x, t)
    requires e.wire[q] != []
    requires v == Arrived(x.Peer()) || (v == Lost(x) && !c.reliable)
    ensures t[q] == Flying(x)
    ensures EndpointInv(c, Departed(e, q), x, t[q := v])
  {
    assert LinkInv(c, e, x, q, t[q]);
    var t' := t[q := v];
    forall p | 0 <= p < c.n ensures LinkInv(c, Departed(e, q), x, p, t'[p]) {
      DepartedLink(c, e, x, q, p, t[p], v);
    }
    DepartedSide(c, e, x, t, q, v);
  }

  // ---- Ack ----

  lemma AckedLink(c: Config, e: Endpoint, x: Side, q: nat, p: nat, tok: Token)
    requires c.Valid() && e.Shape(c.n) && q < c.n && p < c.n && LinkInv(c, e, x, p, tok)
    requires e.sq[q] == Sent
    ensures LinkInv(c, Acked(e, q, c.Of(x).qpns[q]), x, p, tok)
  {
    CountAppend(e.Unprocessed(), SendDone(c, x, q));
    assert Acked(e, q, c.Of(x).qpns[q]).Unprocessed() == e.Unprocessed() + [SendDone(c, x, q)];
    DistinctCompletions(c, x, q, p);
  }

  lemma AckedSide(c: Config, e: Endpoint, x: Side, t: seq<Token>, q: nat)
    requires c.Valid() && e.Shape(c.n) && |t| == c.n && q < c.n && SideInv(c, e, x, t)
    requires e.sq[q] == Sent
    ensures SideInv(c, Acked(e, q, c.Of(x).qpns[q]), x, t)
  {
    CountUpdate(e.sq, q, Completed);
    ReceivesAppend(e.Unprocessed(), SendDone(c, x, q));
    assert Acked(e, q, c.Of(x).qpns[q]).Unprocessed() == e.Unprocessed() + [SendDone(c, x, q)];
  }

  lemma AckedInv(c: Config, e: Endpoint, x: Side, t: seq<Token>, q: nat)
    requires c.Valid() && e.Shape(c.n) && |t| == c.n && q < c.n && EndpointInv(c, e, x, t)
    requires e.sq[q] == Sent
    ensures EndpointInv(c, Acked(e, q, c.Of(x).qpns[q]), x, t)
    ensures Posts(Acked(e, q, c.Of(x).qpns[q])) == Posts(e)
  {
    var e' := Acked(e, q, c.Of(x).qpns[q]);
    forall p | 0 <= p < c.n ensures LinkInv(c, e', x, p, t[p]) {
      AckedLink(c, e, x, q, p, t[p]);
    }
    CountUpdate(e.sq, q, Completed);
    AckedSide(c, e, x, t, q);
    CompleteEvents(c.Of(x), e.(sq := e.sq[q := Completed]), SendDone(c, x, q));
  }

  // ---- Deliver: the receiver's side ----

  lemma ReceivedLink(c: Config, e: Endpoint, x: Side, q: nat, p: nat, tok: Token, m: Byte)
    requires c.Valid() && e.Shape(c.n) && q < c.n && p < c.n && LinkInv(c, e, x, p, tok)
    requires e.posted > 0 && (p == q ==> tok == Flying(x.Peer()))
    ensures LinkInv(c, Received(e, c.Of(x).qpns[q], m), x, p, if p == q then Arrived(x) else tok)
  {
    CountAppend(e.Unprocessed(), RecvDone(c, x, q));
    assert Received(e, c.Of(x).qpns[q], m).Unprocessed() == e.Unprocessed() + [RecvDone(c, x, q)];
    DistinctCompletions(c, x, p, q);
    DistinctCompletions(c, x, q, p);
  }

  lemma ReceivedSide(c: Config, e: Endpoint, x: Side, t: seq<Token>, q: nat, m: Byte)
    requires c.Valid() && e.Shape(c.n) && |t| == c.n && q < c.n && SideInv(c, e, x, t)
    requires e.posted > 0 && t[q] == Flying(x.Peer())
    ensures SideInv(c, Received(e, c.Of(x).qpns[q], m), x, t[q := Arrived(x)])
  {
    CountUpdate(t, q, Arrived(x));
    ReceivesAppend(e.Unprocessed(), RecvDone(c, x, q));
    assert Received(e, c.Of(x).qpns[q], m).Unprocessed() == e.Unprocessed() + [RecvDone(c, x, q)];
  }

  lemma ReceivedInv(c: Config, e: Endpoint, x: Side, t: seq<Token>, q: nat, m: Byte)
    requires c.Valid() && e.Shape(c.n) && |t| == c.n && q < c.n && EndpointInv(c, e, x, t)
    requires e.posted > 0 && t[q] == Flying(x.Peer())
    ensures EndpointInv(c, Received(e, c.Of(x).qpns[q], m), x, t[q := Arrived(x)])
  {
    var e' := Received(e, c.Of(x).qpns[q], m);
    var t' := t[q := Arrived(x)];
    forall p | 0 <= p < c.n ensures LinkInv(c, e', x, p, t'[p]) {
      ReceivedLink(c, e, x, q, p, t[p], m);
    }
    ReceivedSide(c, e, x, t, q, m);
    CompleteEvents(c.Of(x), e.(posted := e.posted - 1, buf := m), RecvDone(c, x, q));
  }

  // ---- GetEvent, Rearm, PollCq, Leave ----

  /** A change that the links do not see. */
  lemma SameLinks(c: Config, e: Endpoint, e': Endpoint, x: Side, t: seq<Token>)
    requires c.Valid() && e.Shape(c.n) && e'.Shape(c.n) && |t| == c.n && LinksInv(c, e, x, t)
    requires e'.wire == e.wire && e'.sq == e.sq && e'.pending == e.pending
    requires e'.sent == e.sent && e'.got == e.got && e'.scnt == e.scnt
    requires e'.Unprocessed() == e.Unprocessed()
    requires !e.stage.Starting? && !e'.stage.Starting?
    ensures LinksInv(c, e', x, t)
  {
    forall p | 0 <= p < c.n ensures LinkInv(c, e', x, p, t[p]) {
      assert LinkInv(c, e, x, p, t[p]);
    }
  }

  lemma EventTakenInv(c: Config, e: Endpoint, x: Side, t: seq<Token>)
    requires c.Valid() && e.Shape(c.n) && |t| == c.n && EndpointInv(c, e, x, t)
    requires AtCondition(e) && c.Of(x).useEvent && e.events > 0
    ensures EndpointInv(c, EventTaken(e), x, t)
  {
    SameLinks(c, e, EventTaken(e), x, t);
    assert EventTaken(e).Unprocessed() == e.Unprocessed();
  }

  lemma RearmedInv(c: Config, e: Endpoint, x: Side, t: seq<Token>)
    requires c.Valid() && e.Shape(c.n) && |t| == c.n && EndpointInv(c, e, x, t)
    requires e.stage == Woken
    ensures EndpointInv(c, Rearmed(e), x, t)
  {
    SameLinks(c, e, Rearmed(e), x, t);
    assert Rearmed(e).Unprocessed() == e.Unprocessed();
  }

  /** One poll drains the queue, so a queue armed before the poll is empty after it. */
  lemma PollInv(c: Config, e: Endpoint, x: Side, t: seq<Token>)
    requires c.Valid() && e.Shape(c.n) && |t| == c.n && EndpointInv(c, e, x, t)
    requires e.stage == Polling || (AtCondition(e) && !c.Of(x).useEvent)
    ensures EndpointInv(c, Poll(c.Of(x), e), x, t)
    ensures Poll(c.Of(x), e).cq == []
  {
    var e' := Poll(c.Of(x), e);
    assert |e.cq| == |e.Unprocessed()| <= c.Of(x).numWc;
    assert e'.Unprocessed() == e.Unprocessed();
    SameLinks(c, e, e', x, t);
  }

  lemma DepartingInv(c: Config, e: Endpoint, x: Side, t: seq<Token>)
    requires c.Valid() && e.Shape(c.n) && |t| == c.n && EndpointInv(c, e, x, t)
    requires AtCondition(e) && e.Done(c.Of(x).iters)
    ensures EndpointInv(c, Departing(e), x, t)
  {
    SameLinks(c, e, Departing(e), x, t);
    assert Departing(e).Unprocessed() == e.Unprocessed();
  }

  // ---- Start ----

  lemma StartedLink(c: Config, e: Endpoint, x: Side, p: nat, tok: Token)
    requires c.Valid() && e.Shape(c.n) && p < c.n && LinkInv(c, e, x, p, tok)
    requires e.stage.Starting? && e.stage.k < c.n && e.sq[e.stage.k] == Empty
    ensures LinkInv(c, PostFirst(c.n, e), x, p, if p == e.stage.k then Flying(x) else tok)
  {
    ClearMask(true, true);
    assert PostFirst(c.n, e).Unprocessed() == e.Unprocessed();
  }

  lemma StartedSide(c: Config, e: Endpoint, x: Side, t: seq<Token>)
    requires c.Valid() && e.Shape(c.n) && |t| == c.n && SideInv(c, e, x, t)
    requires e.stage.Starting? && t[e.stage.k] == Held(x) && e.sq[e.stage.k] == Empty
    ensures SideInv(c, PostFirst(c.n, e), x, t[e.stage.k := Flying(x)])
  {
    CountUpdate(t, e.stage.k, Flying(x));
    CountUpdate(e.sq, e.stage.k, Queued);
    assert PostFirst(c.n, e).Unprocessed() == e.Unprocessed();
  }

  lemma StartedInv(c: Config, e: Endpoint, x: Side, t: seq<Token>)
    requires c.Valid() && e.Shape(c.n) && |t| == c.n && EndpointInv(c, e, x, t)
    requires e.stage.Starting?
    ensures x == Client && e.stage.k < c.n && t[e.stage.k] == Held(x) && e.sq[e.stage.k] == Empty
    ensures EndpointInv(c, PostFirst(c.n, e), x, t[e.stage.k := Flying(x)])
  {
    var t' := t[e.stage.k := Flying(x)];
    assert LinkInv(c, e, x, e.stage.k, t[e.stage.k]);
    forall p | 0 <= p < c.n ensures LinkInv(c, PostFirst(c.n, e), x, p, t'[p]) {
      StartedLink(c, e, x, p, t[p]);
    }
    StartedSide(c, e, x, t);
  }

  // ---- Process ----

  /** The endpoint after a send completion on `q`, when the next message is posted or not. */
  function AfterSend(e: Endpoint, q: nat, post: bool, recv: bool): Endpoint
    requires q < |e.sq| && q < |e.sent| && q < |e.pending| && e.batch != []
  {
    e.(batch := e.batch[1..], scnt := e.scnt + 1,
       sq := e.sq[q := if post then Queued else Empty],
       sent := if post then e.sent[q := e.sent[q] + 1] else e.sent,
       pending := e.pending[q := MaskOf(post, post || recv)])
  }

  lemma ConsumedSend(c: Config, e: Endpoint, x: Side, q: nat, tok: Token)
    requires c.Valid() && e.Shape(c.n) && q < c.n && LinkInv(c, e, x, q, tok)
    requires e.batch != [] && e.batch[0] == SendDone(c, x, q)
    ensures e.sq[q] == Completed
    ensures var post := e.scnt + 1 < c.Of(x).iters && tok == Held(x);
      Consumed(c.n, c.Of(x), e) == AfterSend(e, q, post, tok != Held(x))
  {
    assert e.Unprocessed()[0] == SendDone(c, x, q);
    FindQpUnique(c.Of(x).qpns, q);
    ClearMask(true, tok != Held(x));
    ClearMask(false, tok != Held(x));
    var b := e.(batch := e.batch[1..], scnt := e.scnt + 1, sq := e.sq[q := Empty]);
    assert b.sq[q := Queued] == e.sq[q := Queued];
    assert e.pending[q := 0][q := MaskOf(true, true)] == e.pending[q := MaskOf(true, true)];
  }

  lemma AfterSendLink(c: Config, e: Endpoint, x: Side, q: nat, p: nat, tok: Token, post: bool, recv: bool)
    requires c.Valid() && e.Shape(c.n) && q < c.n && p < c.n && LinkInv(c, e, x, p, tok)
    requires e.batch != [] && e.batch[0] == SendDone(c, x, q) && e.stage == Running
    requires p == q ==> e.sq[q] == Completed && recv == (tok != Held(x))
    requires p == q ==> post == (e.scnt + 1 < c.Of(x).iters && tok == Held(x))
    ensures LinkInv(c, AfterSend(e, q, post, recv), x, p, if p == q && post then Flying(x) else tok)
  {
    var e' := AfterSend(e, q, post, recv);
    assert e.Unprocessed() == [e.batch[0]] + e'.Unprocessed();
    CountPop(e.Unprocessed());
    DistinctCompletions(c, x, q, p);
  }

  lemma AfterSendIdleSide(c: Config, e: Endpoint, x: Side, t: seq<Token>, q: nat, recv: bool)
    requires c.Valid() && e.Shape(c.n) && |t| == c.n && q < c.n && SideInv(c, e, x, t)
    requires e.batch != [] && e.batch[0] == SendDone(c, x, q) && e.stage == Running && e.sq[q] == Completed
    ensures SideInv(c, AfterSend(e, q, false, recv), x, t)
  {
    hide Receives;
    PopUnprocessed(e, AfterSend(e, q, false, recv));
    CountUpdate(e.sq, q, Empty);
  }

  lemma AfterSendPostSide(c: Config, e: Endpoint, x: Side, t: seq<Token>, q: nat, recv: bool)
    requires c.Valid() && e.Shape(c.n) && |t| == c.n && q < c.n && SideInv(c, e, x, t)
    requires e.batch != [] && e.batch[0] == SendDone(c, x, q) && e.stage == Running && e.sq[q] == Completed
    requires e.scnt + 1 < c.Of(x).iters && t[q] == Held(x)
    ensures SideInv(c, AfterSend(e, q, true, recv), x, t[q := Flying(x)])
  {
    hide Receives;
    PopUnprocessed(e, AfterSend(e, q, true, recv));
    CountUpdate(t, q, Flying(x));
    CountUpdate(e.sq, q, Queued);
  }

  /** The endpoint after a receive completion on `q`: `k` receives posted to top up, and the next
      message posted or not. */
  function AfterRecv(e: Endpoint, q: nat, k: nat, post: bool): Endpoint
    requires q < |e.sq| && q < |e.sent| && q < |e.got| && q < |e.pending| && e.batch != []
  {
    e.(batch := e.batch[1..], rcnt := e.rcnt + 1, got := e.got[q := e.got[q] + 1],
       routs := e.routs - 1 + k, posted := e.posted + k,
       sq := if post then e.sq[q := Queued] else e.sq,
       sent := if post then e.sent[q := e.sent[q] + 1] else e.sent,
       pending := e.pending[q := MaskOf(post || e.sq[q] != Empty, post)])
  }

  /** Receives posted after `--routs`: none, or enough to have `rxDepth` again. */
  function TopUp(c: Config, e: Endpoint, x: Side): int {
    if e.routs - 1 > c.n then 0 else c.Of(x).rxDepth - (e.routs - 1)
  }

  predicate Replies(c: Config, e: Endpoint, x: Side, q: nat)
    requires q < |e.sq|
  {
    e.scnt < c.Of(x).iters && e.sq[q] == Empty
  }

  /** The top-up finds room for all the receives that it wants to post. */
  lemma RecvFacts(c: Config, e: Endpoint, x: Side, q: nat, t: seq<Token>)
    requires c.Valid() && e.Shape(c.n) && |t| == c.n && q < c.n
    requires LinkInv(c, e, x, q, t[q]) && SideInv(c, e, x, t)
    requires e.batch != [] && e.batch[0] == RecvDone(c, x, q)
    ensures t[q] == Arrived(x)
    ensures 0 <= TopUp(c, e, x) <= c.Of(x).rxDepth - e.posted
  {
    assert e.Unprocessed()[0] == RecvDone(c, x, q);
    assert t[q] in t;
  }

  lemma CreditTaken(c: Config, e: Endpoint, x: Side)
    requires c.Valid() && 0 <= TopUp(c, e, x) <= c.Of(x).rxDepth - e.posted
    ensures TakeCredit(c.n, c.Of(x).rxDepth, e)
         == Ok(e.(routs := e.routs - 1 + TopUp(c, e, x), posted := e.posted + TopUp(c, e, x)))
  {
  }

  lemma Answered(c: Config, e: Endpoint, x: Side, q: nat)
    requires c.Valid() && e.Shape(c.n) && q < c.n && e.pending[q] == MaskOf(e.sq[q] != Empty, true)
    ensures var post := Replies(c, e, x, q);
      Respond(c.n, c.Of(x).iters, e, q, RECV_WRID) == Ok(e.(
        sq := if post then e.sq[q := Queued] else e.sq,
        sent := if post then e.sent[q := e.sent[q] + 1] else e.sent,
        pending := e.pending[q := MaskOf(post || e.sq[q] != Empty, post)]))
  {
    ClearMask(e.sq[q] != Empty, true);
    ClearMask(true, true);
    assert e.pending[q := 0][q := MaskOf(true, true)] == e.pending[q := MaskOf(true, true)];
  }

  lemma ProcessedRecv(n: nat, sc: SideConfig, e: Endpoint, q: nat, p: Endpoint)
    requires e.Shape(n) && p.Shape(n) && |sc.qpns| == n && q < n && e.batch != []
    requires e.batch[0].wrId == RECV_WRID && FindQp(sc.qpns, e.batch[0].qpn) == q
    requires TakeCredit(n, sc.rxDepth, e.(batch := e.batch[1..])) == Ok(p)
    requires Respond(n, sc.iters, p.(rcnt := p.rcnt + 1, got := p.got[q := p.got[q] + 1]), q, RECV_WRID).Ok?
    ensures Consumed(n, sc, e)
         == Respond(n, sc.iters, p.(rcnt := p.rcnt + 1, got := p.got[q := p.got[q] + 1]), q, RECV_WRID).value
  {
    hide TakeCredit, Respond, FindQp;
  }

  lemma ConsumedRecv(c: Config, e: Endpoint, x: Side, q: nat)
    requires c.Valid() && e.Shape(c.n) && q < c.n && e.pending[q] == MaskOf(e.sq[q] != Empty, true)
    requires e.batch != [] && e.batch[0] == RecvDone(c, x, q)
    requires 0 <= TopUp(c, e, x) <= c.Of(x).rxDepth - e.posted
    ensures Consumed(c.n, c.Of(x), e) == AfterRecv(e, q, TopUp(c, e, x), Replies(c, e, x, q))
  {
    hide TakeCredit, Respond, MaskOf, Consumed, FindQp;
    FindQpUnique(c.Of(x).qpns, q);
    var k := TopUp(c, e, x);
    var p := e.(batch := e.batch[1..], routs := e.routs - 1 + k, posted := e.posted + k);
    CreditTaken(c, e.(batch := e.batch[1..]), x);
    Answered(c, p.(rcnt := p.rcnt + 1, got := p.got[q := p.got[q] + 1]), x, q);
    ProcessedRecv(c.n, c.Of(x), e, q, p);
  }

  lemma AfterRecvLink(c: Config, e: Endpoint, x: Side, q: nat, p: nat, tok: Token, k: nat)
    requires c.Valid() && e.Shape(c.n) && q < c.n && p < c.n && LinkInv(c, e, x, p, tok)
    requires e.batch != [] && e.batch[0] == RecvDone(c, x, q) && e.stage == Running
    requires p == q ==> tok == Arrived(x)
    ensures LinkInv(c, AfterRecv(e, q, k, Replies(c, e, x, q)), x, p,
                    if p != q then tok else if Replies(c, e, x, q) then Flying(x) else Held(x))
  {
    var e' := AfterRecv(e, q, k, Replies(c, e, x, q));
    assert e.Unprocessed() == [e.batch[0]] + e'.Unprocessed();
    CountPop(e.Unprocessed());
    DistinctCompletions(c, x, p, q);
    DistinctCompletions(c, x, q, p);
  }

  lemma AfterRecvIdleSide(c: Config, e: Endpoint, x: Side, t: seq<Token>, q: nat)
    requires c.Valid() && e.Shape(c.n) && |t| == c.n && q < c.n && SideInv(c, e, x, t)
    requires e.batch != [] && e.batch[0] == RecvDone(c, x, q) && e.stage == Running
    requires t[q] == Arrived(x) && TopUp(c, e, x) >= 0
    ensures SideInv(c, AfterRecv(e, q, TopUp(c, e, x), false), x, t[q := Held(x)])
  {
    hide Receives;
    PopUnprocessed(e, AfterRecv(e, q, TopUp(c, e, x), false));
    CountUpdate(t, q, Held(x));
  }

  lemma AfterRecvPostSide(c: Config, e: Endpoint, x: Side, t: seq<Token>, q: nat)
    requires c.Valid() && e.Shape(c.n) && |t| == c.n && q < c.n && SideInv(c, e, x, t)
    requires e.batch != [] && e.batch[0] == RecvDone(c, x, q) && e.stage == Running
    requires t[q] == Arrived(x) && TopUp(c, e, x) >= 0 && Replies(c, e, x, q)
    ensures SideInv(c, AfterRecv(e, q, TopUp(c, e, x), true), x, t[q := Flying(x)])
  {
    hide Receives;
    PopUnprocessed(e, AfterRecv(e, q, TopUp(c, e, x), true));
    CountUpdate(t, q, Flying(x));
    CountUpdate(e.sq, q, Queued);
  }

  lemma ConsumedEvents(c: Config, e: Endpoint, e': Endpoint, x: Side)
    requires EventInv(c.Of(x), e) && e.stage == Running && e.batch != []
    requires e'.stage == e.stage && e'.armed == e.armed && e'.events == e.events && e'.cq == e.cq
    requires e'.unacked == e.unacked && e'.numCqEvents == e.numCqEvents
    ensures EventInv(c.Of(x), e')
  {
  }

  lemma AfterSendInv(c: Config, e: Endpoint, x: Side, t: seq<Token>, q: nat, post: bool, recv: bool)
    requires c.Valid() && e.Shape(c.n) && |t| == c.n && q < c.n && EndpointInv(c, e, x, t)
    requires e.batch != [] && e.batch[0] == SendDone(c, x, q) && e.stage == Running
    requires e.sq[q] == Completed && recv == (t[q] != Held(x))
    requires post == (e.scnt + 1 < c.Of(x).iters && t[q] == Held(x))
    ensures EndpointInv(c, AfterSend(e, q, post, recv), x, if post then t[q := Flying(x)] else t)
    ensures Posts(AfterSend(e, q, post, recv)) == Posts(e) + Bit(post)
  {
    var e' := AfterSend(e, q, post, recv);
    var t' := if post then t[q := Flying(x)] else t;
    forall p | 0 <= p < c.n ensures LinkInv(c, e', x, p, t'[p]) {
      AfterSendLink(c, e, x, q, p, t[p], post, recv);
    }
    CountUpdate(e.sq, q, if post then Queued else Empty);
    if post { AfterSendPostSide(c, e, x, t, q, recv); } else { AfterSendIdleSide(c, e, x, t, q, recv); }
    ConsumedEvents(c, e, e', x);
  }

  lemma AfterRecvInv(c: Config, e: Endpoint, x: Side, t: seq<Token>, q: nat)
    requires c.Valid() && e.Shape(c.n) && |t| == c.n && q < c.n && EndpointInv(c, e, x, t)
    requires e.batch != [] && e.batch[0] == RecvDone(c, x, q) && e.stage == Running
    requires t[q] == Arrived(x) && TopUp(c, e, x) >= 0
    ensures EndpointInv(c, AfterRecv(e, q, TopUp(c, e, x), Replies(c, e, x, q)), x,
                        t[q := if Replies(c, e, x, q) then Flying(x) else Held(x)])
    ensures Posts(AfterRecv(e, q, TopUp(c, e, x), Replies(c, e, x, q))) == Posts(e) + Bit(Replies(c, e, x, q))
  {
    var e' := AfterRecv(e, q, TopUp(c, e, x), Replies(c, e, x, q));
    var t' := t[q := if Replies(c, e, x, q) then Flying(x) else Held(x)];
    forall p | 0 <= p < c.n ensures LinkInv(c, e', x, p, t'[p]) {
      AfterRecvLink(c, e, x, q, p, t[p], TopUp(c, e, x));
    }
    CountUpdate(e.sq, q, Queued);
    if Replies(c, e, x, q) { AfterRecvPostSide(c, e, x, t, q); } else { AfterRecvIdleSide(c, e, x, t, q); }
    ConsumedEvents(c, e, e', x);
  }
}
