/** The bound on overshooting is attained. A schedule that lets the first queue pair run ahead while
    the client's other opening messages are held back, and that withholds the last acknowledgement of
    the server, makes both sides post `iters + n - 1` messages. */
module Overshoot {
  import opened Counting
  import opened Verbs
  import opened Endpoints
  import opened PingPongSystem
  import opened TokenInvariant
  import opened StepInvariant
  import opened SystemInvariant
  import opened Termination
  import opened Completion
  import opened Safety

  predicate Permitted(k: int, s: System, step: Step) {
    match step
    case Ack(x, _) => x == Client || s.server.scnt + Count(s.server.sq, Completed) < k - 1
    case Transmit(x, q) => x == Server || q == 0 || Posts(s.server) >= k
    case _ => true
  }

  /** Up to its `k`-th message the server has answered on the first queue pair only; after it, it
      consumes no more send completions. */
  ghost predicate LeadSide(k: int, sv: Endpoint)
    requires |sv.sq| > 0
  {
    && sv.scnt + Count(sv.sq, Completed) <= k - 1
    && (Posts(sv) >= k ==> sv.scnt == k - 1 && sv.sq[0] != Empty)
  }

  /** One of the other queue pairs. */
  ghost predicate LeadLink(k: int, cl: Endpoint, sv: Endpoint, tok: Token, q: nat)
    requires 1 <= q < |cl.sq| && q < |sv.sq|
  {
    && sv.sq[q] != Completed
    && (sv.sq[q] == Empty ==>
          || tok == Flying(Client) || tok == Arrived(Server)
          || (tok == Held(Client) && cl.stage.Starting? && cl.stage.k <= q))
    && (Posts(sv) < k ==> sv.sq[q] == Empty && tok != Arrived(Server) && (tok == Flying(Client) ==> cl.sq[q] == Queued))
  }

  ghost predicate Lead(k: int, cl: Endpoint, sv: Endpoint, t: seq<Token>)
    requires |cl.sq| == |sv.sq| == |t| > 0
  {
    && LeadSide(k, sv)
    && forall q :: 1 <= q < |t| ==> LeadLink(k, cl, sv, t[q], q)
  }

  lemma InitialLead(c: Config)
    requires c.Valid() && c.server.iters >= 1
    ensures Lead(c.server.iters, Initial(c).client, Initial(c).server, seq(c.n, _ => Held(Client)))
  {
    CountUniform(Initial(c).server.sq, Empty);
    CountTwo(Initial(c).server.sq, Empty, Completed);
  }

  /** With all other slots empty the first one makes the difference. */
  lemma OnlyFirst(e: Endpoint)
    requires |e.sq| > 0 && forall q :: 1 <= q < |e.sq| ==> e.sq[q] == Empty
    ensures Posts(e) == e.scnt + Bit(e.sq[0] != Empty)
  {
    CountUpdate(e.sq, 0, Empty);
    CountUniform(e.sq[0 := Empty], Empty);
  }

  lemma OthersIdle(k: int, cl: Endpoint, sv: Endpoint, t: seq<Token>)
    requires |cl.sq| == |sv.sq| == |t| > 0 && Lead(k, cl, sv, t) && Posts(sv) < k
    ensures Posts(sv) == sv.scnt + Bit(sv.sq[0] != Empty)
  {
    hide Posts;
    forall q | 1 <= q < |sv.sq| ensures sv.sq[q] == Empty { assert LeadLink(k, cl, sv, t[q], q); }
    OnlyFirst(sv);
  }

  /** It is enough to look at the queue pair that changes. */
  lemma LeadAfter(k: int, cl: Endpoint, sv: Endpoint, t: seq<Token>,
                  cl': Endpoint, sv': Endpoint, t': seq<Token>, q: nat)
    requires |cl.sq| == |sv.sq| == |t| == |cl'.sq| == |sv'.sq| == |t'| && q < |t| && Lead(k, cl, sv, t)
    requires LeadSide(k, sv') && (q >= 1 ==> LeadLink(k, cl', sv', t'[q], q)) && Posts(sv') >= Posts(sv)
    requires forall p :: 0 <= p < |t| && p != q ==> t'[p] == t[p] && cl'.sq[p] == cl.sq[p] && sv'.sq[p] == sv.sq[p]
    requires cl.stage.Starting? ==>
      || cl'.stage == cl.stage
      || (q == cl.stage.k && (if cl'.stage.Starting? then cl'.stage.k <= q + 1 else q + 1 == |t|))
    ensures Lead(k, cl', sv', t')
  {
    hide LeadSide, Posts;
    forall p | 1 <= p < |t'| ensures LeadLink(k, cl', sv', t'[p], p) {
      assert LeadLink(k, cl, sv, t[p], p);
    }
  }

  // ---- Steps of the server ----

  lemma ServerAnswers(k: int, cl: Endpoint, sv: Endpoint, t: seq<Token>, q: nat, m: nat, post: bool)
    requires |cl.sq| == |sv.sq| == |t| == |sv.sent| == |sv.got| == |sv.pending| && q < |t| && Lead(k, cl, sv, t)
    requires sv.batch != [] && t[q] == Arrived(Server) && post == (sv.scnt < k && sv.sq[q] == Empty)
    ensures Lead(k, cl, AfterRecv(sv, q, m, post), t[q := if post then Flying(Server) else Held(Server)])
  {
    CountUpdate(sv.sq, q, Queued);
    assert q >= 1 ==> LeadLink(k, cl, sv, t[q], q);
    if Posts(sv) < k { OthersIdle(k, cl, sv, t); }
    LeadAfter(k, cl, sv, t, cl, AfterRecv(sv, q, m, post), t[q := if post then Flying(Server) else Held(Server)], q);
  }

  lemma ServerSent(k: int, cl: Endpoint, sv: Endpoint, t: seq<Token>, q: nat, post: bool, recv: bool)
    requires |cl.sq| == |sv.sq| == |t| == |sv.sent| == |sv.pending| && q < |t| && Lead(k, cl, sv, t)
    requires sv.batch != [] && sv.sq[q] == Completed && (post ==> sv.scnt + 1 < k)
    ensures Lead(k, cl, AfterSend(sv, q, post, recv), if post then t[q := Flying(Server)] else t)
  {
    CountUpdate(sv.sq, q, if post then Queued else Empty);
    assert q >= 1 ==> LeadLink(k, cl, sv, t[q], q);
    assert Completed in sv.sq;
    OthersIdle(k, cl, sv, t);
    LeadAfter(k, cl, sv, t, cl, AfterSend(sv, q, post, recv), if post then t[q := Flying(Server)] else t, q);
  }

  lemma ServerTransmits(k: int, cl: Endpoint, sv: Endpoint, t: seq<Token>, q: nat)
    requires |cl.sq| == |sv.sq| == |sv.wire| == |t| && q < |t| && Lead(k, cl, sv, t) && sv.sq[q] == Queued
    ensures Lead(k, cl, Transmitted(sv, q), t)
  {
    CountUpdate(sv.sq, q, Sent);
    assert q >= 1 ==> LeadLink(k, cl, sv, t[q], q);
    LeadAfter(k, cl, sv, t, cl, Transmitted(sv, q), t, q);
  }

  lemma ServerAcked(k: int, cl: Endpoint, sv: Endpoint, t: seq<Token>, q: nat, qpn: int)
    requires |cl.sq| == |sv.sq| == |t| && q < |t| && Lead(k, cl, sv, t) && sv.sq[q] == Sent
    requires sv.scnt + Count(sv.sq, Completed) < k - 1
    ensures Lead(k, cl, Acked(sv, q, qpn), t)
  {
    CountUpdate(sv.sq, q, Completed);
    assert q >= 1 ==> LeadLink(k, cl, sv, t[q], q);
    LeadAfter(k, cl, sv, t, cl, Acked(sv, q, qpn), t, q);
  }

  /** A message of the server leaves; the client's queues do not change. */
  lemma ServerDelivers(k: int, cl: Endpoint, sv: Endpoint, t: seq<Token>, q: nat, qpn: int, m: Byte)
    requires |cl.sq| == |sv.sq| == |sv.wire| == |t| && q < |t| && Lead(k, cl, sv, t) && sv.wire[q] != []
    requires t[q] == Flying(Server) && cl.posted > 0
    ensures Lead(k, Received(cl, qpn, m), Departed(sv, q), t[q := Arrived(Client)])
  {
    assert q >= 1 ==> LeadLink(k, cl, sv, t[q], q);
    LeadAfter(k, cl, sv, t, Received(cl, qpn, m), Departed(sv, q), t[q := Arrived(Client)], q);
  }

  // ---- Steps of the client ----

  lemma ClientStarts(k: int, n: nat, cl: Endpoint, sv: Endpoint, t: seq<Token>)
    requires cl.Shape(n) && n == |sv.sq| == |t| > 0 && Lead(k, cl, sv, t)
    requires cl.stage.Starting? && cl.stage.k < n && cl.sq[cl.stage.k] == Empty && t[cl.stage.k] == Held(Client)
    ensures Lead(k, PostFirst(n, cl), sv, t[cl.stage.k := Flying(Client)])
  {
    var q := cl.stage.k;
    assert q >= 1 ==> LeadLink(k, cl, sv, t[q], q);
    LeadAfter(k, cl, sv, t, PostFirst(n, cl), sv, t[q := Flying(Client)], q);
  }

  lemma ClientTransmits(k: int, cl: Endpoint, sv: Endpoint, t: seq<Token>, q: nat)
    requires |cl.sq| == |sv.sq| == |cl.wire| == |t| && q < |t| && Lead(k, cl, sv, t) && (q == 0 || Posts(sv) >= k)
    ensures Lead(k, Transmitted(cl, q), sv, t)
  {
    assert q >= 1 ==> LeadLink(k, cl, sv, t[q], q);
    LeadAfter(k, cl, sv, t, Transmitted(cl, q), sv, t, q);
  }

  lemma ClientAcked(k: int, cl: Endpoint, sv: Endpoint, t: seq<Token>, q: nat, qpn: int)
    requires |cl.sq| == |sv.sq| == |t| && q < |t| && Lead(k, cl, sv, t) && cl.sq[q] == Sent
    ensures Lead(k, Acked(cl, q, qpn), sv, t)
  {
    assert q >= 1 ==> LeadLink(k, cl, sv, t[q], q);
    LeadAfter(k, cl, sv, t, Acked(cl, q, qpn), sv, t, q);
  }

  lemma ClientDelivers(k: int, cl: Endpoint, sv: Endpoint, t: seq<Token>, q: nat, qpn: int, m: Byte)
    requires |cl.sq| == |sv.sq| == |cl.wire| == |t| && q < |t| && Lead(k, cl, sv, t)
    requires cl.wire[q] != [] && cl.sq[q] != Queued
    requires t[q] == Flying(Client) && sv.posted > 0
    ensures Lead(k, Departed(cl, q), Received(sv, qpn, m), t[q := Arrived(Server)])
  {
    assert q >= 1 ==> LeadLink(k, cl, sv, t[q], q);
    LeadAfter(k, cl, sv, t, Departed(cl, q), Received(sv, qpn, m), t[q := Arrived(Server)], q);
  }

  lemma ClientAnswers(k: int, cl: Endpoint, sv: Endpoint, t: seq<Token>, q: nat, m: nat, post: bool)
    requires |cl.sq| == |sv.sq| == |t| == |cl.sent| == |cl.got| == |cl.pending| && q < |t| && Lead(k, cl, sv, t)
    requires cl.batch != [] && t[q] == Arrived(Client) && !cl.stage.Starting?
    ensures Lead(k, AfterRecv(cl, q, m, post), sv, t[q := if post then Flying(Client) else Held(Client)])
  {
    assert q >= 1 ==> LeadLink(k, cl, sv, t[q], q);
    LeadAfter(k, cl, sv, t, AfterRecv(cl, q, m, post), sv, t[q := if post then Flying(Client) else Held(Client)], q);
  }

  lemma ClientSent(k: int, cl: Endpoint, sv: Endpoint, t: seq<Token>, q: nat, post: bool, recv: bool)
    requires |cl.sq| == |sv.sq| == |t| == |cl.sent| == |cl.pending| && q < |t| && Lead(k, cl, sv, t)
    requires cl.batch != [] && cl.sq[q] == Completed && (post ==> t[q] == Held(Client)) && !cl.stage.Starting?
    ensures Lead(k, AfterSend(cl, q, post, recv), sv, if post then t[q := Flying(Client)] else t)
  {
    assert q >= 1 ==> LeadLink(k, cl, sv, t[q], q);
    LeadAfter(k, cl, sv, t, AfterSend(cl, q, post, recv), sv, if post then t[q := Flying(Client)] else t, q);
  }

  /** Steps of the loops that touch no queue pair. */
  lemma LoopLead(k: int, cl: Endpoint, sv: Endpoint, t: seq<Token>, cl': Endpoint, sv': Endpoint)
    requires |cl.sq| == |sv.sq| == |t| > 0 && Lead(k, cl, sv, t)
    requires cl'.sq == cl.sq && sv'.sq == sv.sq && sv'.scnt == sv.scnt && (cl.stage.Starting? ==> cl' == cl)
    ensures Lead(k, cl', sv', t)
  {
    LeadAfter(k, cl, sv, t, cl', sv', t, 0);
  }

  // ---- Runs ----

  ghost predicate LeadInv(c: Config, s: System, t: seq<Token>) {
    Inv(c, s, t) && Lead(c.server.iters, s.client, s.server, t)
  }

  /** What processing the oldest completion does to the endpoint and the tokens. */
  lemma Processed(c: Config, s: System, t: seq<Token>, x: Side)
    returns (q: nat, isSend: bool, k: nat, post: bool, e': Endpoint, t': seq<Token>)
    requires c.Valid() && s.Shape(c.n) && |t| == c.n && Enabled(c, s, Process(x)) && Inv(c, s, t)
    ensures e' == Apply(c, s, Process(x)).At(x) && t' == NextTokens(c, s, Process(x), t)
    ensures Apply(c, s, Process(x)).At(x.Peer()) == s.At(x.Peer())
    ensures q < c.n && s.At(x).stage == Running && s.At(x).batch != []
    ensures isSend ==>
      && s.At(x).sq[q] == Completed && post == (s.At(x).scnt + 1 < c.Of(x).iters && t[q] == Held(x))
      && e' == AfterSend(s.At(x), q, post, t[q] != Held(x)) && t' == if post then t[q := Flying(x)] else t
    ensures !isSend ==>
      && t[q] == Arrived(x) && post == (s.At(x).scnt < c.Of(x).iters && s.At(x).sq[q] == Empty)
      && e' == AfterRecv(s.At(x), q, k, post) && t' == t[q := if post then Flying(x) else Held(x)]
  {
    hide EndpointInv, CrossInv, PayloadInv, Consumed, NextTokens;
    var e := s.At(x);
    PairFrom(c, s, t, x);
    BatchHead(c, e, x, t);
    q := FindQp(c.Of(x).qpns, e.batch[0].qpn);
    isSend, k := e.batch[0] == SendDone(c, x, q), 0;
    e', t' := Apply(c, s, Process(x)).At(x), NextTokens(c, s, Process(x), t);
    if isSend {
      SendHead(c, e, x, t, q);
      post := e.scnt + 1 < c.Of(x).iters && t[q] == Held(x);
      SendTokens(c, s, t, x, q, post);
    } else {
      RecvHead(c, e, x, t, q);
      k, post := TopUp(c, e, x), Replies(c, e, x, q);
      var _ := RecvStep(c, s, t, x, q);
    }
  }

  lemma SendTokens(c: Config, s: System, t: seq<Token>, x: Side, q: nat, post: bool)
    requires c.Valid() && s.Shape(c.n) && |t| == c.n && q < c.n && Enabled(c, s, Process(x))
    requires s.At(x).batch[0] == SendDone(c, x, q) && FindQp(c.Of(x).qpns, s.At(x).batch[0].qpn) == q
    requires exists recv :: Consumed(c.n, c.Of(x), s.At(x)) == AfterSend(s.At(x), q, post, recv)
    ensures NextTokens(c, s, Process(x), t) == if post then t[q := Flying(x)] else t
  {
    hide Consumed;
  }

  lemma ProcessLead(c: Config, s: System, t: seq<Token>, x: Side)
    requires LeadInv(c, s, t) && Enabled(c, s, Process(x))
    ensures Lead(c.server.iters, Apply(c, s, Process(x)).client, Apply(c, s, Process(x)).server,
                 NextTokens(c, s, Process(x), t))
  {
    hide PairInv, PayloadInv, Lead, Apply, NextTokens, AfterSend, AfterRecv;
    var q, isSend, m, post, _, _ := Processed(c, s, t, x);
    var k := c.server.iters;
    if x == Server {
      if isSend { ServerSent(k, s.client, s.server, t, q, post, t[q] != Held(x)); }
      else { ServerAnswers(k, s.client, s.server, t, q, m, post); }
    } else {
      if isSend { ClientSent(k, s.client, s.server, t, q, post, t[q] != Held(x)); }
      else { ClientAnswers(k, s.client, s.server, t, q, m, post); }
    }
  }

  /** A message on the wire carries its token, and its slot has been read. */
  lemma OnTheWire(c: Config, s: System, t: seq<Token>, x: Side, q: nat)
    requires Inv(c, s, t) && q < c.n && s.At(x).wire[q] != []
    ensures t[q] == Flying(x) && s.At(x).sq[q] != Queued
  {
    hide CrossInv, PayloadInv;
    PairFrom(c, s, t, x);
    assert LinkInv(c, s.At(x), x, q, t[q]);
  }

  lemma AboutToStart(c: Config, s: System, t: seq<Token>, x: Side)
    requires Inv(c, s, t) && s.At(x).stage.Starting?
    ensures x == Client && s.client.stage.k < c.n && s.client.sq[s.client.stage.k] == Empty
    ensures t[s.client.stage.k] == Held(Client)
  {
    hide CrossInv, PayloadInv;
    PairFrom(c, s, t, x);
    assert LinkInv(c, s.client, Client, s.client.stage.k, t[s.client.stage.k]);
  }

  lemma StepLead(c: Config, s: System, t: seq<Token>, step: Step)
    requires LeadInv(c, s, t) && c.reliable && Enabled(c, s, step) && Permitted(c.server.iters, s, step)
    ensures LeadInv(c, Apply(c, s, step), NextTokens(c, s, step, t))
  {
    hide PairInv, PayloadInv, Lead, Consumed, PostFirst, Posts;
    StepPreserves(c, s, t, step);
    var k, x, cl, sv := c.server.iters, step.x, s.client, s.server;
    match step {
      case Transmit(_, q) =>
        if x == Client { ClientTransmits(k, cl, sv, t, q); } else { ServerTransmits(k, cl, sv, t, q); }
      case Deliver(_, q) =>
        OnTheWire(c, s, t, x, q);
        if x == Client { ClientDelivers(k, cl, sv, t, q, c.server.qpns[q], cl.wire[q][0]); }
        else { ServerDelivers(k, cl, sv, t, q, c.client.qpns[q], sv.wire[q][0]); }
      case Ack(_, q) =>
        if x == Client { ClientAcked(k, cl, sv, t, q, c.client.qpns[q]); }
        else { ServerAcked(k, cl, sv, t, q, c.server.qpns[q]); }
      case Start(_) =>
        AboutToStart(c, s, t, x);
        ClientStarts(k, c.n, cl, sv, t);
      case Process(_) => ProcessLead(c, s, t, x);
      case Drop(_, _) =>
      case _ => LoopLead(k, cl, sv, t, Apply(c, s, step).client, Apply(c, s, step).server);
    }
  }

  /** A permitted run to where nothing more is permitted. */
  lemma {:induction false} LeadRun(c: Config, s: System, t: seq<Token>) returns (steps: seq<Step>, t': seq<Token>)
    requires LeadInv(c, s, t) && c.reliable
    ensures Run(c, s, steps) && LeadInv(c, Final(c, s, steps), t')
    ensures forall step :: Enabled(c, Final(c, s, steps), step) ==> !Permitted(c.server.iters, Final(c, s, steps), step)
    decreases TotalWork(c, s)
  {
    hide PairInv, PayloadInv, Lead, TotalWork, Enabled, Apply, Permitted, NextTokens;
    if step :| Enabled(c, s, step) && Permitted(c.server.iters, s, step) {
      StepLead(c, s, t, step);
      StepUsesWork(c, s, t, step);
      WorkNonNegative(c, s, t);
      var rest;
      rest, t' := LeadRun(c, Apply(c, s, step), NextTokens(c, s, step, t));
      steps := [step] + rest;
      assert steps[1..] == rest;
    } else {
      steps, t' := [], t;
    }
  }

  // ---- Where such a run ends ----

  /** Nothing that the schedule permits can happen. */
  ghost predicate Blocked(c: Config, s: System)
    requires s.Shape(c.n)
  {
    forall step :: Enabled(c, s, step) ==> !Permitted(c.server.iters, s, step)
  }

  /** Messages on the wire are delivered and both loops wait or have left. */
  lemma BlockedSide(c: Config, s: System, t: seq<Token>, x: Side)
    requires Inv(c, s, t) && Blocked(c, s)
    ensures !CanAct(c.Of(x), s.At(x)) && forall q :: 0 <= q < c.n ==> s.At(x).wire[q] == []
  {
    hide CrossInv, PayloadInv, EndpointInv, InFlight, Receives, CanAct;
    PairFrom(c, s, t, x);
    EndpointsSuffice(c, s.At(x), s.At(x.Peer()), x, t);
    if CanAct(c.Of(x), s.At(x)) { ActingIsEnabled(c, s, x); }
    forall q | 0 <= q < c.n ensures s.At(x).wire[q] == [] {
      assert !Enabled(c, s, Deliver(x, q));
    }
  }

  lemma BlockedSlots(c: Config, s: System, t: seq<Token>, q: nat)
    requires Inv(c, s, t) && Blocked(c, s) && c.reliable && q < c.n
    ensures s.server.sq[q] != Queued
    ensures s.server.sq[q] == Sent ==> s.server.scnt + Count(s.server.sq, Completed) >= c.server.iters - 1
    ensures s.client.sq[q] != Sent
    ensures s.client.sq[q] == Queued ==> q > 0 && Posts(s.server) < c.server.iters
  {
    hide PairInv, PayloadInv, Posts;
    BlockedSide(c, s, t, Client);
    BlockedSide(c, s, t, Server);
    assert !Enabled(c, s, Transmit(Server, q)) && !Enabled(c, s, Ack(Client, q));
    assert Enabled(c, s, Ack(Server, q)) ==> !Permitted(c.server.iters, s, Ack(Server, q));
    assert Enabled(c, s, Transmit(Client, q)) ==> !Permitted(c.server.iters, s, Transmit(Client, q));
  }

  /** The server waits with nothing unprocessed: it cannot have left, having counted too few sends. */
  lemma ServerWaits(c: Config, s: System, t: seq<Token>)
    requires LeadInv(c, s, t) && Blocked(c, s)
    ensures s.server.Unprocessed() == [] && s.server.scnt <= c.server.iters - 1
    ensures forall q :: 0 <= q < c.n ==> s.server.sq[q] != Completed && t[q] != Arrived(Server)
  {
    hide CrossInv, PayloadInv, Posts;
    BlockedSide(c, s, t, Server);
    Waiting(c, s.server, Server, t);
    forall q | 0 <= q < c.n ensures s.server.sq[q] != Completed && t[q] != Arrived(Server) {
      assert LinkInv(c, s.server, Server, q, t[q]);
    }
  }

  /** After its `k`-th message the server has a message outstanding on every queue pair. */
  lemma AllOutstanding(c: Config, s: System, t: seq<Token>, q: nat)
    requires LeadInv(c, s, t) && Blocked(c, s) && c.reliable && q < c.n && Posts(s.server) >= c.server.iters
    ensures s.server.sq[q] != Empty
  {
    hide CrossInv, PayloadInv, SideInv, EventInv, Posts;
    BlockedSide(c, s, t, Client);
    BlockedSlots(c, s, t, q);
    ServerWaits(c, s, t);
    assert LinkInv(c, s.client, Client, q, t[q]);
    if q >= 1 { assert LeadLink(c.server.iters, s.client, s.server, t[q], q); }
  }

  lemma NoneEmpty(e: Endpoint)
    requires forall q :: 0 <= q < |e.sq| ==> e.sq[q] != Empty
    ensures Posts(e) == e.scnt + |e.sq|
  {
    assert Empty !in e.sq;
  }

  /** Where the token of a queue pair is while the server has posted fewer than `k` messages. */
  lemma HeldBack(c: Config, s: System, t: seq<Token>, q: nat)
    requires LeadInv(c, s, t) && Blocked(c, s) && c.reliable && q < c.n && Posts(s.server) < c.server.iters
    ensures s.server.sq[q] == Empty
    ensures q >= 1 ==> t[q] == Flying(Client) && s.client.sq[q] == Queued
    ensures q == 0 ==> t[q] == Held(Client) || t[q] == Arrived(Client)
    ensures q == 0 && s.client.stage != Left ==>
      t[q] == Held(Client) && s.client.sq[q] == Empty && s.client.scnt >= c.client.iters
  {
    hide CrossInv, PayloadInv, SideInv, EventInv, Posts;
    BlockedSide(c, s, t, Client);
    BlockedSlots(c, s, t, q);
    ServerWaits(c, s, t);
    ServerLinks(c, s, t, q);
    ClientWaits(c, s, t, q);
    if q >= 1 { assert LeadLink(c.server.iters, s.client, s.server, t[q], q); }
  }

  /** Without a message outstanding the server has no reason not to answer. */
  lemma ServerLinks(c: Config, s: System, t: seq<Token>, q: nat)
    requires LeadInv(c, s, t) && Blocked(c, s) && c.reliable && q < c.n && Posts(s.server) < c.server.iters
    ensures t[q] != Flying(Server) && (t[q] == Flying(Client) ==> s.client.sq[q] == Queued) && !t[q].Lost?
    ensures t[q] == Held(Server) ==> s.server.sq[q] != Empty
    ensures q == 0 ==> s.server.sq[q] == Empty
  {
    hide CrossInv, PayloadInv, SideInv, EventInv, Posts;
    BlockedSide(c, s, t, Client);
    BlockedSide(c, s, t, Server);
    BlockedSlots(c, s, t, q);
    ServerWaits(c, s, t);
    OthersIdle(c.server.iters, s.client, s.server, t);
    assert LinkInv(c, s.server, Server, q, t[q]);
    assert LinkInv(c, s.client, Client, q, t[q]);
    CountTwo(s.server.sq, Empty, Completed);
    assert forall p :: 0 <= p < c.n ==> s.server.sq[p] != Completed;
    assert Completed !in s.server.sq;
  }

  lemma ClientWaits(c: Config, s: System, t: seq<Token>, q: nat)
    requires LeadInv(c, s, t) && Blocked(c, s) && q < c.n
    ensures !s.client.stage.Starting?
    ensures s.client.stage != Left ==>
      t[q] != Arrived(Client) && s.client.sq[q] != Completed
      && (t[q] == Held(Client) && s.client.sq[q] == Empty ==> s.client.scnt >= c.client.iters)
  {
    hide CrossInv, PayloadInv, Posts;
    BlockedSide(c, s, t, Client);
    Waiting(c, s.client, Client, t);
    assert LinkInv(c, s.client, Client, q, t[q]);
  }

  /** If the client's count is not smaller, the server does get to its `k`-th message. */
  lemma LeadIsReached(c: Config, s: System, t: seq<Token>)
    requires LeadInv(c, s, t) && Blocked(c, s) && c.reliable && c.client.iters >= c.server.iters
    ensures Posts(s.server) >= c.server.iters
  {
    hide PayloadInv, LinksInv, EventInv, Lead, Blocked;
    if Posts(s.server) < c.server.iters {
      forall q | 0 <= q < c.n
        ensures s.server.sq[q] == Empty && (q >= 1 ==> t[q] == Flying(Client) && s.client.sq[q] == Queued)
        ensures t[q] != Flying(Server)
      {
        HeldBack(c, s, t, q);
      }
      HeldBack(c, s, t, 0);
      CountRest(t, Flying(Client));
      CountRest(s.client.sq, Queued);
      assert Flying(Server) !in t && Lost(Server) !in t;
      assert forall q :: 1 <= q < c.n ==> t[q] != Held(Client) && t[q] != Arrived(Client);
      CountOther(t, Held(Client));
      CountOther(t, Arrived(Client));
      CountOther(s.client.sq, Empty);
    }
  }

  lemma CountRest<T>(s: seq<T>, v: T)
    requires s != [] && forall i :: 1 <= i < |s| ==> s[i] == v
    ensures Count(s, v) == |s| - 1 + Bit(s[0] == v)
  {
    CountPop(s);
    CountUniform(s[1..], v);
  }

  lemma CountOther<T>(s: seq<T>, v: T)
    requires s != [] && forall i :: 1 <= i < |s| ==> s[i] != v
    ensures Count(s, v) == Bit(s[0] == v)
  {
    CountPop(s);
    assert v !in s[1..];
  }

  /** If the client's count is not smaller, the server can post as many messages as `OvershootBound`
      allows, and the client then has posted as many. */
  lemma ServerOvershoots(c: Config) returns (s: System)
    requires c.Valid() && c.reliable && c.client.iters >= c.server.iters >= 1
    ensures Reachable(c, s)
    ensures Posts(s.client) >= Posts(s.server) == c.server.iters + c.n - 1
  {
    hide PairInv, PayloadInv, Lead, Run, Final, Initial, Posts, Enabled, Permitted;
    InitialInv(c);
    InitialLead(c);
    var steps, t := LeadRun(c, Initial(c), seq(c.n, _ => Held(Client)));
    s := Final(c, Initial(c), steps);
    assert Reachable(c, s);
    LeadIsReached(c, s, t);
    forall q | 0 <= q < c.n ensures s.server.sq[q] != Empty { AllOutstanding(c, s, t, q); }
    NoneEmpty(s.server);
    ServerLead(c, s, t);
    ClientFollows(c, s, t);
  }

  /** Both sides post as many messages as `OvershootBound` allows, in one run. */
  lemma BoundIsAttained(c: Config) returns (s: System)
    requires c.Valid() && c.reliable && c.client.iters == c.server.iters >= 1
    ensures Reachable(c, s)
    ensures Posts(s.client) == c.client.iters + c.n - 1 && Posts(s.server) == c.server.iters + c.n - 1
  {
    hide Reachable, Posts;
    s := ServerOvershoots(c);
    OvershootBound(c, s, Client);
  }

  lemma ServerLead(c: Config, s: System, t: seq<Token>)
    requires LeadInv(c, s, t) && Posts(s.server) >= c.server.iters
    ensures s.server.scnt == c.server.iters - 1
  {
  }

  /** The client has posted at least what the server has answered. */
  lemma ClientFollows(c: Config, s: System, t: seq<Token>)
    requires Inv(c, s, t)
    ensures Posts(s.client) >= Posts(s.server)
  {
    hide LinksInv, EventInv, PayloadInv, Posts;
  }
}
