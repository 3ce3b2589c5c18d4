/** On every queue pair the two sides take turns: the messages posted on it in a run come from
    the client, the server, the client, and so on. */
module Alternation {
  import opened Endpoints
  import opened PingPongSystem
  import opened TokenInvariant
  import opened SystemInvariant

  /** Who posted a message on queue pair `q` between `s` and `s'`. */
  function PostedOn(s: System, s': System, n: nat, q: nat): seq<Side>
    requires s.Shape(n) && s'.Shape(n) && q < n
  {
    (if s'.client.sent[q] > s.client.sent[q] then [Client] else []) +
    (if s'.server.sent[q] > s.server.sent[q] then [Server] else [])
  }

  /** The senders of the messages posted on `q` by a run, in order. */
  function Senders(c: Config, s: System, steps: seq<Step>, q: nat): seq<Side>
    requires s.Shape(c.n) && |c.client.qpns| == c.n == |c.server.qpns| && q < c.n && Run(c, s, steps)
    decreases |steps|
  {
    if steps == [] then [] else
      var s' := Apply(c, s, steps[0]);
      PostedOn(s, s', c.n, q) + Senders(c, s', steps[1..], q)
  }

  function Turn(i: nat): Side { if i % 2 == 0 then Client else Server }

  lemma ConsumedSent(n: nat, sc: SideConfig, e: Endpoint, q: nat)
    requires e.Shape(n) && |sc.qpns| == n && e.batch != [] && q < n
    ensures e.sent[q] <= Consumed(n, sc, e).sent[q] <= e.sent[q] + 1
  {
  }

  /** As many senders as messages. */
  lemma {:induction false} SendersCount(c: Config, s: System, steps: seq<Step>, q: nat)
    requires s.Shape(c.n) && |c.client.qpns| == c.n == |c.server.qpns| && q < c.n && Run(c, s, steps)
    ensures var s' := Final(c, s, steps);
      s'.client.sent[q] + s'.server.sent[q] == s.client.sent[q] + s.server.sent[q] + |Senders(c, s, steps, q)|
    decreases |steps|
  {
    hide Apply, Enabled;
    if steps != [] {
      OneSender(c, s, steps[0], q);
      SendersCount(c, Apply(c, s, steps[0]), steps[1..], q);
    }
  }

  lemma OneSender(c: Config, s: System, step: Step, q: nat)
    requires s.Shape(c.n) && |c.client.qpns| == c.n == |c.server.qpns| && Enabled(c, s, step) && q < c.n
    ensures var s' := Apply(c, s, step);
      && s'.At(step.x.Peer()).sent == s.At(step.x.Peer()).sent
      && s.At(step.x).sent[q] <= s'.At(step.x).sent[q] <= s.At(step.x).sent[q] + 1
  {
    if step.Process? { ConsumedSent(c.n, c.Of(step.x), s.At(step.x), q); }
    hide Consumed;
  }

  /** The client is ahead by one message, or neither side is ahead. */
  lemma AtMostOneAhead(c: Config, s: System, t: seq<Token>, q: nat)
    requires Inv(c, s, t) && q < c.n
    ensures s.server.sent[q] <= s.client.sent[q] <= s.server.sent[q] + 1
  {
    hide PayloadInv;
    assert LinkInv(c, s.server, Server, q, t[q]);
  }

  /** One step, with the senders that the rest of the run adds. */
  lemma SendersStep(c: Config, s: System, s': System, rest: seq<Side>, q: nat)
    requires s.Shape(c.n) && s'.Shape(c.n) && q < c.n
    requires s.client.sent[q] <= s'.client.sent[q] && s.server.sent[q] <= s'.server.sent[q]
    requires s'.client.sent[q] + s'.server.sent[q] <= s.client.sent[q] + s.server.sent[q] + 1
    requires s.server.sent[q] <= s.client.sent[q] <= s.server.sent[q] + 1
    requires s'.server.sent[q] <= s'.client.sent[q] <= s'.server.sent[q] + 1
    requires forall i :: 0 <= i < |rest| ==> rest[i] == Turn(s'.client.sent[q] + s'.server.sent[q] + i)
    ensures var senders := PostedOn(s, s', c.n, q) + rest;
      forall i :: 0 <= i < |senders| ==> senders[i] == Turn(s.client.sent[q] + s.server.sent[q] + i)
  {
  }

  lemma {:induction false} SendersFrom(c: Config, s: System, t: seq<Token>, steps: seq<Step>, q: nat)
    requires Inv(c, s, t) && Run(c, s, steps) && q < c.n
    ensures forall i :: 0 <= i < |Senders(c, s, steps, q)| ==>
      Senders(c, s, steps, q)[i] == Turn(s.client.sent[q] + s.server.sent[q] + i)
    decreases |steps|
  {
    hide PairInv, PayloadInv, Apply, Turn, PostedOn, Enabled;
    if steps != [] {
      var s' := Apply(c, s, steps[0]);
      var t' := NextTokens(c, s, steps[0], t);
      StepPreserves(c, s, t, steps[0]);
      OneSender(c, s, steps[0], q);
      AtMostOneAhead(c, s, t, q);
      AtMostOneAhead(c, s', t', q);
      SendersFrom(c, s', t', steps[1..], q);
      SendersStep(c, s, s', Senders(c, s', steps[1..], q), q);
    }
  }

  lemma InitialSent(c: Config, q: nat)
    requires q < c.n
    ensures Initial(c).client.sent[q] == 0 == Initial(c).server.sent[q]
  {
  }

  lemma SendersAlternate(c: Config, steps: seq<Step>, q: nat)
    requires c.Valid() && Run(c, Initial(c), steps) && q < c.n
    ensures var senders := Senders(c, Initial(c), steps, q);
      forall i :: 0 <= i < |senders| ==> senders[i] == if i % 2 == 0 then Client else Server
    ensures var s := Final(c, Initial(c), steps);
      |Senders(c, Initial(c), steps, q)| == s.client.sent[q] + s.server.sent[q]
  {
    hide Inv, PairInv, PayloadInv, Initial, Run, Final, Senders, Apply, Enabled;
    SendersCount(c, Initial(c), steps, q);
    InitialSent(c, q);
    InitialInv(c);
    SendersFrom(c, Initial(c), seq(c.n, _ => Held(Client)), steps, q);
  }
}
