/** Whole buffers. The loops never look at what a message holds, so every byte of a buffer goes
    through the same run, and a run of one byte is a run of all of them. */
module Payload {
  import opened Verbs
  import opened Endpoints
  import opened PingPongSystem
  import opened SystemInvariant
  import opened TokenInvariant
  import opened Safety

  /** The same configuration with other initial contents. */
  function Filled(c: Config, client: Byte, server: Byte): Config {
    c.(client := c.client.(fill := client), server := c.server.(fill := server))
  }

  /** The two endpoints differ at most in the contents of the buffer and of messages. */
  predicate Alike(e: Endpoint, e': Endpoint) {
    && e' == e.(buf := e'.buf, wire := e'.wire) && |e'.wire| == |e.wire|
    && forall q :: 0 <= q < |e.wire| ==> |e'.wire[q]| == |e.wire[q]|
  }

  predicate AlikeSystems(s: System, s': System) { Alike(s.client, s'.client) && Alike(s.server, s'.server) }

  function Renewed(r: Result<Endpoint>, e': Endpoint): Result<Endpoint> {
    match r
    case Ok(p) => Ok(p.(buf := e'.buf, wire := e'.wire))
    case Err(err) => Err(err)
  }

  lemma PostNextAlike(n: nat, e: Endpoint, e': Endpoint, q: nat)
    requires e.Shape(n) && e'.Shape(n) && q < n && e' == e.(buf := e'.buf, wire := e'.wire)
    ensures PostNext(n, e', q) == Renewed(PostNext(n, e, q), e')
  {
  }

  lemma RespondAlike(n: nat, iters: int, e: Endpoint, e': Endpoint, q: nat, wrId: Mask)
    requires e.Shape(n) && e'.Shape(n) && q < n && e' == e.(buf := e'.buf, wire := e'.wire)
    ensures Respond(n, iters, e', q, wrId) == Renewed(Respond(n, iters, e, q, wrId), e')
  {
    hide PostNext;
    PostNextAlike(n, ClearPending(e, q, wrId), ClearPending(e', q, wrId), q);
  }

  lemma CreditAlike(n: nat, rxDepth: nat, e: Endpoint, e': Endpoint)
    requires e' == e.(buf := e'.buf, wire := e'.wire)
    ensures TakeCredit(n, rxDepth, e') == Renewed(TakeCredit(n, rxDepth, e), e')
    ensures TakeCredit(n, rxDepth, e).Ok? && e.Shape(n) ==> TakeCredit(n, rxDepth, e).value.Shape(n)
  {
  }

  lemma ProcessOneAlike(n: nat, sc: SideConfig, e: Endpoint, e': Endpoint, wc: Completion, b: Byte)
    requires e.Shape(n) && e'.Shape(n) && |sc.qpns| == n && e' == e.(buf := e'.buf, wire := e'.wire)
    ensures ProcessOne(n, sc.(fill := b), e', wc) == Renewed(ProcessOne(n, sc, e, wc), e')
  {
    hide Respond, TakeCredit;
    var q := FindQp(sc.qpns, wc.qpn);
    if q >= 0 && wc.wrId == SEND_WRID {
      RespondAlike(n, sc.iters, e.(scnt := e.scnt + 1, sq := e.sq[q := Empty]),
                   e'.(scnt := e.scnt + 1, sq := e.sq[q := Empty]), q, SEND_WRID);
    } else if q >= 0 && wc.wrId == RECV_WRID {
      CreditAlike(n, sc.rxDepth, e, e');
      if TakeCredit(n, sc.rxDepth, e).Ok? {
        var p, p' := TakeCredit(n, sc.rxDepth, e).value, TakeCredit(n, sc.rxDepth, e').value;
        RespondAlike(n, sc.iters, p.(rcnt := p.rcnt + 1, got := p.got[q := p.got[q] + 1]),
                     p'.(rcnt := p'.rcnt + 1, got := p'.got[q := p'.got[q] + 1]), q, RECV_WRID);
      }
    }
  }

  /** What processing does not touch. */
  lemma ProcessOneKeeps(n: nat, sc: SideConfig, e: Endpoint, wc: Completion)
    requires e.Shape(n) && |sc.qpns| == n && ProcessOne(n, sc, e, wc).Ok?
    ensures ProcessOne(n, sc, e, wc).value.buf == e.buf && ProcessOne(n, sc, e, wc).value.wire == e.wire
  {
  }

  lemma ConsumedAlike(n: nat, sc: SideConfig, e: Endpoint, e': Endpoint, b: Byte)
    requires e.Shape(n) && e'.Shape(n) && |sc.qpns| == n && Alike(e, e') && e.batch != []
    ensures Alike(Consumed(n, sc, e), Consumed(n, sc.(fill := b), e'))
  {
    hide ProcessOne;
    ProcessOneAlike(n, sc, e.(batch := e.batch[1..]), e'.(batch := e.batch[1..]), e.batch[0], b);
    if ProcessOne(n, sc, e.(batch := e.batch[1..]), e.batch[0]).Ok? {
      ProcessOneKeeps(n, sc, e.(batch := e.batch[1..]), e.batch[0]);
    }
  }

  lemma StartAlike(n: nat, e: Endpoint, e': Endpoint)
    requires e.Shape(n) && e'.Shape(n) && Alike(e, e') && e.stage.Starting?
    ensures Alike(PostFirst(n, e), PostFirst(n, e'))
  {
    if e.stage.k < n { PostNextAlike(n, e, e', e.stage.k); }
  }

  lemma EnabledAlike(c: Config, s: System, s': System, step: Step, b: Byte, d: Byte)
    requires c.Valid() && s.Shape(c.n) && s'.Shape(c.n) && AlikeSystems(s, s') && Enabled(c, s, step)
    ensures Enabled(Filled(c, b, d), s', step)
  {
  }

  lemma DeviceAlike(c: Config, s: System, s': System, step: Step, b: Byte, d: Byte)
    requires c.Valid() && s.Shape(c.n) && s'.Shape(c.n) && AlikeSystems(s, s') && IsDeviceStep(step)
    requires Enabled(c, s, step) && Enabled(Filled(c, b, d), s', step)
    ensures AlikeSystems(Apply(c, s, step), Apply(Filled(c, b, d), s', step))
  {
  }

  lemma LoopAlike(c: Config, s: System, s': System, step: Step, b: Byte, d: Byte)
    requires c.Valid() && s.Shape(c.n) && s'.Shape(c.n) && AlikeSystems(s, s') && !IsDeviceStep(step)
    requires Enabled(c, s, step) && Enabled(Filled(c, b, d), s', step)
    ensures AlikeSystems(Apply(c, s, step), Apply(Filled(c, b, d), s', step))
  {
    hide Consumed, PostFirst;
    var x := step.x;
    if step.Process? { ConsumedAlike(c.n, c.Of(x), s.At(x), s'.At(x), if x == Client then b else d); }
    if step.Start? { StartAlike(c.n, s.At(x), s'.At(x)); }
  }

  lemma StepAlike(c: Config, s: System, s': System, step: Step, b: Byte, d: Byte)
    requires c.Valid() && s.Shape(c.n) && s'.Shape(c.n) && AlikeSystems(s, s') && Enabled(c, s, step)
    ensures Enabled(Filled(c, b, d), s', step)
    ensures AlikeSystems(Apply(c, s, step), Apply(Filled(c, b, d), s', step))
  {
    hide Apply, Enabled, AlikeSystems;
    EnabledAlike(c, s, s', step, b, d);
    if IsDeviceStep(step) { DeviceAlike(c, s, s', step, b, d); } else { LoopAlike(c, s, s', step, b, d); }
  }

  lemma {:induction false} RunAlike(c: Config, s: System, s': System, steps: seq<Step>, b: Byte, d: Byte)
    requires c.Valid() && s.Shape(c.n) && s'.Shape(c.n) && AlikeSystems(s, s') && Run(c, s, steps)
    ensures Run(Filled(c, b, d), s', steps)
    ensures AlikeSystems(Final(c, s, steps), Final(Filled(c, b, d), s', steps))
    decreases |steps|
  {
    hide Apply, Enabled, Alike;
    if steps != [] {
      StepAlike(c, s, s', steps[0], b, d);
      RunAlike(c, Apply(c, s, steps[0]), Apply(Filled(c, b, d), s', steps[0]), steps[1..], b, d);
    }
  }

  /** A run is a run whatever the buffers hold, and takes the programs through the same states. */
  lemma RunsIgnoreContents(c: Config, steps: seq<Step>, b: Byte, d: Byte)
    requires c.Valid() && Run(c, Initial(c), steps)
    ensures var c' := Filled(c, b, d);
      && c'.Valid() && Run(c', Initial(c'), steps)
      && AlikeSystems(Final(c, Initial(c), steps), Final(c', Initial(c'), steps))
  {
    hide Run, Final;
    RunAlike(c, Initial(c), Initial(Filled(c, b, d)), steps, b, d);
  }

  /** One run for every byte of a buffer. The device captures and writes each byte of a message at a
      moment of its own, so the runs of two bytes may differ in where their `Transmit` and `Deliver`
      steps stand; nothing else is asked of them. */
  ghost predicate AllRuns(c: Config, runs: seq<seq<Step>>)
    requires c.Valid()
  {
    forall j :: 0 <= j < |runs| ==> Run(c, Initial(c), runs[j])
  }

  /** The system as byte `j` goes through it, with contents `b` and `d` at the start. */
  ghost function After(c: Config, b: Byte, d: Byte, steps: seq<Step>): (s: System)
    requires c.Valid() && Run(c, Initial(c), steps)
    ensures s.Shape(c.n) && AlikeSystems(Final(c, Initial(c), steps), s)
  {
    RunsIgnoreContents(c, steps, b, d);
    Final(Filled(c, b, d), Initial(Filled(c, b, d)), steps)
  }

  lemma AfterIs(c: Config, b: Byte, d: Byte, steps: seq<Step>)
    requires c.Valid() && Run(c, Initial(c), steps)
    ensures var c' := Filled(c, b, d);
      c'.Valid() && Run(c', Initial(c'), steps) && After(c, b, d, steps) == Final(c', Initial(c'), steps)
  {
    hide Run, Final;
    RunsIgnoreContents(c, steps, b, d);
  }

  /** The buffer of side `x`, the buffers having held `client` and `server` at the start. */
  ghost function Memory(c: Config, client: seq<Byte>, server: seq<Byte>, runs: seq<seq<Step>>, x: Side): (m: seq<Byte>)
    requires c.Valid() && |client| == |server| == |runs| && AllRuns(c, runs)
    ensures |m| == |client|
  {
    seq(|client|, j requires 0 <= j < |client| => After(c, client[j], server[j], runs[j]).At(x).buf)
  }

  /** Every byte of message `i` of side `x` on queue pair `q` is on the wire. */
  ghost predicate HasMessage(c: Config, runs: seq<seq<Step>>, x: Side, q: nat, i: nat)
    requires c.Valid() && AllRuns(c, runs) && q < c.n
  {
    forall j :: 0 <= j < |runs| ==> Sending(c, runs[j], x, q, i)
  }

  ghost predicate Sending(c: Config, steps: seq<Step>, x: Side, q: nat, i: nat)
    requires c.Valid() && Run(c, Initial(c), steps) && q < c.n
  {
    i < |Final(c, Initial(c), steps).At(x).wire[q]|
  }

  ghost function ByteOnWire(c: Config, b: Byte, d: Byte, steps: seq<Step>, x: Side, q: nat, i: nat): Byte
    requires c.Valid() && Run(c, Initial(c), steps) && q < c.n && Sending(c, steps, x, q, i)
  {
    After(c, b, d, steps).At(x).wire[q][i]
  }

  /** That message, as the peer will receive it. */
  ghost function OnWire(c: Config, client: seq<Byte>, server: seq<Byte>, runs: seq<seq<Step>>, x: Side, q: nat, i: nat)
    : (m: seq<Byte>)
    requires c.Valid() && |client| == |server| == |runs| && AllRuns(c, runs) && q < c.n && HasMessage(c, runs, x, q, i)
    ensures |m| == |client|
  {
    seq(|client|, j requires 0 <= j < |client| => ByteOnWire(c, client[j], server[j], runs[j], x, q, i))
  }

  lemma ByteEcho(c: Config, b: Byte, d: Byte, steps: seq<Step>, x: Side)
    requires c.Valid() && Run(c, Initial(c), steps)
    ensures var s := After(c, b, d, steps);
      && s.client.buf == b && Carries(s.At(x).wire, b)
      && (Final(c, Initial(c), steps).server.rcnt > 0 ==> s.server.buf == b)
  {
    hide Run, Final, Initial;
    RunsIgnoreContents(c, steps, b, d);
    var c' := Filled(c, b, d);
    assert Reachable(c', Final(c', Initial(c'), steps));
    PayloadEcho(c', Final(c', Initial(c'), steps), x);
  }

  /** The echo on whole buffers: the client's never changes, and the server's equals it as soon as
      the server has processed a receive. */
  lemma BuffersEcho(c: Config, client: seq<Byte>, server: seq<Byte>, runs: seq<seq<Step>>)
    requires c.Valid() && |client| == |server| == |runs| && AllRuns(c, runs)
    ensures forall j :: 0 <= j < |runs| ==>
      var c' := Filled(c, client[j], server[j]);
      Run(c', Initial(c'), runs[j]) && Final(c', Initial(c'), runs[j]).client.buf == client[j]
    ensures Memory(c, client, server, runs, Client) == client
    ensures (forall j :: 0 <= j < |runs| ==> Final(c, Initial(c), runs[j]).server.rcnt > 0) ==>
      Memory(c, client, server, runs, Server) == client
  {
    hide Run, Final, Initial, After;
    forall j | 0 <= j < |client|
      ensures After(c, client[j], server[j], runs[j]).client.buf == client[j]
      ensures Memory(c, client, server, runs, Client)[j] == client[j]
      ensures var c' := Filled(c, client[j], server[j]);
        Run(c', Initial(c'), runs[j]) && Final(c', Initial(c'), runs[j]).client.buf == client[j]
      ensures Final(c, Initial(c), runs[j]).server.rcnt > 0 ==> Memory(c, client, server, runs, Server)[j] == client[j]
    {
      ByteEcho(c, client[j], server[j], runs[j], Client);
      AfterIs(c, client[j], server[j], runs[j]);
    }
  }

  /** The echo on whole messages: whatever is on the wire, of either side and at whatever moments its
      bytes were captured, is what the client's buffer held at the start. */
  lemma MessagesEcho(c: Config, client: seq<Byte>, server: seq<Byte>, runs: seq<seq<Step>>, x: Side, q: nat, i: nat)
    requires c.Valid() && |client| == |server| == |runs| && AllRuns(c, runs) && q < c.n && HasMessage(c, runs, x, q, i)
    ensures OnWire(c, client, server, runs, x, q, i) == client
    ensures forall j :: 0 <= j < |runs| ==>
      var c' := Filled(c, client[j], server[j]);
      Run(c', Initial(c'), runs[j]) && Carries(Final(c', Initial(c'), runs[j]).At(x).wire, client[j])
  {
    hide Run, Final, Initial, After;
    forall j | 0 <= j < |client|
      ensures OnWire(c, client, server, runs, x, q, i)[j] == client[j]
      ensures var c' := Filled(c, client[j], server[j]);
        Run(c', Initial(c'), runs[j]) && Carries(Final(c', Initial(c'), runs[j]).At(x).wire, client[j])
    {
      ByteEcho(c, client[j], server[j], runs[j], x);
      AfterIs(c, client[j], server[j], runs[j]);
    }
  }
}
