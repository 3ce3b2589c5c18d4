/** The program itself: the context that `main` and the helper functions update in place. Every
    method is proved against the function that specifies it in `Endpoints`. */
module Driver {
  import opened Verbs
  import opened Endpoints
  import opened PingPongSystem

  /** Processing a completion touches neither the batch nor what belongs to the notification. */
  lemma ProcessOneFrame(n: nat, sc: SideConfig, e: Endpoint, wc: Completion)
    requires e.Shape(n) && |sc.qpns| == n && ProcessOne(n, sc, e, wc).Ok?
    ensures var p := ProcessOne(n, sc, e, wc).value;
      p.batch == e.batch && p.cq == e.cq && p.stage == e.stage
  {
  }

  lemma PostNextBatch(n: nat, e: Endpoint, q: nat, rest: seq<Completion>)
    requires e.Shape(n) && q < n
    ensures PostNext(n, e.(batch := rest), q) == WithBatch(PostNext(n, e, q), rest)
  {
  }

  lemma ClearBatch(n: nat, e: Endpoint, q: nat, wrId: Mask, rest: seq<Completion>)
    requires e.Shape(n) && q < n
    ensures ClearPending(e, q, wrId).Shape(n)
    ensures ClearPending(e.(batch := rest), q, wrId) == ClearPending(e, q, wrId).(batch := rest)
  {
  }

  lemma RespondBatch(n: nat, iters: int, e: Endpoint, q: nat, wrId: Mask, rest: seq<Completion>)
    requires e.Shape(n) && q < n
    ensures Respond(n, iters, e.(batch := rest), q, wrId) == WithBatch(Respond(n, iters, e, q, wrId), rest)
  {
    hide PostNext, ClearPending;
    ClearBatch(n, e, q, wrId, rest);
    PostNextBatch(n, ClearPending(e, q, wrId), q, rest);
  }

  function WithBatch(r: Result<Endpoint>, rest: seq<Completion>): Result<Endpoint> {
    match r
    case Ok(p) => Ok(p.(batch := rest))
    case Err(err) => Err(err)
  }

  /** Nor does it depend on the rest of the batch. */
  lemma ProcessOneBatch(n: nat, sc: SideConfig, e: Endpoint, wc: Completion, rest: seq<Completion>)
    requires e.Shape(n) && |sc.qpns| == n
    ensures ProcessOne(n, sc, e.(batch := rest), wc) == WithBatch(ProcessOne(n, sc, e, wc), rest)
  {
    hide Respond;
    var q := FindQp(sc.qpns, wc.qpn);
    if q >= 0 && wc.wrId == SEND_WRID {
      RespondBatch(n, sc.iters, e.(scnt := e.scnt + 1, sq := e.sq[q := Empty]), q, SEND_WRID, rest);
    } else if q >= 0 && wc.wrId == RECV_WRID && TakeCredit(n, sc.rxDepth, e).Ok? {
      var p := TakeCredit(n, sc.rxDepth, e).value;
      RespondBatch(n, sc.iters, p.(rcnt := p.rcnt + 1, got := p.got[q := p.got[q] + 1]), q, RECV_WRID, rest);
    }
  }

  /** What the device of a side does on its own: it puts the queued send of queue pair `q` on the
      wire, loses sight of the message (delivered or dropped), completes the send, or receives `m`. */
  datatype DeviceEvent = Sends(q: nat) | Departs(q: nat) | Acks(q: nat) | Arrives(q: nat, m: Byte)

  /** An event that the queues do not allow changes nothing. */
  function DeviceAct(n: nat, sc: SideConfig, e: Endpoint, ev: DeviceEvent): (r: Endpoint)
    requires e.Shape(n) && |sc.qpns| == n
    ensures r.Shape(n)
  {
    if ev.q >= n then e
    else
      match ev
      case Sends(q) => if e.sq[q] == Queued then Transmitted(e, q) else e
      case Departs(q) => if e.wire[q] != [] then Departed(e, q) else e
      case Acks(q) => if e.sq[q] == Sent then Acked(e, q, sc.qpns[q]) else e
      case Arrives(q, m) => if e.posted > 0 then Received(e, sc.qpns[q], m) else e
  }

  function Generated(n: nat, sc: SideConfig, e: Endpoint, evs: seq<DeviceEvent>): (r: Endpoint)
    requires e.Shape(n) && |sc.qpns| == n
    ensures r.Shape(n)
    decreases |evs|
  {
    if evs == [] then e else Generated(n, sc, DeviceAct(n, sc, e, evs[0]), evs[1..])
  }

  /** The device does not touch what belongs to the program, and does not depend on its batch. */
  lemma {:induction false} GeneratedFrame(n: nat, sc: SideConfig, e: Endpoint, evs: seq<DeviceEvent>,
                                        rest: seq<Completion>)
    requires e.Shape(n) && |sc.qpns| == n
    ensures Generated(n, sc, e, evs).batch == e.batch && Generated(n, sc, e, evs).stage == e.stage
    ensures Generated(n, sc, e, evs).scnt == e.scnt && Generated(n, sc, e, evs).rcnt == e.rcnt
    ensures Generated(n, sc, e.(batch := rest), evs) == Generated(n, sc, e, evs).(batch := rest)
    decreases |evs|
  {
    hide DeviceAct;
    if evs != [] {
      DeviceFrame(n, sc, e, evs[0], rest);
      GeneratedFrame(n, sc, DeviceAct(n, sc, e, evs[0]), evs[1..], rest);
    }
  }

  lemma DeviceFrame(n: nat, sc: SideConfig, e: Endpoint, ev: DeviceEvent, rest: seq<Completion>)
    requires e.Shape(n) && |sc.qpns| == n
    ensures DeviceAct(n, sc, e, ev).batch == e.batch && DeviceAct(n, sc, e, ev).stage == e.stage
    ensures DeviceAct(n, sc, e, ev).scnt == e.scnt && DeviceAct(n, sc, e, ev).rcnt == e.rcnt
    ensures DeviceAct(n, sc, e.(batch := rest), ev) == DeviceAct(n, sc, e, ev).(batch := rest)
  {
  }

  function First<T>(s: seq<seq<T>>): seq<T> { if s == [] then [] else s[0] }

  function Rest<T>(s: seq<seq<T>>): seq<seq<T>> { if s == [] then [] else s[1..] }

  /** Processes a whole batch, oldest completion first; the device acts before each completion. */
  function ProcessAll(n: nat, sc: SideConfig, e: Endpoint, working: seq<seq<DeviceEvent>>): (r: Result<Endpoint>)
    requires e.Shape(n) && |sc.qpns| == n
    ensures r.Ok? ==> r.value.Shape(n)
    decreases |e.batch|
  {
    if e.batch == [] then Ok(e)
    else
      GeneratedFrame(n, sc, e, First(working), []);
      var g := Generated(n, sc, e, First(working));
      match ProcessOne(n, sc, g.(batch := g.batch[1..]), g.batch[0])
      case Ok(p) =>
        ProcessOneFrame(n, sc, g.(batch := g.batch[1..]), g.batch[0]);
        ProcessAll(n, sc, p, Rest(working))
      case Err(err) => Err(err)
  }

  /** The client's opening: a first message on every queue pair from `e.stage.k` on; the device
      acts before each post. */
  function OpenAll(n: nat, sc: SideConfig, e: Endpoint, working: seq<seq<DeviceEvent>>): (r: Endpoint)
    requires e.Shape(n) && |sc.qpns| == n
    ensures r.Shape(n)
    decreases if e.stage.Starting? then n + 1 - e.stage.k else 0
  {
    if !e.stage.Starting? then e
    else if e.stage.k >= n then e.(stage := Running)
    else
      GeneratedFrame(n, sc, e, First(working), []);
      OpenAll(n, sc, PostFirst(n, Generated(n, sc, e, First(working))), Rest(working))
  }

  /** The device leaves free slots free. */
  lemma {:induction false} GeneratedSlots(n: nat, sc: SideConfig, e: Endpoint, evs: seq<DeviceEvent>, i: nat)
    requires e.Shape(n) && |sc.qpns| == n && FreeFrom(e.sq, i)
    ensures FreeFrom(Generated(n, sc, e, evs).sq, i)
    decreases |evs|
  {
    if evs != [] { GeneratedSlots(n, sc, DeviceAct(n, sc, e, evs[0]), evs[1..], i); }
  }

  predicate FreeFrom(sq: seq<SendSlot>, i: nat) { forall j :: i <= j < |sq| ==> sq[j] == Empty }

  /** What the device does during a round: while the loop waits, between an event and the request
      for the next, up to the poll, and before each completion. */
  datatype Activity = Activity(waiting: seq<DeviceEvent>, rearming: seq<DeviceEvent>, polling: seq<DeviceEvent>,
                               working: seq<seq<DeviceEvent>>)

  /** From the poll on. */
  function PollRound(n: nat, sc: SideConfig, e: Endpoint, a: Activity): (r: Result<Endpoint>)
    requires e.Shape(n) && |sc.qpns| == n
    ensures r.Ok? ==> r.value.Shape(n)
  {
    var p := Generated(n, sc, e, a.polling);
    if !sc.useEvent && p.cq == [] then Ok(p) else ProcessAll(n, sc, Poll(sc, p), a.working)
  }

  /** One round of the message loop. Without an event, or without a completion when polling, the
      loop keeps waiting. */
  function Round(n: nat, sc: SideConfig, e: Endpoint, a: Activity): (r: Result<Endpoint>)
    requires e.Shape(n) && |sc.qpns| == n
    ensures r.Ok? ==> r.value.Shape(n)
  {
    var w := Generated(n, sc, e, a.waiting);
    if !sc.useEvent then PollRound(n, sc, w, a)
    else if w.events == 0 then Ok(w)
    else PollRound(n, sc, Rearmed(Generated(n, sc, EventTaken(w), a.rearming)), a)
  }

  /** The message loop: rounds until its condition is false, or as long as we watch. */
  function Loop(n: nat, sc: SideConfig, e: Endpoint, activities: seq<Activity>): (r: Result<Endpoint>)
    requires e.Shape(n) && |sc.qpns| == n
    ensures r.Ok? ==> r.value.Shape(n)
    decreases |activities|
  {
    if e.Done(sc.iters) then Ok(Departing(e))
    else if activities == [] then Ok(e)
    else
      match Round(n, sc, e, activities[0])
      case Ok(p) => Loop(n, sc, p, activities[1..])
      case Err(err) => Err(err)
  }

  class Context {
    const numQp: nat
    const sc: SideConfig
    const pending: array<Mask>
    var scnt: nat
    var rcnt: nat
    var routs: int
    var numCqEvents: nat
    // device
    var posted: nat
    const sq: array<SendSlot>
    var wire: seq<seq<Byte>>
    var cq: seq<Completion>
    var armed: bool
    var events: nat
    var unacked: int
    var buf: Byte
    // history and program counter
    ghost var sent: seq<nat>
    ghost var got: seq<nat>
    ghost var stage: Stage

    ghost predicate Valid()
      reads this, pending, sq
    {
      && (pending as object) != (sq as object)
      && pending.Length == sq.Length == MAX_QP && |sc.qpns| == numQp <= MAX_QP
      && |wire| == numQp && |sent| == numQp && |got| == numQp
    }

    /** The endpoint that this context represents while `rest` of a polled batch is unprocessed. */
    ghost function View(rest: seq<Completion>): (e: Endpoint)
      requires Valid()
      reads this, pending, sq
      ensures e.Shape(numQp)
    {
      Endpoint(scnt, rcnt, routs, pending[..numQp], rest, numCqEvents, stage,
               posted, sq[..numQp], wire, cq, armed, events, unacked, buf, sent, got)
    }

    /** Posts up to `m` receives and returns how many the queue took. */
    method PostRecv(m: int) returns (i: int)
      requires Valid()
      modifies this`posted
      ensures Valid()
      ensures i == PostedBy(sc.rxDepth - old(posted), m) && posted == old(posted) + i
      ensures 0 <= i && (i <= m || i == 0) && (i < m ==> posted >= sc.rxDepth) && (i > 0 ==> posted <= sc.rxDepth)
    {
      i := 0;
      while i < m
        invariant 0 <= i && (i <= m || i == 0)
        invariant posted == old(posted) + i && (i > 0 ==> posted <= sc.rxDepth)
      {
        if posted >= sc.rxDepth { break; }
        posted := posted + 1;
        i := i + 1;
      }
    }

    /** Posts a send on queue pair `q`; fails if its only slot is taken. */
    method PostOneSend(q: nat) returns (failed: bool)
      requires Valid() && q < numQp
      modifies sq, this`sent
      ensures Valid()
      ensures failed <==> PostSend(old(View([])), q).Err?
      ensures failed ==> View([]) == old(View([]))
      ensures !failed ==> View([]) == PostSend(old(View([])), q).value
    {
      failed := sq[q] != Empty;
      if !failed {
        sq[q] := Queued;
        assert sq[..numQp] == old(sq[..numQp])[q := Queued];
        sent := sent[q := sent[q] + 1];
      }
    }

    /** The index of the queue pair with the given number, or -1. */
    method FindQpIndex(number: int) returns (i: int)
      requires Valid()
      ensures i == FindQp(sc.qpns, number)
    {
      i := 0;
      while i < numQp
        invariant 0 <= i <= numQp && forall j :: 0 <= j < i ==> sc.qpns[j] != number
      {
        if sc.qpns[i] == number { return; }
        i := i + 1;
      }
      i := -1;
    }

    /** Posts a send on queue pair `q` and marks both of its requests pending. */
    method PostAndMark(q: nat) returns (failed: bool)
      requires Valid() && q < numQp
      modifies pending, sq, this`sent
      ensures Valid()
      ensures failed <==> PostNext(numQp, old(View([])), q).Err?
      ensures failed ==> PostNext(numQp, old(View([])), q) == Err(CannotPostSend)
      ensures !failed ==> View([]) == PostNext(numQp, old(View([])), q).value
    {
      failed := PostOneSend(q);
      if !failed {
        pending[q] := RECV_WRID | SEND_WRID;
        assert pending[..numQp] == old(pending[..numQp])[q := RECV_WRID | SEND_WRID];
      }
    }

    /** Clears the pending bit and answers when nothing is pending. */
    method Answer(q: nat, wrId: Mask) returns (r: Result<()>)
      requires Valid() && q < numQp
      modifies pending, sq, this`sent
      ensures Valid()
      ensures r.Ok? <==> Respond(numQp, sc.iters, old(View([])), q, wrId).Ok?
      ensures r.Ok? ==> View([]) == Respond(numQp, sc.iters, old(View([])), q, wrId).value
      ensures r.Err? ==> Respond(numQp, sc.iters, old(View([])), q, wrId) == Err(r.error)
    {
      hide PostNext;
      pending[q] := pending[q] & !wrId;
      assert View([]) == ClearPending(old(View([])), q, wrId);
      r := Ok(());
      if scnt < sc.iters && pending[q] == 0 {
        var failed := PostAndMark(q);
        if failed { return Err(CannotPostSend); }
      }
    }

    /** `--routs`, and the top-up when too few receives are left. */
    method UseCredit() returns (r: Result<()>)
      requires Valid()
      modifies this`routs, this`posted
      ensures Valid()
      ensures r.Ok? <==> TakeCredit(numQp, sc.rxDepth, old(View([]))).Ok?
      ensures r.Ok? ==> View([]) == TakeCredit(numQp, sc.rxDepth, old(View([]))).value
      ensures r.Err? ==> TakeCredit(numQp, sc.rxDepth, old(View([]))) == Err(r.error)
    {
      routs := routs - 1;
      if routs <= numQp {
        var more := PostRecv(sc.rxDepth - routs);
        routs := routs + more;
        if routs < sc.rxDepth { return Err(CannotPostReceive); }
      }
      r := Ok(());
    }

    /** The body of the loop over completions. */
    method ProcessCompletion(wc: Completion) returns (r: Result<()>)
      requires Valid()
      modifies this`scnt, this`rcnt, this`routs, this`posted, this`sent, this`got, pending, sq
      ensures Valid()
      ensures r.Ok? <==> ProcessOne(numQp, sc, old(View([])), wc).Ok?
      ensures r.Ok? ==> View([]) == ProcessOne(numQp, sc, old(View([])), wc).value
      ensures r.Err? ==> ProcessOne(numQp, sc, old(View([])), wc) == Err(r.error)
    {
      hide Respond, TakeCredit;
      ghost var e := View([]);
      var q := FindQpIndex(wc.qpn);
      if q < 0 { return Err(UnknownQp); }
      if wc.wrId == SEND_WRID {
        scnt := scnt + 1;
        sq[q] := Empty;
        assert View([]) == e.(scnt := e.scnt + 1, sq := e.sq[q := Empty]);
      } else if wc.wrId == RECV_WRID {
        r := UseCredit();
        if r.Err? { return; }
        rcnt := rcnt + 1;
        got := got[q := got[q] + 1];
      } else {
        return Err(UnknownWrId);
      }
      r := Answer(q, wc.wrId);
    }

    /** The context of one side with all its receives posted, before the first message. */
    constructor (n: nat, config: SideConfig)
      requires |config.qpns| == n <= MAX_QP
      ensures Valid() && fresh(pending) && fresh(sq)
      ensures numQp == n && sc == config
      ensures View([]) == InitialEndpoint(n, config, Client)
      ensures posted == config.rxDepth && routs == config.rxDepth
    {
      numQp, sc := n, config;
      pending := new Mask[MAX_QP](_ => 0);
      sq := new SendSlot[MAX_QP](_ => Empty);
      scnt, rcnt, routs, numCqEvents := 0, 0, 0, 0;
      posted, wire, cq := 0, seq(n, _ => []), [];
      armed, events, unacked, buf := config.useEvent, 0, 0, config.fill;
      sent, got, stage := seq(n, _ => 0), seq(n, _ => 0), Starting(0);
      new;
      var more := PostRecv(sc.rxDepth);
      routs := more;
      assert pending[..numQp] == seq(n, _ => 0);
      assert sq[..numQp] == seq(n, _ => Empty);
    }

    /** The client posts its first message on queue pair `i`. */
    method OpenOne(i: nat) returns (failed: bool)
      requires Valid() && i < numQp && stage == Starting(i)
      modifies pending, sq, this`sent, this`stage
      ensures Valid() && (failed <==> old(sq[i]) != Empty)
      ensures !failed ==> View([]) == PostFirst(numQp, old(View([])))
      ensures !failed ==> stage == (if i + 1 < numQp then Starting(i + 1) else Running)
      ensures !failed ==> sq[..numQp] == old(sq[..numQp])[i := Queued]
    {
      failed := PostAndMark(i);
      if !failed {
        stage := if i + 1 == numQp then Running else Starting(i + 1);
        assert sq[..numQp] == old(sq[..numQp])[i := Queued];
      }
    }

    /** The server waits for the first message on every queue pair. */
    method OpenServer()
      requires Valid() && View([]) == InitialEndpoint(numQp, sc, Client)
      modifies pending, this`stage
      ensures Valid() && View([]) == InitialEndpoint(numQp, sc, Server)
    {
      var i := 0;
      while i < numQp
        invariant 0 <= i <= numQp
        invariant forall j :: 0 <= j < i ==> pending[j] == RECV_WRID
      {
        pending[i] := RECV_WRID;
        i := i + 1;
      }
      stage := Running;
      assert pending[..numQp] == seq(numQp, _ => RECV_WRID);
    }

    /** Takes as many completions as there are, up to the size of the array. */
    method PollCompletions(wc: array<Completion>) returns (ne: nat)
      requires Valid() && wc.Length == sc.numWc
      requires (wc as object) != (pending as object) && (wc as object) != (sq as object)
      modifies wc, this`cq, this`stage
      ensures Valid() && ne <= wc.Length
      ensures View(wc[..ne]) == Poll(sc, old(View([])))
    {
      ne := 0;
      while ne < wc.Length && ne < |cq|
        invariant ne <= wc.Length && ne <= |cq| && cq == old(cq)
        invariant wc[..ne] == cq[..ne]
      {
        wc[ne] := cq[ne];
        ne := ne + 1;
      }
      cq := cq[ne..];
      stage := Running;
    }

    // ---- Stands for the device ----

    method CompleteOne(wc: Completion)
      requires Valid()
      modifies this`cq, this`armed, this`events
      ensures Valid() && View([]) == Complete(old(View([])), wc)
    {
      cq := cq + [wc];
      if armed { armed, events := false, events + 1; }
    }

    method ActDevice(ev: DeviceEvent)
      requires Valid()
      modifies this`cq, this`armed, this`events, this`posted, this`wire, this`buf, sq
      ensures Valid() && View([]) == DeviceAct(numQp, sc, old(View([])), ev)
    {
      var q := ev.q;
      ghost var e := View([]);
      if q < numQp {
        match ev
        case Sends(_) =>
          if sq[q] == Queued {
            sq[q] := Sent;
            assert sq[..numQp] == e.sq[q := Sent];
            wire := wire[q := wire[q] + [buf]];
          }
        case Departs(_) =>
          if wire[q] != [] { wire := wire[q := wire[q][1..]]; }
        case Acks(_) =>
          if sq[q] == Sent {
            sq[q] := Completed;
            assert sq[..numQp] == e.sq[q := Completed];
            CompleteOne(Completion(SEND_WRID, sc.qpns[q]));
          }
        case Arrives(_, m) =>
          if posted > 0 {
            posted, buf := posted - 1, m;
            CompleteOne(Completion(RECV_WRID, sc.qpns[q]));
          }
      }
    }

    method ActAll(evs: seq<DeviceEvent>)
      requires Valid()
      modifies this`cq, this`armed, this`events, this`posted, this`wire, this`buf, sq
      ensures Valid() && View([]) == Generated(numQp, sc, old(View([])), evs)
    {
      hide DeviceAct;
      var i := 0;
      while i < |evs|
        invariant Valid() && 0 <= i <= |evs|
        invariant Generated(numQp, sc, View([]), evs[i..]) == Generated(numQp, sc, old(View([])), evs)
      {
        assert evs[i..][1..] == evs[i + 1..];
        ActDevice(evs[i]);
        i := i + 1;
      }
    }

    // ---- The opening ----

    /** The client opens with one message on every queue pair. */
    method OpenClient(working: seq<seq<DeviceEvent>>) returns (ok: bool)
      requires Valid() && View([]) == InitialEndpoint(numQp, sc, Client)
      modifies this, pending, sq
      ensures Valid() && ok
      ensures View([]) == OpenAll(numQp, sc, InitialEndpoint(numQp, sc, Client), working)
    {
      hide PostFirst, Generated;
      var i, left := 0, working;
      if numQp == 0 { stage := Running; }
      while i < numQp
        invariant Valid() && 0 <= i <= numQp
        invariant OpenAll(numQp, sc, View([]), left) == OpenAll(numQp, sc, old(View([])), working)
        invariant stage == (if i < numQp then Starting(i) else Running)
        invariant FreeFrom(sq[..numQp], i)
      {
        ghost var e := View([]);
        GeneratedFrame(numQp, sc, e, First(left), []);
        GeneratedSlots(numQp, sc, e, First(left), i);
        ActAll(First(left));
        assert sq[..numQp][i] == Empty;
        var failed := OpenOne(i);
        if failed { return false; }
        i, left := i + 1, Rest(left);
      }
      ok := true;
    }

    // ---- The message loop ----

    /** The loop over the completions of one poll. */
    method ProcessBatch(wc: array<Completion>, ne: nat, working: seq<seq<DeviceEvent>>) returns (r: Result<()>)
      requires Valid() && ne <= wc.Length && (wc as object) != (pending as object) && (wc as object) != (sq as object)
      modifies this`scnt, this`rcnt, this`routs, this`posted, this`sent, this`got, pending, sq
      modifies this`cq, this`armed, this`events, this`wire, this`buf
      ensures Valid()
      ensures r.Ok? <==> ProcessAll(numQp, sc, old(View(wc[..ne])), working).Ok?
      ensures r.Ok? ==> View([]) == ProcessAll(numQp, sc, old(View(wc[..ne])), working).value
      ensures r.Err? ==> ProcessAll(numQp, sc, old(View(wc[..ne])), working) == Err(r.error)
    {
      hide ProcessOne, Generated;
      var i, left := 0, working;
      while i < ne
        invariant Valid() && 0 <= i <= ne && wc[..] == old(wc[..])
        invariant ProcessAll(numQp, sc, View(wc[i..ne]), left) == ProcessAll(numQp, sc, old(View(wc[..ne])), working)
      {
        ghost var e := View([]);
        ghost var rest := wc[i + 1..ne];
        assert wc[i..ne] == [wc[i]] + rest;
        ActAll(First(left));
        GeneratedFrame(numQp, sc, e, First(left), wc[i..ne]);
        ProcessOneBatch(numQp, sc, View([]), wc[i], rest);
        r := ProcessCompletion(wc[i]);
        if r.Err? { return; }
        i, left := i + 1, Rest(left);
      }
      assert wc[i..ne] == [];
      r := Ok(());
    }

    /** From the poll on. */
    method PollAndProcess(wc: array<Completion>, a: Activity) returns (r: Result<()>)
      requires Valid() && wc.Length == sc.numWc
      requires (wc as object) != (pending as object) && (wc as object) != (sq as object)
      modifies this, pending, sq, wc
      ensures Valid()
      ensures r.Ok? <==> PollRound(numQp, sc, old(View([])), a).Ok?
      ensures r.Ok? ==> View([]) == PollRound(numQp, sc, old(View([])), a).value
      ensures r.Err? ==> PollRound(numQp, sc, old(View([])), a) == Err(r.error)
    {
      hide ProcessAll, Generated, Poll;
      ActAll(a.polling);
      if !sc.useEvent && cq == [] { return Ok(()); }
      var ne := PollCompletions(wc);
      r := ProcessBatch(wc, ne, a.working);
    }

    /** One round: wait for an event and ask for the next one, poll, process. */
    method OneRound(wc: array<Completion>, a: Activity) returns (r: Result<()>)
      requires Valid() && wc.Length == sc.numWc
      requires (wc as object) != (pending as object) && (wc as object) != (sq as object)
      modifies this, pending, sq, wc
      ensures Valid()
      ensures r.Ok? <==> Round(numQp, sc, old(View([])), a).Ok?
      ensures r.Ok? ==> View([]) == Round(numQp, sc, old(View([])), a).value
      ensures r.Err? ==> Round(numQp, sc, old(View([])), a) == Err(r.error)
    {
      hide PollRound, Generated;
      ActAll(a.waiting);
      if sc.useEvent {
        if events == 0 { return Ok(()); }
        events, unacked, numCqEvents, stage := events - 1, unacked + 1, numCqEvents + 1, Woken;
        ActAll(a.rearming);
        armed, stage := true, Polling;
      }
      r := PollAndProcess(wc, a);
    }

    /** The message loop, watched for as many rounds as `activities` tells what the device does in.
        At its end all events received are acknowledged. */
    method MessageLoop(wc: array<Completion>, activities: seq<Activity>) returns (r: Result<()>)
      requires Valid() && wc.Length == sc.numWc
      requires (wc as object) != (pending as object) && (wc as object) != (sq as object)
      modifies this, pending, sq, wc
      ensures Valid()
      ensures r.Ok? <==> Loop(numQp, sc, old(View([])), activities).Ok?
      ensures r.Ok? ==> View([]) == Loop(numQp, sc, old(View([])), activities).value
      ensures r.Err? ==> Loop(numQp, sc, old(View([])), activities) == Err(r.error)
    {
      hide Round;
      var i := 0;
      while (rcnt < sc.iters || scnt < sc.iters) && i < |activities|
        invariant Valid() && 0 <= i <= |activities|
        invariant Loop(numQp, sc, View([]), activities[i..]) == Loop(numQp, sc, old(View([])), activities)
        decreases |activities| - i
      {
        assert activities[i..][1..] == activities[i + 1..];
        r := OneRound(wc, activities[i]);
        if r.Err? { return; }
        i := i + 1;
      }
      if rcnt >= sc.iters && scnt >= sc.iters {
        unacked, stage := unacked - numCqEvents, Left;
      }
      r := Ok(());
    }
  }
}
