/** The out-of-band handshake: two programs exchange records over a byte stream and bring their queue
    pairs from INIT through RTR to RTS. */
module Handshake {
  import opened Verbs
  import opened Gid
  import opened Record
  import opened Framing

  // ---- Queue pairs ----

  datatype QpState = INIT | RTR | RTS

  /** A destination that is reached through a global route carries a GID. */
  datatype Route = Subnet | Global(dgid: seq<Byte>)

  datatype Qp = Qp(state: QpState, destQpn: nat, rqPsn: nat, dlid: nat, route: Route, sqPsn: nat)

  /** `gid.global.interface_id`, the last eight bytes, is not zero. */
  predicate HasInterface(gid: seq<Byte>)
    requires |gid| == 16
  {
    exists i :: 8 <= i < 16 && gid[i] != 0
  }

  function RouteTo(gid: seq<Byte>): Route
    requires |gid| == 16
  {
    if HasInterface(gid) then Global(gid) else Subnet
  }

  /** `ibv_modify_qp` to RTR: only from INIT. */
  function ToRtr(qp: Qp, dest: Dest, route: Route): (r: Result<Qp>)
  {
    if qp.state == INIT then Ok(Qp(RTR, dest.qpn, dest.psn, dest.lid, route, qp.sqPsn)) else Err(CannotModifyQp)
  }

  /** `ibv_modify_qp` to RTS: only from RTR. */
  function ToRts(qp: Qp, psn: nat): (r: Result<Qp>)
  {
    if qp.state == RTR then Ok(qp.(state := RTS, sqPsn := psn)) else Err(CannotModifyQp)
  }

  /** A queue pair that sends from `mine` and expects `theirs`. */
  function Wired(mine: Dest, theirs: Dest, route: Route): Qp {
    Qp(RTS, theirs.qpn, theirs.psn, theirs.lid, route, mine.psn)
  }

  /** All queue pairs take their route from the first record. */
  function Connected(mine: seq<Dest>, theirs: seq<Dest>, n: nat): (r: seq<Qp>)
    requires |mine| == |theirs| >= n && (n > 0 ==> theirs[0].Shaped())
    ensures |r| == n
  {
    seq(n, i requires 0 <= i < n => Wired(mine[i], theirs[i], RouteTo(theirs[0].gid)))
  }

  /** Connects the queue pairs one after the other; a queue pair that has left INIT already stops it. */
  method ConnectAll(qps: array<Qp>, mine: seq<Dest>, theirs: seq<Dest>) returns (ok: bool)
    requires |mine| == |theirs| >= qps.Length && (qps.Length > 0 ==> theirs[0].Shaped())
    modifies qps
    ensures ok <==> forall i :: 0 <= i < qps.Length ==> old(qps[i].state) == INIT
    ensures ok ==> qps[..] == Connected(mine, theirs, qps.Length)
    ensures ok && qps.Length > 0 && (exists k :: 8 <= k < 16 && theirs[0].gid[k] != 0) ==>
      forall i :: 0 <= i < qps.Length ==> qps[i].route == Global(theirs[0].gid)
    ensures ok && qps.Length > 0 && (forall k :: 8 <= k < 16 ==> theirs[0].gid[k] == 0) ==>
      forall i :: 0 <= i < qps.Length ==> qps[i].route == Subnet
    ensures !ok ==> exists k ::
      && 0 <= k < qps.Length && old(qps[k].state) != INIT
      && (forall j :: 0 <= j < k ==> qps[j].state == RTS)
      && (forall j :: k <= j < qps.Length ==> qps[j] == old(qps[j]))
  {
    var i := 0;
    while i < qps.Length
      invariant 0 <= i <= qps.Length
      invariant forall k :: 0 <= k < i ==>
        old(qps[k].state) == INIT && qps[k] == Wired(mine[k], theirs[k], RouteTo(theirs[0].gid))
      invariant forall k :: i <= k < qps.Length ==> qps[k] == old(qps[k])
    {
      var receiving := ToRtr(qps[i], theirs[i], RouteTo(theirs[0].gid));
      if receiving.Err? { return false; }
      qps[i] := receiving.value;
      var sending := ToRts(qps[i], mine[i].psn);
      if sending.Err? { return false; }
      qps[i] := sending.value;
      i := i + 1;
    }
    ok := true;
  }

  // ---- The two programs ----

  datatype Kind = Client | PingPongServer | StreamServer

  datatype Action = PostReceives | WriteRecords | ReadRecords | Connect | WriteDone | ReadDone | Enter

  /** The number of actions of every program. */
  const LENGTH: nat := 6

  function Program(kind: Kind): (actions: seq<Action>)
    ensures |actions| == LENGTH
  {
    match kind
    case Client => [PostReceives, WriteRecords, ReadRecords, WriteDone, Connect, Enter]
    case PingPongServer => [PostReceives, ReadRecords, Connect, WriteRecords, ReadDone, Enter]
    case StreamServer => [ReadRecords, Connect, PostReceives, WriteRecords, ReadDone, Enter]
  }

  /** `sizeof "done"` bytes. */
  const DONE: string := "done" + [NUL]

  /** One program: its byte order, its records, its number of queue pairs. */
  datatype Setup = Setup(host: Endian, mine: seq<Dest>, queuePairs: nat)

  /** `loops`: the programs read records in the reassembly loop, as `srq_pingpong` does; the programs
      for one queue pair call `read` once and give up on less than a record. */
  datatype Pair = Pair(client: Setup, server: Setup, kind: Kind, loops: bool) {
    /** The looping programs exchange a record for every slot of their arrays, the others one; both
        sides use equally many queue pairs, and no more than that. */
    predicate Valid() {
      && (kind.PingPongServer? || (kind.StreamServer? && !loops))
      && AllValid(client.mine) && AllValid(server.mine)
      && |client.mine| == |server.mine| == (if loops then MAX_QP else 1)
      && client.queuePairs == server.queuePairs <= |client.mine|
    }
  }

  /** `taken`: all bytes read so far. `closed`: the program is done with the connection. `failed`: a
      record came short, and the program has given up. */
  datatype Local = Local(pc: nat, posted: bool, theirs: seq<Dest>, qps: seq<Qp>,
                         taken: string, closed: bool, failed: bool)

  /** One direction of the connection: bytes on their way, and bytes that a `read` would find. */
  datatype Pipe = Pipe(sent: string, arrived: string)

  datatype World = World(client: Local, server: Local, toServer: Pipe, toClient: Pipe)

  const BLANK: Dest := Dest(0, 0, 0, seq(16, _ => 0 as Byte))

  /** The record in one message, read over zeros. */
  function Decode(host: Endian, msg: string): (d: Dest)
    ensures d.Shaped()
  {
    match Parse(host, msg, BLANK, seq(33, _ => NUL), 0)
    case Understood(d) => d
    case Undefined => BLANK
  }

  /** `k` records from the front of the stream. */
  function DecodeAll(host: Endian, bytes: string, k: nat): (ds: seq<Dest>)
    requires |bytes| >= SIZE * k
    ensures |ds| == k && forall i :: 0 <= i < k ==> ds[i].Shaped()
  {
    if k == 0 then [] else DecodeAll(host, bytes, k - 1) + [Decode(host, bytes[SIZE * (k - 1)..SIZE * k])]
  }

  lemma {:induction false} DecodeStream(host: Endian, ds: seq<Dest>, bytes: string, k: nat)
    requires AllValid(ds) && k <= |ds| && Stream(ds) <= bytes && |bytes| >= SIZE * k
    ensures DecodeAll(host, bytes, k) == ds[..k]
  {
    hide Message, Parse, Stream, Decode;
    if k > 0 {
      DecodeStream(host, ds, bytes, k - 1);
      MessageAt(ds, bytes, k - 1);
      DecodeMessage(host, ds[k - 1]);
    }
  }

  lemma MessageAt(ds: seq<Dest>, bytes: string, k: nat)
    requires AllValid(ds) && k < |ds| && Stream(ds) <= bytes
    ensures |bytes| >= SIZE * (k + 1) && bytes[SIZE * k..SIZE * (k + 1)] == Message(ds[k])
  {
    hide Message, Stream;
    StreamPrefix(ds, k);
    StreamLength(ds[..k]);
    MessageFits(ds[k]);
    Between(Stream(ds[..k]), Message(ds[k]), bytes);
  }

  lemma Between(a: string, b: string, all: string)
    requires a + b <= all
    ensures all[|a|..|a| + |b|] == b
  {
    assert b == (a + b)[|a|..];
  }

  lemma DecodeMessage(host: Endian, d: Dest)
    requires d.Valid()
    ensures Decode(host, Message(d)) == d
  {
    hide Message, Parse;
    RoundTrip(host, d, BLANK, seq(33, _ => NUL), 0);
  }

  // ---- Moves ----

  /** A program together with its two directions of the connection. */
  datatype View = View(local: Local, inbox: Pipe, outbox: Pipe, peerClosed: bool)

  predicate Shape(s: Setup, l: Local) {
    l.pc <= LENGTH && |l.theirs| == |s.mine| && |l.qps| == s.queuePairs
    && forall i :: 0 <= i < |l.theirs| ==> l.theirs[i].Shaped()
  }

  /** `read` returns 0. */
  predicate AtEnd(v: View) { v.inbox == Pipe("", "") && v.peerClosed }

  /** A `read` waits until there is something to read or nothing more can come. At the end of the
      stream the reassembly loop reads for ever, which is no move. */
  predicate Ready(loops: bool, a: Action, v: View) {
    && !v.local.failed
    && (a == ReadRecords ==> v.inbox.arrived != "" || (AtEnd(v) && !loops))
    && (a == ReadDone ==> v.inbox.arrived != "" || AtEnd(v))
  }

  /** `read` with room for `max` bytes. */
  function Read(v: View, max: nat): (r: View)
    ensures r.local == v.local.(taken := r.local.taken) && r.outbox == v.outbox && r.inbox.sent == v.inbox.sent
    ensures r.local.taken + r.inbox.arrived == v.local.taken + v.inbox.arrived
  {
    var k := Taken(v.inbox.arrived, max);
    assert v.inbox.arrived == v.inbox.arrived[..k] + v.inbox.arrived[k..];
    v.(local := v.local.(taken := v.local.taken + v.inbox.arrived[..k]),
       inbox := v.inbox.(arrived := v.inbox.arrived[k..]))
  }

  /** One `read` of the records: into the rest of the current record, or a whole record at once. */
  function ReadSome(s: Setup, loops: bool, v: View): (r: View)
    requires Shape(s, v.local) && v.local.pc < LENGTH
    ensures Shape(s, r.local)
  {
    var u := Read(v, if loops then SIZE - |v.local.taken| % SIZE else SIZE);
    if |u.local.taken| >= SIZE * |s.mine| then
      u.(local := u.local.(pc := v.local.pc + 1, theirs := DecodeAll(s.host, u.local.taken, |s.mine|)))
    else if loops then u
    else u.(local := u.local.(failed := true, closed := true))
  }

  function Perform(s: Setup, loops: bool, a: Action, v: View): (r: View)
    requires AllValid(s.mine) && s.queuePairs <= |s.mine| && Shape(s, v.local)
    requires v.local.pc < LENGTH && Ready(loops, a, v)
    ensures Shape(s, r.local)
  {
    var l := v.local.(pc := v.local.pc + 1);
    match a
    case PostReceives => v.(local := l.(posted := true))
    case WriteRecords => v.(local := l, outbox := v.outbox.(sent := v.outbox.sent + Stream(s.mine)))
    case ReadRecords => ReadSome(s, loops, v)
    case Connect => v.(local := l.(qps := Connected(s.mine, l.theirs, s.queuePairs)))
    case WriteDone => v.(local := l.(closed := true), outbox := v.outbox.(sent := v.outbox.sent + DONE))
    case ReadDone => Read(v.(local := l.(closed := true)), SIZE)
    case Enter => v.(local := l)
  }

  /** A program acts, or the next `k` bytes of one direction arrive. */
  datatype Move = ByClient | ByServer | ToServerArrives(k: nat) | ToClientArrives(k: nat)

  function ClientView(w: World): View { View(w.client, w.toClient, w.toServer, w.server.closed) }

  function ServerView(w: World): View { View(w.server, w.toServer, w.toClient, w.client.closed) }

  predicate Well(p: Pair, w: World) { p.Valid() && Shape(p.client, w.client) && Shape(p.server, w.server) }

  predicate CanMove(p: Pair, w: World, m: Move)
    requires Well(p, w)
  {
    match m
    case ByClient => w.client.pc < LENGTH && Ready(p.loops, Program(Client)[w.client.pc], ClientView(w))
    case ByServer => w.server.pc < LENGTH && Ready(p.loops, Program(p.kind)[w.server.pc], ServerView(w))
    case ToServerArrives(k) => 0 < k <= |w.toServer.sent|
    case ToClientArrives(k) => 0 < k <= |w.toClient.sent|
  }

  function Arrive(pipe: Pipe, k: nat): (r: Pipe)
    requires k <= |pipe.sent|
    ensures r.arrived + r.sent == pipe.arrived + pipe.sent && |r.arrived| == |pipe.arrived| + k
  {
    assert pipe.sent == pipe.sent[..k] + pipe.sent[k..];
    Pipe(pipe.sent[k..], pipe.arrived + pipe.sent[..k])
  }

  function Step(p: Pair, w: World, m: Move): (r: World)
    requires Well(p, w) && CanMove(p, w, m)
    ensures Well(p, r)
  {
    match m
    case ByClient =>
      var v := Perform(p.client, p.loops, Program(Client)[w.client.pc], ClientView(w));
      World(v.local, w.server, v.outbox, v.inbox)
    case ByServer =>
      var v := Perform(p.server, p.loops, Program(p.kind)[w.server.pc], ServerView(w));
      World(w.client, v.local, v.inbox, v.outbox)
    case ToServerArrives(k) => w.(toServer := Arrive(w.toServer, k))
    case ToClientArrives(k) => w.(toClient := Arrive(w.toClient, k))
  }

  predicate Fresh(s: Setup, l: Local) {
    Shape(s, l) && l.pc == 0 && !l.posted && l.taken == "" && !l.closed && !l.failed
    && forall i :: 0 <= i < |l.qps| ==> l.qps[i].state == INIT
  }

  predicate Start(p: Pair, w: World) {
    && p.Valid() && Fresh(p.client, w.client) && Fresh(p.server, w.server)
    && w.toServer == Pipe("", "") && w.toClient == Pipe("", "")
  }

  /** The moves can be made one after the other. */
  predicate Run(p: Pair, w: World, moves: seq<Move>)
    requires Well(p, w)
    decreases |moves|
  {
    moves == [] || (CanMove(p, w, moves[0]) && Run(p, Step(p, w, moves[0]), moves[1..]))
  }

  function End(p: Pair, w: World, moves: seq<Move>): (r: World)
    requires Well(p, w) && Run(p, w, moves)
    ensures Well(p, r)
    decreases |moves|
  {
    if moves == [] then w else End(p, Step(p, w, moves[0]), moves[1..])
  }

  // ---- Invariant ----

  /** How many actions come before `a`. */
  function Before(kind: Kind, a: Action): nat {
    match (kind, a)
    case (Client, PostReceives) => 0
    case (Client, WriteRecords) => 1
    case (Client, ReadRecords) => 2
    case (Client, WriteDone) => 3
    case (Client, Connect) => 4
    case (PingPongServer, PostReceives) => 0
    case (PingPongServer, ReadRecords) => 1
    case (PingPongServer, Connect) => 2
    case (StreamServer, ReadRecords) => 0
    case (StreamServer, Connect) => 1
    case (StreamServer, PostReceives) => 2
    case (Client, ReadDone) => LENGTH
    case (_, WriteRecords) => 3
    case (_, ReadDone) => 4
    case (_, Enter) => 5
    case _ => LENGTH
  }

  predicate Did(kind: Kind, l: Local, a: Action) { Before(kind, a) < l.pc }

  /** All that a program has written. */
  function Written(kind: Kind, s: Setup, l: Local): string
    requires AllValid(s.mine)
  {
    (if Did(kind, l, WriteRecords) then Stream(s.mine) else "") + (if Did(kind, l, WriteDone) then DONE else "")
  }

  /** What one program has, given the records of the other. */
  predicate LocalInv(kind: Kind, loops: bool, s: Setup, l: Local, theirs: seq<Dest>)
    requires Shape(s, l) && |s.mine| == |theirs| >= s.queuePairs && AllValid(theirs)
  {
    && l.posted == Did(kind, l, PostReceives)
    && (l.pc < Before(kind, ReadRecords) ==> l.taken == "")
    && (Did(kind, l, ReadRecords) <==> |l.taken| >= SIZE * |s.mine|)
    && (Did(kind, l, ReadRecords) && !Did(kind, l, ReadDone) ==> |l.taken| == SIZE * |s.mine|)
    && (Did(kind, l, ReadRecords) ==> l.theirs == theirs)
    && (Did(kind, l, Connect) ==> l.qps == Connected(s.mine, theirs, s.queuePairs))
    && (!Did(kind, l, Connect) ==> forall i :: 0 <= i < |l.qps| ==> l.qps[i].state == INIT)
    && (l.failed ==> !loops && l.pc == Before(kind, ReadRecords))
    && (!l.failed && !loops && !Did(kind, l, ReadRecords) ==> l.taken == "")
    && (l.closed <==> l.failed || Did(kind, l, WriteDone) || Did(kind, l, ReadDone))
  }

  /** No byte is lost or made up, and who has waited for whom. */
  predicate WireInv(p: Pair, w: World)
    requires Well(p, w)
  {
    var c, s := w.client, w.server;
    && s.taken + (w.toServer.arrived + w.toServer.sent) == Written(Client, p.client, c)
    && c.taken + (w.toClient.arrived + w.toClient.sent) == Written(p.kind, p.server, s)
    && (Did(p.kind, s, ReadRecords) ==> Did(Client, c, WriteRecords))
    && (Did(Client, c, ReadRecords) ==> Did(p.kind, s, WriteRecords))
    && (Did(p.kind, s, ReadDone) ==> Did(Client, c, WriteDone) || c.failed)
  }

  predicate Inv(p: Pair, w: World) {
    && Well(p, w) && WireInv(p, w)
    && LocalInv(Client, p.loops, p.client, w.client, p.server.mine)
    && LocalInv(p.kind, p.loops, p.server, w.server, p.client.mine)
  }

  /** The records decoded from a complete read are those that were written. */
  lemma TakenRecords(host: Endian, ds: seq<Dest>, taken: string, rest: string, more: string)
    requires AllValid(ds) && taken + rest == Stream(ds) + more && |taken| == SIZE * |ds|
    ensures DecodeAll(host, taken, |ds|) == ds
  {
    hide Stream, DecodeAll;
    StreamLength(ds);
    assert taken == (taken + rest)[..SIZE * |ds|] == Stream(ds);
    DecodeStream(host, ds, taken, |ds|);
    assert ds[..|ds|] == ds;
  }

  /** A program that has read so many bytes has been sent the records. */
  lemma EnoughWritten(kind: Kind, s: Setup, l: Local, taken: string, rest: string)
    requires AllValid(s.mine) && |s.mine| > 0 && taken + rest == Written(kind, s, l)
    requires Before(kind, WriteRecords) < Before(kind, WriteDone)
    ensures |taken| >= SIZE * |s.mine| ==> Did(kind, l, WriteRecords)
    ensures Did(kind, l, WriteRecords) ==> |taken + rest| >= SIZE * |s.mine|
    ensures Did(kind, l, WriteRecords) ==> exists more :: Written(kind, s, l) == Stream(s.mine) + more
    ensures !Did(kind, l, WriteRecords) ==> taken + rest == ""
    ensures Did(kind, l, WriteDone) ==> |taken + rest| == SIZE * |s.mine| + |DONE|
    ensures !Did(kind, l, WriteDone) ==> |taken + rest| <= SIZE * |s.mine|
  {
    hide Stream;
    StreamLength(s.mine);
    if Did(kind, l, WriteRecords) {
      var more := if Did(kind, l, WriteDone) then DONE else "";
      assert Written(kind, s, l) == Stream(s.mine) + more;
    }
  }

  lemma RoomLeft(n: nat, k: nat)
    requires n < SIZE * k
    ensures n + (SIZE - n % SIZE) <= SIZE * k
  {
    assert n / SIZE < k;
  }

  lemma Regroup(a: string, b: string, c: string)
    ensures a + (b + c) == (a + b) + c
  {
  }

  /** The three outcomes of one `read` of records: all are there and they are those of the other
      side, more are to come, or a single read came short. */
  lemma ReadOutcome(s: Setup, loops: bool, v: View, other: Kind, o: Setup, ol: Local)
    requires AllValid(o.mine) && |s.mine| == |o.mine| > 0 && Shape(s, v.local) && v.local.pc < LENGTH
    requires |v.local.taken| < SIZE * |s.mine| && !v.local.failed && (!loops ==> |s.mine| == 1 && v.local.taken == "")
    requires Before(other, WriteRecords) < Before(other, WriteDone)
    requires v.local.taken + (v.inbox.arrived + v.inbox.sent) == Written(other, o, ol)
    ensures var r := ReadSome(s, loops, v);
      && r.local.taken + (r.inbox.arrived + r.inbox.sent) == Written(other, o, ol)
      && r.outbox == v.outbox && r.inbox.sent == v.inbox.sent
      && |r.local.taken| <= SIZE * |s.mine|
      && (|r.local.taken| == SIZE * |s.mine| ==>
            && Did(other, ol, WriteRecords)
            && r.local == v.local.(taken := r.local.taken, pc := v.local.pc + 1, theirs := o.mine))
      && (|r.local.taken| < SIZE * |s.mine| ==>
            r.local == v.local.(taken := r.local.taken, failed := !loops, closed := !loops || v.local.closed))
  {
    hide Stream, DecodeAll, Written, Did;
    var room := if loops then SIZE - |v.local.taken| % SIZE else SIZE;
    RoomLeft(|v.local.taken|, |s.mine|);
    var u := Read(v, room);
    Regroup(u.local.taken, u.inbox.arrived, u.inbox.sent);
    Regroup(v.local.taken, v.inbox.arrived, v.inbox.sent);
    assert |u.local.taken| <= SIZE * |s.mine|;
    if |u.local.taken| == SIZE * |s.mine| {
      EnoughWritten(other, o, ol, u.local.taken, u.inbox.arrived + u.inbox.sent);
      var more :| Written(other, o, ol) == Stream(o.mine) + more;
      TakenRecords(s.host, o.mine, u.local.taken, u.inbox.arrived + u.inbox.sent, more);
    }
  }

  lemma ClientReads(p: Pair, w: World)
    requires Inv(p, w) && w.client.pc == Before(Client, ReadRecords) && CanMove(p, w, ByClient)
    ensures Inv(p, Step(p, w, ByClient))
  {
    hide Stream, DecodeAll, Connected, ReadSome, Written;
    ReadOutcome(p.client, p.loops, ClientView(w), p.kind, p.server, w.server);
    SameWriter(Client, p.client, w.client, Step(p, w, ByClient).client);
  }

  lemma ServerReads(p: Pair, w: World)
    requires Inv(p, w) && w.server.pc == Before(p.kind, ReadRecords) && CanMove(p, w, ByServer)
    ensures Inv(p, Step(p, w, ByServer))
  {
    hide Stream, DecodeAll, Connected, ReadSome, Written;
    ReadOutcome(p.server, p.loops, ServerView(w), Client, p.client, w.client);
    SameWriter(p.kind, p.server, w.server, Step(p, w, ByServer).server);
  }

  lemma SameWriter(kind: Kind, s: Setup, l: Local, l': Local)
    requires AllValid(s.mine) && l.pc <= l'.pc <= l.pc + 1
    requires l.pc != Before(kind, WriteRecords) && l.pc != Before(kind, WriteDone)
    ensures Written(kind, s, l') == Written(kind, s, l)
  {
    hide Stream;
  }

  /** What an action other than a read adds to what the program has written. */
  lemma Writes(kind: Kind, s: Setup, l: Local, l': Local, taken: string, pipe: Pipe)
    requires AllValid(s.mine) && l'.pc == l.pc + 1 && taken + (pipe.arrived + pipe.sent) == Written(kind, s, l)
    requires Before(kind, WriteRecords) < Before(kind, WriteDone)
    ensures l.pc == Before(kind, WriteRecords) ==>
      taken + (pipe.arrived + (pipe.sent + Stream(s.mine))) == Written(kind, s, l')
    ensures l.pc == Before(kind, WriteDone) ==> taken + (pipe.arrived + (pipe.sent + DONE)) == Written(kind, s, l')
    ensures l.pc != Before(kind, WriteRecords) && l.pc != Before(kind, WriteDone) ==>
      Written(kind, s, l') == Written(kind, s, l)
  {
    hide Stream;
    Behind(taken, pipe.arrived, pipe.sent, Stream(s.mine));
    Behind(taken, pipe.arrived, pipe.sent, DONE);
  }

  lemma Behind(a: string, b: string, c: string, d: string)
    ensures a + (b + (c + d)) == (a + (b + c)) + d
  {
  }

  /** The other actions of a program. */
  lemma ClientActs(p: Pair, w: World)
    requires Inv(p, w) && w.client.pc != Before(Client, ReadRecords) && CanMove(p, w, ByClient)
    ensures Inv(p, Step(p, w, ByClient))
  {
    hide Stream, DecodeAll, Connected, Written;
    Writes(Client, p.client, w.client, Step(p, w, ByClient).client, w.server.taken, w.toServer);
  }

  lemma ServerActs(p: Pair, w: World)
    requires Inv(p, w) && w.server.pc < LENGTH - 2 && w.server.pc != Before(p.kind, ReadRecords)
    requires CanMove(p, w, ByServer)
    ensures Inv(p, Step(p, w, ByServer))
  {
    hide Stream, DecodeAll, Connected, Written;
    Writes(p.kind, p.server, w.server, Step(p, w, ByServer).server, w.client.taken, w.toClient);
  }

  /** The last read finds something that the client wrote after the records, or its end. */
  lemma ServerEnds(p: Pair, w: World)
    requires Inv(p, w) && w.server.pc >= LENGTH - 2 && CanMove(p, w, ByServer)
    ensures Inv(p, Step(p, w, ByServer))
  {
    hide Stream, DecodeAll, Connected, Written;
    var r := Step(p, w, ByServer);
    Writes(p.kind, p.server, w.server, r.server, w.client.taken, w.toClient);
    EnoughWritten(Client, p.client, w.client, w.server.taken, w.toServer.arrived + w.toServer.sent);
    Regroup(w.server.taken, w.toServer.arrived, w.toServer.sent);
    Regroup(r.server.taken, r.toServer.arrived, r.toServer.sent);
  }

  lemma Arrives(p: Pair, w: World, m: Move)
    requires Inv(p, w) && !m.ByClient? && !m.ByServer? && CanMove(p, w, m)
    ensures Inv(p, Step(p, w, m))
  {
    hide Stream, LocalInv, Did, Written;
  }

  lemma StepInv(p: Pair, w: World, m: Move)
    requires Inv(p, w) && CanMove(p, w, m)
    ensures Inv(p, Step(p, w, m))
  {
    hide Inv, Step, CanMove;
    match m
    case ByClient => if w.client.pc == Before(Client, ReadRecords) { ClientReads(p, w); } else { ClientActs(p, w); }
    case ByServer =>
      if w.server.pc == Before(p.kind, ReadRecords) { ServerReads(p, w); }
      else if w.server.pc < LENGTH - 2 { ServerActs(p, w); } else { ServerEnds(p, w); }
    case _ => Arrives(p, w, m);
  }

  lemma {:induction false} RunInv(p: Pair, w: World, moves: seq<Move>)
    requires Inv(p, w) && Run(p, w, moves)
    ensures Inv(p, End(p, w, moves))
    decreases |moves|
  {
    hide LocalInv, WireInv, CanMove;
    if moves != [] {
      StepInv(p, w, moves[0]);
      RunInv(p, Step(p, w, moves[0]), moves[1..]);
    }
  }

  lemma StartInv(p: Pair, w: World)
    requires Start(p, w)
    ensures Inv(p, w)
  {
    hide Stream, Connected;
  }

  // ---- Progress ----

  /** Grows with every move. */
  function Progress(w: World): nat {
    w.client.pc + w.server.pc + Bit(w.client.failed) + Bit(w.server.failed)
    + 2 * |w.server.taken| + |w.toServer.arrived| + 2 * |w.client.taken| + |w.toClient.arrived|
  }

  lemma ActionProgress(s: Setup, loops: bool, a: Action, v: View)
    requires AllValid(s.mine) && s.queuePairs <= |s.mine| && Shape(s, v.local)
    requires v.local.pc < LENGTH && Ready(loops, a, v)
    ensures var r := Perform(s, loops, a, v);
      && r.local.pc + Bit(r.local.failed) + 2 * |r.local.taken| + |r.inbox.arrived|
           > v.local.pc + Bit(v.local.failed) + 2 * |v.local.taken| + |v.inbox.arrived|
      && r.outbox.arrived == v.outbox.arrived
  {
    hide Stream, DecodeAll, Connected;
  }

  lemma StepProgress(p: Pair, w: World, m: Move)
    requires Inv(p, w) && CanMove(p, w, m)
    ensures Progress(Step(p, w, m)) > Progress(w)
  {
    hide LocalInv, WireInv, Perform;
    match m
    case ByClient => ActionProgress(p.client, p.loops, Program(Client)[w.client.pc], ClientView(w));
    case ByServer => ActionProgress(p.server, p.loops, Program(p.kind)[w.server.pc], ServerView(w));
    case _ =>
  }

  /** The most that `Progress` can come to. */
  function Limit(p: Pair): nat { 2 * LENGTH + 2 * (SIZE * |p.client.mine| + |DONE|) + 2 * SIZE * |p.server.mine| }

  lemma ProgressLimit(p: Pair, w: World)
    requires Inv(p, w)
    ensures Progress(w) <= Limit(p)
  {
    hide Stream, Connected, Written;
    EnoughWritten(Client, p.client, w.client, w.server.taken, w.toServer.arrived + w.toServer.sent);
    EnoughWritten(p.kind, p.server, w.server, w.client.taken, w.toClient.arrived + w.toClient.sent);
  }

  lemma {:induction false} RunProgress(p: Pair, w: World, moves: seq<Move>)
    requires Inv(p, w) && Run(p, w, moves)
    ensures |moves| + Progress(w) <= Limit(p)
    decreases |moves|
  {
    hide LocalInv, WireInv, CanMove, Progress, Limit;
    if moves == [] {
      ProgressLimit(p, w);
    } else {
      StepProgress(p, w, moves[0]);
      StepInv(p, w, moves[0]);
      RunProgress(p, Step(p, w, moves[0]), moves[1..]);
    }
  }

  predicate NoneFailed(w: World) { !w.client.failed && !w.server.failed }

  predicate BothThrough(w: World) { w.client.pc == LENGTH && w.server.pc == LENGTH }

  /** No program can act and nothing is on its way. */
  predicate AtRest(p: Pair, w: World)
    requires Well(p, w)
  {
    !CanMove(p, w, ByClient) && !CanMove(p, w, ByServer) && w.toServer.sent == "" && w.toClient.sent == ""
  }

  lemma AtRestIsMaximal(p: Pair, w: World)
    requires Well(p, w)
    ensures AtRest(p, w) <==> forall m :: !CanMove(p, w, m)
  {
    if w.toServer.sent != "" { assert CanMove(p, w, ToServerArrives(1)); }
    if w.toClient.sent != "" { assert CanMove(p, w, ToClientArrives(1)); }
  }

  /** Unless a program has failed, neither waits for ever. */
  lemma RestIsThrough(p: Pair, w: World)
    requires Inv(p, w) && NoneFailed(w) && AtRest(p, w)
    ensures BothThrough(w)
  {
    hide Stream, Connected, Written;
    EnoughWritten(Client, p.client, w.client, w.server.taken, w.toServer.arrived + w.toServer.sent);
    EnoughWritten(p.kind, p.server, w.server, w.client.taken, w.toClient.arrived + w.toClient.sent);
  }

  // ---- Short reads ----

  /** The move is a `read` of records that finds less than a record. */
  predicate ReadsShort(p: Pair, w: World, m: Move)
    requires Well(p, w)
  {
    || (m.ByClient? && w.client.pc == Before(Client, ReadRecords) && |w.toClient.arrived| < SIZE)
    || (m.ByServer? && w.server.pc == Before(p.kind, ReadRecords) && |w.toServer.arrived| < SIZE)
  }

  predicate FullReads(p: Pair, w: World, moves: seq<Move>)
    requires Well(p, w) && Run(p, w, moves)
    decreases |moves|
  {
    moves == [] || (!ReadsShort(p, w, moves[0]) && FullReads(p, Step(p, w, moves[0]), moves[1..]))
  }

  /** A single `read` of the record that finds less ends the program. */
  lemma ActionFails(s: Setup, a: Action, v: View)
    requires AllValid(s.mine) && s.queuePairs <= |s.mine| == 1 && Shape(s, v.local)
    requires v.local.pc < LENGTH && Ready(false, a, v)
    requires a == ReadRecords ==> v.local.taken == ""
    ensures Perform(s, false, a, v).local.failed <==> a == ReadRecords && |v.inbox.arrived| < SIZE
  {
    hide Stream, DecodeAll, Connected;
  }

  lemma ShortReadFails(p: Pair, w: World, m: Move)
    requires Inv(p, w) && CanMove(p, w, m) && !p.loops
    ensures NoneFailed(Step(p, w, m)) <==> NoneFailed(w) && !ReadsShort(p, w, m)
  {
    hide Stream, DecodeAll, Connected, Written, WireInv, Perform;
    match m
    case ByClient => ActionFails(p.client, Program(Client)[w.client.pc], ClientView(w));
    case ByServer => ActionFails(p.server, Program(p.kind)[w.server.pc], ServerView(w));
    case _ =>
  }

  lemma {:induction false} FailedIff(p: Pair, w: World, moves: seq<Move>)
    requires Inv(p, w) && Run(p, w, moves) && !p.loops
    ensures NoneFailed(End(p, w, moves)) <==> NoneFailed(w) && FullReads(p, w, moves)
    decreases |moves|
  {
    hide LocalInv, WireInv, CanMove, NoneFailed, ReadsShort;
    if moves != [] {
      ShortReadFails(p, w, moves[0]);
      StepInv(p, w, moves[0]);
      FailedIff(p, Step(p, w, moves[0]), moves[1..]);
    }
  }

  lemma ThroughNeverFailed(p: Pair, w: World)
    requires Inv(p, w)
    ensures p.loops || BothThrough(w) ==> NoneFailed(w)
  {
    hide Stream, Connected, WireInv;
  }

  // ---- Results ----

  /** Queue pair `i` of each side is ready to send, sends to the other's number with the sequence
      number that the other expects, and goes to the other's port. */
  predicate CrossWired(p: Pair, w: World, i: nat)
    requires Well(p, w) && i < p.client.queuePairs
  {
    var c, s := w.client.qps[i], w.server.qps[i];
    && c.state == RTS && c.destQpn == p.server.mine[i].qpn && c.rqPsn == s.sqPsn && c.dlid == p.server.mine[i].lid
    && s.state == RTS && s.destQpn == p.client.mine[i].qpn && s.rqPsn == c.sqPsn && s.dlid == p.client.mine[i].lid
    && c.sqPsn == p.client.mine[i].psn && s.sqPsn == p.server.mine[i].psn
  }

  /** The records of the queue pairs in use name one GID, as `main` fills them in. */
  predicate OneGid(s: Setup)
    requires AllValid(s.mine) && s.queuePairs <= |s.mine|
  {
    forall i :: 0 <= i < s.queuePairs ==> s.mine[i].gid == s.mine[0].gid
  }

  /** The handshake ends, and how: every run is finite, and when no move is left both programs are
      through if they read in a loop, and otherwise if and only if every `read` of a record found
      all of it. */
  lemma HandshakeCompletes(p: Pair, w: World, moves: seq<Move>)
    requires Start(p, w) && Run(p, w, moves)
    ensures |moves| <= 2 * 6 + 2 * (52 * |p.client.mine| + 5) + 2 * 52 * |p.server.mine|
    ensures (forall m :: !CanMove(p, End(p, w, moves), m)) ==>
      (BothThrough(End(p, w, moves)) <==> p.loops || FullReads(p, w, moves))
  {
    hide LocalInv, WireInv, Run, End, FullReads, AtRest, NoneFailed, BothThrough, CanMove;
    StartInv(p, w);
    RunInv(p, w, moves);
    RunProgress(p, w, moves);
    var e := End(p, w, moves);
    ThroughNeverFailed(p, e);
    NoneFailedAtStart(p, w);
    AtRestIsMaximal(p, e);
    if !p.loops { FailedIff(p, w, moves); }
    if NoneFailed(e) && AtRest(p, e) { RestIsThrough(p, e); }
  }

  lemma NoneFailedAtStart(p: Pair, w: World)
    requires Start(p, w)
    ensures NoneFailed(w)
  {
  }

  /** When the client is about to send for the first time, the server has posted its receives and
      every queue pair of both sides is wired to its counterpart, whichever server program runs and
      however the two programs are interleaved. */
  lemma FirstSendIsSafe(p: Pair, w: World, moves: seq<Move>, i: nat)
    requires Start(p, w) && Run(p, w, moves) && i < p.client.queuePairs
    requires Did(Client, End(p, w, moves).client, Connect)
    ensures End(p, w, moves).server.posted && End(p, w, moves).client.posted
    ensures CrossWired(p, End(p, w, moves), i)
  {
    hide Stream, Run, End;
    StartInv(p, w);
    RunInv(p, w, moves);
    Wiring(p, End(p, w, moves), i);
  }

  lemma Wiring(p: Pair, w: World, i: nat)
    requires Inv(p, w) && i < p.client.queuePairs && Did(Client, w.client, Connect)
    ensures w.server.posted && w.client.posted && CrossWired(p, w, i)
  {
    hide Stream;
  }

  /** The numbers of the queue pairs in use. */
  function Numbers(s: Setup): (qpns: seq<int>)
    requires s.queuePairs <= |s.mine|
    ensures |qpns| == s.queuePairs
  {
    seq(s.queuePairs, i requires 0 <= i < s.queuePairs => s.mine[i].qpn)
  }

  /** A message sent on queue pair `i` of either side arrives at queue pair `i` of the other: the
      destination number names that one, the numbers of a side being distinct. */
  lemma ArrivesAtCounterpart(p: Pair, w: World, moves: seq<Move>, i: nat)
    requires Start(p, w) && Run(p, w, moves) && i < p.client.queuePairs
    requires Distinct(Numbers(p.client)) && Distinct(Numbers(p.server))
    requires Did(Client, End(p, w, moves).client, Connect)
    ensures FindQp(Numbers(p.server), End(p, w, moves).client.qps[i].destQpn) == i
    ensures FindQp(Numbers(p.client), End(p, w, moves).server.qps[i].destQpn) == i
  {
    hide Run, End;
    FirstSendIsSafe(p, w, moves, i);
    FindQpUnique(Numbers(p.server), i);
    FindQpUnique(Numbers(p.client), i);
  }

  /** The route taken from the first record is right for every queue pair, one GID being used for
      all of them: it is global, with the other side's GID, exactly when the interface id of that GID,
      its last eight bytes, is not zero. */
  lemma RoutesMatch(p: Pair, w: World, moves: seq<Move>, i: nat)
    requires Start(p, w) && Run(p, w, moves) && i < p.client.queuePairs && OneGid(p.client) && OneGid(p.server)
    requires Did(Client, End(p, w, moves).client, Connect)
    ensures var qp, gid := End(p, w, moves).client.qps[i], p.server.mine[i].gid;
      && ((exists k :: 8 <= k < 16 && gid[k] != 0) ==> qp.route == Global(gid))
      && ((forall k :: 8 <= k < 16 ==> gid[k] == 0) ==> qp.route == Subnet)
    ensures var qp, gid := End(p, w, moves).server.qps[i], p.client.mine[i].gid;
      && ((exists k :: 8 <= k < 16 && gid[k] != 0) ==> qp.route == Global(gid))
      && ((forall k :: 8 <= k < 16 ==> gid[k] == 0) ==> qp.route == Subnet)
  {
    hide Stream, Run, End, RouteTo;
    StartInv(p, w);
    RunInv(p, w, moves);
    RouteOf(p.server.mine[i].gid);
    RouteOf(p.client.mine[i].gid);
  }

  lemma RouteOf(gid: seq<Byte>)
    requires |gid| == 16
    ensures (exists k :: 8 <= k < 16 && gid[k] != 0) ==> RouteTo(gid) == Global(gid)
    ensures (forall k :: 8 <= k < 16 ==> gid[k] == 0) ==> RouteTo(gid) == Subnet
  {
  }

  lemma {:induction false} RunExtend(p: Pair, w: World, moves: seq<Move>, m: Move)
    requires Well(p, w) && Run(p, w, moves) && CanMove(p, End(p, w, moves), m)
    ensures Run(p, w, moves + [m]) && End(p, w, moves + [m]) == Step(p, End(p, w, moves), m)
    decreases |moves|
  {
    hide Step, CanMove;
    if moves == [] {
      assert [m][1..] == [];
    } else {
      assert (moves + [m])[1..] == moves[1..] + [m];
      RunExtend(p, Step(p, w, moves[0]), moves[1..], m);
    }
  }

  /** The state after a run and one more move. */
  lemma Next(p: Pair, w: World, moves: seq<Move>, m: Move) returns (longer: seq<Move>, e: World)
    requires Well(p, w) && Run(p, w, moves) && CanMove(p, End(p, w, moves), m)
    ensures Run(p, w, longer) && e == End(p, w, longer) == Step(p, End(p, w, moves), m)
  {
    hide Step, CanMove, Run, End;
    RunExtend(p, w, moves, m);
    longer, e := moves + [m], Step(p, End(p, w, moves), m);
  }

  /** The server is about to read, nothing of the client's record has arrived yet. */
  lemma ServerAboutToRead(p: Pair, w: World) returns (moves: seq<Move>, e: World)
    requires Start(p, w) && !p.loops
    ensures Run(p, w, moves) && e == End(p, w, moves)
    ensures e.server.pc == Before(p.kind, ReadRecords) && e.server.taken == "" && !e.server.closed && !e.server.failed
    ensures e.client.pc == 2 && e.client.taken == "" && !e.client.closed && !e.client.failed
    ensures e.toServer == Pipe(Stream(p.client.mine), "") && e.toClient == Pipe("", "")
  {
    hide Stream, Run, End;
    moves, e := [], w;
    assert Run(p, w, moves) && End(p, w, moves) == w by { Empty(p, w); }
    moves, e := Next(p, w, moves, ByClient);
    moves, e := Next(p, w, moves, ByClient);
    if p.kind == PingPongServer { moves, e := Next(p, w, moves, ByServer); }
  }

  lemma Empty(p: Pair, w: World)
    requires Well(p, w)
    ensures Run(p, w, []) && End(p, w, []) == w
  {
  }

  /** A first piece of one byte: both programs that read once give up. */
  lemma ShortFirstPiece(p: Pair, w: World) returns (moves: seq<Move>)
    requires Start(p, w) && !p.loops
    ensures Run(p, w, moves) && End(p, w, moves).client.failed && End(p, w, moves).server.failed
  {
    hide Stream, Run, End;
    StreamLength(p.client.mine);
    var e;
    moves, e := ServerAboutToRead(p, w);
    moves, e := Next(p, w, moves, ToServerArrives(1));
    moves, e := Next(p, w, moves, ByServer);
    moves, e := Next(p, w, moves, ByClient);
  }

  /** The server has read the record and replied. */
  lemma ServerReplied(p: Pair, w: World) returns (moves: seq<Move>, e: World)
    requires Start(p, w) && !p.loops
    ensures Run(p, w, moves) && e == End(p, w, moves)
    ensures e.server.pc == Before(p.kind, ReadDone) && !e.server.closed && !e.server.failed
    ensures e.client.pc == 2 && e.client.taken == "" && !e.client.closed && !e.client.failed
    ensures e.toServer == Pipe("", "") && e.toClient == Pipe(Stream(p.server.mine), "")
  {
    hide Stream, Run, End, DecodeAll, Connected;
    StreamLength(p.client.mine);
    moves, e := ServerAboutToRead(p, w);
    moves, e := Next(p, w, moves, ToServerArrives(SIZE));
    moves, e := Next(p, w, moves, ByServer);
    moves, e := Next(p, w, moves, ByServer);
    if p.kind == StreamServer { moves, e := Next(p, w, moves, ByServer); }
    moves, e := Next(p, w, moves, ByServer);
  }

  /** The reply comes in two pieces: the client gives up, and the server, which does not look at what
      its last `read` returns, enters its message loop alone. */
  lemma ServerAlone(p: Pair, w: World) returns (moves: seq<Move>)
    requires Start(p, w) && !p.loops
    ensures Run(p, w, moves) && End(p, w, moves).client.failed && End(p, w, moves).server.pc == LENGTH
  {
    hide Stream, Run, End;
    StreamLength(p.server.mine);
    var e;
    moves, e := ServerReplied(p, w);
    moves, e := Next(p, w, moves, ToClientArrives(1));
    moves, e := Next(p, w, moves, ByClient);
    moves, e := Next(p, w, moves, ByServer);
    moves, e := Next(p, w, moves, ByServer);
  }

  /** When the server enters its message loop it has the client's records; the client has the
      server's if and only if it did not fail, which the server does not check. */
  lemma RecordsExchanged(p: Pair, w: World, moves: seq<Move>)
    requires Start(p, w) && Run(p, w, moves) && Did(p.kind, End(p, w, moves).server, ReadDone)
    ensures var e := End(p, w, moves);
      && e.server.theirs == p.client.mine
      && (Did(Client, e.client, ReadRecords) <==> !e.client.failed)
      && (!e.client.failed ==> e.client.theirs == p.server.mine)
  {
    hide Stream, Run, End;
    StartInv(p, w);
    RunInv(p, w, moves);
  }

  /** What the order of the programs comes to, on what can be observed: receives are posted before a
      record is written; the client says that it is done before it connects its queue pairs; one server
      posts its receives before it looks at the connection, the other after it has connected. */
  lemma OrderOfActions(p: Pair, w: World, moves: seq<Move>)
    requires Start(p, w) && Run(p, w, moves) && p.client.queuePairs > 0
    ensures var e := End(p, w, moves);
      && (e.server.taken + e.toServer.arrived + e.toServer.sent != "" ==> e.client.posted)
      && (e.client.taken + e.toClient.arrived + e.toClient.sent != ""
          ==> e.server.posted && e.server.qps[0].state == RTS)
      && (e.client.qps[0].state == RTS ==> e.client.closed && !e.client.failed)
      && (p.kind.PingPongServer? && e.server.taken != "" ==> e.server.posted)
      && (p.kind.StreamServer? && e.server.posted ==> e.server.qps[0].state == RTS)
  {
    hide Stream, Run, End;
    StartInv(p, w);
    RunInv(p, w, moves);
    Observed(p, End(p, w, moves));
  }

  lemma Observed(p: Pair, e: World)
    requires Inv(p, e) && p.client.queuePairs > 0
    ensures e.server.taken + e.toServer.arrived + e.toServer.sent != "" ==> e.client.posted
    ensures e.client.taken + e.toClient.arrived + e.toClient.sent != ""
      ==> e.server.posted && e.server.qps[0].state == RTS
    ensures e.client.qps[0].state == RTS ==> e.client.closed && !e.client.failed
    ensures p.kind.PingPongServer? && e.server.taken != "" ==> e.server.posted
    ensures p.kind.StreamServer? && e.server.posted ==> e.server.qps[0].state == RTS
  {
    hide Stream;
    EnoughWritten(Client, p.client, e.client, e.server.taken, e.toServer.arrived + e.toServer.sent);
    EnoughWritten(p.kind, p.server, e.server, e.client.taken, e.toClient.arrived + e.toClient.sent);
    Regroup(e.server.taken, e.toServer.arrived, e.toServer.sent);
    Regroup(e.client.taken, e.toClient.arrived, e.toClient.sent);
  }

  /** Everything that was written when both programs are through, read or not. */
  lemma BytesExchanged(p: Pair, w: World, moves: seq<Move>)
    requires Start(p, w) && Run(p, w, moves) && BothThrough(End(p, w, moves))
    ensures var e := End(p, w, moves);
      && e.server.taken + e.toServer.arrived + e.toServer.sent == Stream(p.client.mine) + "done\0"
      && e.client.taken + e.toClient.arrived + e.toClient.sent == Stream(p.server.mine)
  {
    hide Stream, Run, End;
    StartInv(p, w);
    RunInv(p, w, moves);
    var e := End(p, w, moves);
    Regroup(e.server.taken, e.toServer.arrived, e.toServer.sent);
    Regroup(e.client.taken, e.toClient.arrived, e.toClient.sent);
  }

  /** With single reads the server has entered alone exactly if some `read` of a record was short. */
  lemma ServerAloneIff(p: Pair, w: World, moves: seq<Move>)
    requires Start(p, w) && Run(p, w, moves) && !p.loops && Did(p.kind, End(p, w, moves).server, ReadDone)
    ensures End(p, w, moves).client.failed <==> !FullReads(p, w, moves)
  {
    hide Stream, Run, End, FullReads;
    StartInv(p, w);
    RunInv(p, w, moves);
    NoneFailedAtStart(p, w);
    FailedIff(p, w, moves);
  }

  /** The records of one side: one for every queue pair, the rest zero. */
  method LocalRecords(qpns: seq<nat>, random: seq<nat>, lid: nat, gid: seq<Byte>, count: nat)
    returns (mine: array<Dest>)
    requires |qpns| == |random| <= count && lid < 0x1_0000 && |gid| == 16
    requires forall i :: 0 <= i < |qpns| ==> qpns[i] < 0x100_0000
    ensures fresh(mine) && mine.Length == count && AllValid(mine[..])
    ensures forall i :: 0 <= i < |qpns| ==> mine[i].qpn == qpns[i] && mine[i].lid == lid && mine[i].gid == gid
    ensures forall i :: 0 <= i < |qpns| ==> mine[i].psn == random[i] % 0x100_0000
    ensures forall i :: |qpns| <= i < count ==> mine[i] == BLANK
  {
    mine := new Dest[count](_ => BLANK);
    var i := 0;
    while i < |qpns|
      invariant 0 <= i <= |qpns|
      invariant forall k :: 0 <= k < i ==> mine[k].Valid() && mine[k].qpn == qpns[k]
      invariant forall k :: 0 <= k < i ==> mine[k].lid == lid && mine[k].gid == gid
      invariant forall k :: 0 <= k < i ==> mine[k].psn == random[k] % 0x100_0000
      invariant forall k :: i <= k < count ==> mine[k] == BLANK
    {
      mine[i] := Dest(lid, qpns[i], random[i] % 0x100_0000, gid);
      i := i + 1;
    }
  }
}
