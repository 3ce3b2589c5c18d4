/** Records over a byte stream that arrives in pieces of any size. */
module Framing {
  import opened Verbs
  import opened Hex
  import opened Gid
  import opened Record

  function Flatten(pieces: seq<string>): string {
    if pieces == [] then "" else pieces[0] + Flatten(pieces[1..])
  }

  predicate AllValid(ds: seq<Dest>) { forall i :: 0 <= i < |ds| ==> ds[i].Valid() }

  /** The bytes of a list of records. */
  function Stream(ds: seq<Dest>): (s: string)
    requires AllValid(ds)
  {
    if ds == [] then "" else Stream(ds[..|ds| - 1]) + Message(ds[|ds| - 1])
  }

  lemma {:induction false} StreamLength(ds: seq<Dest>)
    requires AllValid(ds)
    ensures |Stream(ds)| == SIZE * |ds|
  {
    hide Message;
    if ds != [] {
      StreamLength(ds[..|ds| - 1]);
      MessageFits(ds[|ds| - 1]);
    }
  }

  lemma {:induction false} StreamPrefix(ds: seq<Dest>, k: nat)
    requires AllValid(ds) && k < |ds|
    ensures Stream(ds[..k]) + Message(ds[k]) <= Stream(ds)
  {
    hide Message;
    if k < |ds| - 1 {
      StreamPrefix(ds[..|ds| - 1], k);
      assert ds[..|ds| - 1][..k] == ds[..k];
    }
  }

  // ---- The reassembly loop ----

  /** What `read` returns once everything has been read: 0 after the other side has closed the
      connection, -1 on a broken one. */
  datatype Ending = Closed | Broken

  /** `Reading`: still in the loop. `Unreadable`: a message whose text has no defined meaning. */
  datatype Status = Reading | Complete | Failed | Unreadable

  /** The loop between two calls of `read`: the bytes in the buffer and the pieces to come. */
  datatype Fill = Fill(got: string, pieces: seq<string>, status: Status)

  predicate AllNonEmpty(pieces: seq<string>) { forall i :: 0 <= i < |pieces| ==> pieces[i] != "" }

  function LeftOver(pieces: seq<string>, r: nat): (left: seq<string>)
    requires AllNonEmpty(pieces) && pieces != [] && r <= |pieces[0]|
    ensures AllNonEmpty(left) && pieces[0][..r] + Flatten(left) == Flatten(pieces)
  {
    assert pieces[0] == pieces[0][..r] + pieces[0][r..];
    if r < |pieces[0]| then [pieces[0][r..]] + pieces[1..] else pieces[1..]
  }

  function Taken(piece: string, room: nat): nat { if |piece| < room then |piece| else room }

  predicate InLoop(f: Fill) {
    AllNonEmpty(f.pieces) && |f.got| <= SIZE && (f.status == Complete <==> |f.got| == SIZE) && f.status != Unreadable
  }

  /** One call of `read`, and the test of its result. */
  function ReadStep(ending: Ending, f: Fill): (r: Fill)
    requires InLoop(f) && f.status == Reading
    ensures InLoop(r) && r.got + Flatten(r.pieces) == f.got + Flatten(f.pieces)
  {
    if f.pieces == [] then (if ending == Closed then f else f.(status := Failed))
    else
      var r := Taken(f.pieces[0], SIZE - |f.got|);
      var got := f.got + f.pieces[0][..r];
      Fill(got, LeftOver(f.pieces, r), if |got| == SIZE then Complete else Reading)
  }

  /** The loop after at most `watch` calls. */
  function Watched(ending: Ending, f: Fill, watch: nat): (r: Fill)
    requires InLoop(f)
    ensures InLoop(r) && r.got + Flatten(r.pieces) == f.got + Flatten(f.pieces)
    decreases watch
  {
    if watch == 0 || f.status != Reading then f else Watched(ending, ReadStep(ending, f), watch - 1)
  }

  lemma WatchedNext(ending: Ending, f: Fill, watch: nat)
    requires InLoop(f) && f.status == Reading && watch > 0
    ensures Watched(ending, f, watch) == Watched(ending, ReadStep(ending, f), watch - 1)
    ensures f.pieces == [] && ending == Closed ==> ReadStep(ending, f) == f
    ensures f.pieces == [] && ending == Broken ==> ReadStep(ending, f) == f.(status := Failed)
    ensures f.pieces != [] ==>
      var r := Taken(f.pieces[0], SIZE - |f.got|);
      && r <= |f.pieces[0]| && |f.got| + r <= SIZE
      && ReadStep(ending, f) == Fill(f.got + f.pieces[0][..r], LeftOver(f.pieces, r),
                                     if |f.got| + r == SIZE then Complete else Reading)
  {
    hide Watched;
    WatchedUnfolds(ending, f, watch);
  }

  lemma WatchedUnfolds(ending: Ending, f: Fill, watch: nat)
    requires InLoop(f) && f.status == Reading && watch > 0
    ensures Watched(ending, f, watch) == Watched(ending, ReadStep(ending, f), watch - 1)
  {
    hide ReadStep;
  }

  lemma WatchedEnds(ending: Ending, f: Fill, watch: nat)
    requires InLoop(f) && (watch == 0 || f.status != Reading)
    ensures Watched(ending, f, watch) == f
  {
  }

  function Begin(pieces: seq<string>): Fill { Fill("", pieces, Reading) }

  lemma {:induction false} WatchedOutcome(ending: Ending, f: Fill, watch: nat)
    requires InLoop(f) && f.status == Reading
    ensures var r, total := Watched(ending, f, watch), |f.got + Flatten(f.pieces)|;
      && (r.status == Complete ==> total >= SIZE)
      && (r.status == Failed ==> total < SIZE && ending == Broken)
      && (|f.got| + watch > SIZE && r.status == Reading ==> total < SIZE && ending == Closed && r.pieces == [])
    decreases watch
  {
    if watch > 0 {
      var g := ReadStep(ending, f);
      if g.status == Reading {
        WatchedOutcome(ending, g, watch - 1);
        if f.pieces == [] { StillClosed(ending, f, watch); }
      }
    }
  }

  /** At the end of a closed stream `read` returns 0 again and again. */
  lemma {:induction false} StillClosed(ending: Ending, f: Fill, watch: nat)
    requires InLoop(f) && f.status == Reading && f.pieces == [] && ending == Closed
    ensures Watched(ending, f, watch) == f
    decreases watch
  {
    if watch > 0 { StillClosed(ending, f, watch - 1); }
  }

  /** Watched for more calls than a message has bytes, the loop has completed the message, failed, or
      is spinning at the end of a closed stream; which of these is decided by what arrives. */
  lemma LoopOutcome(pieces: seq<string>, ending: Ending, watch: nat)
    requires AllNonEmpty(pieces) && watch > SIZE
    ensures var status := Watched(ending, Begin(pieces), watch).status;
      && (status == Complete <==> |Flatten(pieces)| >= SIZE)
      && (status == Failed <==> |Flatten(pieces)| < SIZE && ending == Broken)
      && (status == Reading <==> |Flatten(pieces)| < SIZE && ending == Closed)
  {
    WatchedOutcome(ending, Begin(pieces), watch);
    assert "" + Flatten(pieces) == Flatten(pieces);
  }

  /** The loop ends if and only if the stream holds a whole message or is broken. */
  lemma LoopEndsIff(pieces: seq<string>, ending: Ending)
    requires AllNonEmpty(pieces)
    ensures (exists watch: nat :: Watched(ending, Begin(pieces), watch).status != Reading)
       <==> |Flatten(pieces)| >= SIZE || ending == Broken
  {
    LoopOutcome(pieces, ending, SIZE + 1);
    if |Flatten(pieces)| < SIZE && ending == Closed {
      forall watch: nat ensures Watched(ending, Begin(pieces), watch).status == Reading {
        ShortClosedSpins(pieces, watch);
      }
    }
  }

  /** On a closed stream that is too short the loop never ends: after any number of calls the buffer
      is not full, and after enough of them it holds all there is. */
  lemma ShortClosedSpins(pieces: seq<string>, watch: nat)
    requires AllNonEmpty(pieces) && |Flatten(pieces)| < SIZE
    ensures var f := Watched(Closed, Begin(pieces), watch);
      f.status == Reading && |f.got| < SIZE && (watch > SIZE ==> f.got == Flatten(pieces))
  {
    WatchedOutcome(Closed, Begin(pieces), watch);
    assert "" + Flatten(pieces) == Flatten(pieces);
    var f := Watched(Closed, Begin(pieces), watch);
    if f.pieces == [] { assert f.got + Flatten([]) == f.got; }
  }

  /** Such a stream: one byte, then the end. */
  lemma OneByteSpins(watch: nat)
    ensures Watched(Closed, Begin(["0"]), watch).status == Reading
  {
    assert Flatten(["0"]) == "0" + Flatten([]);
    ShortClosedSpins(["0"], watch);
  }

  /** One end of the connection. Each piece is what one moment makes available. */
  class Connection {
    var incoming: seq<string>
    var ending: Ending
    var outgoing: string

    predicate Valid()
      reads this
    {
      AllNonEmpty(incoming)
    }

    /** The bytes still to be read. */
    function Unread(): string
      reads this
    {
      Flatten(incoming)
    }

    /** `read(fd, buf + at, max)`: what has arrived, at most `max` bytes; 0 or -1 at the end. */
    method Read(buf: array<char>, at: nat, max: nat) returns (r: int)
      requires Valid() && max > 0 && at + max <= buf.Length
      modifies `incoming, buf
      ensures Valid()
      ensures old(incoming) == [] ==>
        r == (if ending == Closed then 0 else -1) && incoming == [] && buf[..] == old(buf[..])
      ensures old(incoming) != [] ==>
        && r == Taken(old(incoming[0]), max) && incoming == LeftOver(old(incoming), r)
        && buf[..at] == old(buf[..at]) && buf[at + r..] == old(buf[at + r..])
        && buf[at..at + r] == old(incoming[0])[..r]
    {
      if incoming == [] { return if ending == Closed then 0 else -1; }
      var piece := incoming[0];
      r := Taken(piece, max);
      var k := 0;
      while k < r
        invariant 0 <= k <= r && incoming == old(incoming)
        invariant buf[..at] == old(buf[..at]) && buf[at..at + k] == piece[..k] && buf[at + k..] == old(buf[at + k..])
      {
        ghost var tail := buf[at + k..];
        buf[at + k] := piece[k];
        assert buf[at + k + 1..] == tail[1..];
        k := k + 1;
      }
      incoming := LeftOver(incoming, r);
    }

    /** The reassembly loop, watched for so many calls of `read`. */
    method ReadMessage(msg: array<char>, watch: nat) returns (status: Status, n: nat)
      requires Valid() && msg.Length == SIZE
      modifies `incoming, msg
      ensures Valid() && n <= SIZE
      ensures Fill(msg[..n], incoming, status) == Watched(ending, Begin(old(incoming)), watch)
    {
      hide Flatten, LeftOver, Taken, ReadStep, Watched;
      n, status := 0, Reading;
      var i := 0;
      while n < SIZE && i < watch
        invariant 0 <= n <= SIZE && 0 <= i <= watch && Valid() && status == (if n < SIZE then Reading else Complete)
        invariant Watched(ending, Fill(msg[..n], incoming, status), watch - i)
               == Watched(ending, Begin(old(incoming)), watch)
      {
        ghost var f := Fill(msg[..n], incoming, Reading);
        WatchedNext(ending, f, watch - i);
        var r := Read(msg, n, SIZE - n);
        if r < 0 {
          status := Failed;
          WatchedEnds(ending, Fill(msg[..n], incoming, status), watch - i - 1);
          return;
        }
        assert msg[..n + r] == f.got + msg[n..n + r];
        n, i := n + r, i + 1;
        if n == SIZE { status := Complete; }
      }
      WatchedEnds(ending, Fill(msg[..n], incoming, status), watch - i);
    }

    /** A single `read`, as the one-queue-pair programs do it: it succeeds exactly when the first
        piece holds the whole record. */
    method ReadOnce(msg: array<char>) returns (ok: bool)
      requires Valid() && msg.Length == SIZE
      modifies `incoming, msg
      ensures Valid() && (ok <==> old(incoming) != [] && |old(incoming[0])| >= SIZE)
      ensures ok ==> msg[..] + Unread() == old(Unread())
    {
      var n := Read(msg, 0, SIZE);
      ok := n == SIZE;
    }

    /** `write(fd, msg, sizeof msg)` */
    method Write(msg: array<char>)
      modifies `outgoing
      ensures outgoing == old(outgoing) + msg[..]
    {
      outgoing := outgoing + msg[..];
    }

    method WriteRecords(host: Endian, mine: seq<Dest>)
      requires AllValid(mine)
      modifies `outgoing
      ensures outgoing == old(outgoing) + Stream(mine)
    {
      hide Message;
      var msg, gid := new char[SIZE], new char[33];
      var i := 0;
      while i < |mine|
        invariant 0 <= i <= |mine| && outgoing == old(outgoing) + Stream(mine[..i])
      {
        FormatRecord(host, mine[i], gid, msg);
        Write(msg);
        assert mine[..i + 1][..i] == mine[..i];
        i := i + 1;
      }
      assert mine[..i] == mine;
    }

    /** Reads and scans the next record. `d` is what the other side may have written there. */
    method ReadRecord(host: Endian, msg: array<char>, gid: array<char>, was: Dest, v32: nat, watch: nat, ghost d: Dest)
      returns (status: Status, record: Dest)
      requires Valid() && v32 < WORD && was.Shaped() && watch > SIZE
      requires msg.Length == SIZE && gid.Length == 33 && msg != gid
      modifies `incoming, msg, gid
      ensures Valid() && record.Shaped()
      ensures |old(Unread())| < SIZE ==> status == if ending == Broken then Failed else Reading
      ensures |old(Unread())| >= SIZE ==>
        && Unread() == old(Unread())[SIZE..]
        && status == if HasMeaning(old(Unread())[..SIZE]) then Complete else Unreadable
      ensures |old(Unread())| >= SIZE && d.Valid() && Message(d) == old(Unread())[..SIZE] ==>
        status == Complete && record == d
    {
      hide Message, Parse, Flatten, Watched, HasMeaning;
      record := was;
      LoopOutcome(incoming, ending, watch);
      var n;
      status, n := ReadMessage(msg, watch);
      if status != Complete { return; }
      assert msg[..n] == msg[..];
      assert old(Unread()) == msg[..] + Unread();
      UndefinedIff(host, msg[..], was, gid[..], v32);
      if d.Valid() { RoundTrip(host, d, was, gid[..], v32); }
      var parsed := ScanRecord(host, msg, was, gid, v32);
      if parsed.Undefined? { return Unreadable, was; }
      record := parsed.dest;
    }

    /** Reads as many records as the array holds, each over the values that were there, watching each
        loop for so many calls of `read`. The other side's records are recovered exactly as far as
        they have arrived, for every way their bytes arrive, and what follows them stays unread. Too
        few bytes end in failure, or in a loop that does not end; the program goes on with the array
        also after a failure, `done` records of it read and the rest as it was. */
    method ReadRecords(host: Endian, theirs: array<Dest>, v32: nat, watch: nat, ghost sent: seq<Dest>)
      returns (status: Status, done: nat)
      requires Valid() && v32 < WORD && AllValid(sent) && |sent| == theirs.Length && watch > SIZE
      requires forall i :: 0 <= i < theirs.Length ==> theirs[i].Shaped()
      modifies `incoming, theirs
      ensures Valid() && done <= theirs.Length && theirs[done..] == old(theirs[done..])
      ensures SIZE * done <= |old(Unread())| && forall j :: 0 <= j < done ==> HasMeaning(Slot(old(Unread()), j))
      ensures status == Complete <==> done == theirs.Length
      ensures status == Unreadable <==> done < theirs.Length && SIZE * (done + 1) <= |old(Unread())|
      ensures status == Unreadable ==> !HasMeaning(Slot(old(Unread()), done))
      ensures status == Failed <==> done < theirs.Length && |old(Unread())| < SIZE * (done + 1) && ending == Broken
      ensures status == Reading <==> done < theirs.Length && |old(Unread())| < SIZE * (done + 1) && ending == Closed
      ensures Stream(sent[..done]) <= old(Unread()) ==> theirs[..done] == sent[..done]
      ensures status == Complete ==> |old(Unread())| == SIZE * theirs.Length + |Unread()|
      ensures var k := |old(Unread())| / SIZE; k < theirs.Length && Stream(sent[..k]) <= old(Unread()) ==>
        done == k && (status == Failed <==> ending == Broken) && (status == Reading <==> ending == Closed)
      ensures Stream(sent) <= old(Unread()) ==>
        status == Complete && theirs[..] == sent && Stream(sent) + Unread() == old(Unread())
    {
      hide Message, HasMeaning, Stream, Slot, AllMeant;
      var msg, gid := new char[SIZE], new char[33];
      done := 0;
      NoneMeant(Unread());
      StreamStart(sent);
      StreamLength(sent);
      assert sent[..|sent|] == sent;
      ghost var all := Unread();
      while done < theirs.Length
        invariant 0 <= done <= theirs.Length && Valid() && fresh(msg) && fresh(gid)
        invariant theirs[done..] == old(theirs[done..])
        invariant forall k :: done <= k < theirs.Length ==> theirs[k].Shaped()
        invariant SIZE * done <= |all| && AllMeant(all, done) && all[SIZE * done..] == Unread()
        invariant Stream(sent[..done]) <= all ==> theirs[..done] == sent[..done]
      {
        SlotMessage(sent, done, all);
        var record;
        status, record := ReadRecord(host, msg, gid, theirs[done], v32, watch, sent[done]);
        ShorterFits(sent, done + 1, |all| / SIZE, all);
        ShorterFits(sent, done + 1, |sent|, all);
        if status != Complete {
          MeantIs(all, done);
          return;
        }
        NextMeant(all, done);
        theirs[done] := record;
        assert theirs[..done + 1] == theirs[..done] + [record];
        assert theirs[done + 1..] == old(theirs[done..])[1..];
        done := done + 1;
      }
      assert theirs[..done] == theirs[..] && sent[..done] == sent;
      MeantIs(all, done);
      status := Complete;
    }
  }

  /** The `j`-th message of a stream. */
  function Slot(all: string, j: nat): string
    requires SIZE * (j + 1) <= |all|
  {
    all[SIZE * j..SIZE * (j + 1)]
  }

  /** The first messages of a stream all have a meaning. */
  predicate AllMeant(all: string, done: nat) {
    SIZE * done <= |all| && forall j :: 0 <= j < done ==> HasMeaning(Slot(all, j))
  }

  lemma NoneMeant(all: string)
    ensures AllMeant(all, 0)
  {
  }

  lemma NextMeant(all: string, done: nat)
    requires AllMeant(all, done) && SIZE * (done + 1) <= |all| && HasMeaning(Slot(all, done))
    ensures AllMeant(all, done + 1)
  {
    hide HasMeaning;
  }

  lemma MeantIs(all: string, done: nat)
    requires AllMeant(all, done)
    ensures SIZE * done <= |all| && forall j :: 0 <= j < done ==> HasMeaning(Slot(all, j))
  {
    hide HasMeaning;
  }

  /** Where the stream starts with the records up to the `i`-th, that one is there. */
  lemma SlotMessage(sent: seq<Dest>, i: nat, all: string)
    requires AllValid(sent) && i < |sent|
    ensures Stream(sent[..i + 1]) <= all ==>
      && Stream(sent[..i]) <= all && SIZE * (i + 1) <= |all|
      && Slot(all, i) == Message(sent[i]) && all[SIZE * i..][..SIZE] == Message(sent[i])
    ensures SIZE * (i + 1) <= |all| ==> all[SIZE * i..][..SIZE] == Slot(all, i)
    ensures SIZE * i <= |all| && |all[SIZE * i..]| >= SIZE ==>
      SIZE * (i + 1) <= |all| && all[SIZE * i..][SIZE..] == all[SIZE * (i + 1)..]
  {
    hide Message, Stream;
    StreamSnoc(sent, i);
    StreamLength(sent[..i]);
    MessageFits(sent[i]);
    var a, b := Stream(sent[..i]), Message(sent[i]);
    if Stream(sent[..i + 1]) <= all { SliceOf(a, b, all); }
  }

  lemma SliceOf(a: string, b: string, all: string)
    requires a + b <= all
    ensures a <= all && all[|a|..|a| + |b|] == b
  {
    assert b == (a + b)[|a|..];
    assert a == (a + b)[..|a|];
  }

  lemma UndefinedIff(host: Endian, msg: string, was: Dest, buf: string, v32: nat)
    requires was.Shaped() && |buf| == 33 && v32 < WORD
    ensures Parse(host, msg, was, buf, v32).Undefined? <==> !HasMeaning(msg)
  {
    hide HasMeaning;
  }

  lemma ShorterFits(sent: seq<Dest>, i: nat, k: nat, all: string)
    requires AllValid(sent) && i <= |sent|
    ensures i <= k <= |sent| && Stream(sent[..k]) <= all ==> Stream(sent[..i]) <= all
  {
    hide Message, Stream;
    if i < k <= |sent| {
      StreamPrefix(sent[..k], i);
      assert sent[..k][..i] == sent[..i];
    }
  }

  lemma StreamStart(sent: seq<Dest>)
    requires AllValid(sent)
    ensures Stream(sent[..0]) == ""
  {
  }

  lemma StreamSnoc(sent: seq<Dest>, i: nat)
    requires AllValid(sent) && i < |sent|
    ensures Stream(sent[..i + 1]) == Stream(sent[..i]) + Message(sent[i])
  {
    hide Message;
    assert sent[..i + 1][..i] == sent[..i];
  }

  /** `gid_to_wire_gid` and `sprintf` into the two buffers. */
  method FormatRecord(host: Endian, d: Dest, gid: array<char>, msg: array<char>)
    requires d.Valid() && gid.Length == 33 && msg.Length == SIZE && gid != msg
    modifies gid, msg
    ensures msg[..] == Message(d)
  {
    hide Print, Text;
    GidToWire(host, d.gid, gid);
    MessageFits(d);
    var text := CString(gid[..]);
    TextIsCString(d);
    var line := Print(4, d.lid) + ":" + Print(6, d.qpn) + ":" + Print(6, d.psn) + ":" + text;
    Sprint(msg, 0, line);
  }

  lemma TextIsCString(d: Dest)
    requires d.Valid()
    ensures CString(Text(d.gid, 4) + [NUL]) == Text(d.gid, 4)
  {
    hide Text;
    NulEnds(Text(d.gid, 4), 0);
  }

  /** `sscanf` into the record and the GID buffer, and `wire_gid_to_gid`. */
  method ScanRecord(host: Endian, msg: array<char>, was: Dest, gid: array<char>, v32: nat) returns (p: Parsed)
    requires was.Shaped() && gid.Length == 33 && v32 < WORD && gid != msg
    modifies gid
    ensures p == Parse(host, msg[..], was, old(gid[..]), v32)
    ensures p.Understood? ==> p.dest.Shaped()
  {
    hide ScanFields, ScannedText, Decoded, FirstNul;
    if !HasMeaning(msg[..]) { return Undefined; }
    var f, text := ScanFields(CString(msg[..]), 0, 3), LastText(msg[..]);
    if text.Scanned? {
      Sprint(gid, 0, text.value);
      assert gid[..] == Overlay(old(gid[..]), text.value);
    }
    var raw := new Byte[16];
    WireToGid(host, gid[..], v32, raw);
    p := Understood(Dest(Assigned(f.values, 0, was.lid), Assigned(f.values, 1, was.qpn), Assigned(f.values, 2, was.psn),
                         raw[..]));
  }
}
