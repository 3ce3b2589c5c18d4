/** The address record that the two programs exchange: one line of fixed-width hexadecimal fields,
    52 bytes with its NUL. */
module Record {
  import opened Verbs
  import opened Hex
  import opened Gid

  datatype Dest = Dest(lid: nat, qpn: nat, psn: nat, gid: seq<Byte>) {
    predicate Shaped() { |gid| == 16 }

    /** Every number fits the hardware's field. */
    predicate Valid() { Shaped() && lid < 0x1_0000 && qpn < 0x100_0000 && psn < 0x100_0000 }
  }

  /** `sizeof "0000:000000:000000:00000000000000000000000000000000"` */
  const SIZE: nat := 52

  /** `sprintf(msg, "%04x:%06x:%06x:%s", ...)` */
  function Line(d: Dest): string
    requires d.Shaped()
  {
    Print(4, d.lid) + ":" + Print(6, d.qpn) + ":" + Print(6, d.psn) + ":" + Text(d.gid, 4)
  }

  /** The bytes written to the stream. */
  function Message(d: Dest): string
    requires d.Shaped()
  {
    Line(d) + [NUL]
  }

  lemma PrintLength(w: nat, v: nat)
    requires w >= 1
    ensures |Print(w, v)| >= w && (|Print(w, v)| == w <==> v < Power(w))
  {
    MinimalLength(v, w);
  }

  /** The message fills its buffer exactly when every number fits its field, and overruns it
      otherwise. */
  lemma MessageFits(d: Dest)
    requires d.Shaped()
    ensures |Message(d)| >= SIZE && (|Message(d)| == SIZE <==> d.Valid())
  {
    hide Print, Text;
    PrintLength(4, d.lid);
    PrintLength(6, d.qpn);
    PrintLength(6, d.psn);
    assert Power(3) == 0x1000 && Power(6) == 0x100_0000;
  }

  // ---- Reading ----

  function FirstNul(msg: string, i: nat): (j: nat)
    requires i <= |msg|
    ensures i <= j <= |msg| && (j < |msg| ==> msg[j] == NUL)
    decreases |msg| - i
  {
    if i < |msg| && msg[i] != NUL then FirstNul(msg, i + 1) else i
  }

  /** What `sscanf` sees of a buffer. */
  function CString(msg: string): string { msg[..FirstNul(msg, 0)] }

  /** The longest run of characters that are not white space. */
  function Token(s: string, i: nat): (j: nat)
    requires i <= |s|
    ensures i <= j <= |s|
    decreases |s| - i
  {
    if i < |s| && !IsSpace(s[i]) then Token(s, i + 1) else i
  }

  /** `%s` */
  function ScanString(s: string, i: nat): Scan<string>
    requires i <= |s|
  {
    var a := SkipSpace(s, i);
    var e := Token(s, a);
    if e == a then Mismatch else Scanned(s[a..e], e)
  }

  /** `%x:` repeated: the numbers assigned before the first mismatch, and where the next conversion
      would start if there was none. */
  datatype Fields = Fields(values: seq<nat>, next: int)

  const STOPPED: int := -1
  const TOO_LARGE: int := -2

  function ScanFields(s: string, i: nat, k: nat): (f: Fields)
    requires i <= |s|
    ensures |f.values| <= k && f.next <= |s| && (f.next >= 0 ==> |f.values| == k)
    decreases k
  {
    if k == 0 then Fields([], i)
    else
      match ScanHex(s, i)
      case Mismatch => Fields([], STOPPED)
      case Unrepresentable => Fields([], TOO_LARGE)
      case Scanned(v, j) =>
        if j < |s| && s[j] == ':' then
          var rest := ScanFields(s, j + 1, k - 1);
          Fields([v] + rest.values, rest.next)
        else Fields([v], STOPPED)
  }

  /** The text that the last conversion stores, if the scan gets that far. */
  function ScannedText(s: string, next: int): Scan<string>
    requires next <= |s|
  {
    if next >= 0 then ScanString(s, next) else Mismatch
  }

  /** The text of the last field, if the scan gets that far. */
  function LastText(msg: string): Scan<string> {
    var s := CString(msg);
    ScannedText(s, ScanFields(s, 0, 3).next)
  }

  /** The message has a meaning: it ends in it, its numbers fit their variables, and the text of the
      last field fits its buffer. */
  predicate HasMeaning(msg: string) {
    && CString(msg) != msg && ScanFields(CString(msg), 0, 3).next != TOO_LARGE
    && (LastText(msg).Scanned? ==> |LastText(msg).value| <= 32)
  }

  /** The 33-byte buffer after `%s`: the text, its NUL, and what was there before. */
  function Overlay(buf: string, text: string): (r: string)
    requires |buf| == 33 && |text| <= 32
    ensures |r| == 33
  {
    text + [NUL] + buf[|text| + 1..]
  }

  datatype Parsed = Understood(dest: Dest) | Undefined

  /** `sscanf(msg, "%x:%x:%x:%s", ...)` and `wire_gid_to_gid`. The source does not look at the number
      of conversions, so fields that were not reached keep `was` and `buf`; a message without a NUL,
      with a number over 32 bits or with a longer last field has no defined meaning. */
  function Parse(host: Endian, msg: string, was: Dest, buf: string, v32: nat): Parsed
    requires was.Shaped() && |buf| == 33 && v32 < WORD
  {
    if !HasMeaning(msg) then Undefined
    else
      var f, text := ScanFields(CString(msg), 0, 3), LastText(msg);
      var gid := if text.Scanned? then Overlay(buf, text.value) else buf;
      Understood(Dest(Assigned(f.values, 0, was.lid), Assigned(f.values, 1, was.qpn), Assigned(f.values, 2, was.psn),
                      Decoded(host, gid, v32, 4)))
  }

  function Assigned(values: seq<nat>, i: nat, was: nat): nat { if i < |values| then values[i] else was }

  // ---- Round trip ----

  lemma NulEnds(s: string, i: nat)
    requires i <= |s| && NUL !in s
    ensures FirstNul(s + [NUL], i) == |s|
    decreases |s| - i
  {
    if i < |s| { NulEnds(s, i + 1); }
  }

  lemma TokenEnds(s: string, i: nat)
    requires i <= |s| && AllHex(s[i..])
    ensures Token(s, i) == |s|
    decreases |s| - i
  {
    if i < |s| {
      assert s[i..][0] == s[i] && s[i + 1..] == s[i..][1..];
      TokenEnds(s, i + 1);
    }
  }

  /** The parts of a line, each where the fixed widths put it. */
  lemma LineParts(d: Dest)
    requires d.Valid()
    ensures var s := Line(d);
      |s| == 51 && s[0..4] == Print(4, d.lid) && s[5..11] == Print(6, d.qpn) && s[12..18] == Print(6, d.psn)
      && s[19..] == Text(d.gid, 4) && s[4] == ':' && s[11] == ':' && s[18] == ':'
  {
    hide Print, Text, Power;
    MessageFits(d);
    PowerAt46();
    PrintReads(4, d.lid);
    PrintReads(6, d.qpn);
    PrintReads(6, d.psn);
  }

  lemma PowerAt46()
    ensures Power(4) == 0x1_0000 && Power(6) == 0x100_0000
  {
    assert Power(3) == 0x1000;
  }

  lemma FieldAt(s: string, i: nat, w: nat, v: nat, k: nat)
    requires 1 <= w <= 8 && v < Power(w) && i + w < |s| && s[i..i + w] == Print(w, v) && s[i + w] == ':' && k > 0
    ensures ScanFields(s, i, k)
         == Fields([v] + ScanFields(s, i + w + 1, k - 1).values, ScanFields(s, i + w + 1, k - 1).next)
  {
    hide Print, Power, ScanHex;
    ScanPrinted(s, i, w, v);
  }

  lemma LineScans(d: Dest)
    requires d.Valid()
    ensures ScanFields(Line(d), 0, 3) == Fields([d.lid, d.qpn, d.psn], 19) && |Line(d)| == 51
    ensures ScannedText(Line(d), 19) == Scanned(Text(d.gid, 4), 51)
  {
    hide Print, Text, Power, ScanHex, Line, AllHex, Token;
    LineParts(d);
    PowerAt46();
    var s := Line(d);
    FieldAt(s, 12, 6, d.psn, 1);
    FieldAt(s, 5, 6, d.qpn, 2);
    FieldAt(s, 0, 4, d.lid, 3);
    TokenEnds(s, 19);
    FirstNotSpace(s, 19);
    assert s[19..51] == s[19..];
  }

  lemma FirstNotSpace(s: string, i: nat)
    requires i < |s| && AllHex(s[i..])
    ensures SkipSpace(s, i) == i
  {
    assert s[i..][0] == s[i];
  }

  lemma LineHasNoNul(d: Dest)
    requires d.Valid()
    ensures NUL !in Line(d)
  {
    hide Print, Text, Power, Line;
    LineParts(d);
    PowerAt46();
    PrintReads(4, d.lid);
    PrintReads(6, d.qpn);
    PrintReads(6, d.psn);
    var s := Line(d);
    forall i | 0 <= i < |s| ensures s[i] != NUL {
      assert i < 4 ==> s[i] == s[0..4][i];
      assert 5 <= i < 11 ==> s[i] == s[5..11][i - 5];
      assert 12 <= i < 18 ==> s[i] == s[12..18][i - 12];
      assert 19 <= i ==> s[i] == s[19..][i - 19];
    }
  }

  /** Every record that fits its fields is read back as it was written, on every host and whatever
      the reader's variables held before. */
  lemma RoundTrip(host: Endian, d: Dest, was: Dest, buf: string, v32: nat)
    requires d.Valid() && was.Shaped() && |buf| == 33 && v32 < WORD
    ensures Parse(host, Message(d), was, buf, v32) == Understood(d)
  {
    hide Print, Text, Power, Line, ScanFields, ScannedText, Decoded, FirstNul;
    LineScans(d);
    LineHasNoNul(d);
    NulEnds(Line(d), 0);
    assert Message(d)[..51] == Line(d);
    var text := Text(d.gid, 4);
    assert Overlay(buf, text)[..32] == text;
    TextReads(host, d.gid, Overlay(buf, text), v32, 4);
    assert d.gid[..16] == d.gid;
  }

  /** A buffer without a NUL is no string; a first number that does not fit its variable has no meaning. */
  lemma NoMeaning(host: Endian, msg: string, e: nat, was: Dest, buf: string, v32: nat)
    requires was.Shaped() && |buf| == 33 && v32 < WORD
    ensures NUL !in msg ==> Parse(host, msg, was, buf, v32) == Undefined
    ensures 0 < e < |msg| && AllHex(msg[0..e]) && Number(msg[0..e]) >= WORD && msg[e] == ':' ==>
      Parse(host, msg, was, buf, v32) == Undefined
  {
    hide Number, ScanHex, Decoded;
    if NUL !in msg {
      NulIsLast(msg, 0);
    } else if 0 < e < |msg| && AllHex(msg[0..e]) && Number(msg[0..e]) >= WORD && msg[e] == ':' {
      NulAfter(msg, 0, e);
      var s := CString(msg);
      assert s[0..e] == msg[0..e] && s[e] == ':';
      ScanForm(s, 0, 0, 0, e);
    }
  }

  lemma NulIsLast(msg: string, i: nat)
    requires NUL !in msg && i <= |msg|
    ensures FirstNul(msg, i) == |msg|
    decreases |msg| - i
  {
    if i < |msg| { NulIsLast(msg, i + 1); }
  }

  lemma NulAfter(msg: string, i: nat, e: nat)
    requires i <= e < |msg| && AllHex(msg[0..e]) && msg[e] == ':'
    ensures FirstNul(msg, i) > e
    decreases |msg| - i
  {
    if i < e {
      assert msg[i] == msg[0..e][i];
      NulAfter(msg, i + 1, e);
    }
  }

  // ---- Any message of the right form ----

  predicate IsNumber(s: string) { s != "" && AllHex(s) && Number(s) < WORD }

  predicate IsText(s: string) { s != "" && |s| <= 32 && NUL !in s && forall i :: 0 <= i < |s| ==> s[i] !in WHITE }

  /** What may come after the text: nothing, or a space and anything. */
  predicate IsRest(s: string) { NUL !in s && (s != "" ==> s[0] in WHITE) }

  lemma NumberAt(s: string, i: nat, e: nat, k: nat)
    requires i < e < |s| && IsNumber(s[i..e]) && s[e] == ':' && k > 0
    ensures var next := ScanFields(s, e + 1, k - 1);
      ScanFields(s, i, k) == Fields([Number(s[i..e])] + next.values, next.next)
  {
    hide Number, ScanHex;
    ScanDigits(s, i, e);
  }

  lemma TextAt(s: string, i: nat, a: nat, e: nat)
    requires i <= a < e <= |s| && AllSpace(s[i..a]) && IsText(s[a..e]) && IsRest(s[e..])
    ensures ScanString(s, i) == Scanned(s[a..e], e)
  {
    forall j | a <= j < e ensures !IsSpace(s[j]) {
      assert s[j] == s[a..e][j - a];
      SpaceIs(s[j]);
    }
    SkipEnd(s, i, a);
    if e < |s| {
      assert s[e] == s[e..][0];
      SpaceIs(s[e]);
    }
    TokenRuns(s, a, e);
  }

  lemma TokenRuns(s: string, i: nat, e: nat)
    requires i <= e <= |s| && (forall j :: i <= j < e ==> !IsSpace(s[j])) && (e < |s| ==> IsSpace(s[e]))
    ensures Token(s, i) == e
    decreases e - i
  {
    if i < e { TokenRuns(s, i + 1, e); }
  }

  /** The message is three fields, each with a colon after it, white space, a text and a rest. */
  predicate IsForm(s: string, d: nat, e: nat, f: nat, g: nat, h: nat, a: string, b: string, c: string, text: string) {
    && d < e < f < g < h <= |s| && s[d] == s[e] == s[f] == ':'
    && s[0..d] == a && s[d + 1..e] == b && s[e + 1..f] == c
    && AllSpace(s[f + 1..g]) && s[g..h] == text && IsRest(s[h..])
  }

  function Form(a: string, b: string, c: string, space: string, text: string, rest: string): string {
    a + ":" + b + ":" + c + ":" + space + text + rest
  }

  lemma FormSlices(a: string, b: string, c: string, space: string, text: string, rest: string)
    requires AllSpace(space) && text != "" && IsRest(rest)
    ensures var f := |a| + |b| + |c| + 2;
      IsForm(Form(a, b, c, space, text, rest), |a|, |a| + |b| + 1, f, f + 1 + |space|, f + 1 + |space| + |text|,
             a, b, c, text)
  {
    hide IsRest, AllSpace;
    var s := Form(a, b, c, space, text, rest);
    var f := |a| + |b| + |c| + 2;
    assert s[0..|a|] == a && s[|a|] == ':';
    assert s[|a| + 1..|a| + |b| + 1] == b && s[|a| + |b| + 1] == ':';
    assert s[|a| + |b| + 2..f] == c && s[f] == ':';
    assert s[f + 1..f + 1 + |space|] == space;
    assert s[f + 1 + |space|..f + 1 + |space| + |text|] == text;
    assert s[f + 1 + |space| + |text|..] == rest;
  }

  lemma FieldsAt(s: string, d: nat, e: nat, f: nat)
    requires 0 < d < e - 1 && e < f - 1 && f < |s| && s[d] == s[e] == s[f] == ':'
    requires IsNumber(s[0..d]) && IsNumber(s[d + 1..e]) && IsNumber(s[e + 1..f])
    ensures ScanFields(s, 0, 3) == Fields([Number(s[0..d]), Number(s[d + 1..e]), Number(s[e + 1..f])], f + 1)
  {
    hide Number, IsNumber, ScanFields;
    NumberAt(s, 0, d, 3);
    NumberAt(s, d + 1, e, 2);
    NumberAt(s, e + 1, f, 1);
    NoFields(s, f + 1);
  }

  lemma NoFields(s: string, k: nat)
    requires k <= |s|
    ensures ScanFields(s, k, 0) == Fields([], k)
  {}

  lemma FormScans(s: string, d: nat, e: nat, f: nat, g: nat, h: nat, a: string, b: string, c: string, text: string)
    requires IsNumber(a) && IsNumber(b) && IsNumber(c) && IsText(text) && IsForm(s, d, e, f, g, h, a, b, c, text)
    ensures ScanFields(s, 0, 3) == Fields([Number(a), Number(b), Number(c)], f + 1)
    ensures ScannedText(s, f + 1) == Scanned(text, h)
  {
    hide Number, IsText, IsRest, AllSpace, ScanString, ScanFields;
    FieldsAt(s, d, e, f);
    TextAt(s, f + 1, g, h);
  }

  lemma FormHasNoNul(a: string, b: string, c: string, space: string, text: string, rest: string)
    requires IsNumber(a) && IsNumber(b) && IsNumber(c) && AllSpace(space) && IsText(text) && IsRest(rest)
    ensures NUL !in Form(a, b, c, space, text, rest)
  {
    hide Number;
    assert NUL !in a && NUL !in b && NUL !in c && NUL !in space && NUL !in text && NUL !in rest;
  }

  /** A message of three numbers and a text, of whatever lengths, is read as that. White space before the
      text is skipped, and what follows the text after a space is ignored. The text goes to the front of
      the buffer, with a NUL, and the GID is decoded from what the buffer then holds. */
  lemma ParseForm(host: Endian, a: string, b: string, c: string, space: string, text: string, rest: string,
                  tail: string, was: Dest, buf: string, v32: nat)
    requires IsNumber(a) && IsNumber(b) && IsNumber(c) && AllSpace(space) && IsText(text) && IsRest(rest)
    requires was.Shaped() && |buf| == 33 && v32 < WORD
    ensures Parse(host, a + ":" + b + ":" + c + ":" + space + text + rest + [NUL] + tail, was, buf, v32)
         == Understood(Dest(Number(a), Number(b), Number(c),
                            Decoded(host, text + [NUL] + buf[|text| + 1..], v32, 4)))
  {
    hide Number, IsNumber, AllSpace, IsRest, Decoded, ScanFields, ScannedText, FirstNul, IsForm;
    var s := Form(a, b, c, space, text, rest);
    var f := |a| + |b| + |c| + 2;
    FormSlices(a, b, c, space, text, rest);
    FormScans(s, |a|, |a| + |b| + 1, f, f + 1 + |space|, f + 1 + |space| + |text|, a, b, c, text);
    FormHasNoNul(a, b, c, space, text, rest);
    NulFirst(s, tail, 0);
    var msg := s + [NUL] + tail;
    assert msg[..|s|] == s;
    assert CString(msg) == s;
  }

  lemma NulFirst(s: string, tail: string, i: nat)
    requires NUL !in s && i <= |s|
    ensures FirstNul(s + [NUL] + tail, i) == |s|
    decreases |s| - i
  {
    if i < |s| { NulFirst(s, tail, i + 1); }
  }
}
