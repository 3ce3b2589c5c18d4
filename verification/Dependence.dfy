/** The programs do not look at the number of conversions of `sscanf`. This is exactly when the record
    that they go on with depends on the message alone, and not on what their variables held. */
module Dependence {
  import opened Verbs
  import opened Hex
  import opened Gid
  import opened Record

  /** All four conversions succeed, the text reaches into the last word of the GID, and the first word
      is a number. Words after it that are none repeat the one before. */
  predicate IsSufficient(msg: string) {
    var text := LastText(msg);
    text.Scanned? && |text.value| >= 24 && ScanHex(text.value[..8], 0).Scanned?
  }

  ghost predicate MessageDecides(host: Endian, msg: string) {
    forall was: Dest, was': Dest, buf: string, buf': string, v: nat, v': nat ::
      was.Shaped() && was'.Shaped() && |buf| == |buf'| == 33 && v < WORD && v' < WORD ==>
        Parse(host, msg, was, buf, v) == Parse(host, msg, was', buf', v')
  }

  // ---- Enough ----

  lemma SkipStops(p: string, x: string, i: nat)
    requires i <= |p|
    ensures SkipSpace(p + [NUL] + x, i) <= |p|
    ensures SkipSpace(p + [NUL] + x, i) == SkipSpace(p + [NUL], i)
    decreases |p| - i
  {
    if i < |p| { SkipStops(p, x, i + 1); }
  }

  lemma MunchStops(p: string, x: string, i: nat)
    requires i <= |p|
    ensures Munch(p + [NUL] + x, i) <= |p|
    ensures Munch(p + [NUL] + x, i) == Munch(p + [NUL], i)
    decreases |p| - i
  {
    if i < |p| { MunchStops(p, x, i + 1); }
  }

  lemma SignStops(p: string, x: string, i: nat)
    requires i <= |p|
    ensures SkipSign(p + [NUL] + x, i) == SkipSign(p + [NUL], i) <= |p|
    ensures SkipPrefix(p + [NUL] + x, i) == SkipPrefix(p + [NUL], i) <= |p|
    ensures (p + [NUL] + x)[i] == (p + [NUL])[i]
  {
  }

  /** A scan does not see what follows a NUL. */
  lemma ScanStops(p: string, x: string)
    ensures ScanHex(p + [NUL] + x, 0) == ScanHex(p + [NUL], 0)
  {
    hide SkipSpace, SkipSign, SkipPrefix, Munch, Number;
    var s, t := p + [NUL] + x, p + [NUL];
    SkipStops(p, x, 0);
    var a := SkipSpace(t, 0);
    SignStops(p, x, a);
    var b := SkipSign(t, a);
    SignStops(p, x, b);
    var d := SkipPrefix(t, b);
    MunchStops(p, x, d);
    assert s[d..Munch(t, d)] == t[d..Munch(t, d)];
  }

  lemma SameSlices(buf: string, buf': string, text: string, k: nat)
    requires |buf| == |buf'| == 33 && 24 <= |text| <= 32 && k < 4
    ensures ScanHex(Overlay(buf, text)[8 * k..8 * k + 8], 0) == ScanHex(Overlay(buf', text)[8 * k..8 * k + 8], 0)
    ensures k == 0 ==> Overlay(buf, text)[8 * k..8 * k + 8] == text[..8]
  {
    hide ScanHex;
    var w, w' := Overlay(buf, text), Overlay(buf', text);
    if 8 * k + 8 <= |text| {
      assert w[8 * k..8 * k + 8] == text[8 * k..8 * k + 8] == w'[8 * k..8 * k + 8];
    } else {
      var p := text[24..];
      assert w[24..32] == p + [NUL] + w[|text| + 1..32];
      assert w'[24..32] == p + [NUL] + w'[|text| + 1..32];
      ScanStops(p, w[|text| + 1..32]);
      ScanStops(p, w'[|text| + 1..32]);
    }
  }

  lemma {:induction false} SameWords(host: Endian, buf: string, buf': string, text: string, v: nat, v': nat, k: nat)
    requires |buf| == |buf'| == 33 && 24 <= |text| <= 32 && v < WORD && v' < WORD && k <= 4
    requires ScanHex(text[..8], 0).Scanned?
    ensures Decoded(host, Overlay(buf, text), v, k) == Decoded(host, Overlay(buf', text), v', k)
    ensures k > 0 ==> LastWord(Overlay(buf, text), v, k) == LastWord(Overlay(buf', text), v', k)
  {
    hide ScanHex, Overlay, Decoded, LastWord;
    var w, w' := Overlay(buf, text), Overlay(buf', text);
    if k == 0 {
      FirstWord(host, w, v);
      FirstWord(host, w', v');
    } else {
      SameWords(host, buf, buf', text, v, v', k - 1);
      NextWord(host, w, v, k - 1);
      NextWord(host, w', v', k - 1);
      SameSlices(buf, buf', text, k - 1);
    }
  }

  lemma SufficientDecides(host: Endian, msg: string)
    requires HasMeaning(msg) && IsSufficient(msg)
    ensures MessageDecides(host, msg)
  {
    hide ScanHex, Overlay, Decoded, ScanFields, ScanString, CString;
    forall was: Dest, was': Dest, buf: string, buf': string, v: nat, v': nat |
      was.Shaped() && was'.Shaped() && |buf| == |buf'| == 33 && v < WORD && v' < WORD
      ensures Parse(host, msg, was, buf, v) == Parse(host, msg, was', buf', v')
    {
      SameWords(host, buf, buf', LastText(msg).value, v, v', 4);
    }
  }

  // ---- Not enough ----

  const NONE: Dest := Dest(0, 0, 0, seq(16, _ => 0 as Byte))

  function Raw(b: Byte): (raw: seq<Byte>)
    ensures |raw| == 16
  {
    seq(16, _ => b)
  }

  /** A buffer that decodes to sixteen bytes `b`. */
  function Holding(b: Byte): (buf: string)
    ensures |buf| == 33 && buf[..32] == Text(Raw(b), 4)
  {
    Text(Raw(b), 4) + [NUL]
  }

  /** Without a text the GID is what the buffer held. */
  lemma NoText(host: Endian, msg: string)
    requires HasMeaning(msg) && !LastText(msg).Scanned?
    ensures !MessageDecides(host, msg)
  {
    hide ScanHex, Decoded, ScanFields, ScannedText, CString, Text, Raw;
    TextReads(host, Raw(0), Holding(0), 0, 4);
    TextReads(host, Raw(1), Holding(1), 0, 4);
    DifferentRaws();
    assert Parse(host, msg, NONE, Holding(0), 0) != Parse(host, msg, NONE, Holding(1), 0);
  }

  lemma DifferentRaws()
    ensures Raw(0) != Raw(1) && Raw(0)[..16] == Raw(0) && Raw(1)[..16] == Raw(1) && Raw(0)[12..16] != Raw(1)[12..16]
  {
    assert Raw(0)[0] != Raw(1)[0] && Raw(0)[12..16][0] != Raw(1)[12..16][0];
  }

  lemma LastBytes(host: Endian, buf: string, text: string, b: Byte)
    requires |buf| == 33 && |text| < 24 && buf == Holding(b)
    ensures Decoded(host, Overlay(buf, text), 0, 4)[12..16] == Raw(b)[12..16]
  {
    hide ScanHex, Store32, NetworkOrder, Load32, Decoded, LastWord, Raw, Text, Word;
    var w := Overlay(buf, text);
    assert w[24..32] == buf[..32][24..32];
    TextWord(Raw(b), 4, 3);
    WordReads(host, Raw(b), 3);
    NextWord(host, w, 0, 3);
  }

  /** With a text that ends before the last word begins, that word is what the buffer held. */
  lemma ShortText(host: Endian, msg: string)
    requires HasMeaning(msg) && LastText(msg).Scanned? && |LastText(msg).value| < 24
    ensures !MessageDecides(host, msg)
  {
    hide ScanHex, Decoded, ScanFields, ScannedText, CString, Text, Raw, Overlay, Holding;
    LastBytes(host, Holding(0), LastText(msg).value, 0);
    LastBytes(host, Holding(1), LastText(msg).value, 1);
    DifferentRaws();
    assert Parse(host, msg, NONE, Holding(0), 0) != Parse(host, msg, NONE, Holding(1), 0);
  }

  lemma FirstBytes(host: Endian, w: string, b: seq<Byte>)
    requires |w| >= 32 && |b| == 4 && !ScanHex(w[..8], 0).Scanned?
    ensures Decoded(host, w, Load32(Big, b), 4)[..4] == b
  {
    hide ScanHex, Store32, NetworkOrder, Load32, Decoded, LastWord;
    var v := Load32(Big, b);
    FirstWord(host, w, v);
    NextWord(host, w, v, 0);
    NextWord(host, w, v, 1);
    NextWord(host, w, v, 2);
    NextWord(host, w, v, 3);
    WireToHost(host, b);
  }

  /** If the first word is no number, it is what the variable held. */
  lemma NoNumber(host: Endian, msg: string)
    requires HasMeaning(msg) && LastText(msg).Scanned? && |LastText(msg).value| >= 24
    requires !ScanHex(LastText(msg).value[..8], 0).Scanned?
    ensures !MessageDecides(host, msg)
  {
    hide ScanHex, Decoded, ScanFields, ScannedText, CString, Text, Raw, Load32;
    var w := Overlay(Holding(0), LastText(msg).value);
    assert w[..8] == LastText(msg).value[..8];
    FirstBytes(host, w, [0, 0, 0, 0]);
    FirstBytes(host, w, [0, 0, 0, 1]);
    assert Parse(host, msg, NONE, Holding(0), Load32(Big, [0, 0, 0, 0]))
        != Parse(host, msg, NONE, Holding(0), Load32(Big, [0, 0, 0, 1]));
  }

  /** Exactly when the record is decided by the message, among the messages that have a meaning. */
  lemma MessageDecidesIff(host: Endian, msg: string)
    requires HasMeaning(msg)
    ensures MessageDecides(host, msg) <==> IsSufficient(msg)
  {
    hide ScanHex, ScanFields, ScannedText, CString, MessageDecides, LastText;
    if IsSufficient(msg) { SufficientDecides(host, msg); }
    else if !LastText(msg).Scanned? { NoText(host, msg); }
    else if |LastText(msg).value| < 24 { ShortText(host, msg); }
    else { NoNumber(host, msg); }
  }

  /** A message of NULs is accepted, and is whatever was there before. */
  lemma NulsKeepAll(host: Endian, was: Dest, buf: string, v32: nat)
    requires was.Shaped() && |buf| == 33 && v32 < WORD
    ensures Parse(host, seq(SIZE, _ => NUL), was, buf, v32) == Understood(was.(gid := Decoded(host, buf, v32, 4)))
  {
    hide Decoded;
    var msg := seq(SIZE, _ => NUL);
    assert CString(msg) == "";
    assert |msg| == SIZE;
  }
}
