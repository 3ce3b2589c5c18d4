/** The text form of a 16-byte GID, written and read one 32-bit word at a time through the host's
    byte order and network byte order. */
module Gid {
  import opened Verbs
  import opened Hex

  /** Byte order of a host. */
  datatype Endian = Little | Big

  const NUL: char := '\0'

  function Compose(b3: Byte, b2: Byte, b1: Byte, b0: Byte): (v: nat)
    ensures v < WORD
  {
    ((b3 as nat * 256 + b2 as nat) * 256 + b1 as nat) * 256 + b0 as nat
  }

  function Load32(host: Endian, b: seq<Byte>): (v: nat)
    requires |b| == 4
    ensures v < WORD
  {
    if host == Big then Compose(b[0], b[1], b[2], b[3]) else Compose(b[3], b[2], b[1], b[0])
  }

  function Store32(host: Endian, v: nat): (b: seq<Byte>)
    requires v < WORD
    ensures |b| == 4
  {
    var b3, b2 := (v / 256 / 256 / 256) as Byte, (v / 256 / 256 % 256) as Byte;
    var b1, b0 := (v / 256 % 256) as Byte, (v % 256) as Byte;
    if host == Big then [b3, b2, b1, b0] else [b0, b1, b2, b3]
  }

  lemma Split(x: nat, y: nat)
    requires y < 256
    ensures (x * 256 + y) / 256 == x && (x * 256 + y) % 256 == y
  {
  }

  /** `htonl` and `ntohl`: reverses the bytes on a little-endian host. */
  function NetworkOrder(host: Endian, v: nat): (r: nat)
    requires v < WORD
    ensures r < WORD
  {
    if host == Big then v else Load32(Little, Store32(Big, v))
  }

  lemma StoreLoad(host: Endian, b: seq<Byte>)
    requires |b| == 4
    ensures Store32(host, Load32(host, b)) == b
  {
    var c := if host == Big then b else [b[3], b[2], b[1], b[0]];
    var x2 := c[0] as nat * 256 + c[1] as nat;
    var x1 := x2 * 256 + c[2] as nat;
    Split(c[0] as nat, c[1] as nat);
    Split(x2, c[2] as nat);
    Split(x1, c[3] as nat);
    assert Load32(host, b) == x1 * 256 + c[3] as nat;
  }

  /** The weight of each byte, in either byte order. */
  lemma LoadIs(b: seq<Byte>)
    requires |b| == 4
    ensures Load32(Big, b) == 0x100_0000 * b[0] as nat + 0x1_0000 * b[1] as nat + 0x100 * b[2] as nat + b[3] as nat
    ensures Load32(Little, b) == 0x100_0000 * b[3] as nat + 0x1_0000 * b[2] as nat + 0x100 * b[1] as nat + b[0] as nat
  {
  }

  function Reverse(b: seq<Byte>): seq<Byte>
    requires |b| == 4
  {
    [b[3], b[2], b[1], b[0]]
  }

  lemma StoreReversed(v: nat)
    requires v < WORD
    ensures Store32(Little, v) == Reverse(Store32(Big, v))
  {
  }

  /** What goes on the wire is the number that the bytes spell in order, on every host. */
  lemma HostToWire(host: Endian, b: seq<Byte>)
    requires |b| == 4
    ensures NetworkOrder(host, Load32(host, b)) == Load32(Big, b)
  {
    hide Store32;
    StoreLoad(host, b);
    if host == Little {
      StoreReversed(Load32(Little, b));
      assert Store32(Big, Load32(Little, b)) == Reverse(b);
    }
  }

  lemma WireToHost(host: Endian, b: seq<Byte>)
    requires |b| == 4
    ensures Store32(host, NetworkOrder(host, Load32(Big, b))) == b
  {
    hide Store32, Load32;
    StoreLoad(Big, b);
    if host == Little { StoreLoad(Little, b); }
  }

  /** The text of one word. */
  function Word(raw: seq<Byte>, i: nat): (s: string)
    requires |raw| == 16 && i < 4
    ensures |s| == 8 && AllHex(s)
  {
    PowerMonotone(8, 8);
    PrintReads(8, Load32(Big, raw[4 * i..4 * i + 4]));
    Print(8, Load32(Big, raw[4 * i..4 * i + 4]))
  }

  /** The first `k` words of the text of a GID. */
  function Text(raw: seq<Byte>, k: nat): (s: string)
    requires |raw| == 16 && k <= 4
    ensures |s| == 8 * k && AllHex(s)
  {
    if k == 0 then "" else Text(raw, k - 1) + Word(raw, k - 1)
  }

  lemma {:induction false} TextWord(raw: seq<Byte>, k: nat, i: nat)
    requires |raw| == 16 && i < k <= 4
    ensures Text(raw, k)[8 * i..8 * i + 8] == Word(raw, i)
  {
    hide Word;
    if i < k - 1 {
      TextWord(raw, k - 1, i);
      assert Text(raw, k)[8 * i..8 * i + 8] == Text(raw, k - 1)[8 * i..8 * i + 8];
    }
  }

  /** `sprintf(&buf[at], ...)`: the text and a NUL, in place. */
  method Sprint(buf: array<char>, at: nat, text: string)
    requires at + |text| < buf.Length
    modifies buf
    ensures buf[..] == old(buf[..at]) + text + [NUL] + old(buf[at + |text| + 1..])
  {
    var k := 0;
    while k < |text|
      invariant 0 <= k <= |text|
      invariant buf[..at + k] == old(buf[..at]) + text[..k] && buf[at + k..] == old(buf[at + k..])
    {
      ghost var tail := buf[at + k..];
      buf[at + k] := text[k];
      assert buf[at + k + 1..] == tail[1..];
      k := k + 1;
    }
    buf[at + k] := NUL;
    assert buf[at + k + 1..] == old(buf[at + k..])[1..];
  }

  /** Writes a GID into a 33-byte buffer; the NUL that ends each word but the last is overwritten
      by the next word. */
  method GidToWire(host: Endian, raw: seq<Byte>, wgid: array<char>)
    requires |raw| == 16 && wgid.Length == 33
    modifies wgid
    ensures wgid[..] == Text(raw, 4) + [NUL]
  {
    hide Print, Power, Load32, NetworkOrder, AllHex;
    var i := 0;
    while i < 4
      invariant 0 <= i <= 4
      invariant wgid[..8 * i] == Text(raw, i) && (i > 0 ==> wgid[8 * i] == NUL)
    {
      var v := NetworkOrder(host, Load32(host, raw[4 * i..4 * i + 4]));
      HostToWire(host, raw[4 * i..4 * i + 4]);
      ghost var before := wgid[..8 * i];
      PowerMonotone(8, 8);
      PrintReads(8, v);
      Sprint(wgid, 8 * i, Print(8, v));
      assert wgid[..8 * i + 8] == before + Word(raw, i);
      i := i + 1;
    }
    assert wgid[..] == wgid[..32] + [wgid[32]];
  }

  /** What `sscanf` leaves in its 32-bit variable: a word that is not hexadecimal leaves it alone. Eight
      characters cannot hold too large a number (`Hex.EightDigits`). */
  function ScannedWord(tmp: string, v: nat): (r: nat)
    requires v < WORD
    ensures r < WORD
  {
    match ScanHex(tmp, 0)
    case Scanned(value, _) => value
    case _ => v
  }

  /** The variable after the first `k` words, `v32` at the start. */
  function LastWord(wgid: string, v32: nat, k: nat): (r: nat)
    requires |wgid| >= 8 * k && v32 < WORD
    ensures r < WORD
  {
    if k == 0 then v32 else ScannedWord(wgid[8 * k - 8..8 * k], LastWord(wgid, v32, k - 1))
  }

  /** The bytes stored for the first `k` words. */
  function Decoded(host: Endian, wgid: string, v32: nat, k: nat): (b: seq<Byte>)
    requires |wgid| >= 8 * k && v32 < WORD
    ensures |b| == 4 * k
  {
    if k == 0 then [] else Decoded(host, wgid, v32, k - 1) + Store32(host, NetworkOrder(host, LastWord(wgid, v32, k)))
  }

  /** `sscanf(tmp, "%x", &v32)` */
  method ScanWord(tmp: string, v32: nat) returns (r: nat)
    requires v32 < WORD
    ensures r == ScannedWord(tmp, v32) && r < WORD
  {
    var scanned := ScanHex(tmp, 0);
    r := if scanned.Scanned? then scanned.value else v32;
  }

  /** `*(uint32_t *)&raw[i * 4] = ...` */
  method StoreWord(raw: array<Byte>, i: nat, b: seq<Byte>)
    requires raw.Length == 16 && i < 4 && |b| == 4
    modifies raw
    ensures raw[..4 * (i + 1)] == old(raw[..4 * i]) + b
  {
    raw[4 * i], raw[4 * i + 1], raw[4 * i + 2], raw[4 * i + 3] := b[0], b[1], b[2], b[3];
  }

  /** Reads a GID from 32 characters. */
  method WireToGid(host: Endian, wgid: seq<char>, v32: nat, raw: array<Byte>)
    requires |wgid| >= 32 && v32 < WORD && raw.Length == 16
    modifies raw
    ensures raw[..] == Decoded(host, wgid, v32, 4)
  {
    hide NetworkOrder, Store32, ScanHex, ScannedWord, LastWord, Decoded;
    var v: nat := v32;
    var i := 0;
    FirstWord(host, wgid, v32);
    while i < 4
      invariant 0 <= i <= 4 && v < WORD && v == LastWord(wgid, v32, i)
      invariant raw[..4 * i] == Decoded(host, wgid, v32, i)
    {
      v := ScanWord(wgid[8 * i..8 * i + 8], v);
      StoreWord(raw, i, Store32(host, NetworkOrder(host, v)));
      NextWord(host, wgid, v32, i);
      i := i + 1;
    }
    assert raw[..16] == raw[..];
  }

  lemma FirstWord(host: Endian, wgid: string, v32: nat)
    requires v32 < WORD
    ensures LastWord(wgid, v32, 0) == v32 && Decoded(host, wgid, v32, 0) == []
  {
  }

  lemma NextWord(host: Endian, wgid: string, v32: nat, k: nat)
    requires |wgid| >= 8 * k + 8 && v32 < WORD
    ensures LastWord(wgid, v32, k + 1) == ScannedWord(wgid[8 * k..8 * k + 8], LastWord(wgid, v32, k))
    ensures Decoded(host, wgid, v32, k + 1)
         == Decoded(host, wgid, v32, k) + Store32(host, NetworkOrder(host, LastWord(wgid, v32, k + 1)))
  {
    hide NetworkOrder, Store32, ScanHex, ScannedWord;
  }

  /** One word: its text scans to the number that the receiving host stores as the bytes sent. */
  lemma WordReads(host: Endian, sent: seq<Byte>, i: nat)
    requires |sent| == 16 && i < 4
    ensures var b := sent[4 * i..4 * i + 4];
      ScanHex(Word(sent, i), 0) == Scanned(Load32(Big, b), 8) && Store32(host, NetworkOrder(host, Load32(Big, b))) == b
  {
    hide Print, Power, Load32, NetworkOrder, Store32, ScanHex, AllHex;
    PowerMonotone(8, 8);
    assert Word(sent, i)[0..8] == Word(sent, i);
    ScanPrinted(Word(sent, i), 0, 8, Load32(Big, sent[4 * i..4 * i + 4]));
    WireToHost(host, sent[4 * i..4 * i + 4]);
  }

  lemma WordAt(sent: seq<Byte>, wgid: string, i: nat)
    requires |sent| == 16 && i < 4 && |wgid| >= 32 && wgid[..32] == Text(sent, 4)
    ensures wgid[8 * i..8 * i + 8] == Word(sent, i)
  {
    hide Text, Word;
    TextWord(sent, 4, i);
    assert wgid[8 * i..8 * i + 8] == wgid[..32][8 * i..8 * i + 8];
  }

  /** One more word. */
  lemma WordDecoded(host: Endian, sent: seq<Byte>, wgid: string, v32: nat, k: nat)
    requires |sent| == 16 && v32 < WORD && k < 4 && |wgid| >= 32 && wgid[..32] == Text(sent, 4)
    ensures Decoded(host, wgid, v32, k + 1) == Decoded(host, wgid, v32, k) + sent[4 * k..4 * k + 4]
  {
    hide Store32, NetworkOrder, ScanHex, Load32, Word, Text, AllHex, LastWord, Decoded;
    WordAt(sent, wgid, k);
    NextWord(host, wgid, v32, k);
    WordReads(host, sent, k);
  }

  /** The text of a GID reads back as the same bytes on every host, whatever host wrote it. */
  lemma {:induction false} TextReads(host: Endian, sent: seq<Byte>, wgid: string, v32: nat, k: nat)
    requires |sent| == 16 && v32 < WORD && k <= 4 && |wgid| >= 32 && wgid[..32] == Text(sent, 4)
    ensures Decoded(host, wgid, v32, k) == sent[..4 * k]
  {
    hide Text, Decoded;
    if k == 0 {
      FirstWord(host, wgid, v32);
    } else {
      TextReads(host, sent, wgid, v32, k - 1);
      WordDecoded(host, sent, wgid, v32, k - 1);
      assert sent[..4 * k] == sent[..4 * k - 4] + sent[4 * k - 4..4 * k];
    }
  }
}
