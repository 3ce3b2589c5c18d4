/** The text of a record, character by character. */
module RecordText {
  import opened Verbs
  import opened Hex
  import opened Gid
  import opened Record
  import opened Division

  const DIGITS: string := "0123456789abcdef"

  /** The printed digits, and what upper and lower case read as. */
  lemma DigitIs(d: nat)
    requires d < 16
    ensures Digit(d) == DIGITS[d] && IsHex(DIGITS[d]) && DigitValue(DIGITS[d]) == d
    ensures d >= 10 ==> IsHex("ABCDEF"[d - 10]) && DigitValue("ABCDEF"[d - 10]) == d
  {
  }

  lemma PrintLast(w: nat, v: nat)
    requires w > 1 && v < Power(w)
    ensures Print(w, v) == Print(w - 1, v / 16) + [Digit(v % 16)]
  {
    MinimalLength(v, w);
    if v >= 16 {
      MinimalLength(v / 16, w - 1);
    } else {
      assert Minimal(v) == [Digit(v)] && Minimal(0) == ['0'];
      assert Zeros(w - 1) == Zeros(w - 2) + ['0'];
    }
  }

  /** The `i`-th of `w` characters is the digit of that place. */
  lemma {:induction false} PrintedDigit(w: nat, v: nat, i: nat)
    requires i < w && v < Power(w)
    ensures |Print(w, v)| == w && Print(w, v)[i] == DIGITS[v / Power(w - 1 - i) % 16]
  {
    hide Print, Power, Digit;
    PrintReads(w, v);
    DigitIs(v % 16);
    PowerNext(w - 1);
    if w > 1 {
      PrintLast(w, v);
      if i < w - 1 {
        PrintedDigit(w - 1, v / 16, i);
        PowerNext(w - 2 - i);
        DivTwice(v, Power(w - 2 - i));
      } else {
        PowerZero(v);
      }
    } else {
      PowerZero(v);
      PrintOne(v);
    }
  }

  lemma PowerNext(k: nat)
    ensures Power(k + 1) == 16 * Power(k)
  {
  }

  lemma PowerZero(v: nat)
    ensures Power(0) == 1 && v / Power(0) == v
  {
  }

  lemma PrintOne(v: nat)
    requires v < 16
    ensures Print(1, v) == [Digit(v)]
  {
    assert Minimal(v) == [Digit(v)];
  }

  /** A number in so many digits, most significant first. */
  function Digits(w: nat, v: nat): (s: string)
    requires w <= 6
    ensures |s| == w
  {
    seq(w, i requires 0 <= i < w => DIGITS[v / PLACES[w - 1 - i] % 16])
  }

  const PLACES: seq<nat> := [0x1, 0x10, 0x100, 0x1000, 0x1_0000, 0x10_0000]

  lemma PowerIsPlace(i: nat)
    requires i < 6
    ensures Power(i) == PLACES[i]
  {
    assert Power(3) == 0x1000;
  }

  lemma FieldText(w: nat, v: nat)
    requires 1 <= w <= 6 && v < Power(w)
    ensures Print(w, v) == Digits(w, v)
  {
    hide Print, Power;
    PrintReads(w, v);
    forall i | 0 <= i < w ensures Print(w, v)[i] == Digits(w, v)[i] {
      PrintedDigit(w, v, i);
      PowerIsPlace(w - 1 - i);
    }
  }

  /** Two digits for a byte. */
  function ByteDigits(b: Byte): string { [DIGITS[b as nat / 16], DIGITS[b as nat % 16]] }

  function GidDigits(raw: seq<Byte>): string {
    if raw == [] then "" else ByteDigits(raw[0]) + GidDigits(raw[1..])
  }

  /** The last two characters of a number that ends in a byte. */
  lemma PrintByte(w: nat, x: nat, b: Byte)
    requires w > 2 && x < Power(w - 2)
    ensures x * 256 + b as nat < Power(w)
    ensures Print(w, x * 256 + b as nat) == Print(w - 2, x) + ByteDigits(b)
  {
    hide Print;
    var v := x * 256 + b as nat;
    assert Power(w) == 16 * Power(w - 1) && Power(w - 1) == 16 * Power(w - 2);
    PrintLast(w, v);
    assert v / 16 == x * 16 + b as nat / 16 && v % 16 == b as nat % 16;
    assert v / 16 / 16 == x && v / 16 % 16 == b as nat / 16;
    PrintLast(w - 1, v / 16);
    DigitIs(b as nat / 16);
    DigitIs(b as nat % 16);
  }

  lemma PrintTwo(b: Byte)
    ensures Print(2, b as nat) == ByteDigits(b)
  {
    assert Power(2) == 256;
    PrintLast(2, b as nat);
    DigitIs(b as nat / 16);
    DigitIs(b as nat % 16);
    assert Print(1, b as nat / 16) == Minimal(b as nat / 16);
  }

  lemma WordText(raw: seq<Byte>, i: nat)
    requires |raw| == 16 && i < 4
    ensures Word(raw, i) == ByteDigits(raw[4 * i]) + ByteDigits(raw[4 * i + 1])
                          + ByteDigits(raw[4 * i + 2]) + ByteDigits(raw[4 * i + 3])
  {
    hide Print, Power, ByteDigits;
    var b := raw[4 * i..4 * i + 4];
    PowerEven();
    PrintTwo(b[0]);
    var x := b[0] as nat;
    PrintByte(4, x, b[1]);
    PrintByte(6, x * 256 + b[1] as nat, b[2]);
    PrintByte(8, (x * 256 + b[1] as nat) * 256 + b[2] as nat, b[3]);
  }

  lemma PowerEven()
    ensures Power(2) == 256 && Power(4) == 0x1_0000 && Power(6) == 0x100_0000
  {
    assert Power(3) == 0x1000;
  }

  lemma {:induction false} GidDigitsAppend(a: seq<Byte>, b: seq<Byte>)
    ensures GidDigits(a + b) == GidDigits(a) + GidDigits(b)
  {
    hide ByteDigits;
    if a == [] {
      assert a + b == b;
    } else {
      assert (a + b)[1..] == a[1..] + b;
      GidDigitsAppend(a[1..], b);
    }
  }

  lemma GidDigitsFour(b: seq<Byte>)
    requires |b| == 4
    ensures GidDigits(b) == ByteDigits(b[0]) + ByteDigits(b[1]) + ByteDigits(b[2]) + ByteDigits(b[3])
  {
    hide ByteDigits;
    assert b[1..][1..] == b[2..] && b[2..][1..] == b[3..] && b[3..][1..] == [];
    assert GidDigits(b[3..]) == ByteDigits(b[3]);
    assert GidDigits(b[2..]) == ByteDigits(b[2]) + GidDigits(b[3..]);
    assert GidDigits(b[1..]) == ByteDigits(b[1]) + GidDigits(b[2..]);
  }

  /** The text of the first words of a GID: two digits for each byte, in order. */
  lemma {:induction false} GidText(raw: seq<Byte>, k: nat)
    requires |raw| == 16 && k <= 4
    ensures Text(raw, k) == GidDigits(raw[..4 * k])
  {
    hide Word, ByteDigits;
    if k > 0 {
      GidText(raw, k - 1);
      WordText(raw, k - 1);
      var b := raw[4 * k - 4..4 * k];
      GidDigitsFour(b);
      GidDigitsAppend(raw[..4 * k - 4], b);
      assert raw[..4 * k] == raw[..4 * k - 4] + b;
    }
  }

  /** Every character of a record: LID, queue pair number and sequence number, colons between them,
      and the GID. */
  lemma LineText(d: Dest)
    requires d.Valid()
    ensures Line(d) == Digits(4, d.lid) + ":" + Digits(6, d.qpn) + ":" + Digits(6, d.psn) + ":" + GidDigits(d.gid)
  {
    hide Print, Power, Text, Digits, GidDigits;
    PowerEven();
    FieldText(4, d.lid);
    FieldText(6, d.qpn);
    FieldText(6, d.psn);
    GidText(d.gid, 4);
    assert d.gid[..16] == d.gid;
  }
}
