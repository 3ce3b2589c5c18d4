/** Hexadecimal text as `sprintf` prints it with `%0wx` and `sscanf` reads it with `%x`
    (sections 7.21.6.1 and 7.21.6.2 of C11). A string here is a C string without its NUL. */
module Hex {
  function Digit(d: nat): char
    requires d < 16
  {
    if d < 10 then '0' + d as char else 'a' + (d - 10) as char
  }

  predicate IsHex(c: char) { '0' <= c <= '9' || 'a' <= c <= 'f' || 'A' <= c <= 'F' }

  function DigitValue(c: char): (d: nat)
    requires IsHex(c)
    ensures d < 16
  {
    if '0' <= c <= '9' then (c - '0') as nat
    else if 'a' <= c <= 'f' then 10 + (c - 'a') as nat
    else 10 + (c - 'A') as nat
  }

  predicate AllHex(s: string) { forall i :: 0 <= i < |s| ==> IsHex(s[i]) }

  /** As few digits as the number needs. */
  function Minimal(v: nat): (s: string)
    ensures s != []
  {
    if v < 16 then [Digit(v)] else Minimal(v / 16) + [Digit(v % 16)]
  }

  function Zeros(n: nat): string { seq(n, _ => '0') }

  /** `%0wx`: at least `w` digits, padded with zeros. */
  function Print(w: nat, v: nat): string {
    if |Minimal(v)| < w then Zeros(w - |Minimal(v)|) + Minimal(v) else Minimal(v)
  }

  function Number(s: string): nat
    requires AllHex(s)
  {
    if s == [] then 0 else 16 * Number(s[..|s| - 1]) + DigitValue(s[|s| - 1])
  }

  function Power(w: nat): (p: nat)
    ensures p >= 1
  {
    if w == 0 then 1 else 16 * Power(w - 1)
  }

  lemma {:induction false} MinimalReads(v: nat)
    ensures AllHex(Minimal(v)) && Number(Minimal(v)) == v
    ensures forall i :: 0 <= i < |Minimal(v)| ==> Minimal(v)[i] != 'x' && Minimal(v)[i] != 'X'
  {
    if v < 16 {
      assert Minimal(v)[..0] == [];
    } else {
      MinimalReads(v / 16);
      assert Minimal(v)[..|Minimal(v)| - 1] == Minimal(v / 16);
    }
  }

  lemma {:induction false} MinimalLength(v: nat, w: nat)
    requires w >= 1
    ensures |Minimal(v)| <= w <==> v < Power(w)
  {
    if v >= 16 && w > 1 { MinimalLength(v / 16, w - 1); }
    if v >= 16 && w == 1 { assert Power(1) == 16 * Power(0); }
    if v < 16 { assert Power(w) == 16 * Power(w - 1); }
  }

  lemma {:induction false} ZerosRead(n: nat, s: string)
    requires AllHex(s)
    ensures AllHex(Zeros(n) + s) && Number(Zeros(n) + s) == Number(s)
  {
    if s == [] {
      if n > 0 {
        ZerosRead(n - 1, s);
        assert Zeros(n) + s == (Zeros(n - 1) + s) + ['0'];
        assert (Zeros(n) + s)[..n - 1] == Zeros(n - 1) + s;
      }
    } else {
      ZerosRead(n, s[..|s| - 1]);
      assert (Zeros(n) + s)[..n + |s| - 1] == Zeros(n) + s[..|s| - 1];
    }
  }

  /** A number that fits its field is printed in exactly the width of the field, and reads back. */
  lemma PrintReads(w: nat, v: nat)
    requires w >= 1 && v < Power(w)
    ensures |Print(w, v)| == w && AllHex(Print(w, v)) && Number(Print(w, v)) == v
    ensures forall i :: 0 <= i < w ==> Print(w, v)[i] != 'x' && Print(w, v)[i] != 'X'
  {
    MinimalLength(v, w);
    MinimalReads(v);
    if |Minimal(v)| < w { ZerosRead(w - |Minimal(v)|, Minimal(v)); }
  }

  // ---- Reading ----

  /** `Unrepresentable`: a number that its variable cannot hold, which leaves the result undefined. */
  datatype Scan<+T> = Scanned(value: T, next: nat) | Mismatch | Unrepresentable

  predicate IsSpace(c: char) { c == ' ' || ('\t' <= c <= '\r') }

  function SkipSpace(s: string, i: nat): (j: nat)
    requires i <= |s|
    ensures i <= j <= |s|
    decreases |s| - i
  {
    if i < |s| && IsSpace(s[i]) then SkipSpace(s, i + 1) else i
  }

  /** The end of the longest run of hexadecimal digits. */
  function Munch(s: string, i: nat): (j: nat)
    requires i <= |s|
    ensures i <= j <= |s| && AllHex(s[i..j]) && (j < |s| ==> !IsHex(s[j]))
    decreases |s| - i
  {
    if i < |s| && IsHex(s[i]) then
      var j := Munch(s, i + 1);
      assert s[i..j] == [s[i]] + s[i + 1..j];
      j
    else i
  }

  const WORD: nat := 0x1_0000_0000

  function SkipSign(s: string, i: nat): (j: nat)
    requires i <= |s|
    ensures i <= j <= |s|
  {
    if i < |s| && (s[i] == '+' || s[i] == '-') then i + 1 else i
  }

  function SkipPrefix(s: string, i: nat): (j: nat)
    requires i <= |s|
    ensures i <= j <= |s|
  {
    if i + 1 < |s| && s[i] == '0' && (s[i + 1] == 'x' || s[i + 1] == 'X') then i + 2 else i
  }

  /** `%x` into a 32-bit variable: white space, a sign and a `0x` may come first; a minus sign negates
      the number in the variable's type. */
  function ScanHex(s: string, i: nat): (r: Scan<nat>)
    requires i <= |s|
    ensures r.Scanned? ==> i < r.next <= |s| && r.value < WORD
  {
    var a := SkipSpace(s, i);
    var b := SkipSign(s, a);
    var d := SkipPrefix(s, b);
    var e := Munch(s, d);
    if e == d then Mismatch
    else
      var v := Number(s[d..e]);
      if v >= WORD then Unrepresentable else Scanned(if b > a && s[a] == '-' then (WORD - v) % WORD else v, e)
  }

  lemma MunchEnd(s: string, i: nat, j: nat)
    requires i <= j <= |s| && AllHex(s[i..j]) && (j < |s| ==> !IsHex(s[j]))
    ensures Munch(s, i) == j
    decreases j - i
  {
    if i < j {
      assert s[i..j][0] == s[i];
      assert s[i + 1..j] == s[i..j][1..];
      MunchEnd(s, i + 1, j);
    }
  }

  /** A printed field reads back wherever it stands, up to the first character that is not a
      hexadecimal digit. */
  lemma ScanPrinted(s: string, i: nat, w: nat, v: nat)
    requires 1 <= w <= 8 && v < Power(w) && i + w <= |s|
    requires s[i..i + w] == Print(w, v) && (i + w < |s| ==> !IsHex(s[i + w]) && s[i + w] != 'x' && s[i + w] != 'X')
    ensures ScanHex(s, i) == Scanned(v, i + w)
  {
    hide Print, Munch, Number, Power, Minimal;
    PrintReads(w, v);
    MunchEnd(s, i, i + w);
    PowerMonotone(w, 8);
    assert s[i..i + w][0] == s[i] && SkipSpace(s, i) == i;
    assert w > 1 ==> s[i..i + w][1] == s[i + 1];
  }

  lemma PowerMonotone(w: nat, u: nat)
    requires w <= u
    ensures Power(w) <= Power(u)
    ensures Power(8) == WORD
  {
    assert Power(4) == 0x10000;
    if w < u { PowerMonotone(w, u - 1); }
  }

  lemma {:induction false} NumberBound(s: string)
    requires AllHex(s)
    ensures Number(s) < Power(|s|)
  {
    if s != [] { NumberBound(s[..|s| - 1]); }
  }

  /** Eight characters always hold a number that a 32-bit variable can hold. */
  lemma EightDigits(s: string)
    requires |s| <= 8
    ensures !ScanHex(s, 0).Unrepresentable?
  {
    hide Number, Power, Munch, SkipSpace, SkipSign, SkipPrefix;
    var d := SkipPrefix(s, SkipSign(s, SkipSpace(s, 0)));
    NumberBound(s[d..Munch(s, d)]);
    PowerMonotone(|s[d..Munch(s, d)]|, 8);
  }

  /** The characters that `isspace` has in the C locale. */
  const WHITE: string := " \t\n\U{0B}\U{0C}\r"

  predicate AllSpace(s: string) { forall i :: 0 <= i < |s| ==> s[i] in WHITE }

  lemma SpaceIs(c: char)
    ensures IsSpace(c) <==> c in WHITE
  {
    assert WHITE[0] == ' ' && WHITE[1] == '\t' && WHITE[2] == '\n' && WHITE[5] == '\r';
    assert WHITE[3] == 11 as char && WHITE[4] == 12 as char;
  }

  lemma SkipEnd(s: string, i: nat, j: nat)
    requires i <= j <= |s| && AllSpace(s[i..j]) && (j < |s| ==> !IsSpace(s[j]))
    ensures SkipSpace(s, i) == j
    decreases j - i
  {
    if i < j {
      assert s[i..j][0] == s[i];
      assert s[i + 1..j] == s[i..j][1..];
      SpaceIs(s[i]);
      SkipEnd(s, i + 1, j);
    }
  }

  /** What `%x` takes: white space, a sign, `0x`, and as many digits as there are. */
  lemma ScanForm(s: string, a: nat, b: nat, d: nat, e: nat)
    requires a <= b <= d < e <= |s| && AllSpace(s[0..a]) && AllHex(s[d..e])
    requires s[a..b] == "" || s[a..b] == "+" || s[a..b] == "-"
    requires s[b..d] == "" || s[b..d] == "0x" || s[b..d] == "0X"
    requires e < |s| ==> !IsHex(s[e]) && s[e] != 'x' && s[e] != 'X'
    ensures ScanHex(s, 0) ==
      if Number(s[d..e]) >= WORD then Unrepresentable
      else Scanned(if s[a..b] == "-" then (WORD - Number(s[d..e])) % WORD else Number(s[d..e]), e)
  {
    hide SkipSpace, Munch, Number, SkipSign, SkipPrefix, AllHex;
    SignAt(s, a, b, d, e);
    SkipEnd(s, 0, a);
    PrefixAt(s, b, d, e);
    MunchEnd(s, d, e);
  }

  lemma SignAt(s: string, a: nat, b: nat, d: nat, e: nat)
    requires a <= b <= d < e <= |s| && AllHex(s[d..e])
    requires s[a..b] == "" || s[a..b] == "+" || s[a..b] == "-"
    requires s[b..d] == "" || s[b..d] == "0x" || s[b..d] == "0X"
    ensures SkipSign(s, a) == b && (b > a && s[a] == '-' <==> s[a..b] == "-") && !IsSpace(s[a])
  {
    assert s[d] == s[d..e][0];
    if a < b { assert s[a] == s[a..b][0]; }
    if b < d { assert s[b] == s[b..d][0]; }
  }

  lemma PrefixAt(s: string, b: nat, d: nat, e: nat)
    requires b <= d < e <= |s| && AllHex(s[d..e])
    requires s[b..d] == "" || s[b..d] == "0x" || s[b..d] == "0X"
    requires e < |s| ==> s[e] != 'x' && s[e] != 'X'
    ensures SkipPrefix(s, b) == d
  {
    assert s[d] == s[d..e][0] && (d + 1 < e ==> s[d + 1] == s[d..e][1]);
    if b < d { assert s[b] == s[b..d][0] && s[b + 1] == s[b..d][1]; }
  }

  /** Digits up to a colon, wherever they stand. */
  lemma ScanDigits(s: string, i: nat, j: nat)
    requires i < j < |s| && AllHex(s[i..j]) && s[j] == ':' && Number(s[i..j]) < WORD
    ensures ScanHex(s, i) == Scanned(Number(s[i..j]), j)
  {
    hide Number, Munch;
    MunchEnd(s, i, j);
    assert s[i] == s[i..j][0] && (i + 1 < j ==> s[i + 1] == s[i..j][1]);
  }
}
