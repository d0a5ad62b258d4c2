/** Character classes and number/text conversions the assembler relies on.
    The source runs under Python 2 on byte strings, so its regular-expression
    classes are the ASCII ones: `\s` is [ \t\n\r\f\v] and `\w` is [A-Za-z0-9_];
    `str.upper()` changes only a-z. */
module Text {

  /** `\s`: space, tab, newline, vertical tab, form feed, carriage return. */
  predicate IsSpace(c: char) {
    c == ' ' || '\t' <= c <= '\r'
  }

  /** `\w`: a letter, a digit or the underscore. */
  predicate IsWordChar(c: char) {
    'A' <= c <= 'Z' || 'a' <= c <= 'z' || '0' <= c <= '9' || c == '_'
  }

  /** `[0-9A-F]`: the source's hex class admits upper-case letters only. */
  predicate IsHexDigit(c: char) {
    '0' <= c <= '9' || 'A' <= c <= 'F'
  }

  predicate IsLower(c: char) {
    'a' <= c <= 'z'
  }

  function UpperChar(c: char): (u: char)
    ensures !IsLower(u)
    ensures IsLower(c) ==> u as int == c as int - 32
    ensures !IsLower(c) ==> u == c
  {
    if IsLower(c) then (c as int - 32) as char else c
  }

  /** `s.upper()` on an ASCII string. */
  function Upper(s: string): (r: string)
    ensures |r| == |s|
    ensures forall i :: 0 <= i < |s| ==> r[i] == UpperChar(s[i])
  {
    seq(|s|, i requires 0 <= i < |s| => UpperChar(s[i]))
  }

  /** Upper-casing keeps every character's class: a space stays a space, a
      word character a word character. */
  lemma UpperKeepsClasses(s: string)
    ensures forall i :: 0 <= i < |s| ==> (IsSpace(Upper(s)[i]) <==> IsSpace(s[i]))
    ensures forall i :: 0 <= i < |s| ==> (IsWordChar(Upper(s)[i]) <==> IsWordChar(s[i]))
    ensures forall i :: 0 <= i < |s| ==> (Upper(s)[i] == ',' <==> s[i] == ',')
  {
  }

  function Pow(b: nat, e: nat): (p: nat)
    ensures p >= 1 || b == 0
  {
    if e == 0 then 1 else b * Pow(b, e - 1)
  }

  lemma {:induction false} PowAdd(b: nat, e1: nat, e2: nat)
    ensures Pow(b, e1 + e2) == Pow(b, e1) * Pow(b, e2)
  {
    if e2 > 0 {
      PowAdd(b, e1, e2 - 1);
      calc {
        Pow(b, e1 + e2);
        b * Pow(b, e1 + e2 - 1);
        b * (Pow(b, e1) * Pow(b, e2 - 1));
        Pow(b, e1) * (b * Pow(b, e2 - 1));
      }
    }
  }

  // ---------------------------------------------------------------------
  // Hexadecimal and binary text, as read by int(s, 16) and int(s, 2)

  predicate AllHexDigits(s: string) {
    forall i :: 0 <= i < |s| ==> IsHexDigit(s[i])
  }

  function HexDigitValue(c: char): (v: nat)
    requires IsHexDigit(c)
    ensures v < 16
  {
    if c <= '9' then c as int - '0' as int else c as int - 'A' as int + 10
  }

  /** int(s, 16) for a string of upper-case hex digits (empty gives 0). */
  function HexValue(s: string): nat
    requires AllHexDigits(s)
  {
    if s == [] then 0 else HexValue(s[..|s| - 1]) * 16 + HexDigitValue(s[|s| - 1])
  }

  /** k hex digits never spell a number of 16^k or more. */
  lemma {:induction false} HexValueBound(s: string)
    requires AllHexDigits(s)
    ensures HexValue(s) < Pow(16, |s|)
  {
    if s != [] {
      HexValueBound(s[..|s| - 1]);
    }
  }

  /** Reading the concatenation of two digit strings. */
  lemma {:induction false} HexValueAppend(a: string, b: string)
    requires AllHexDigits(a) && AllHexDigits(b)
    ensures AllHexDigits(a + b)
    ensures HexValue(a + b) == HexValue(a) * Pow(16, |b|) + HexValue(b)
  {
    if b == [] {
      assert a + b == a;
    } else {
      var b' := b[..|b| - 1];
      assert (a + b)[..|a + b| - 1] == a + b';
      HexValueAppend(a, b');
      ShiftDigit(HexValue(a), Pow(16, |b'|), HexValue(b'), HexDigitValue(b[|b| - 1]), 16);
    }
  }

  /** (x * p + y) * base + d == x * (base * p) + (y * base + d) */
  lemma ShiftDigit(x: nat, p: nat, y: nat, d: nat, base: nat)
    ensures (x * p + y) * base + d == x * (base * p) + (y * base + d)
  {
    calc {
      (x * p + y) * base + d;
      x * p * base + y * base + d;
      { assert x * p * base == x * (base * p); }
      x * (base * p) + (y * base + d);
    }
  }

  predicate IsBinDigit(c: char) {
    c == '0' || c == '1'
  }

  predicate AllBinDigits(s: string) {
    forall i :: 0 <= i < |s| ==> IsBinDigit(s[i])
  }

  /** int(s, 2) for a string of '0' and '1'. */
  function BinValue(s: string): nat
    requires AllBinDigits(s)
  {
    if s == [] then 0 else BinValue(s[..|s| - 1]) * 2 + (if s[|s| - 1] == '1' then 1 else 0)
  }

  lemma {:induction false} BinValueBound(s: string)
    requires AllBinDigits(s)
    ensures BinValue(s) < Pow(2, |s|)
  {
    if s != [] {
      BinValueBound(s[..|s| - 1]);
    }
  }

  lemma {:induction false} BinValueAppend(a: string, b: string)
    requires AllBinDigits(a) && AllBinDigits(b)
    ensures AllBinDigits(a + b)
    ensures BinValue(a + b) == BinValue(a) * Pow(2, |b|) + BinValue(b)
  {
    if b == [] {
      assert a + b == a;
    } else {
      var b' := b[..|b| - 1];
      assert (a + b)[..|a + b| - 1] == a + b';
      BinValueAppend(a, b');
      ShiftDigit(BinValue(a), Pow(2, |b'|), BinValue(b'), if b[|b| - 1] == '1' then 1 else 0, 2);
    }
  }

  // ---------------------------------------------------------------------
  // Formatting: '%04X', '%-Ns', '{:^N}'

  function Repeat(c: char, n: nat): (r: string)
    ensures |r| == n && forall i :: 0 <= i < n ==> r[i] == c
  {
    if n == 0 then [] else [c] + Repeat(c, n - 1)
  }

  /** '{:<N}' / '%-Ns': left-justify, pad with spaces, never truncate. */
  function PadRight(s: string, w: nat): (r: string)
    ensures |r| == if |s| >= w then |s| else w
    ensures r[..|s|] == s
  {
    if |s| >= w then s else s + Repeat(' ', w - |s|)
  }

  /** '{:>N}' with a fill character: right-justify, never truncate. */
  function PadLeft(s: string, w: nat, fill: char): (r: string)
    ensures |r| == if |s| >= w then |s| else w
    ensures r[|r| - |s|..] == s
  {
    if |s| >= w then s else Repeat(fill, w - |s|) + s
  }

  /** '{:^N}': centre; of an odd amount of padding the extra space goes right. */
  function Center(s: string, w: nat): (r: string)
    ensures |r| == if |s| >= w then |s| else w
  {
    if |s| >= w then s
    else
      var left := (w - |s|) / 2;
      Repeat(' ', left) + s + Repeat(' ', w - |s| - left)
  }

  function HexChar(d: nat): (c: char)
    requires d < 16
    ensures IsHexDigit(c) && HexDigitValue(c) == d
  {
    if d < 10 then ('0' as int + d) as char else ('A' as int + d - 10) as char
  }

  /** Upper-case hex digits of n with no leading zeros ("0" for zero). */
  function HexDigits(n: nat): (r: string)
    ensures 1 <= |r| && AllHexDigits(r)
    decreases n
  {
    if n < 16 then [HexChar(n)] else HexDigits(n / 16) + [HexChar(n % 16)]
  }

  /** '%04X' (and '{:0>4X}') of a non-negative number. */
  function Hex4(n: nat): (r: string)
    ensures AllHexDigits(r)
  {
    PadLeft(HexDigits(n), 4, '0')
  }

  /** Reading back the digits gives the number. */
  lemma {:induction false} HexDigitsRoundTrip(n: nat)
    ensures HexValue(HexDigits(n)) == n
    decreases n
  {
    if n >= 16 {
      HexDigitsRoundTrip(n / 16);
      var s := HexDigits(n);
      assert s[..|s| - 1] == HexDigits(n / 16);
    }
  }

  /** Below 16^k, n needs at most k digits. */
  lemma {:induction false} HexDigitsLength(n: nat, k: nat)
    requires 1 <= k && n < Pow(16, k)
    ensures |HexDigits(n)| <= k
    decreases n
  {
    if n >= 16 {
      assert k >= 2;
      assert Pow(16, k) == 16 * Pow(16, k - 1);
      assert n / 16 < Pow(16, k - 1);
      HexDigitsLength(n / 16, k - 1);
    }
  }

  /** From 16^k on, n needs more than k digits. */
  lemma {:induction false} HexDigitsLengthFrom(n: nat, k: nat)
    requires n >= Pow(16, k)
    ensures |HexDigits(n)| > k
    decreases k
  {
    if k > 0 {
      assert Pow(16, k) == 16 * Pow(16, k - 1);
      assert n / 16 >= Pow(16, k - 1);
      HexDigitsLengthFrom(n / 16, k - 1);
    }
  }

  lemma {:induction false} HexValueLeadingZeros(k: nat, s: string)
    requires AllHexDigits(s)
    ensures AllHexDigits(Repeat('0', k) + s)
    ensures HexValue(Repeat('0', k) + s) == HexValue(s)
  {
    var z := Repeat('0', k);
    HexValueAppend(z, s);
    ZerosValue(k);
  }

  lemma {:induction false} ZerosValue(k: nat)
    ensures AllHexDigits(Repeat('0', k)) && HexValue(Repeat('0', k)) == 0
  {
    if k > 0 {
      ZerosValue(k - 1);
      var z := Repeat('0', k);
      assert z == Repeat('0', k - 1) + ['0'];
      assert z[..|z| - 1] == Repeat('0', k - 1);
    }
  }

  /** '%04X' is exactly four characters below 0x10000, more from there on,
      and reads back as n. */
  lemma Hex4RoundTrip(n: nat)
    ensures HexValue(Hex4(n)) == n
    ensures n < 0x1_0000 ==> |Hex4(n)| == 4
    ensures n >= 0x1_0000 ==> |Hex4(n)| > 4
  {
    var d := HexDigits(n);
    HexDigitsRoundTrip(n);
    if |d| < 4 {
      HexValueLeadingZeros(4 - |d|, d);
    }
    assert Pow(16, 4) == 0x1_0000;
    if n < 0x1_0000 {
      HexDigitsLength(n, 4);
    } else {
      HexDigitsLengthFrom(n, 4);
    }
  }
}
