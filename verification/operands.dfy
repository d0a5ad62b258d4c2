/** The validation patterns for labels and operands (as240.py:408-453), as
    predicates over text, and the values the encoder reads from operands. */
module Operands {
  import opened Wrappers
  import opened Text

  /** re_vallabel `^\w+$`: one or more letters, digits or underscores. */
  predicate IsLabelText(s: string) {
    |s| > 0 && forall i :: 0 <= i < |s| ==> IsWordChar(s[i])
  }

  /** re_valop_reg `^R[0-7]$`. */
  predicate IsRegisterText(s: string) {
    |s| == 2 && s[0] == 'R' && '0' <= s[1] <= '7'
  }

  /** re_valop_hex `^\$[0-9A-F]{1,4}$`: a dollar sign and one to four
      upper-case hex digits. */
  predicate IsHexLiteral(s: string) {
    2 <= |s| <= 5 && s[0] == '$' && AllHexDigits(s[1..])
  }

  /** re_valop_num `^(\$[0-9A-F]{1,4}|\w+)$`: a hex literal or a label. */
  predicate IsNumberText(s: string) {
    IsHexLiteral(s) || IsLabelText(s)
  }

  /** The pseudo-operations recognised by re_pseudo `^\.(ORG|DW|EQU)$`. */
  datatype Pseudo = Org | Dw | Equ

  function PseudoOf(s: string): (r: Option<Pseudo>)
    ensures r == Some(Org) <==> s == ".ORG"
    ensures r == Some(Dw) <==> s == ".DW"
    ensures r == Some(Equ) <==> s == ".EQU"
  {
    if s == ".ORG" then Some(Org)
    else if s == ".DW" then Some(Dw)
    else if s == ".EQU" then Some(Equ)
    else None
  }

  /** `int(s[1:], 16)` of a validated hex literal. */
  function HexLiteralValue(s: string): (v: nat)
    requires IsHexLiteral(s)
    ensures v < 0x1_0000
  {
    HexValueBound(s[1..]);
    assert Pow(16, |s| - 1) <= Pow(16, 4) == 0x1_0000 by {
      PowMonotone(16, |s| - 1, 4);
    }
    HexValue(s[1..])
  }

  lemma {:induction false} PowMonotone(b: nat, e1: nat, e2: nat)
    requires b >= 1 && e1 <= e2
    ensures Pow(b, e1) <= Pow(b, e2)
    decreases e2
  {
    if e1 < e2 {
      PowMonotone(b, e1, e2 - 1);
    }
  }

  /** The register number of `Rk`. */
  function RegisterIndex(s: string): (k: nat)
    requires IsRegisterText(s)
    ensures k < 8
  {
    s[1] as int - '0' as int
  }

  /** __assemble_register (as240.py:843-864): the three-bit binary text of
      the register number. */
  function RegisterBits(s: string): (b: string)
    requires IsRegisterText(s)
  {
    match s[1]
    case '0' => "000"
    case '1' => "001"
    case '2' => "010"
    case '3' => "011"
    case '4' => "100"
    case '5' => "101"
    case '6' => "110"
    case _ => "111"
  }

  /** The three bits spell the register number. */
  lemma RegisterBitsValue(s: string)
    requires IsRegisterText(s)
    ensures |RegisterBits(s)| == 3 && AllBinDigits(RegisterBits(s))
    ensures BinValue(RegisterBits(s)) == RegisterIndex(s)
  {
    var b := RegisterBits(s);
    ThreeBits(b);
  }

  function Bit(c: char): nat {
    if c == '1' then 1 else 0
  }

  lemma ThreeBits(b: string)
    requires |b| == 3 && AllBinDigits(b)
    ensures BinValue(b) == 4 * Bit(b[0]) + 2 * Bit(b[1]) + Bit(b[2])
  {
    var b2, b1 := b[..2], b[..1];
    assert b[..|b| - 1] == b2 && b2[..|b2| - 1] == b1 && b1[..|b1| - 1] == [];
    assert BinValue(b1) == Bit(b[0]);
    assert BinValue(b2) == 2 * Bit(b[0]) + Bit(b[1]);
  }

  /** A register name is also a word, so the number pattern alone would
      admit it: that is why a number operand is checked against the register
      pattern as well. */
  lemma RegisterIsNumberText(s: string)
    requires IsRegisterText(s)
    ensures IsNumberText(s) && !IsHexLiteral(s)
  {
    assert IsWordChar(s[0]) && IsWordChar(s[1]);
  }

  /** A label and a hex literal never look alike: the dollar sign is not a
      word character. */
  lemma HexLiteralIsNoLabel(s: string)
    requires IsHexLiteral(s)
    ensures !IsLabelText(s) && !IsRegisterText(s)
  {
  }
}
