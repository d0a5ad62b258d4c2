/** The instruction-set table (class OpcodeInfo, as240.py:27-318): for each of
    the 36 mnemonics its format, operand count and kinds, the layout of the
    two 3-bit fields of the first word, which operand fills the second word of
    a long instruction, and the 10-bit opcode prefix as a string of bits. The
    source keeps this as a dictionary keyed by the mnemonic's text; here the
    keys are an enumeration and `Lookup` maps text to it. */
module Opcodes {
  import opened Wrappers
  import opened Text

  /** 'short' instructions take one word, 'long' ones two. */
  datatype Format = Short | Long

  /** What a 3-bit field (or the second word) holds: 'zero', 'op1' or 'op2'. */
  datatype Field = Zero | Op1 | Op2

  /** 'register' (R0..R7) or 'number' (hex literal or label). */
  datatype OperandKind = Register | Number

  /** One entry of the table. `field3` is present exactly for long formats;
      `op1Type`/`op2Type` exactly for the operands the mnemonic takes. */
  datatype OpcodeDef = OpcodeDef(
    format: Format,
    field1: Field,
    field2: Field,
    field3: Option<Field>,
    numOperands: nat,
    op1Type: Option<OperandKind>,
    op2Type: Option<OperandKind>)

  /** The keys of the table. */
  datatype Mnemonic = ADD | ADDSP | AND | ASHR | BRA | BRC | BRN | BRV | BRZ | CMI | CMR | DECR | INCR | JSR | LDA | LDI | LDR | LDSF | LDSP | LSHL | LSHR | MOV | NEG | NOT | OR | POP | PUSH | ROL | RTN | STA | STOP | STR | STSF | STSP | SUB | XOR

  /** The key's text, as it appears in source lines (upper case). */
  function Name(m: Mnemonic): string {
    match m
    case ADD   => "ADD"
    case ADDSP => "ADDSP"
    case AND   => "AND"
    case ASHR  => "ASHR"
    case BRA   => "BRA"
    case BRC   => "BRC"
    case BRN   => "BRN"
    case BRV   => "BRV"
    case BRZ   => "BRZ"
    case CMI   => "CMI"
    case CMR   => "CMR"
    case DECR  => "DECR"
    case INCR  => "INCR"
    case JSR   => "JSR"
    case LDA   => "LDA"
    case LDI   => "LDI"
    case LDR   => "LDR"
    case LDSF  => "LDSF"
    case LDSP  => "LDSP"
    case LSHL  => "LSHL"
    case LSHR  => "LSHR"
    case MOV   => "MOV"
    case NEG   => "NEG"
    case NOT   => "NOT"
    case OR    => "OR"
    case POP   => "POP"
    case PUSH  => "PUSH"
    case ROL   => "ROL"
    case RTN   => "RTN"
    case STA   => "STA"
    case STOP  => "STOP"
    case STR   => "STR"
    case STSF  => "STSF"
    case STSP  => "STSP"
    case SUB   => "SUB"
    case XOR   => "XOR"
  }

  /** The kind the table requires of operand `f` (Op1 or Op2). */
  function KindOf(d: OpcodeDef, f: Field): Option<OperandKind> {
    match f
    case Zero => None
    case Op1 => d.op1Type
    case Op2 => d.op2Type
  }

  /** What the encoder relies on: operand kinds exactly for
      the operands taken; a register field names a register operand; the
      second word exists exactly for long formats and names a number operand. */
  ghost predicate WellFormed(d: OpcodeDef) {
    && d.numOperands <= 2
    && (d.op1Type.Some? <==> d.numOperands >= 1)
    && (d.op2Type.Some? <==> d.numOperands == 2)
    && (d.field1 != Zero ==> KindOf(d, d.field1) == Some(Register))
    && (d.field2 != Zero ==> KindOf(d, d.field2) == Some(Register))
    && (d.field3.Some? <==> d.format == Long)
    && (d.field3.Some? ==> KindOf(d, d.field3.value) == Some(Number))
  }

  /** The table entry of a mnemonic (as240.py:29-270). */
  function Info(m: Mnemonic): OpcodeDef {
    match m
    case ADD   => OpcodeDef(Short, Op1, Op2, None, 2, Some(Register), Some(Register))
    case ADDSP => OpcodeDef(Long, Zero, Zero, Some(Op1), 1, Some(Number), None)
    case AND   => OpcodeDef(Short, Op1, Op2, None, 2, Some(Register), Some(Register))
    case ASHR  => OpcodeDef(Short, Op1, Op1, None, 1, Some(Register), None)
    case BRA   => OpcodeDef(Long, Zero, Zero, Some(Op1), 1, Some(Number), None)
    case BRC   => OpcodeDef(Long, Zero, Zero, Some(Op1), 1, Some(Number), None)
    case BRN   => OpcodeDef(Long, Zero, Zero, Some(Op1), 1, Some(Number), None)
    case BRV   => OpcodeDef(Long, Zero, Zero, Some(Op1), 1, Some(Number), None)
    case BRZ   => OpcodeDef(Long, Zero, Zero, Some(Op1), 1, Some(Number), None)
    case CMI   => OpcodeDef(Long, Zero, Zero, Some(Op2), 2, Some(Register), Some(Number))
    case CMR   => OpcodeDef(Short, Op1, Op2, None, 2, Some(Register), Some(Register))
    case DECR  => OpcodeDef(Short, Op1, Op1, None, 1, Some(Register), None)
    case INCR  => OpcodeDef(Short, Op1, Op1, None, 1, Some(Register), None)
    case JSR   => OpcodeDef(Long, Zero, Zero, Some(Op1), 1, Some(Number), None)
    case LDA   => OpcodeDef(Long, Op1, Op1, Some(Op2), 2, Some(Register), Some(Number))
    case LDI   => OpcodeDef(Long, Op1, Op1, Some(Op2), 2, Some(Register), Some(Number))
    case LDR   => OpcodeDef(Short, Op1, Op2, None, 2, Some(Register), Some(Register))
    case LDSF  => OpcodeDef(Long, Op1, Op1, Some(Op2), 2, Some(Register), Some(Number))
    case LDSP  => OpcodeDef(Short, Op1, Op1, None, 1, Some(Register), None)
    case LSHL  => OpcodeDef(Short, Op1, Op1, None, 1, Some(Register), None)
    case LSHR  => OpcodeDef(Short, Op1, Op1, None, 1, Some(Register), None)
    case MOV   => OpcodeDef(Short, Op1, Op2, None, 2, Some(Register), Some(Register))
    case NEG   => OpcodeDef(Short, Op1, Op1, None, 1, Some(Register), None)
    case NOT   => OpcodeDef(Short, Op1, Op1, None, 1, Some(Register), None)
    case OR    => OpcodeDef(Short, Op1, Op2, None, 2, Some(Register), Some(Register))
    case POP   => OpcodeDef(Short, Op1, Op1, None, 1, Some(Register), None)
    case PUSH  => OpcodeDef(Short, Op1, Op1, None, 1, Some(Register), None)
    case ROL   => OpcodeDef(Short, Op1, Op1, None, 1, Some(Register), None)
    case RTN   => OpcodeDef(Short, Zero, Zero, None, 0, None, None)
    case STA   => OpcodeDef(Long, Op2, Op2, Some(Op1), 2, Some(Number), Some(Register))
    case STOP  => OpcodeDef(Short, Zero, Zero, None, 0, None, None)
    case STR   => OpcodeDef(Short, Op1, Op2, None, 2, Some(Register), Some(Register))
    case STSF  => OpcodeDef(Long, Op1, Op1, Some(Op2), 2, Some(Register), Some(Number))
    case STSP  => OpcodeDef(Short, Op1, Op1, None, 1, Some(Register), None)
    case SUB   => OpcodeDef(Short, Op1, Op2, None, 2, Some(Register), Some(Register))
    case XOR   => OpcodeDef(Short, Op1, Op2, None, 2, Some(Register), Some(Register))
  }

  /** The 'encoding' entry of the table: the leading bits of the first word
      (as240.py:29-270). */
  function Encoding(m: Mnemonic): string {
    match m
    case ADD   => "0000111000"
    case ADDSP => "0000111100"
    case AND   => "0001101000"
    case ASHR  => "0010011000"
    case BRA   => "0010100000"
    case BRC   => "0100100000"
    case BRN   => "0010110000"
    case BRV   => "0010111000"
    case BRZ   => "0010101000"
    case CMI   => "0100010000"
    case CMR   => "0100011000"
    case DECR  => "0001011000"
    case INCR  => "0001010000"
    case JSR   => "0011011000"
    case LDA   => "0000010000"
    case LDI   => "0000110000"
    case LDR   => "0000100000"
    case LDSF  => "0100000000"
    case LDSP  => "0011110000"
    case LSHL  => "0010000000"
    case LSHR  => "0010010000"
    case MOV   => "0011101000"
    case NEG   => "0001001000"
    case NOT   => "0001100000"
    case OR    => "0001110000"
    case POP   => "0011010000"
    case PUSH  => "0011001000"
    case ROL   => "0010001000"
    case RTN   => "0011100000"
    case STA   => "0000011000"
    case STOP  => "0011000000"
    case STR   => "0000101000"
    case STSF  => "0100001000"
    case STSP  => "0011111000"
    case SUB   => "0001000000"
    case XOR   => "0001111000"
  }

  /** The mnemonics whose name starts with `c`, in the source's order. */
  function Bucket(c: char): seq<Mnemonic> {
    match c
    case 'A' => [ADD, ADDSP, AND, ASHR]
    case 'B' => [BRA, BRC, BRN, BRV, BRZ]
    case 'C' => [CMI, CMR]
    case 'D' => [DECR]
    case 'I' => [INCR]
    case 'J' => [JSR]
    case 'L' => [LDA, LDI, LDR, LDSF, LDSP, LSHL, LSHR]
    case 'M' => [MOV]
    case 'N' => [NEG, NOT]
    case 'O' => [OR]
    case 'P' => [POP, PUSH]
    case 'R' => [ROL, RTN]
    case 'S' => [STA, STOP, STR, STSF, STSP, SUB]
    case 'X' => [XOR]
    case _ => []
  }

  function FindIn(s: string, ms: seq<Mnemonic>): (r: Option<Mnemonic>)
    ensures r.Some? ==> Name(r.value) == s
    ensures r.None? ==> forall m :: m in ms ==> Name(m) != s
  {
    if ms == [] then None
    else if Name(ms[0]) == s then Some(ms[0])
    else FindIn(s, ms[1..])
  }

  /** Every mnemonic is found in the bucket of its first letter (checked in
      six groups of six entries). */
  lemma InOwnBucket(m: Mnemonic)
    ensures |Name(m)| > 0 && m in Bucket(Name(m)[0])
  {
    if m in [ADD, ADDSP, AND, ASHR, BRA, BRC] { InOwnBucket0(m); }
    else if m in [BRN, BRV, BRZ, CMI, CMR, DECR] { InOwnBucket1(m); }
    else if m in [INCR, JSR, LDA, LDI, LDR, LDSF] { InOwnBucket2(m); }
    else if m in [LDSP, LSHL, LSHR, MOV, NEG, NOT] { InOwnBucket3(m); }
    else if m in [OR, POP, PUSH, ROL, RTN, STA] { InOwnBucket4(m); }
    else { InOwnBucket5(m); }
  }

  lemma InOwnBucket0(m: Mnemonic)
    requires m in [ADD, ADDSP, AND, ASHR, BRA, BRC]
    ensures |Name(m)| > 0 && m in Bucket(Name(m)[0])
  {
    match m
    case ADD =>
    case ADDSP =>
    case AND =>
    case ASHR =>
    case BRA =>
    case BRC =>
  }

  lemma InOwnBucket1(m: Mnemonic)
    requires m in [BRN, BRV, BRZ, CMI, CMR, DECR]
    ensures |Name(m)| > 0 && m in Bucket(Name(m)[0])
  {
    match m
    case BRN =>
    case BRV =>
    case BRZ =>
    case CMI =>
    case CMR =>
    case DECR =>
  }

  lemma InOwnBucket2(m: Mnemonic)
    requires m in [INCR, JSR, LDA, LDI, LDR, LDSF]
    ensures |Name(m)| > 0 && m in Bucket(Name(m)[0])
  {
    match m
    case INCR =>
    case JSR =>
    case LDA =>
    case LDI =>
    case LDR =>
    case LDSF =>
  }

  lemma InOwnBucket3(m: Mnemonic)
    requires m in [LDSP, LSHL, LSHR, MOV, NEG, NOT]
    ensures |Name(m)| > 0 && m in Bucket(Name(m)[0])
  {
    match m
    case LDSP =>
    case LSHL =>
    case LSHR =>
    case MOV =>
    case NEG =>
    case NOT =>
  }

  lemma InOwnBucket4(m: Mnemonic)
    requires m in [OR, POP, PUSH, ROL, RTN, STA]
    ensures |Name(m)| > 0 && m in Bucket(Name(m)[0])
  {
    match m
    case OR =>
    case POP =>
    case PUSH =>
    case ROL =>
    case RTN =>
    case STA =>
  }

  lemma InOwnBucket5(m: Mnemonic)
    requires m in [STOP, STR, STSF, STSP, SUB, XOR]
    ensures |Name(m)| > 0 && m in Bucket(Name(m)[0])
  {
    match m
    case STOP =>
    case STR =>
    case STSF =>
    case STSP =>
    case SUB =>
    case XOR =>
  }

  lemma AllInOwnBuckets()
    ensures forall m :: |Name(m)| > 0 && m in Bucket(Name(m)[0])
  {
    forall m ensures |Name(m)| > 0 && m in Bucket(Name(m)[0]) {
      InOwnBucket(m);
    }
  }

  /** The table lookup by text (`opcode in opcode_info`, as240.py:273-279):
      None exactly for text that names no mnemonic, so that a bad mnemonic is
      told apart from a bad operand. */
  function Lookup(s: string): (r: Option<Mnemonic>)
    ensures r.Some? ==> Name(r.value) == s
    ensures r.None? ==> forall m :: Name(m) != s
  {
    AllInOwnBuckets();
    if |s| == 0 then None else FindIn(s, Bucket(s[0]))
  }

  /** operation_size (as240.py:293-298): words the instruction occupies. */
  function OperationSize(m: Mnemonic): (n: nat)
    ensures n == 1 || n == 2
    ensures n == 2 <==> Info(m).format == Long
  {
    if Info(m).format == Short then 1 else 2
  }

  /** format_is_long (as240.py:316-318). */
  predicate FormatIsLong(m: Mnemonic) {
    Info(m).format == Long
  }

  /** Every opcode prefix is a string of ten binary digits (checked in six
      groups of six entries, to keep each proof small). */
  lemma EncodingIsTenBits(m: Mnemonic)
    ensures |Encoding(m)| == 10 && AllBinDigits(Encoding(m))
  {
    if m in [ADD, ADDSP, AND, ASHR, BRA, BRC] { EncodingIsTenBits0(m); }
    else if m in [BRN, BRV, BRZ, CMI, CMR, DECR] { EncodingIsTenBits1(m); }
    else if m in [INCR, JSR, LDA, LDI, LDR, LDSF] { EncodingIsTenBits2(m); }
    else if m in [LDSP, LSHL, LSHR, MOV, NEG, NOT] { EncodingIsTenBits3(m); }
    else if m in [OR, POP, PUSH, ROL, RTN, STA] { EncodingIsTenBits4(m); }
    else { EncodingIsTenBits5(m); }
  }

  lemma EncodingIsTenBits0(m: Mnemonic)
    requires m in [ADD, ADDSP, AND, ASHR, BRA, BRC]
    ensures |Encoding(m)| == 10 && AllBinDigits(Encoding(m))
  {
    match m
    case ADD =>
    case ADDSP =>
    case AND =>
    case ASHR =>
    case BRA =>
    case BRC =>
  }

  lemma EncodingIsTenBits1(m: Mnemonic)
    requires m in [BRN, BRV, BRZ, CMI, CMR, DECR]
    ensures |Encoding(m)| == 10 && AllBinDigits(Encoding(m))
  {
    match m
    case BRN =>
    case BRV =>
    case BRZ =>
    case CMI =>
    case CMR =>
    case DECR =>
  }

  lemma EncodingIsTenBits2(m: Mnemonic)
    requires m in [INCR, JSR, LDA, LDI, LDR, LDSF]
    ensures |Encoding(m)| == 10 && AllBinDigits(Encoding(m))
  {
    match m
    case INCR =>
    case JSR =>
    case LDA =>
    case LDI =>
    case LDR =>
    case LDSF =>
  }

  lemma EncodingIsTenBits3(m: Mnemonic)
    requires m in [LDSP, LSHL, LSHR, MOV, NEG, NOT]
    ensures |Encoding(m)| == 10 && AllBinDigits(Encoding(m))
  {
    match m
    case LDSP =>
    case LSHL =>
    case LSHR =>
    case MOV =>
    case NEG =>
    case NOT =>
  }

  lemma EncodingIsTenBits4(m: Mnemonic)
    requires m in [OR, POP, PUSH, ROL, RTN, STA]
    ensures |Encoding(m)| == 10 && AllBinDigits(Encoding(m))
  {
    match m
    case OR =>
    case POP =>
    case PUSH =>
    case ROL =>
    case RTN =>
    case STA =>
  }

  lemma EncodingIsTenBits5(m: Mnemonic)
    requires m in [STOP, STR, STSF, STSP, SUB, XOR]
    ensures |Encoding(m)| == 10 && AllBinDigits(Encoding(m))
  {
    match m
    case STOP =>
    case STR =>
    case STSF =>
    case STSP =>
    case SUB =>
    case XOR =>
  }

  /** Every entry is well formed (checked in six groups of six entries). */
  lemma InfoWellFormed(m: Mnemonic)
    ensures WellFormed(Info(m))
  {
    if m in [ADD, ADDSP, AND, ASHR, BRA, BRC] { InfoWellFormed0(m); }
    else if m in [BRN, BRV, BRZ, CMI, CMR, DECR] { InfoWellFormed1(m); }
    else if m in [INCR, JSR, LDA, LDI, LDR, LDSF] { InfoWellFormed2(m); }
    else if m in [LDSP, LSHL, LSHR, MOV, NEG, NOT] { InfoWellFormed3(m); }
    else if m in [OR, POP, PUSH, ROL, RTN, STA] { InfoWellFormed4(m); }
    else { InfoWellFormed5(m); }
  }

  lemma InfoWellFormed0(m: Mnemonic)
    requires m in [ADD, ADDSP, AND, ASHR, BRA, BRC]
    ensures WellFormed(Info(m))
  {
    match m
    case ADD =>
    case ADDSP =>
    case AND =>
    case ASHR =>
    case BRA =>
    case BRC =>
  }

  lemma InfoWellFormed1(m: Mnemonic)
    requires m in [BRN, BRV, BRZ, CMI, CMR, DECR]
    ensures WellFormed(Info(m))
  {
    match m
    case BRN =>
    case BRV =>
    case BRZ =>
    case CMI =>
    case CMR =>
    case DECR =>
  }

  lemma InfoWellFormed2(m: Mnemonic)
    requires m in [INCR, JSR, LDA, LDI, LDR, LDSF]
    ensures WellFormed(Info(m))
  {
    match m
    case INCR =>
    case JSR =>
    case LDA =>
    case LDI =>
    case LDR =>
    case LDSF =>
  }

  lemma InfoWellFormed3(m: Mnemonic)
    requires m in [LDSP, LSHL, LSHR, MOV, NEG, NOT]
    ensures WellFormed(Info(m))
  {
    match m
    case LDSP =>
    case LSHL =>
    case LSHR =>
    case MOV =>
    case NEG =>
    case NOT =>
  }

  lemma InfoWellFormed4(m: Mnemonic)
    requires m in [OR, POP, PUSH, ROL, RTN, STA]
    ensures WellFormed(Info(m))
  {
    match m
    case OR =>
    case POP =>
    case PUSH =>
    case ROL =>
    case RTN =>
    case STA =>
  }

  lemma InfoWellFormed5(m: Mnemonic)
    requires m in [STOP, STR, STSF, STSP, SUB, XOR]
    ensures WellFormed(Info(m))
  {
    match m
    case STOP =>
    case STR =>
    case STSF =>
    case STSP =>
    case SUB =>
    case XOR =>
  }

  /** The first 10 bits of the first word, as a number below 1024. */
  lemma EncodingFitsTenBits(m: Mnemonic)
    ensures AllBinDigits(Encoding(m))
    ensures BinValue(Encoding(m)) < 1024
  {
    EncodingIsTenBits(m);
    BinValueBound(Encoding(m));
    assert Pow(2, 10) == 1024;
  }
}
