/** What one assembly line means (class AsmLine, as240.py:455-893), stated on
    values: the checks of __validate, next_mem_address, assemble and the two
    output formats. The class in asm_line.dfy is proved against these. */
module Lines {
  import opened Wrappers
  import opened Text
  import opened Errors
  import opened Opcodes
  import opened Operands
  import opened Shapes
  import opened Symbols
  import ParseFacts

  /** The part of an AsmLine fixed at construction. */
  datatype LineValue = LineValue(fields: Fields, lineNumber: int, memAddress: Option<nat>)

  /** word1 and word2 of a line; None while `assemble` has not set them. */
  datatype Words = Words(word1: Option<nat>, word2: Option<nat>)

  // ---------------------------------------------------------------------
  // Validation (__validate and its helpers, as240.py:614-805)

  /** The operand a field names: operand1 for 'op1', operand2 for 'op2'. */
  function OperandAt(f: Fields, fld: Field): Option<string> {
    match fld
    case Zero => None
    case Op1 => f.operand1
    case Op2 => f.operand2
  }

  /** What an operand slot of kind k accepts. */
  predicate Fits(k: OperandKind, s: string) {
    match k
    case Register => IsRegisterText(s)
    case Number => IsNumberText(s) && !IsRegisterText(s)
  }

  /** The source tests `required_type == 'register'` and treats every other
      kind as a number. */
  function Required(k: Option<OperandKind>): OperandKind {
    if k == Some(Register) then Register else Number
  }

  /** __validate_operand_type (as240.py:753-789). */
  function CheckOperand(k: OperandKind, position: nat, operand: string): (r: Option<SyntaxKind>)
    ensures r.None? <==> Fits(k, operand)
    ensures r.Some? && k == Register ==> r.value == RegisterExpected(position)
    ensures r.Some? && k == Number ==> r.value == NumberExpected(position) || r.value == RegisterNotAllowed(position)
  {
    match k
    case Register =>
      if IsRegisterText(operand) then None else Some(RegisterExpected(position))
    case Number =>
      if !IsNumberText(operand) then Some(NumberExpected(position))
      else if IsRegisterText(operand) then Some(RegisterNotAllowed(position))
      else None
  }

  function OperandCount(f: Fields): nat {
    (if f.operand1.Some? then 1 else 0) + (if f.operand2.Some? then 1 else 0)
  }

  /** Every operand the mnemonic takes is present and of the kind its slot
      asks for. */
  predicate OperandsFit(f: Fields, d: OpcodeDef) {
    && (d.op1Type.Some? ==> f.operand1.Some? && Fits(d.op1Type.value, f.operand1.value))
    && (d.op2Type.Some? ==> f.operand2.Some? && Fits(d.op2Type.value, f.operand2.value))
  }

  /** __validate_opcode (as240.py:632-668) once the mnemonic is known. */
  function CheckInstruction(f: Fields, m: Mnemonic): (r: Option<SyntaxKind>)
    ensures r.Some? ==> r.value != InvalidOpcode
  {
    var d := Info(m);
    if d.numOperands == 0 then
      if f.operand1.Some? then Some(NoOperandsExpected) else None
    else if d.numOperands == 1 then
      if f.operand2.Some? then Some(OneOperandGotTwo)
      else if f.operand1.None? then Some(OneOperandGotNone)
      else CheckOperand(Required(d.op1Type), 1, f.operand1.value)
    else
      if f.operand1.None? then Some(TwoOperandsGotNone)
      else if f.operand2.None? then Some(TwoOperandsGotOne)
      else if CheckOperand(Required(d.op1Type), 1, f.operand1.value).Some? then
        CheckOperand(Required(d.op1Type), 1, f.operand1.value)
      else CheckOperand(Required(d.op2Type), 2, f.operand2.value)
  }

  /** A parsed line passes the mnemonic's checks exactly when it has as many
      operands as the mnemonic takes, each of the kind the table asks for. */
  lemma InstructionRule(f: Fields, m: Mnemonic)
    requires WellShaped(f)
    ensures CheckInstruction(f, m).None? <==> OperandCount(f) == Info(m).numOperands && OperandsFit(f, Info(m))
  {
    InfoWellFormed(m);
  }

  /** The fields an accepted instruction's encoder reads are there, and have
      the kind the table asks for. */
  lemma InstructionAccepts(f: Fields, m: Mnemonic, fld: Field)
    requires WellShaped(f) && CheckInstruction(f, m).None?
    requires fld != Zero && KindOf(Info(m), fld).Some?
    ensures OperandAt(f, fld).Some? && Fits(KindOf(Info(m), fld).value, OperandAt(f, fld).value)
  {
    InstructionRule(f, m);
  }

  /** __validate_pseudo_opcode (as240.py:685-751). */
  function CheckPseudo(f: Fields, p: Pseudo): (r: Option<SyntaxKind>)
    ensures p == Equ ==> (r.None? <==>
      f.labelName.Some? && f.operand2.None? && f.operand1.Some? && IsHexLiteral(f.operand1.value))
    ensures p == Dw ==> (r.None? <==>
      f.operand2.None? && (f.operand1.Some? ==> IsHexLiteral(f.operand1.value)))
    ensures p == Org ==> (r.None? <==>
      f.labelName.None? && f.operand2.None? && f.operand1.Some? && IsHexLiteral(f.operand1.value))
  {
    match p
    case Equ =>
      if f.labelName.None? then Some(EquWithoutLabel)
      else if f.operand2.Some? then Some(EquTwoOperands)
      else if f.operand1.None? then Some(EquNoOperand)
      else if !IsHexLiteral(f.operand1.value) then Some(EquNotHex)
      else None
    case Dw =>
      if f.operand2.Some? then Some(DwTwoOperands)
      else if f.operand1.Some? && !IsHexLiteral(f.operand1.value) then Some(DwNotHex)
      else None
    case Org =>
      if f.labelName.Some? then Some(OrgWithLabel)
      else if f.operand2.Some? then Some(OrgTwoOperands)
      else if f.operand1.None? then Some(OrgNoOperand)
      else if !IsHexLiteral(f.operand1.value) then Some(OrgNotHex)
      else None
  }

  /** The opcode branch of __validate (as240.py:621-626): pseudo-operations
      by their own rules, anything else must be in the opcode table. */
  function CheckOpcode(f: Fields): (r: Option<SyntaxKind>)
    requires f.opcode.Some?
    ensures r == Some(InvalidOpcode) <==> PseudoOf(f.opcode.value).None? && Lookup(f.opcode.value).None?
  {
    match PseudoOf(f.opcode.value)
    case Some(p) => CheckPseudo(f, p)
    case None =>
      match Lookup(f.opcode.value)
      case None => Some(InvalidOpcode)
      case Some(m) => CheckInstruction(f, m)
  }

  /** __validate_memory_address (as240.py:792-805), called when the line has
      a label or an opcode. */
  function CheckAddress(f: Fields, address: Option<nat>): (r: Option<SyntaxKind>)
    ensures r.None? <==>
      (f.labelName.None? && f.opcode.None?) || f.opcode == Some(".ORG") || f.opcode == Some(".EQU") || address.Some?
    ensures r.Some? ==> r.value == AddressNotInitialized
  {
    if (f.labelName.Some? || f.opcode.Some?) && f.opcode != Some(".ORG") && f.opcode != Some(".EQU") && address.None? then
      Some(AddressNotInitialized)
    else None
  }

  /** __validate (as240.py:614-629) with the symbol table it updates: the
      label is checked and registered first, so it stays registered when a
      later check rejects the line. */
  function Validate(f: Fields, address: Option<nat>, t: Table): (r: (Table, Option<SyntaxKind>))
    ensures f.labelName.Some? && IsLabelText(f.labelName.value) && f.labelName.value !in t ==>
      r.0 == t[f.labelName.value := address]
    ensures !(f.labelName.Some? && IsLabelText(f.labelName.value) && f.labelName.value !in t) ==> r.0 == t
    ensures f.labelName.Some? && !IsLabelText(f.labelName.value) ==> r.1 == Some(InvalidLabel)
    ensures f.labelName.Some? && IsLabelText(f.labelName.value) && f.labelName.value in t ==> r.1 == Some(DuplicateLabel)
    ensures r.1.None? <==>
      && (f.labelName.Some? ==> IsLabelText(f.labelName.value) && f.labelName.value !in t)
      && (f.opcode.Some? ==> CheckOpcode(f).None?)
      && CheckAddress(f, address).None?
  {
    var (t1, e1) :=
      if f.labelName.None? then (t, None)
      else if !IsLabelText(f.labelName.value) then (t, Some(InvalidLabel))
      else if f.labelName.value in t then (t, Some(DuplicateLabel))
      else (t[f.labelName.value := address], None);
    if e1.Some? then (t1, e1)
    else if f.opcode.Some? && CheckOpcode(f).Some? then (t1, CheckOpcode(f))
    else (t1, CheckAddress(f, address))
  }

  /** What a constructed AsmLine satisfies. */
  ghost predicate ValidLine(v: LineValue) {
    && WellShaped(v.fields)
    && (v.fields.labelName.Some? ==> IsLabelText(v.fields.labelName.value))
    && (v.fields.opcode.Some? ==> CheckOpcode(v.fields).None?)
    && CheckAddress(v.fields, v.memAddress).None?
  }

  /** The AsmLine constructor (as240.py:455-470): parse, then validate; the
      table comes back updated even when a check fails. */
  function LineOutcome(text: string, lineNumber: int, address: Option<nat>, t: Table): (r: (Table, Result<LineValue, AsmError>))
    ensures r.1.Ok? ==> ValidLine(r.1.value) && r.1.value.lineNumber == lineNumber && r.1.value.memAddress == address
    ensures r.1.Err? ==> r.1.error == ParseError(lineNumber) || (r.1.error.SyntaxError? && r.1.error.lineNumber == lineNumber)
    ensures r.1.Err? && r.1.error.ParseError? ==> r.0 == t
  {
    var parsed := ParseFields(text, lineNumber);
    if parsed.Err? then (t, Err(parsed.error))
    else
      var (t1, e) := Validate(parsed.value, address, t);
      if e.Some? then (t1, Err(SyntaxError(lineNumber, e.value)))
      else (t1, Ok(LineValue(parsed.value, lineNumber, address)))
  }

  /** A comment in the first column is not cut off, so the line is kept
      whole: it fails to parse, or parses with a label starting with ';',
      which is no label. */
  lemma CommentLineRejected(comment: string, lineNumber: int, address: Option<nat>, t: Table)
    ensures var r := LineOutcome(";" + comment, lineNumber, address, t).1;
      r == Err(ParseError(lineNumber)) || r == Err(SyntaxError(lineNumber, InvalidLabel))
  {
    var text := ";" + comment;
    ParseFacts.CommentAtStartKept(comment);
    ParseFacts.FlushLeftLabel(text, lineNumber);
    var parsed := ParseFields(text, lineNumber);
    if parsed.Ok? {
      assert parsed.value.labelName.value[0] == ';';
      assert !IsLabelText(parsed.value.labelName.value);
    }
  }

  // ---------------------------------------------------------------------
  // The location counter (next_mem_address, as240.py:807-823)

  function NextAddress(v: LineValue): (r: Option<nat>)
    requires ValidLine(v)
    ensures v.fields.opcode == Some(".ORG") ==> r.Some? && r.value < 0x1_0000
    ensures v.fields.opcode != Some(".ORG") && v.memAddress.None? ==> r.None?
    ensures v.fields.opcode != Some(".ORG") && v.memAddress.Some? ==>
      r.Some? && v.memAddress.value <= r.value <= v.memAddress.value + 2
  {
    var op := v.fields.opcode;
    if op == Some(".ORG") then
      assert PseudoOf(op.value) == Some(Org);
      Some(HexLiteralValue(v.fields.operand1.value))
    else if v.memAddress.None? then None
    else if op == Some(".EQU") then v.memAddress
    else if op == Some(".DW") then Some(v.memAddress.value + 1)
    else if op.Some? then
      assert PseudoOf(op.value).None?;
      Some(v.memAddress.value + OperationSize(Lookup(op.value).value))
    else v.memAddress
  }

  /** A .ORG line moves the counter to its operand. */
  lemma OrgSetsCounter(v: LineValue)
    requires ValidLine(v) && v.fields.opcode == Some(".ORG")
    ensures v.fields.operand1.Some? && IsHexLiteral(v.fields.operand1.value)
    ensures NextAddress(v) == Some(HexLiteralValue(v.fields.operand1.value))
  {
    assert PseudoOf(".ORG") == Some(Org);
  }

  // ---------------------------------------------------------------------
  // Machine words (assemble, as240.py:825-893)

  /** A field's three bits: '000' for 'zero', else the register's bits. */
  function FieldBits(f: Fields, fld: Field): (b: string)
    requires fld != Zero ==> OperandAt(f, fld).Some? && IsRegisterText(OperandAt(f, fld).value)
    ensures |b| == 3 && AllBinDigits(b)
  {
    if fld == Zero then "000"
    else
      RegisterBitsValue(OperandAt(f, fld).value);
      RegisterBits(OperandAt(f, fld).value)
  }

  /** The register number a field holds (0 for 'zero'). */
  function FieldValue(f: Fields, fld: Field): (k: nat)
    requires fld != Zero ==> OperandAt(f, fld).Some? && IsRegisterText(OperandAt(f, fld).value)
    ensures k < 8
  {
    if fld == Zero then 0 else RegisterIndex(OperandAt(f, fld).value)
  }

  /** The register fields of an accepted instruction name register operands. */
  lemma RegisterFields(f: Fields, m: Mnemonic)
    requires WellShaped(f) && CheckInstruction(f, m).None?
    ensures RegisterFieldsPresent(f, Info(m))
  {
    InfoWellFormed(m);
    if Info(m).field1 != Zero {
      InstructionAccepts(f, m, Info(m).field1);
    }
    if Info(m).field2 != Zero {
      InstructionAccepts(f, m, Info(m).field2);
    }
  }

  /** The mnemonic of an accepted line that is not a pseudo-operation. */
  lemma AcceptedMnemonic(v: LineValue)
    requires ValidLine(v) && v.fields.opcode.Some? && PseudoOf(v.fields.opcode.value).None?
    ensures Lookup(v.fields.opcode.value).Some?
    ensures CheckInstruction(v.fields, Lookup(v.fields.opcode.value).value).None?
  {
  }

  /** The second word of a long instruction: the value of a hex operand, or
      what the symbol table holds for a label (__assemble_long). */
  function SecondWord(f: Fields, m: Mnemonic, t: Table, lineNumber: int): (r: Result<Option<nat>, AsmError>)
    requires WellShaped(f) && CheckInstruction(f, m).None? && Info(m).format == Long
    ensures r.Err? ==> r.error == SyntaxError(lineNumber, UndefinedLabel)
    ensures r.Ok? && r.value.Some? ==> r.value.value < 0x1_0000 || !IsHexLiteral(OperandAt(f, Info(m).field3.value).value)
  {
    InfoWellFormed(m);
    var fld := Info(m).field3.value;
    InstructionAccepts(f, m, fld);
    var operand := OperandAt(f, fld).value;
    if IsHexLiteral(operand) then Ok(Some(HexLiteralValue(operand)))
    else Find(t, operand, lineNumber)
  }

  /** The first word of an instruction: `int(encoding + field1 + field2, 2)`.
      It is the ten-bit encoding followed by the two three-bit register
      fields. */
  function FirstWord(f: Fields, d: OpcodeDef, encoding: string): (w: nat)
    requires |encoding| == 10 && AllBinDigits(encoding) && RegisterFieldsPresent(f, d)
    ensures w == BinValue(encoding) * 64 + FieldValue(f, d.field1) * 8 + FieldValue(f, d.field2)
    ensures w < 0x1_0000
  {
    FieldBitsValue(f, d.field1);
    FieldBitsValue(f, d.field2);
    WordLayout(encoding, FieldBits(f, d.field1), FieldBits(f, d.field2));
    BinValue(encoding + FieldBits(f, d.field1) + FieldBits(f, d.field2))
  }

  /** Ten bits then two groups of three make a sixteen-bit word. */
  lemma WordLayout(e: string, b1: string, b2: string)
    requires |e| == 10 && |b1| == 3 && |b2| == 3
    requires AllBinDigits(e) && AllBinDigits(b1) && AllBinDigits(b2)
    ensures AllBinDigits(e + b1 + b2)
    ensures BinValue(e + b1 + b2) == BinValue(e) * 64 + BinValue(b1) * 8 + BinValue(b2)
    ensures BinValue(e + b1 + b2) < 0x1_0000
  {
    BinValueAppend(e, b1);
    BinValueAppend(e + b1, b2);
    BinValueBound(e + b1 + b2);
    assert Pow(2, 3) == 8;
    assert Pow(2, 16) == 0x1_0000;
  }

  /** The register fields of the entry name register operands of the line. */
  predicate RegisterFieldsPresent(f: Fields, d: OpcodeDef) {
    && (d.field1 != Zero ==> OperandAt(f, d.field1).Some? && IsRegisterText(OperandAt(f, d.field1).value))
    && (d.field2 != Zero ==> OperandAt(f, d.field2).Some? && IsRegisterText(OperandAt(f, d.field2).value))
  }

  /** assemble: the words a line stands for, or the error the source runs
      into (an undefined label, or a .DW without operand). */
  function Encode(v: LineValue, t: Table): (r: Result<Words, AsmError>)
    requires ValidLine(v)
    ensures r.Err? ==> r.error == DwWithoutOperand(v.lineNumber) || r.error == SyntaxError(v.lineNumber, UndefinedLabel)
    ensures r.Ok? && (r.value.word1.Some? || r.value.word2.Some?) ==> v.memAddress.Some?
    ensures r.Ok? && r.value.word1.Some? ==> r.value.word1.value < 0x1_0000
    ensures r.Ok? && r.value.word2.Some? ==> r.value.word1.Some?
  {
    var f := v.fields;
    if f.opcode.None? then Ok(Words(None, None))
    else if f.opcode.value == ".DW" then
      if f.operand1.None? then Err(DwWithoutOperand(v.lineNumber))
      else
        assert PseudoOf(".DW") == Some(Dw);
        Ok(Words(Some(HexLiteralValue(f.operand1.value)), None))
    else if f.opcode.value == ".EQU" || f.opcode.value == ".ORG" then Ok(Words(None, None))
    else
      AcceptedMnemonic(v);
      var m := Lookup(f.opcode.value).value;
      RegisterFields(f, m);
      EncodingIsTenBits(m);
      var w1 := FirstWord(f, Info(m), Encoding(m));
      if Info(m).format == Long then
        match SecondWord(f, m, t, v.lineNumber)
        case Err(e) => Err(e)
        case Ok(w2) => Ok(Words(Some(w1), w2))
      else Ok(Words(Some(w1), None))
  }

  /** An instruction line's first word is FirstWord of its table entry. */
  lemma InstructionWord(v: LineValue, t: Table)
    requires ValidLine(v) && v.fields.opcode.Some? && PseudoOf(v.fields.opcode.value).None?
    requires Encode(v, t).Ok?
    ensures Lookup(v.fields.opcode.value).Some?
    ensures var m := Lookup(v.fields.opcode.value).value;
      |Encoding(m)| == 10 && AllBinDigits(Encoding(m)) && RegisterFieldsPresent(v.fields, Info(m)) &&
      Encode(v, t).value.word1 == Some(FirstWord(v.fields, Info(m), Encoding(m)))
  {
    AcceptedMnemonic(v);
    var m := Lookup(v.fields.opcode.value).value;
    RegisterFields(v.fields, m);
    EncodingIsTenBits(m);
  }

  /** A long instruction's second word is the operand field3 names: its
      value when it is a hex literal, else what the symbol table holds for
      it; a label the table lacks is an undefined-label error. */
  lemma LongInstructionWord(v: LineValue, t: Table)
    requires ValidLine(v) && IsLongInstruction(v.fields.opcode)
    ensures var m := Lookup(v.fields.opcode.value).value;
      && Info(m).field3.Some? && OperandAt(v.fields, Info(m).field3.value).Some?
      && var op := OperandAt(v.fields, Info(m).field3.value).value;
      && (IsHexLiteral(op) ==> Encode(v, t).Ok? && Encode(v, t).value.word2 == Some(HexLiteralValue(op)))
      && (!IsHexLiteral(op) && op in t ==> Encode(v, t).Ok? && Encode(v, t).value.word2 == t[op])
      && (!IsHexLiteral(op) && op !in t ==> Encode(v, t) == Err(SyntaxError(v.lineNumber, UndefinedLabel)))
  {
    AcceptedMnemonic(v);
    var m := Lookup(v.fields.opcode.value).value;
    InfoWellFormed(m);
    InstructionAccepts(v.fields, m, Info(m).field3.value);
  }

  /** A .DW line assembles to the value of its operand, one word; without an
      operand it fails. */
  lemma DwWord(v: LineValue, t: Table)
    requires ValidLine(v) && v.fields.opcode == Some(".DW")
    ensures v.fields.operand1.None? ==> Encode(v, t) == Err(DwWithoutOperand(v.lineNumber))
    ensures v.fields.operand1.Some? ==>
      && IsHexLiteral(v.fields.operand1.value)
      && Encode(v, t) == Ok(Words(Some(HexLiteralValue(v.fields.operand1.value)), None))
  {
    assert PseudoOf(".DW") == Some(Dw);
  }

  lemma FieldBitsValue(f: Fields, fld: Field)
    requires fld != Zero ==> OperandAt(f, fld).Some? && IsRegisterText(OperandAt(f, fld).value)
    ensures BinValue(FieldBits(f, fld)) == FieldValue(f, fld)
  {
    if fld == Zero {
      assert BinValue("000") == 0 by {
        assert "000"[..2] == "00" && "00"[..1] == "0" && "0"[..0] == "";
      }
    } else {
      RegisterBitsValue(OperandAt(f, fld).value);
    }
  }

  /** Looking a mnemonic's own name up finds that mnemonic. */
  lemma LookupName(m: Mnemonic)
    ensures Lookup(Name(m)) == Some(m)
  {
    var r := Lookup(Name(m));
    assert r.Some?;
    NameInjective(r.value, m);
  }

  lemma NameInjective(a: Mnemonic, b: Mnemonic)
    requires Name(a) == Name(b)
    ensures a == b
  {
  }

  /** Which lines produce which words: none for a line without opcode, a
      .EQU or a .ORG; one for a .DW; a first word for every instruction; a
      second word only for the long format. */
  lemma WordsByKind(v: LineValue, t: Table)
    requires ValidLine(v)
    ensures v.fields.opcode.None? || v.fields.opcode == Some(".EQU") || v.fields.opcode == Some(".ORG") ==>
      Encode(v, t) == Ok(Words(None, None))
    ensures v.fields.opcode == Some(".DW") && Encode(v, t).Ok? ==>
      Encode(v, t).value.word1.Some? && Encode(v, t).value.word2.None?
    ensures v.fields.opcode.Some? && PseudoOf(v.fields.opcode.value).None? && Encode(v, t).Ok? ==>
      Encode(v, t).value.word1.Some?
    ensures Encode(v, t).Ok? && Encode(v, t).value.word2.Some? ==> IsLongInstruction(v.fields.opcode)
  {
  }

  /** How many words the line occupies in memory. */
  function WordCount(w: Words): nat {
    (if w.word1.Some? then 1 else 0) + (if w.word2.Some? then 1 else 0)
  }

  /** The counter advances by exactly the number of words the line assembles
      to, once every label has an address. */
  lemma CounterFollowsWords(v: LineValue, t: Table)
    requires ValidLine(v) && v.fields.opcode != Some(".ORG") && v.memAddress.Some?
    requires forall name :: name in t ==> t[name].Some?
    requires Encode(v, t).Ok?
    ensures NextAddress(v) == Some(v.memAddress.value + WordCount(Encode(v, t).value))
  {
    var f := v.fields;
    if f.opcode.Some? && f.opcode.value != ".DW" && f.opcode.value != ".EQU" {
      AcceptedMnemonic(v);
      CounterFollowsInstruction(v, t, Lookup(f.opcode.value).value);
    }
  }

  lemma CounterFollowsInstruction(v: LineValue, t: Table, m: Mnemonic)
    requires ValidLine(v) && v.memAddress.Some? && v.fields.opcode.Some?
    requires PseudoOf(v.fields.opcode.value).None? && Lookup(v.fields.opcode.value) == Some(m)
    requires forall name :: name in t ==> t[name].Some?
    requires Encode(v, t).Ok?
    ensures NextAddress(v) == Some(v.memAddress.value + WordCount(Encode(v, t).value))
  {
    var f := v.fields;
    if Info(m).format == Long {
      InfoWellFormed(m);
      InstructionAccepts(f, m, Info(m).field3.value);
      assert SecondWord(f, m, t, v.lineNumber).value.Some?;
    }
  }

  /** ADD R1, R2 assembles to 0E0A. */
  lemma AddExample(t: Table)
    ensures ValidLine(LineValue(Fields(None, Some("ADD"), Some("R1"), Some("R2")), 3, Some(0x10)))
    ensures Encode(LineValue(Fields(None, Some("ADD"), Some("R1"), Some("R2")), 3, Some(0x10)), t) == Ok(Words(Some(0x0E0A), None))
  {
    var v := LineValue(Fields(None, Some("ADD"), Some("R1"), Some("R2")), 3, Some(0x10));
    assert Name(ADD) == "ADD";
    LookupName(ADD);
    assert CheckInstruction(v.fields, ADD).None?;
    assert ValidLine(v);
    InstructionWord(v, t);
    TenBits("0000111000");
  }

  lemma TenBits(s: string)
    requires s == "0000111000"
    ensures AllBinDigits(s) && BinValue(s) == 56
  {
    LowBits();
    BinPush("0000111", '0');
    assert "0000111" + ['0'] == "00001110";
    BinPush("00001110", '0');
    assert "00001110" + ['0'] == "000011100";
    BinPush("000011100", '0');
    assert "000011100" + ['0'] == s;
  }

  lemma LowBits()
    ensures AllBinDigits("0000111") && BinValue("0000111") == 7
  {
    Zeros();
    BinPush("0000", '1');
    assert "0000" + ['1'] == "00001";
    BinPush("00001", '1');
    assert "00001" + ['1'] == "000011";
    BinPush("000011", '1');
    assert "000011" + ['1'] == "0000111";
  }

  lemma Zeros()
    ensures AllBinDigits("0000") && BinValue("0000") == 0
  {
    BinPush("", '0');
    assert "" + ['0'] == "0";
    BinPush("0", '0');
    assert "0" + ['0'] == "00";
    BinPush("00", '0');
    assert "00" + ['0'] == "000";
    BinPush("000", '0');
    assert "000" + ['0'] == "0000";
  }

  lemma BinPush(s: string, c: char)
    requires AllBinDigits(s) && (c == '0' || c == '1')
    ensures AllBinDigits(s + [c]) && BinValue(s + [c]) == 2 * BinValue(s) + (if c == '1' then 1 else 0)
  {
    assert (s + [c])[..|s|] == s;
  }

  // ---------------------------------------------------------------------
  // Output (__str__ and mem_str, as240.py:472-524)

  /** `%s` of a value that may be None prints "None". */
  function PyText(s: Option<string>): string {
    if s.Some? then s.value else "None"
  }

  /** Python's truth value of a word: set and nonzero. */
  predicate Truthy(w: Option<nat>) {
    w.Some? && w.value != 0
  }

  /** FORMAT_STRING of mem_str: "%04X %04X". */
  function MemoryRow(address: nat, word: nat): string {
    Hex4(address) + " " + Hex4(word)
  }

  /** FORMAT_STRING of __str__: "%04X %04X  %-5s   %-6s %-8s". */
  function ListingRow(address: nat, word: nat, a: string, b: string, c: string): string {
    MemoryRow(address, word) + "  " + PadRight(a, 5) + "   " + PadRight(b, 6) + " " + PadRight(c, 8)
  }

  /** A mnemonic of the long format, which lists only its first operand on
      the first row. */
  predicate IsLongInstruction(op: Option<string>) {
    op.Some? && PseudoOf(op.value).None? && Lookup(op.value).Some? && FormatIsLong(Lookup(op.value).value)
  }

  /** formatted_operands of __str__. */
  function OperandText(f: Fields): string {
    if !IsLongInstruction(f.opcode) then
      if f.operand2.Some? then PyText(f.operand1) + " " + f.operand2.value
      else if f.operand1.Some? then f.operand1.value
      else ""
    else PyText(f.operand1)
  }

  /** __str__ of a valid line: one row per nonzero word; the second row
      shows operand2 (printed "None" when the line has none). */
  function ListingOf(v: LineValue, w: Words): string
    requires Truthy(w.word1) || Truthy(w.word2) ==> v.memAddress.Some?
  {
    var f := v.fields;
    var first :=
      if Truthy(w.word1) then
        ListingRow(v.memAddress.value, w.word1.value, if f.labelName.Some? then f.labelName.value else " ", PyText(f.opcode), OperandText(f))
      else "";
    if Truthy(w.word2) then
      first + "\n" + ListingRow(v.memAddress.value + 1, w.word2.value, " ", " ", PyText(f.operand2))
    else first
  }

  /** mem_str of a valid line. */
  function MemoryOf(v: LineValue, w: Words): string
    requires Truthy(w.word1) || Truthy(w.word2) ==> v.memAddress.Some?
  {
    var first := if Truthy(w.word1) then MemoryRow(v.memAddress.value, w.word1.value) else "";
    if Truthy(w.word2) then first + "\n" + MemoryRow(v.memAddress.value + 1, w.word2.value)
    else first
  }

  /** A line prints to the listing exactly when it prints to the memory
      file, and that is when one of its words is nonzero: `.DW $0` leaves
      no trace in either. */
  lemma SilentIffZero(v: LineValue, w: Words)
    requires Truthy(w.word1) || Truthy(w.word2) ==> v.memAddress.Some?
    ensures ListingOf(v, w) == "" <==> !Truthy(w.word1) && !Truthy(w.word2)
    ensures MemoryOf(v, w) == "" <==> !Truthy(w.word1) && !Truthy(w.word2)
  {
    if Truthy(w.word1) {
      MemoryRowShape(v.memAddress.value, w.word1.value);
      assert |ListingOf(v, w)| >= |MemoryRow(v.memAddress.value, w.word1.value)|;
    }
  }

  lemma MemoryRowShape(address: nat, word: nat)
    ensures |MemoryRow(address, word)| >= 9
  {
  }

  /** A memory row is nine characters and reads back as the address and the
      word it was made from. */
  lemma MemoryRowRoundTrip(address: nat, word: nat)
    requires address < 0x1_0000 && word < 0x1_0000
    ensures var r := MemoryRow(address, word);
      && |r| == 9 && r[4] == ' ' && r[..4] == Hex4(address) && r[5..] == Hex4(word)
      && AllHexDigits(r[..4]) && AllHexDigits(r[5..])
      && HexValue(r[..4]) == address && HexValue(r[5..]) == word
  {
    var a, b := Hex4(address), Hex4(word);
    Hex4RoundTrip(address);
    Hex4RoundTrip(word);
    ColumnsOf(a, b);
    assert MemoryRow(address, word) == a + " " + b;
  }

  /** The counter is not bounded: from 0x10000 on the address column of a
      memory row is five or more digits wide, so the row is longer than nine. */
  lemma MemoryRowWide(address: nat, word: nat)
    requires address >= 0x1_0000 && word < 0x1_0000
    ensures |MemoryRow(address, word)| > 9
  {
    Hex4RoundTrip(address);
    Hex4RoundTrip(word);
  }

  lemma ColumnsOf(a: string, b: string)
    requires |a| == 4 && |b| == 4
    ensures |a + " " + b| == 9 && (a + " " + b)[4] == ' '
    ensures (a + " " + b)[..4] == a && (a + " " + b)[5..] == b
  {
  }

  /** The listing's first row begins with the memory file's first row: both
      files agree on address and word. */
  lemma ListingMatchesMemory(v: LineValue, w: Words)
    requires Truthy(w.word1) || Truthy(w.word2) ==> v.memAddress.Some?
    ensures Truthy(w.word1) ==> MemoryRow(v.memAddress.value, w.word1.value) <= ListingOf(v, w)
    ensures Truthy(w.word1) ==> MemoryRow(v.memAddress.value, w.word1.value) <= MemoryOf(v, w)
  {
  }
}
