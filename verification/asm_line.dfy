/** The line object (class AsmLine, as240.py:320-893). Its fields are set
    once by the constructor, except the two machine words, which `assemble`
    fills in during the second pass. */
module AsmLines {
  import opened Wrappers
  import opened Errors
  import opened Opcodes
  import opened Operands
  import opened Shapes
  import opened Symbols
  import opened Lines

  class AsmLine {
    const text: string
    const lineNumber: int
    const memAddress: Option<nat>
    const labelName: Option<string>
    const opcode: Option<string>
    const operand1: Option<string>
    const operand2: Option<string>
    const isValid: bool
    const isPseudoOperation: bool
    var word1: Option<nat>
    var word2: Option<nat>

    function Parsed(): Fields {
      Fields(labelName, opcode, operand1, operand2)
    }

    /** The line as a value, for the specification functions. */
    function Value(): LineValue {
      LineValue(Parsed(), lineNumber, memAddress)
    }

    /** What every constructed line satisfies. */
    ghost predicate Valid() {
      && ValidLine(Value())
      && isValid
      && (isPseudoOperation <==> opcode.Some? && PseudoOf(opcode.value).Some?)
    }

    /** The fields as __parseInitial and __validate leave them. */
    constructor (text: string, lineNumber: int, memAddress: Option<nat>, f: Fields)
      requires ValidLine(LineValue(f, lineNumber, memAddress))
      ensures this.text == text && Value() == LineValue(f, lineNumber, memAddress)
      ensures Valid()
      ensures word1.None? && word2.None?
    {
      this.text := text;
      this.lineNumber := lineNumber;
      this.memAddress := memAddress;
      labelName := f.labelName;
      opcode := f.opcode;
      operand1 := f.operand1;
      operand2 := f.operand2;
      isValid := true;
      isPseudoOperation := f.opcode.Some? && PseudoOf(f.opcode.value).Some?;
      word1 := None;
      word2 := None;
    }

    /** `AsmLine(line, line_number, mem_address)` (as240.py:455-470 and
        614-629): parse the text, then check the fields in the source's
        order, registering the label in `st` before the later checks. The
        Python constructor raises; here the error is the result. */
    static method Create(text: string, lineNumber: int, memAddress: Option<nat>, st: SymbolTable)
      returns (r: Result<AsmLine, AsmError>)
      modifies st
      ensures st.table == LineOutcome(text, lineNumber, memAddress, old(st.table)).0
      ensures r.Err? <==> LineOutcome(text, lineNumber, memAddress, old(st.table)).1.Err?
      ensures r.Err? ==> r.error == LineOutcome(text, lineNumber, memAddress, old(st.table)).1.error
      ensures r.Ok? ==> r.value.Value() == LineOutcome(text, lineNumber, memAddress, old(st.table)).1.value
      ensures r.Ok? ==> fresh(r.value) && r.value.Valid() && r.value.word1.None? && r.value.word2.None?
    {
      var parsed := ParseFields(text, lineNumber);
      if parsed.Err? {
        return Err(parsed.error);
      }
      var f := parsed.value;
      if f.labelName.Some? {
        if !IsLabelText(f.labelName.value) {
          return Err(SyntaxError(lineNumber, InvalidLabel));
        }
        var added := st.AddLabel(f.labelName.value, memAddress, lineNumber);
        if added.Err? {
          return Err(added.error);
        }
      }
      if f.opcode.Some? {
        var e := CheckOpcode(f);
        if e.Some? {
          return Err(SyntaxError(lineNumber, e.value));
        }
      }
      var e := CheckAddress(f, memAddress);
      if e.Some? {
        return Err(SyntaxError(lineNumber, e.value));
      }
      var line := new AsmLine(text, lineNumber, memAddress, f);
      return Ok(line);
    }

    /** assemble (as240.py:825-841): sets word1 for a .DW line or an
        instruction, and word2 for a long instruction; leaves the words of
        other lines as they were. */
    method Assemble(st: SymbolTable) returns (r: Result<(), AsmError>)
      requires Valid()
      modifies this
      ensures Encode(Value(), st.table).Err? ==> r == Err(Encode(Value(), st.table).error)
      ensures Encode(Value(), st.table).Ok? ==> r == Ok(())
      ensures Encode(Value(), st.table).Ok? ==>
        var w := Encode(Value(), st.table).value;
        && word1 == (if w.word1.Some? then w.word1 else old(word1))
        && word2 == (if IsLongInstruction(opcode) then w.word2 else old(word2))
    {
      if opcode.None? {
        return Ok(());
      }
      if opcode.value == ".DW" {
        if operand1.None? {
          return Err(DwWithoutOperand(lineNumber));
        }
        assert PseudoOf(".DW") == Some(Dw);
        word1 := Some(HexLiteralValue(operand1.value));
        return Ok(());
      }
      if opcode.value == ".EQU" || opcode.value == ".ORG" {
        return Ok(());
      }
      AcceptedMnemonic(Value());
      var m := Lookup(opcode.value).value;
      var d := Info(m);
      RegisterFields(Parsed(), m);
      EncodingIsTenBits(m);
      word1 := Some(FirstWord(Parsed(), d, Encoding(m)));
      if d.format == Long {
        var w2 := AssembleLong(m, st);
        if w2.Err? {
          return Err(w2.error);
        }
        word2 := w2.value;
      }
      return Ok(());
    }

    /** __assemble_long (as240.py:878-893): the operand field3 names, as a
        hex value or through the symbol table. */
    method AssembleLong(m: Mnemonic, st: SymbolTable) returns (r: Result<Option<nat>, AsmError>)
      requires WellShaped(Parsed()) && CheckInstruction(Parsed(), m).None? && Info(m).format == Long
      ensures r == SecondWord(Parsed(), m, st.table, lineNumber)
    {
      InfoWellFormed(m);
      var fld := Info(m).field3.value;
      InstructionAccepts(Parsed(), m, fld);
      var operand := OperandAt(Parsed(), fld).value;
      if IsHexLiteral(operand) {
        return Ok(Some(HexLiteralValue(operand)));
      }
      r := st.LookupLabel(operand, lineNumber);
    }

    /** __str__ (as240.py:472-510): the listing text, empty when both words
        are unset or zero, and otherwise led by the address and first word. */
    function ListingText(): (s: string)
      reads this
      requires Valid() && (Truthy(word1) || Truthy(word2) ==> memAddress.Some?)
      ensures s == "" <==> !Truthy(word1) && !Truthy(word2)
      ensures Truthy(word1) ==> MemoryRow(memAddress.value, word1.value) <= s
    {
      SilentIffZero(Value(), Words(word1, word2));
      ListingMatchesMemory(Value(), Words(word1, word2));
      if !isValid then "Invalid ASM Line" else ListingOf(Value(), Words(word1, word2))
    }

    /** mem_str (as240.py:512-524): the memory-file text; it begins with
        the same address and word as the listing. */
    function MemText(): (s: string)
      reads this
      requires Valid() && (Truthy(word1) || Truthy(word2) ==> memAddress.Some?)
      ensures s == "" <==> !Truthy(word1) && !Truthy(word2)
      ensures Truthy(word1) ==> MemoryRow(memAddress.value, word1.value) <= s
    {
      SilentIffZero(Value(), Words(word1, word2));
      ListingMatchesMemory(Value(), Words(word1, word2));
      if !isValid then "Invalid ASM Line" else MemoryOf(Value(), Words(word1, word2))
    }
  }
}
