/** The driver (main, as240.py:1050-1087): a first pass that builds the
    symbol table and the line objects and gives up after the sixth syntax
    error, then, if no line was rejected, the symbol listing and a second
    pass that assembles every line into the listing and memory files. */
module Assembler {
  import opened Wrappers
  import opened Errors
  import opened Symbols
  import opened Lines
  import opened AsmLines

  /** MAX_SYNTAX_ERRORS: the run stops at the error after this many. */
  const MaxSyntaxErrors := 5

  /** The two lines the listing file starts with. */
  const ListingHeader: seq<string> := ["addr data  label   opcode  operands", "---- ----  -----   ------  --------"]

  /** How a run ends. `symbols`, `listing` and `memory` are the items
      printed, one per `print`, to the symbol, listing and memory files. */
  datatype Outcome =
    | Crashed(error: AsmError)             // an exception the driver does not catch
    | Halted(errors: seq<AsmError>)        // sys.exit(syntax_errors) after reporting these
    | Assembled(symbols: string, listing: seq<string>, memory: seq<string>)

  /** The first pass's variables: the symbol table, mem_address,
      line_number, the syntax errors so far, `code` and the last line object
      `a`. */
  datatype Pass1 = Pass1(
    table: Table,
    address: Option<nat>,
    lineNumber: int,
    errors: seq<AsmError>,
    code: seq<LineValue>,
    last: Option<LineValue>)

  datatype Stage = Going(state: Pass1) | Stopped(outcome: Outcome)

  /** What holds between two lines of the first pass: the counter is the
      last line object's next address, and `code` ends with that object. */
  ghost predicate Inv(s: Pass1) {
    && (forall i :: 0 <= i < |s.code| ==> ValidLine(s.code[i]))
    && (s.last.None? ==> s.address.None? && s.code == [])
    && (s.last.Some? ==>
          && s.code != [] && s.code[|s.code| - 1] == s.last.value
          && ValidLine(s.last.value) && s.address == NextAddress(s.last.value))
    && |s.errors| <= MaxSyntaxErrors
    && (forall i :: 0 <= i < |s.errors| ==> s.errors[i].SyntaxError?)
  }

  function Start(): (s: Pass1)
    ensures Inv(s)
  {
    Pass1(map[], None, 1, [], [], None)
  }

  /** One iteration of the first-pass loop. A rejected line is counted; the
      sixth stops the run; otherwise the previous line object is appended
      again and asked for its next address, so the counter does not move. */
  function Step(s: Pass1, line: string): (r: Stage)
    requires Inv(s)
    ensures r.Going? ==> Inv(r.state) && r.state.lineNumber == s.lineNumber + 1
    ensures r.Going? ==> |r.state.code| == |s.code| + 1 && r.state.code[..|s.code|] == s.code
    ensures r.Going? ==> (r.state.errors == s.errors ||
      (|r.state.errors| == |s.errors| + 1 && r.state.errors[..|s.errors|] == s.errors && r.state.address == s.address))
    ensures r.Going? && r.state.errors == s.errors ==>
      r.state.code[|s.code|].memAddress == s.address && r.state.code[|s.code|].lineNumber == s.lineNumber
    ensures r.Stopped? ==> StopsCleanly(r.outcome, s.lineNumber)
  {
    var (t, res) := LineOutcome(line, s.lineNumber, s.address, s.table);
    if res.Ok? then Accept(s, t, res.value)
    else if res.error.ParseError? then Stopped(Crashed(res.error))
    else Reject(s, t, res.error)
  }

  /** How the first pass can stop: on an unparsable line, on a rejected
      first line, or with six syntax errors. */
  predicate StopsCleanly(o: Outcome, lineNumber: int) {
    || o == Crashed(ParseError(lineNumber))
    || o == Crashed(NoLineObject(lineNumber))
    || (o.Halted? && |o.errors| == MaxSyntaxErrors + 1 && forall i :: 0 <= i < |o.errors| ==> o.errors[i].SyntaxError?)
  }

  /** The line is appended and its next address becomes the counter. */
  function Accept(s: Pass1, t: Table, v: LineValue): (r: Stage)
    requires Inv(s) && ValidLine(v) && v.memAddress == s.address && v.lineNumber == s.lineNumber
    ensures r.Going? && Inv(r.state) && r.state.lineNumber == s.lineNumber + 1 && r.state.errors == s.errors
    ensures |r.state.code| == |s.code| + 1 && r.state.code[..|s.code|] == s.code && r.state.code[|s.code|] == v
  {
    var code := s.code + [v];
    assert code[..|s.code|] == s.code;
    Going(Pass1(t, NextAddress(v), s.lineNumber + 1, s.errors, code, Some(v)))
  }

  /** The except branch: count the error, stop after the sixth, fail when
      there is no previous line object, else append that object again. */
  function Reject(s: Pass1, t: Table, e: AsmError): (r: Stage)
    requires Inv(s) && e.SyntaxError?
    ensures r.Going? ==> Inv(r.state) && r.state.lineNumber == s.lineNumber + 1
    ensures r.Going? ==> |r.state.code| == |s.code| + 1 && r.state.code[..|s.code|] == s.code
    ensures r.Going? ==> |r.state.errors| == |s.errors| + 1 && r.state.errors[..|s.errors|] == s.errors && r.state.address == s.address
    ensures r.Stopped? ==> StopsCleanly(r.outcome, s.lineNumber)
  {
    var errors := s.errors + [e];
    assert errors[..|s.errors|] == s.errors;
    if |errors| > MaxSyntaxErrors then Stopped(Halted(errors))
    else if s.last.None? then Stopped(Crashed(NoLineObject(s.lineNumber)))
    else
      var code := s.code + [s.last.value];
      assert code[..|s.code|] == s.code;
      Going(Pass1(t, NextAddress(s.last.value), s.lineNumber + 1, errors, code, s.last))
  }

  /** The line objects of an error-free pass, numbered from 1, each placed
      at the address the previous one handed on. */
  ghost predicate Chained(code: seq<LineValue>) {
    && (forall i :: 0 <= i < |code| ==> ValidLine(code[i]) && code[i].lineNumber == i + 1)
    && (code != [] ==> code[0].memAddress.None?)
    && (forall i :: 0 <= i < |code| - 1 ==> code[i + 1].memAddress == NextAddress(code[i]))
  }

  /** The first pass over the lines read so far. */
  function FirstPass(lines: seq<string>): (r: Stage)
    ensures r.Going? ==> Inv(r.state) && r.state.lineNumber == |lines| + 1 && |r.state.code| == |lines|
    ensures r.Stopped? ==> exists n :: StopsCleanly(r.outcome, n)
    ensures r.Going? && r.state.errors == [] ==> Chained(r.state.code)
    decreases |lines|, 1
  {
    if lines == [] then Going(Start()) else LastLine(lines)
  }

  /** The first pass over all but the last line, then one Step with the
      last line. */
  function LastLine(lines: seq<string>): (r: Stage)
    requires lines != []
    ensures r.Going? ==> Inv(r.state) && r.state.lineNumber == |lines| + 1 && |r.state.code| == |lines|
    ensures r.Stopped? ==> exists n :: StopsCleanly(r.outcome, n)
    ensures r.Going? && r.state.errors == [] ==> Chained(r.state.code)
    decreases |lines|, 0
  {
    match FirstPass(lines[..|lines| - 1])
    case Stopped(o) => Stopped(o)
    case Going(s) =>
      var r := Step(s, lines[|lines| - 1]);
      if r.Going? && r.state.errors == [] then
        ChainedStep(s.code, r.state.code);
        r
      else r
  }

  lemma ChainedStep(code: seq<LineValue>, next: seq<LineValue>)
    requires Chained(code) && |next| == |code| + 1 && next[..|code|] == code
    requires ValidLine(next[|code|]) && next[|code|].lineNumber == |code| + 1
    requires code == [] ==> next[|code|].memAddress.None?
    requires code != [] ==> next[|code|].memAddress == NextAddress(code[|code| - 1])
    ensures Chained(next)
  {
    forall i | 0 <= i < |code| ensures next[i] == code[i] {
      assert next[..|code|][i] == next[i];
    }
  }

  /** Once the run has stopped, later lines change nothing. */
  lemma {:induction false} StoppedStays(lines: seq<string>, k: nat)
    requires k <= |lines| && FirstPass(lines[..k]).Stopped?
    ensures FirstPass(lines) == FirstPass(lines[..k])
    decreases |lines|
  {
    if k < |lines| {
      assert lines[..|lines| - 1][..k] == lines[..k];
      StoppedStays(lines[..|lines| - 1], k);
    } else {
      assert lines[..k] == lines;
    }
  }

  /** One line of the second pass: assemble it, then print its listing and
      memory texts unless the listing text is empty. */
  function LineTexts(v: LineValue, t: Table): (r: Result<Option<(string, string)>, AsmError>)
    requires ValidLine(v)
    ensures r.Err? <==> Encode(v, t).Err?
    ensures r.Err? ==> r.error == Encode(v, t).error
    ensures r.Ok? ==> (r.value.Some? <==> Truthy(Encode(v, t).value.word1) || Truthy(Encode(v, t).value.word2))
    ensures r.Ok? && r.value.Some? ==> r.value.value.0 != "" && r.value.value.1 != ""
  {
    match Encode(v, t)
    case Err(e) => Err(e)
    case Ok(w) =>
      SilentIffZero(v, w);
      if ListingOf(v, w) != "" then Ok(Some((ListingOf(v, w), MemoryOf(v, w)))) else Ok(None)
  }

  /** The second-pass loop over values: assemble each line and keep the
      listing and memory texts of those that print. */
  function SecondPass(code: seq<LineValue>, t: Table): (r: Result<(seq<string>, seq<string>), AsmError>)
    requires forall i :: 0 <= i < |code| ==> ValidLine(code[i])
    ensures r.Ok? ==> |r.value.0| == |r.value.1| <= |code|
    ensures r.Ok? ==> forall i :: 0 <= i < |r.value.0| ==> r.value.0[i] != "" && r.value.1[i] != ""
    decreases |code|
  {
    if code == [] then Ok(([], []))
    else
      match SecondPass(code[..|code| - 1], t)
      case Err(e) => Err(e)
      case Ok((listing, memory)) =>
        match LineTexts(code[|code| - 1], t)
        case Err(e) => Err(e)
        case Ok(None) => Ok((listing, memory))
        case Ok(Some((a, b))) => Ok((listing + [a], memory + [b]))
  }

  lemma SecondPassNext(code: seq<LineValue>, t: Table, k: nat)
    requires forall i :: 0 <= i < |code| ==> ValidLine(code[i])
    requires k < |code| && SecondPass(code[..k], t).Ok?
    ensures LineTexts(code[k], t).Err? ==> SecondPass(code[..k + 1], t) == Err(LineTexts(code[k], t).error)
    ensures LineTexts(code[k], t) == Ok(None) ==> SecondPass(code[..k + 1], t) == SecondPass(code[..k], t)
    ensures LineTexts(code[k], t).Ok? && LineTexts(code[k], t).value.Some? ==>
      var (listing, memory) := SecondPass(code[..k], t).value;
      var (a, b) := LineTexts(code[k], t).value.value;
      SecondPass(code[..k + 1], t) == Ok((listing + [a], memory + [b]))
  {
    assert code[..k + 1][..k] == code[..k];
  }

  /** Once assembling a line has failed, later lines change nothing. */
  lemma {:induction false} FailedStays(code: seq<LineValue>, t: Table, k: nat)
    requires forall i :: 0 <= i < |code| ==> ValidLine(code[i])
    requires k <= |code| && SecondPass(code[..k], t).Err?
    ensures SecondPass(code, t) == SecondPass(code[..k], t)
    decreases |code|
  {
    if k < |code| {
      assert code[..|code| - 1][..k] == code[..k];
      FailedStays(code[..|code| - 1], t, k);
    } else {
      assert code[..k] == code;
    }
  }

  /** What a run of the assembler on the lines of a source file produces. */
  ghost function RunSpec(lines: seq<string>): (r: Outcome)
    ensures r.Halted? ==>
      1 <= |r.errors| <= MaxSyntaxErrors + 1 && forall i :: 0 <= i < |r.errors| ==> r.errors[i].SyntaxError?
    ensures r.Assembled? ==> |r.listing| == |r.memory| + 2 && r.listing[..2] == ListingHeader
  {
    match FirstPass(lines)
    case Stopped(o) => o
    case Going(s) =>
      if |s.errors| > 0 then Halted(s.errors)
      else
        match Listing(s.table)
        case Err(e) => Crashed(e)
        case Ok(symbols) =>
          match SecondPass(s.code, s.table)
          case Err(e) => Crashed(e)
          case Ok((listing, memory)) => Assembled(symbols, ListingHeader + listing, memory)
  }

  /** An empty source file gives an empty symbol listing and a listing that
      holds only its header. */
  lemma EmptySource()
    ensures RunSpec([]) == Assembled(EmptyText, ListingHeader, [])
  {
    ListingOfEmpty();
  }

  /** A syntax error on the very first line leaves no previous line object
      to append, and the driver fails on the unbound name. */
  lemma FirstLineRejected(lines: seq<string>)
    requires lines != []
    requires LineOutcome(lines[0], 1, None, map[]).1.Err?
    requires LineOutcome(lines[0], 1, None, map[]).1.error.SyntaxError?
    ensures RunSpec(lines) == Crashed(NoLineObject(1))
  {
    assert lines[..0] == [];
    FirstPassNext(lines, 0);
    StoppedStays(lines, 1);
  }

  function Values(code: seq<AsmLine>): (vs: seq<LineValue>)
    ensures |vs| == |code| && forall j :: 0 <= j < |code| ==> vs[j] == code[j].Value()
  {
    seq(|code|, j requires 0 <= j < |code| => code[j].Value())
  }

  lemma ValuesAppend(code: seq<AsmLine>, a: AsmLine)
    ensures Values(code + [a]) == Values(code) + [a.Value()]
  {
  }

  lemma FirstPassNext(lines: seq<string>, i: nat)
    requires i < |lines| && FirstPass(lines[..i]).Going?
    ensures FirstPass(lines[..i + 1]) == Step(FirstPass(lines[..i]).state, lines[i])
  {
    assert lines[..i + 1][..i] == lines[..i];
  }

  /** Every line object in `code` is valid. */
  ghost predicate AllValid(code: seq<AsmLine>)
    decreases |code|
  {
    code != [] ==> AllValid(code[..|code| - 1]) && code[|code| - 1].Valid()
  }

  lemma AllValidAppend(code: seq<AsmLine>, c: AsmLine)
    requires AllValid(code) && c.Valid()
    ensures AllValid(code + [c])
  {
    assert (code + [c])[..|code|] == code;
  }

  lemma {:induction false} AllValidAt(code: seq<AsmLine>, k: nat)
    requires AllValid(code) && k < |code|
    ensures code[k].Valid()
    decreases |code|
  {
    if k < |code| - 1 {
      AllValidAt(code[..|code| - 1], k);
    }
  }

  lemma AllValidLines(code: seq<AsmLine>)
    requires AllValid(code)
    ensures forall i :: 0 <= i < |code| ==> ValidLine(Values(code)[i])
  {
    forall i | 0 <= i < |code| ensures ValidLine(Values(code)[i]) {
      AllValidAt(code, i);
    }
  }

  /** No line object occurs twice in `code`. */
  ghost predicate Distinct(code: seq<AsmLine>)
    decreases |code|
  {
    code != [] ==> Distinct(code[..|code| - 1]) && code[|code| - 1] !in code[..|code| - 1]
  }

  lemma DistinctAppend(code: seq<AsmLine>, c: AsmLine)
    requires Distinct(code) && forall j :: 0 <= j < |code| ==> code[j] != c
    ensures Distinct(code + [c])
  {
    assert (code + [c])[..|code|] == code;
  }

  lemma {:induction false} DistinctAt(code: seq<AsmLine>, j: nat, k: nat)
    requires Distinct(code) && j < k < |code|
    ensures code[j] != code[k]
    decreases |code|
  {
    var n := |code| - 1;
    if k < n {
      DistinctAt(code[..n], j, k);
    } else {
      assert code[j] == code[..n][j];
    }
  }

  /** main, with the file reads and writes replaced by the lines in and the
      outcome out. The symbol table is the object `st`. */
  method Run(lines: seq<string>) returns (r: Outcome)
    ensures r == RunSpec(lines)
  {
    var st := new SymbolTable();
    var stop, code, syntaxErrors := ReadLines(lines, st);
    if stop.Some? {
      return stop.value;
    }
    if |syntaxErrors| > 0 {
      return Halted(syntaxErrors);
    }
    var symbols := st.PrintableString();
    if symbols.Err? {
      return Crashed(symbols.error);
    }
    var texts := AssembleLines(code, st);
    if texts.Err? {
      return Crashed(texts.error);
    }
    return Assembled(symbols.value, ListingHeader + texts.value.0, texts.value.1);
  }

  /** The loop variables of main's first pass agree with FirstPass on the
      first i lines: the table, the counter, the line number, the errors,
      the line objects and the previous object `a`. */
  ghost predicate Reading(lines: seq<string>, i: nat, table: Table, code: seq<AsmLine>, a: AsmLine?,
                          lineNumber: int, memAddress: Option<nat>, errors: seq<AsmError>)
  {
    && i <= |lines|
    && FirstPass(lines[..i]) ==
      Going(Pass1(table, memAddress, lineNumber, errors, Values(code), if a == null then None else Some(a.Value())))
    && (a != null ==> a.Valid())
    && AllValid(code)
    && (errors == [] ==> Distinct(code))
  }

  /** The first pass stopped the run with outcome `o`. */
  ghost predicate StoppedWith(lines: seq<string>, o: Outcome) {
    FirstPass(lines) == Stopped(o)
  }

  /** The first pass ran to the end: the symbol table, the line objects and
      the syntax errors are those of FirstPass. */
  ghost predicate ReadAll(lines: seq<string>, table: Table, code: seq<AsmLine>, errors: seq<AsmError>) {
    && FirstPass(lines).Going?
    && FirstPass(lines).state.table == table
    && FirstPass(lines).state.code == Values(code)
    && FirstPass(lines).state.errors == errors
    && AllValid(code)
    && (errors == [] ==> Distinct(code))
  }

  lemma ReadingAll(lines: seq<string>, table: Table, code: seq<AsmLine>, a: AsmLine?,
                   lineNumber: int, memAddress: Option<nat>, errors: seq<AsmError>)
    requires Reading(lines, |lines|, table, code, a, lineNumber, memAddress, errors)
    ensures ReadAll(lines, table, code, errors)
  {
    assert lines[..|lines|] == lines;
  }

  /** The first-pass loop of main: one line object per line, the symbol
      table filled in as labels are met. `stop` is how the run ended if it
      ended during the loop. */
  method ReadLines(lines: seq<string>, st: SymbolTable)
    returns (stop: Option<Outcome>, code: seq<AsmLine>, syntaxErrors: seq<AsmError>)
    requires st.table == map[]
    modifies st
    ensures stop.Some? ==> StoppedWith(lines, stop.value)
    ensures stop.None? ==> ReadAll(lines, st.table, code, syntaxErrors) == true
    ensures stop.None? ==> forall j :: 0 <= j < |code| ==> fresh(code[j]) && code[j].word1.None? && code[j].word2.None?
  {
    var lineNumber := 1;
    var memAddress: Option<nat> := None;
    code := [];
    syntaxErrors := [];
    var a: AsmLine? := null;
    var i := 0;
    assert lines[..0] == [];
    while i < |lines|
      invariant Reading(lines, i, st.table, code, a, lineNumber, memAddress, syntaxErrors) == true
      invariant a != null ==> fresh(a) && a.word1.None? && a.word2.None?
      invariant forall j :: 0 <= j < |code| ==> fresh(code[j]) && code[j].word1.None? && code[j].word2.None?
    {
      stop, code, a, memAddress, syntaxErrors := ReadLine(lines, i, st, code, a, lineNumber, memAddress, syntaxErrors);
      if stop.Some? {
        return;
      }
      lineNumber := lineNumber + 1;
      i := i + 1;
    }
    ReadingAll(lines, st.table, code, a, lineNumber, memAddress, syntaxErrors);
    stop := None;
  }

  /** The body of the first-pass loop: build the line object for line i;
      on a syntax error count it and carry on with the previous object `a`. */
  method ReadLine(lines: seq<string>, i: nat, st: SymbolTable, code: seq<AsmLine>, a: AsmLine?, lineNumber: int,
                  memAddress: Option<nat>, errors: seq<AsmError>)
    returns (stop: Option<Outcome>, code': seq<AsmLine>, a': AsmLine?, memAddress': Option<nat>, errors': seq<AsmError>)
    requires i < |lines| && Reading(lines, i, st.table, code, a, lineNumber, memAddress, errors) == true
    modifies st
    ensures stop.Some? ==> StoppedWith(lines, stop.value)
    ensures stop.None? ==> a' != null && code' == code + [a']
    ensures stop.None? ==> Reading(lines, i + 1, st.table, code', a', lineNumber + 1, memAddress', errors') == true
    ensures stop.None? ==> a' == a || (fresh(a') && a'.word1.None? && a'.word2.None?)
  {
    ghost var table := st.table;
    var res := AsmLine.Create(lines[i], lineNumber, memAddress, st);
    if res.Ok? {
      a' := res.value;
      ReadAccepted(lines, i, table, st.table, code, a, lineNumber, memAddress, errors, a');
      return None, code + [a'], a', NextAddress(a'.Value()), errors;
    }
    if res.error.ParseError? {
      ReadUnparsable(lines, i, table, code, a, lineNumber, memAddress, errors, res.error);
      StoppedStays(lines, i + 1);
      return Some(Crashed(res.error)), code, a, memAddress, errors;
    }
    ReadRejected(lines, i, table, st.table, code, a, lineNumber, memAddress, errors, res.error);
    errors' := errors + [res.error];
    if |errors'| > MaxSyntaxErrors {
      StoppedStays(lines, i + 1);
      return Some(Halted(errors')), code, a, memAddress, errors';
    }
    if a == null {
      StoppedStays(lines, i + 1);
      return Some(Crashed(NoLineObject(lineNumber))), code, a, memAddress, errors';
    }
    return None, code + [a], a, NextAddress(a.Value()), errors';
  }

  /** Line i gives a new line object `c`: it joins the code, and the
      counter moves on past it. */
  lemma ReadAccepted(lines: seq<string>, i: nat, table: Table, table': Table, code: seq<AsmLine>, a: AsmLine?,
                     lineNumber: int, memAddress: Option<nat>, errors: seq<AsmError>, c: AsmLine)
    requires i < |lines| && Reading(lines, i, table, code, a, lineNumber, memAddress, errors)
    requires LineOutcome(lines[i], lineNumber, memAddress, table).0 == table'
    requires LineOutcome(lines[i], lineNumber, memAddress, table).1 == Ok(c.Value())
    requires c.Valid()
    requires errors == [] ==> forall j :: 0 <= j < |code| ==> code[j] != c
    ensures Reading(lines, i + 1, table', code + [c], c, lineNumber + 1, NextAddress(c.Value()), errors)
  {
    FirstPassNext(lines, i);
    ValuesAppend(code, c);
    AllValidAppend(code, c);
    if errors == [] {
      DistinctAppend(code, c);
    }
  }

  /** Line i cannot be parsed: the run stops with that ParseError. */
  lemma ReadUnparsable(lines: seq<string>, i: nat, table: Table, code: seq<AsmLine>, a: AsmLine?,
                       lineNumber: int, memAddress: Option<nat>, errors: seq<AsmError>, e: AsmError)
    requires i < |lines| && Reading(lines, i, table, code, a, lineNumber, memAddress, errors)
    requires LineOutcome(lines[i], lineNumber, memAddress, table).1 == Err(e) && e.ParseError?
    ensures FirstPass(lines[..i + 1]) == Stopped(Crashed(e))
  {
    FirstPassNext(lines, i);
  }

  /** Line i has a syntax error: the sixth one stops the run, one on the
      first line fails for want of a previous object, and otherwise the
      previous object `a` is appended again. */
  lemma ReadRejected(lines: seq<string>, i: nat, table: Table, table': Table, code: seq<AsmLine>, a: AsmLine?,
                     lineNumber: int, memAddress: Option<nat>, errors: seq<AsmError>, e: AsmError)
    requires i < |lines| && Reading(lines, i, table, code, a, lineNumber, memAddress, errors)
    requires LineOutcome(lines[i], lineNumber, memAddress, table).0 == table'
    requires LineOutcome(lines[i], lineNumber, memAddress, table).1 == Err(e) && !e.ParseError?
    ensures |errors| + 1 > MaxSyntaxErrors ==> FirstPass(lines[..i + 1]) == Stopped(Halted(errors + [e]))
    ensures |errors| + 1 <= MaxSyntaxErrors && a == null ==>
      FirstPass(lines[..i + 1]) == Stopped(Crashed(NoLineObject(lineNumber)))
    ensures |errors| + 1 <= MaxSyntaxErrors && a != null ==> a.Valid()
    ensures |errors| + 1 <= MaxSyntaxErrors && a != null ==>
      Reading(lines, i + 1, table', code + [a], a, lineNumber + 1, NextAddress(a.Value()), errors + [e])
  {
    FirstPassNext(lines, i);
    if a != null {
      ValuesAppend(code, a);
      AllValidAppend(code, a);
    }
  }

  /** The second-pass loop of main: assemble each line object, and print
      its listing text and memory text when the listing text is not empty. */
  method AssembleLines(code: seq<AsmLine>, st: SymbolTable)
    returns (r: Result<(seq<string>, seq<string>), AsmError>)
    requires Distinct(code) && AllValid(code)
    requires forall j :: 0 <= j < |code| ==> code[j].word1.None? && code[j].word2.None?
    modifies set j | 0 <= j < |code| :: code[j]
    ensures forall i :: 0 <= i < |code| ==> ValidLine(Values(code)[i])
    ensures r == SecondPass(Values(code), st.table)
  {
    AllValidLines(code);
    ghost var values := Values(code);
    var listing: seq<string> := [];
    var memory: seq<string> := [];
    for k := 0 to |code|
      invariant SecondPass(values[..k], st.table) == Ok((listing, memory))
      invariant forall j :: k <= j < |code| ==> code[j].word1.None? && code[j].word2.None?
    {
      AllValidAt(code, k);
      forall j | k < j < |code| ensures code[j] != code[k] {
        DistinctAt(code, k, j);
      }
      var texts := AssembleLine(code[k], st);
      SecondPassNext(values, st.table, k);
      if texts.Err? {
        FailedStays(values, st.table, k + 1);
        return Err(texts.error);
      }
      if texts.value.Some? {
        listing := listing + [texts.value.value.0];
        memory := memory + [texts.value.value.1];
      }
    }
    assert values[..|code|] == values;
    return Ok((listing, memory));
  }

  /** The body of the second-pass loop for one line object. */
  method AssembleLine(c: AsmLine, st: SymbolTable) returns (r: Result<Option<(string, string)>, AsmError>)
    requires c.Valid() && c.word1.None? && c.word2.None?
    modifies c
    ensures r == LineTexts(c.Value(), st.table)
  {
    var e := c.Assemble(st);
    if e.Err? {
      return Err(e.error);
    }
    WordsByKind(c.Value(), st.table);
    assert Words(c.word1, c.word2) == Encode(c.Value(), st.table).value;
    var s := c.ListingText();
    if s == "" {
      return Ok(None);
    }
    var m := c.MemText();
    return Ok(Some((s, m)));
  }
}
