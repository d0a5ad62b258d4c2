/** What the line shapes accept, stated without regular expressions.

    A line without a comma is decided by its whitespace-separated tokens
    (`Tokens`, Python's `str.split()`) and by whether it starts with a space:
    flush-left lines carry a label and indented lines do not. Lines written
    in the canonical layout `LABEL OPCODE OP1,OP2` read back as their fields. */
module ParseFacts {
  import opened Wrappers
  import opened Text
  import opened Errors
  import opened Shapes

  predicate StartsWord(s: string) {
    s != [] && !IsSpace(s[0])
  }

  /** `s[i:].split()`: the maximal runs of non-space characters from i on. */
  function TokensFrom(s: string, i: nat): (ts: seq<string>)
    requires i <= |s|
    ensures forall k :: 0 <= k < |ts| ==> IsToken(ts[k])
    decreases |s| - i
  {
    if i == |s| then []
    else if IsSpace(s[i]) then TokensFrom(s, i + 1)
    else
      var w := WordAt(s, i).value;
      [w.0] + TokensFrom(s, w.1)
  }

  /** `s.split()` */
  function Tokens(s: string): (ts: seq<string>)
    ensures forall k :: 0 <= k < |ts| ==> IsToken(ts[k])
  {
    TokensFrom(s, 0)
  }

  lemma {:induction false} SpacesToEndTokens(s: string, i: nat)
    requires i <= |s|
    ensures SpacesToEnd(s, i) <==> TokensFrom(s, i) == []
    decreases |s| - i
  {
    if i < |s| && IsSpace(s[i]) {
      SpacesToEndTokens(s, i + 1);
    }
  }

  lemma {:induction false} SkipSpacesTokens(s: string, i: nat)
    requires i <= |s|
    ensures TokensFrom(s, i) == TokensFrom(s, RunEnd(s, i, true))
    decreases |s| - i
  {
    if i < |s| && IsSpace(s[i]) {
      SkipSpacesTokens(s, i + 1);
    }
  }

  lemma TokensAtWord(s: string, i: nat)
    requires i < |s| && !IsSpace(s[i])
    ensures WordAt(s, i).Some?
    ensures TokensFrom(s, i) == [WordAt(s, i).value.0] + TokensFrom(s, WordAt(s, i).value.1)
  {
  }

  /** Taking n words from a word start succeeds exactly when n tokens are
      left, and takes the first n of them. */
  lemma {:induction false} WordsAtTokens(s: string, i: nat, n: nat)
    requires i < |s| && !IsSpace(s[i]) && n >= 1
    ensures WordsAt(s, i, n).Some? <==> |TokensFrom(s, i)| >= n
    ensures WordsAt(s, i, n).Some? ==>
      TokensFrom(s, i) == WordsAt(s, i, n).value.0 + TokensFrom(s, WordsAt(s, i, n).value.1)
    decreases n
  {
    TokensAtWord(s, i);
    var w := WordAt(s, i).value;
    if n > 1 {
      if w.1 == |s| || RunEnd(s, w.1, true) == |s| {
        WordsAtShort(s, i, n);
      } else {
        var sp := RunEnd(s, w.1, true);
        WordsAtTokens(s, sp, n - 1);
        WordsAtMore(s, i, n);
      }
    }
  }

  /** The first word is the last one. */
  lemma WordsAtShort(s: string, i: nat, n: nat)
    requires i < |s| && !IsSpace(s[i]) && n > 1
    requires WordAt(s, i).Some?
    requires var e := WordAt(s, i).value.1; e == |s| || RunEnd(s, e, true) == |s|
    requires TokensFrom(s, i) == [WordAt(s, i).value.0] + TokensFrom(s, WordAt(s, i).value.1)
    ensures WordsAt(s, i, n).None? && |TokensFrom(s, i)| < n
  {
    var e := WordAt(s, i).value.1;
    SkipSpacesTokens(s, e);
    assert TokensFrom(s, RunEnd(s, e, true)) == [];
    if e < |s| {
      assert WordAt(s, |s|).None?;
    }
  }

  /** More words follow the first: the rest of the take is taken from there. */
  lemma WordsAtMore(s: string, i: nat, n: nat)
    requires i < |s| && !IsSpace(s[i]) && n > 1
    requires WordAt(s, i).Some?
    requires var e := WordAt(s, i).value.1; e < |s| && RunEnd(s, e, true) < |s|
    requires TokensFrom(s, i) == [WordAt(s, i).value.0] + TokensFrom(s, WordAt(s, i).value.1)
    requires var sp := RunEnd(s, WordAt(s, i).value.1, true);
      && (WordsAt(s, sp, n - 1).Some? <==> |TokensFrom(s, sp)| >= n - 1)
      && (WordsAt(s, sp, n - 1).Some? ==>
           TokensFrom(s, sp) == WordsAt(s, sp, n - 1).value.0 + TokensFrom(s, WordsAt(s, sp, n - 1).value.1))
    ensures WordsAt(s, i, n).Some? <==> |TokensFrom(s, i)| >= n
    ensures WordsAt(s, i, n).Some? ==>
      TokensFrom(s, i) == WordsAt(s, i, n).value.0 + TokensFrom(s, WordsAt(s, i, n).value.1)
  {
    var w := WordAt(s, i).value;
    var sp := RunEnd(s, w.1, true);
    SkipSpacesTokens(s, w.1);
    assert SpacesAt(s, w.1) == Some(sp);
    var more := WordsAt(s, sp, n - 1);
    if more.Some? {
      assert WordsAt(s, i, n) == Some(([w.0] + more.value.0, more.value.1));
      assert [w.0] + (more.value.0 + TokensFrom(s, more.value.1))
          == ([w.0] + more.value.0) + TokensFrom(s, more.value.1);
    } else {
      assert WordsAt(s, i, n).None?;
    }
  }

  /** `(\S+)\s+...(\S+)\s*$` from a position: the remaining tokens when the
      position starts one and exactly k of them are left. */
  lemma WordsToEndTokens(p: string, i: nat, k: nat)
    requires i <= |p| && k >= 1
    ensures WordsToEnd(p, i, k) ==
      if i < |p| && !IsSpace(p[i]) && |TokensFrom(p, i)| == k then Some(TokensFrom(p, i)) else None
  {
    if i < |p| && !IsSpace(p[i]) {
      WordsAtTokens(p, i, k);
      var w := WordsAt(p, i, k);
      if w.Some? {
        SpacesToEndTokens(p, w.value.1);
        assert |TokensFrom(p, i)| == k + |TokensFrom(p, w.value.1)|;
        if TokensFrom(p, w.value.1) == [] {
          assert TokensFrom(p, i) == w.value.0;
        }
      }
    } else {
      assert WordAt(p, i).None?;
    }
  }

  /** The same after leading spaces, for the indented shapes. */
  lemma IndentedTokens(p: string, k: nat)
    requires k >= 1
    ensures (var sp := SpacesAt(p, 0); if sp.None? then None else WordsToEnd(p, sp.value, k))
         == if p != [] && IsSpace(p[0]) && |Tokens(p)| == k then Some(Tokens(p)) else None
  {
    if p != [] && IsSpace(p[0]) {
      var sp := RunEnd(p, 0, true);
      SkipSpacesTokens(p, 0);
      WordsToEndTokens(p, sp, k);
      if sp == |p| {
        assert TokensFrom(p, sp) == [];
      }
    }
  }

  // ---------------------------------------------------------------------
  // The pair shapes need a comma

  lemma PairTailComma(s: string, i: nat)
    requires i <= |s| && PairTailAt(s, i).Some?
    ensures ',' in s
  {
    var c := RunEnd(s, i, true);
    assert s[c] == ',';
  }

  lemma {:induction false} PairFromComma(s: string, start: nat, e: nat)
    requires start <= |s| && start <= e <= RunEnd(s, start, false)
    requires PairFrom(s, start, e).Some?
    ensures ',' in s
    decreases e
  {
    if PairTailAt(s, e).Some? {
      PairTailComma(s, e);
    } else {
      PairFromComma(s, start, e - 1);
    }
  }

  lemma PairShapeComma(p: string, i: nat, k: nat)
    requires i <= |p| && k >= 1 && WordsThenPair(p, i, k).Some?
    ensures ',' in p
  {
    var w := WordsAt(p, i, k).value;
    var sp := SpacesAt(p, w.1).value;
    PairFromComma(p, sp, RunEnd(p, sp, false));
  }

  // ---------------------------------------------------------------------
  // No shape takes six fields

  /** Starting one character later never finds more tokens. */
  lemma TokensStepRight(s: string, j: nat)
    requires j < |s|
    ensures |TokensFrom(s, j + 1)| <= |TokensFrom(s, j)|
  {
    if !IsSpace(s[j]) {
      TokensAtWord(s, j);
      if j + 1 < |s| && !IsSpace(s[j + 1]) {
        TokensAtWord(s, j + 1);
        assert RunEnd(s, j, false) == RunEnd(s, j + 1, false);
      } else {
        assert RunEnd(s, j + 1, false) == j + 1;
      }
    }
  }

  lemma {:induction false} TokensMonotone(s: string, j: nat, k: nat)
    requires j <= k <= |s|
    ensures |TokensFrom(s, k)| <= |TokensFrom(s, j)|
    decreases k - j
  {
    if j < k {
      TokensStepRight(s, j);
      TokensMonotone(s, j + 1, k);
    }
  }

  /** A non-space at k, with a space (or the end) at m further on, is a
      token between i and m. */
  lemma TokenBefore(s: string, i: nat, k: nat, m: nat)
    requires i <= k < m <= |s| && !IsSpace(s[k]) && (m == |s| || IsSpace(s[m]))
    ensures |TokensFrom(s, i)| >= 1 + |TokensFrom(s, m)|
  {
    TokensMonotone(s, i, k);
    TokensAtWord(s, k);
    RunEndSpan(s, k, false);
    TokensMonotone(s, WordAt(s, k).value.1, m);
  }

  /** `\s*,\s*(\S+)\s*$` spans at most two tokens: the comma (perhaps
      glued to the operand) and the operand. */
  lemma PairTailTokens(s: string, i: nat)
    requires i <= |s| && PairTailAt(s, i).Some?
    ensures |TokensFrom(s, i)| <= 2
  {
    var c := RunEnd(s, i, true);
    var d := RunEnd(s, c + 1, true);
    var f := WordAt(s, d).value.1;
    SkipSpacesTokens(s, i);
    TokensAtWord(s, c);
    TokensMonotone(s, c + 1, WordAt(s, c).value.1);
    SkipSpacesTokens(s, c + 1);
    TokensAtWord(s, d);
    SpacesToEndTokens(s, f);
  }

  /** `(\S+)\s*,\s*(\S+)\s*$` spans at most three tokens. */
  lemma {:induction false} PairFromTokens(s: string, start: nat, e: nat)
    requires start <= |s| && start <= e <= RunEnd(s, start, false)
    requires PairFrom(s, start, e).Some?
    ensures |TokensFrom(s, start)| <= 3
    decreases e
  {
    if PairTailAt(s, e).Some? {
      TokensAtWord(s, start);
      TokensMonotone(s, e, WordAt(s, start).value.1);
      PairTailTokens(s, e);
    } else {
      PairFromTokens(s, start, e - 1);
    }
  }

  lemma WordsThenPairTokens(p: string, i: nat, k: nat)
    requires i <= |p| && k >= 1 && WordsThenPair(p, i, k).Some?
    ensures |TokensFrom(p, i)| <= k + 3
  {
    var w := WordsAt(p, i, k).value;
    var sp := SpacesAt(p, w.1).value;
    assert WordAt(p, i).Some?;
    WordsAtTokens(p, i, k);
    SkipSpacesTokens(p, w.1);
    PairFromTokens(p, sp, RunEnd(p, sp, false));
  }

  /** The widest shape is `LABEL OPCODE OP1 , OP2`, five tokens, so a line
      of six or more is a ParseError whatever its commas. */
  lemma TooManyFields(text: string, lineNumber: int)
    requires |Tokens(StripComment(text))| >= 6
    ensures ParseFields(text, lineNumber) == Err(ParseError(lineNumber))
  {
    var p := StripComment(text);
    SpacesToEndTokens(p, 0);
    WordsToEndTokens(p, 0, 1);
    WordsToEndTokens(p, 0, 2);
    WordsToEndTokens(p, 0, 3);
    IndentedTokens(p, 1);
    IndentedTokens(p, 2);
    if MatchLabOp2(p).Some? {
      WordsThenPairTokens(p, 0, 2);
    }
    if MatchOp2(p).Some? {
      SkipSpacesTokens(p, 0);
      WordsThenPairTokens(p, SpacesAt(p, 0).value, 1);
    }
  }

  /** A line (comment removed) without a comma: blank when it has no tokens;
      flush left with one to three tokens it is label, opcode, operand;
      indented with one or two it is opcode, operand; anything else is a
      ParseError. */
  lemma ParseWithoutComma(text: string, lineNumber: int)
    requires ',' !in StripComment(text)
    ensures
      var p := StripComment(text);
      var ts := Tokens(p);
      ParseFields(text, lineNumber) ==
        if ts == [] then Ok(NoFields)
        else if StartsWord(p) && |ts| <= 3 then Ok(Assign(true, ts))
        else if !StartsWord(p) && |ts| <= 2 then Ok(Assign(false, ts))
        else Err(ParseError(lineNumber))
  {
    var p := StripComment(text);
    SpacesToEndTokens(p, 0);
    WordsToEndTokens(p, 0, 1);
    WordsToEndTokens(p, 0, 2);
    WordsToEndTokens(p, 0, 3);
    IndentedTokens(p, 1);
    IndentedTokens(p, 2);
    if MatchLabOp2(p).Some? {
      PairShapeComma(p, 0, 2);
    }
    if MatchOp2(p).Some? {
      PairShapeComma(p, SpacesAt(p, 0).value, 1);
    }
  }

  /** Four or more tokens and no comma can never be a line of this language. */
  lemma TooManyTokens(text: string, lineNumber: int)
    requires ',' !in StripComment(text) && |Tokens(StripComment(text))| >= 4
    ensures ParseFields(text, lineNumber) == Err(ParseError(lineNumber))
  {
    ParseWithoutComma(text, lineNumber);
  }

  /** A comment after at least one character of the line leaves the fields
      as they were. */
  lemma CommentIgnored(text: string, comment: string, lineNumber: int)
    requires text != [] && ';' !in text
    ensures ParseFields(text + ";" + comment, lineNumber) == ParseFields(text, lineNumber)
  {
    CommentCut(text, comment);
  }

  lemma CommentCut(text: string, comment: string)
    requires text != [] && ';' !in text
    ensures StripComment(text + ";" + comment) == text
  {
    var t := text + ";" + comment;
    assert t[..|text|] == text;
    assert t[|text|] == ';';
  }

  /** A field after the second operand is rejected even when the two
      operands are joined by a comma: nothing may follow them
      (`Label  PUSH Operand , Operand2 ExtraField` is one such line). */
  lemma ExtraFieldRejected(name: string, opcode: string, op1: string, op2: string, extra: string, lineNumber: int)
    requires IsToken(name) && IsToken(opcode) && IsToken(op1) && IsToken(op2) && IsToken(extra)
    requires ';' !in name + opcode + op1 + op2 + extra
    ensures ParseFields(ExtraFieldLine(name, opcode, op1, op2, extra), lineNumber) == Err(ParseError(lineNumber))
  {
    var p := ExtraFieldLine(name, opcode, op1, op2, extra);
    ExtraFieldChars(name, opcode, op1, op2, extra);
    ExtraFieldNoComment(name, opcode, op1, op2, extra);
    var a := |name|;
    var b := a + 2 + |opcode|;
    var c := b + 1 + |op1|;
    SixTokens(p, a, b, c, c + 3 + |op2|);
    TooManyFields(p, lineNumber);
  }

  /** The layout of the unit test's line: two spaces after the label, the
      comma set off by spaces, one more word at the end. */
  function ExtraFieldLine(name: string, opcode: string, op1: string, op2: string, extra: string): string {
    name + "  " + opcode + " " + op1 + " , " + op2 + " " + extra
  }

  lemma ExtraFieldChars(name: string, opcode: string, op1: string, op2: string, extra: string)
    requires name != [] && opcode != [] && op1 != [] && op2 != [] && extra != []
    ensures var p := ExtraFieldLine(name, opcode, op1, op2, extra);
      var a := |name|;
      var b := a + 2 + |opcode|;
      var c := b + 1 + |op1|;
      var d := c + 3 + |op2|;
      && |p| == d + 1 + |extra|
      && p[0] == name[0] && p[a] == ' ' && p[a + 2] == opcode[0] && p[b] == ' '
      && p[b + 1] == op1[0] && p[c] == ' ' && p[c + 1] == ',' && p[c + 2] == ' '
      && p[c + 3] == op2[0] && p[d] == ' ' && p[d + 1] == extra[0]
  {
  }

  lemma ExtraFieldNoComment(name: string, opcode: string, op1: string, op2: string, extra: string)
    requires ';' !in name + opcode + op1 + op2 + extra
    ensures ';' !in ExtraFieldLine(name, opcode, op1, op2, extra)
  {
    var w := name + opcode + op1 + op2 + extra;
    assert ';' !in name && ';' !in opcode && ';' !in op1 && ';' !in op2 && ';' !in extra by {
      assert w == (((name + opcode) + op1) + op2) + extra;
    }
  }

  /** Six words at the positions the layout puts them. */
  lemma SixTokens(p: string, a: nat, b: nat, c: nat, d: nat)
    requires 0 < a && a + 2 < b && b + 1 < c && c + 3 < d && d + 1 < |p|
    requires !IsSpace(p[0]) && IsSpace(p[a]) && !IsSpace(p[a + 2]) && IsSpace(p[b])
    requires !IsSpace(p[b + 1]) && IsSpace(p[c]) && !IsSpace(p[c + 1]) && IsSpace(p[c + 2])
    requires !IsSpace(p[c + 3]) && IsSpace(p[d]) && !IsSpace(p[d + 1])
    ensures |Tokens(p)| >= 6
  {
    TokenBefore(p, 0, 0, a);
    TokenBefore(p, a, a + 2, b);
    TokenBefore(p, b, b + 1, c);
    TokenBefore(p, c, c + 1, c + 2);
    TokenBefore(p, c + 2, c + 3, d);
    TokenBefore(p, d, d + 1, |p|);
  }

  /** The comment is kept when the line starts with it. */
  lemma CommentAtStartKept(comment: string)
    ensures StripComment(";" + comment) == ";" + comment
  {
    assert (";" + comment)[0] == ';';
  }

  /** A line that starts with a non-space character parses, if at all, with
      a label, and the label starts with that character upper-cased. */
  lemma FlushLeftLabel(p: string, lineNumber: int)
    requires StartsWord(p)
    ensures ParseStripped(p, lineNumber).Ok? ==>
      var f := ParseStripped(p, lineNumber).value;
      f.labelName.Some? && f.labelName.value != [] && f.labelName.value[0] == UpperChar(p[0])
  {
    WordsAtHead(p, 0, 1);
    WordsAtHead(p, 0, 2);
    WordsAtHead(p, 0, 3);
  }

  /** The first of n words taken at i is the word at i. */
  lemma WordsAtHead(s: string, i: nat, n: nat)
    requires i <= |s| && n >= 1
    ensures WordsAt(s, i, n).Some? ==> WordAt(s, i).Some? && WordsAt(s, i, n).value.0[0] == WordAt(s, i).value.0
  {
  }

  // ---------------------------------------------------------------------
  // Scanning known text

  /** w appears in s at position i. */
  predicate Occurs(s: string, i: nat, w: string) {
    i + |w| <= |s| && forall k :: 0 <= k < |w| ==> s[i + k] == w[k]
  }

  lemma OccursSplit(s: string, i: nat, x: string, y: string)
    requires Occurs(s, i, x + y)
    ensures Occurs(s, i, x) && Occurs(s, i + |x|, y)
  {
    assert forall k :: 0 <= k < |x| ==> (x + y)[k] == x[k];
    assert forall k :: 0 <= k < |y| ==> (x + y)[|x| + k] == y[k];
  }

  lemma {:induction false} RunEndIs(s: string, i: nat, j: nat, space: bool)
    requires i <= j <= |s|
    requires forall k :: i <= k < j ==> IsSpace(s[k]) == space
    requires j == |s| || IsSpace(s[j]) != space
    ensures RunEnd(s, i, space) == j
    decreases j - i
  {
    if i < j {
      RunEndIs(s, i + 1, j, space);
    }
  }

  /** A token w at i, followed by a space or the end, is the word found there. */
  lemma TokenAt(s: string, i: nat, w: string)
    requires IsToken(w) && Occurs(s, i, w)
    requires i + |w| == |s| || IsSpace(s[i + |w|])
    ensures WordAt(s, i) == Some((w, i + |w|))
  {
    forall k | i <= k < i + |w| ensures !IsSpace(s[k]) {
      assert s[k] == w[k - i];
    }
    RunEndIs(s, i, i + |w|, false);
    assert s[i..i + |w|] == w;
  }

  /** A single space before a non-space. */
  lemma OneSpaceAt(s: string, i: nat)
    requires i + 1 < |s| && IsSpace(s[i]) && !IsSpace(s[i + 1])
    ensures RunEnd(s, i, true) == i + 1 && SpacesAt(s, i) == Some(i + 1)
  {
    RunEndIs(s, i, i + 1, true);
  }

  lemma TokensStep(s: string, i: nat, w: string)
    requires IsToken(w) && Occurs(s, i, w)
    requires i + |w| == |s| || IsSpace(s[i + |w|])
    ensures TokensFrom(s, i) == [w] + TokensFrom(s, i + |w|)
  {
    TokenAt(s, i, w);
  }

  // ---------------------------------------------------------------------
  // Canonical layout round trip

  /** Words separated by single spaces. */
  function Join(ws: seq<string>): string {
    if |ws| <= 1 then (if ws == [] then "" else ws[0]) else ws[0] + " " + Join(ws[1..])
  }

  lemma JoinSplit(s: string, i: nat, ws: seq<string>)
    requires |ws| >= 2 && Occurs(s, i, Join(ws))
    ensures Occurs(s, i, ws[0]) && s[i + |ws[0]|] == ' ' && Occurs(s, i + |ws[0]| + 1, Join(ws[1..]))
  {
    assert Join(ws) == (ws[0] + " ") + Join(ws[1..]);
    OccursSplit(s, i, ws[0] + " ", Join(ws[1..]));
    OccursSplit(s, i, ws[0], " ");
    assert s[i + |ws[0]| + 0] == " "[0];
  }

  /** The tokens of words joined by spaces are the words. */
  lemma {:induction false} TokensOfJoin(s: string, i: nat, ws: seq<string>)
    requires ws != [] && forall k :: 0 <= k < |ws| ==> IsToken(ws[k])
    requires Occurs(s, i, Join(ws)) && i + |Join(ws)| == |s|
    ensures TokensFrom(s, i) == ws
    decreases |ws|
  {
    if |ws| == 1 {
      TokensStep(s, i, ws[0]);
      assert TokensFrom(s, |s|) == [];
    } else {
      JoinSplit(s, i, ws);
      var j := i + |ws[0]|;
      TokensStep(s, i, ws[0]);
      assert TokensFrom(s, j) == TokensFrom(s, j + 1);
      TokensOfJoin(s, j + 1, ws[1..]);
      assert ws == [ws[0]] + ws[1..];
    }
  }

  /** A field that can be written out and read back: one run of non-space
      characters holding neither the comment nor the operand separator. */
  predicate Plain(o: Option<string>) {
    o.None? || (IsToken(o.value) && ',' !in o.value && ';' !in o.value)
  }

  predicate Renderable(f: Fields) {
    && Plain(f.labelName) && Plain(f.opcode) && Plain(f.operand1) && Plain(f.operand2)
    && (f.operand2.Some? ==> f.operand1.Some?)
    && (f.operand1.Some? ==> f.opcode.Some?)
  }

  function Present(o: Option<string>): seq<string> {
    if o.Some? then [o.value] else []
  }

  /** The space-separated words of the canonical layout. */
  function LayoutWords(f: Fields): seq<string> {
    Present(f.labelName) + Present(f.opcode)
    + (if f.operand2.Some? && f.operand1.Some? then [f.operand1.value + "," + f.operand2.value] else Present(f.operand1))
  }

  /** `LABEL OPCODE OP1,OP2`, with an indent in place of a missing label. */
  function Render(f: Fields): string {
    (if f.labelName.None? && f.opcode.Some? then " " else "") + Join(LayoutWords(f))
  }

  /** The fields a shape's groups give, for the canonical layouts. */
  lemma AssignUpper(f: Fields, g: seq<string>, labelled: bool)
    requires 1 <= |g| <= 4 && (!labelled ==> |g| <= 3)
    requires forall i :: 0 <= i < |g| ==> IsToken(g[i])
    requires labelled <==> f.labelName.Some?
    requires labelled ==> g[0] == f.labelName.value
    requires var ops := if labelled then g[1..] else g;
      && (f.opcode.Some? <==> |ops| >= 1) && (f.opcode.Some? ==> ops[0] == f.opcode.value)
      && (f.operand1.Some? <==> |ops| >= 2) && (f.operand1.Some? ==> ops[1] == f.operand1.value)
      && (f.operand2.Some? <==> |ops| >= 3) && (f.operand2.Some? ==> ops[2] == f.operand2.value)
    ensures Assign(labelled, g) == UpperFields(f)
  {
  }

  lemma NoSeparators(f: Fields)
    requires Renderable(f)
    ensures ';' !in Render(f)
    ensures f.operand2.None? ==> ',' !in Render(f)
  {
    var ws := LayoutWords(f);
    forall k | 0 <= k < |ws| ensures ';' !in ws[k] && (f.operand2.None? ==> ',' !in ws[k]) {
    }
    JoinAvoids(ws, ';');
    if f.operand2.None? {
      JoinAvoids(ws, ',');
    }
  }

  lemma {:induction false} JoinAvoids(ws: seq<string>, c: char)
    requires c != ' ' && forall k :: 0 <= k < |ws| ==> c !in ws[k]
    ensures c !in Join(ws)
    decreases |ws|
  {
    if |ws| >= 2 {
      JoinAvoids(ws[1..], c);
    }
  }

  /** A line written in the canonical layout reads back as its fields,
      upper-cased. */
  lemma ParseRender(f: Fields, lineNumber: int)
    requires Renderable(f)
    ensures ParseFields(Render(f), lineNumber) == Ok(UpperFields(f))
  {
    NoSeparators(f);
    if f.operand2.None? {
      ParseRenderPlain(f, lineNumber);
    } else if f.labelName.Some? {
      ParseRenderLabelledPair(f, lineNumber);
    } else {
      ParseRenderIndentedPair(f, lineNumber);
    }
  }

  lemma ParseRenderPlain(f: Fields, lineNumber: int)
    requires Renderable(f) && f.operand2.None?
    requires ';' !in Render(f) && ',' !in Render(f)
    ensures ParseFields(Render(f), lineNumber) == Ok(UpperFields(f))
  {
    var p := Render(f);
    var ws := LayoutWords(f);
    ParseWithoutComma(p, lineNumber);
    if ws == [] {
      assert p == [];
    } else {
      RenderTokens(f);
      if f.labelName.Some? {
        AssignUpper(f, ws, true);
      } else {
        AssignUpper(f, ws, false);
      }
    }
  }

  /** The tokens of a rendered line are its layout words. */
  lemma RenderTokens(f: Fields)
    requires Renderable(f) && LayoutWords(f) != []
    ensures Tokens(Render(f)) == LayoutWords(f)
    ensures StartsWord(Render(f)) <==> f.labelName.Some?
  {
    var p := Render(f);
    var ws := LayoutWords(f);
    assert forall k :: 0 <= k < |ws| ==> IsToken(ws[k]);
    if f.labelName.Some? {
      assert p == Join(ws);
      assert Occurs(p, 0, Join(ws));
      TokensOfJoin(p, 0, ws);
      assert p[0] == ws[0][0] by {
        if |ws| >= 2 { JoinSplit(p, 0, ws); }
      }
    } else {
      assert p == " " + Join(ws);
      OccursSplit(p, 0, " ", Join(ws));
      TokensOfJoin(p, 1, ws);
      assert TokensFrom(p, 0) == TokensFrom(p, 1);
    }
  }

  // The two-operand layouts

  lemma {:induction false} PairFromSkip(s: string, start: nat, e: nat, lo: nat)
    requires start <= |s| && start <= lo <= e <= RunEnd(s, start, false)
    requires forall k {:trigger PairTailAt(s, k)} :: lo < k <= e ==> PairTailAt(s, k).None?
    ensures PairFrom(s, start, e) == PairFrom(s, start, lo)
    decreases e
  {
    if e > lo {
      PairFromSkip(s, start, e - 1, lo);
    }
  }

  /** No comma can begin at a non-space, non-comma character. */
  lemma NoTailAt(s: string, e: nat)
    requires e == |s| || (e < |s| && !IsSpace(s[e]) && s[e] != ',')
    ensures PairTailAt(s, e).None?
  {
  }

  /** The tail `,b` right at c. */
  lemma TailAt(s: string, c: nat, b: string)
    requires c < |s| && s[c] == ',' && IsToken(b) && Occurs(s, c + 1, b) && c + 1 + |b| == |s|
    ensures PairTailAt(s, c) == Some(b)
  {
    RunEndIs(s, c, c, true);
    assert s[c + 1] == b[0];
    RunEndIs(s, c + 1, c + 1, true);
    TokenAt(s, c + 1, b);
    RunEndIs(s, |s|, |s|, true);
  }

  /** `a,b` at i running to the end of the line is the pair (a, b): the
      greedy first operand backs off to the last comma. */
  lemma PairAtEnd(s: string, i: nat, a: string, b: string)
    requires IsToken(a) && IsToken(b) && ',' !in b
    requires Occurs(s, i, a + "," + b) && i + |a| + 1 + |b| == |s|
    ensures PairAt(s, i) == Some((a, b))
  {
    OccursSplit(s, i, a + ",", b);
    OccursSplit(s, i, a, ",");
    var c := i + |a|;
    assert s[c] == ',' by {
      assert s[c + 0] == ","[0];
    }
    forall k | i <= k < |s| ensures !IsSpace(s[k]) {
      if k < c {
        assert s[i + (k - i)] == a[k - i];
      } else if k > c {
        assert s[c + 1 + (k - c - 1)] == b[k - c - 1];
      }
    }
    RunEndIs(s, i, |s|, false);
    forall k | c < k <= |s| ensures PairTailAt(s, k).None? {
      if k < |s| {
        assert s[c + 1 + (k - c - 1)] == b[k - c - 1];
      }
      NoTailAt(s, k);
    }
    PairFromSkip(s, i, |s|, c);
    TailAt(s, c, b);
    assert s[i..c] == a;
  }

  /** `OP A,B` at i, running to the end of the line. */
  predicate PairLayout(p: string, i: nat, o: string, a: string, b: string) {
    && Occurs(p, i, o) && i + |o| < |p| && p[i + |o|] == ' '
    && Occurs(p, i + |o| + 1, a + "," + b) && i + |o| + 1 + |a| + 1 + |b| == |p|
  }

  lemma PairLayoutWords(p: string, i: nat, o: string, a: string, b: string)
    requires IsToken(o) && IsToken(a) && IsToken(b) && ',' !in b
    requires PairLayout(p, i, o, a, b)
    ensures WordsAt(p, i, 1) == Some(([o], i + |o|))
    ensures SpacesAt(p, i + |o|) == Some(i + |o| + 1)
    ensures PairAt(p, i + |o| + 1) == Some((a, b))
  {
    var j := i + |o| + 1;
    TokenAt(p, i, o);
    OccursSplit(p, j, a + ",", b);
    OccursSplit(p, j, a, ",");
    assert p[j + 0] == a[0];
    OneSpaceAt(p, j - 1);
    PairAtEnd(p, j, a, b);
  }

  lemma ParseRenderLabelledPair(f: Fields, lineNumber: int)
    requires Renderable(f) && f.operand2.Some? && f.labelName.Some?
    requires ';' !in Render(f)
    ensures ParseFields(Render(f), lineNumber) == Ok(UpperFields(f))
  {
    var (l, o, a, b) := (f.labelName.value, f.opcode.value, f.operand1.value, f.operand2.value);
    var p := Render(f);
    assert LayoutWords(f) == [l, o, a + "," + b];
    assert p == Join(LayoutWords(f));
    assert Occurs(p, 0, Join(LayoutWords(f)));
    LabelledPairLayout(p, LayoutWords(f));
    LabelledPairMatches(p, l, o, a, b);
    ThreeTokens(p);
    AssignUpper(f, [l, o, a, b], true);
  }

  lemma LabelledPairLayout(p: string, ws: seq<string>)
    requires |ws| == 3 && IsToken(ws[0]) && IsToken(ws[1]) && IsToken(ws[2])
    requires Occurs(p, 0, Join(ws)) && |Join(ws)| == |p|
    ensures Occurs(p, 0, ws[0]) && |ws[0]| < |p| && p[|ws[0]|] == ' '
    ensures Occurs(p, |ws[0]| + 1, ws[1]) && |ws[0]| + |ws[1]| + 1 < |p| && p[|ws[0]| + |ws[1]| + 1] == ' '
    ensures Occurs(p, |ws[0]| + |ws[1]| + 2, ws[2]) && |ws[0]| + |ws[1]| + |ws[2]| + 2 == |p|
    ensures |Tokens(p)| == 3
  {
    JoinSplit(p, 0, ws);
    var rest := ws[1..];
    assert rest[0] == ws[1] && rest[1..] == [ws[2]];
    JoinSplit(p, |ws[0]| + 1, rest);
    TokensOfJoin(p, 0, ws);
  }

  /** A line of three tokens fits none of the shorter shapes. */
  lemma ThreeTokens(p: string)
    requires |Tokens(p)| == 3
    ensures !MatchBlank(p) && MatchLabel(p).None? && MatchLabOp(p).None?
  {
    SpacesToEndTokens(p, 0);
    WordsToEndTokens(p, 0, 1);
    WordsToEndTokens(p, 0, 2);
  }

  lemma LabelledPairMatches(p: string, l: string, o: string, a: string, b: string)
    requires IsToken(l) && IsToken(o) && IsToken(a) && IsToken(b) && ',' !in b
    requires Occurs(p, 0, l) && |l| < |p| && p[|l|] == ' ' && PairLayout(p, |l| + 1, o, a, b)
    ensures MatchLabOp2(p) == Some([l, o, a, b])
  {
    var L := |l|;
    assert p[L + 1 + 0] == o[0];
    TokenAt(p, 0, l);
    OneSpaceAt(p, L);
    PairLayoutWords(p, L + 1, o, a, b);
    assert WordsAt(p, L + 1, 1) == Some(([o], L + |o| + 1));
    assert WordsAt(p, 0, 2) == Some(([l] + [o], L + |o| + 1));
    assert SpacesAt(p, L + |o| + 1) == Some(L + |o| + 2);
    assert PairAt(p, L + |o| + 2) == Some((a, b));
    assert WordsThenPair(p, 0, 2) == Some(([l] + [o]) + [a, b]);
    assert ([l] + [o]) + [a, b] == [l, o, a, b];
  }

  lemma ParseRenderIndentedPair(f: Fields, lineNumber: int)
    requires Renderable(f) && f.operand2.Some? && f.labelName.None?
    requires ';' !in Render(f)
    ensures ParseFields(Render(f), lineNumber) == Ok(UpperFields(f))
  {
    var (o, a, b) := (f.opcode.value, f.operand1.value, f.operand2.value);
    var p := Render(f);
    var ws := LayoutWords(f);
    assert ws == [o, a + "," + b];
    assert p == " " + Join(ws);
    OccursSplit(p, 0, " ", Join(ws));
    JoinSplit(p, 1, ws);
    assert ws[1..] == [a + "," + b];
    IndentedPairMatches(p, o, a, b);
    AssignUpper(f, [o, a, b], false);
  }

  lemma IndentedPairMatches(p: string, o: string, a: string, b: string)
    requires IsToken(o) && IsToken(a) && IsToken(b) && ',' !in b
    requires |p| > 1 && p[0] == ' ' && PairLayout(p, 1, o, a, b)
    ensures !MatchBlank(p) && MatchLabel(p).None? && MatchLabOp(p).None? && MatchLabOp2(p).None?
    ensures MatchOp2(p) == Some([o, a, b])
  {
    assert p[1 + 0] == o[0];
    OneSpaceAt(p, 0);
    PairLayoutWords(p, 1, o, a, b);
    assert WordAt(p, 0).None?;
    assert [o] + [a, b] == [o, a, b];
  }
}
