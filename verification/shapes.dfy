/** Breaking a source line into label, opcode and operand fields
    (AsmLine.__parseInitial, as240.py:526-611, and the line-shape regular
    expressions at as240.py:325-410).

    Every shape is a sequence of `\S+`, `\s+`, `\s*` pieces anchored at both
    ends. A `\S+` that is followed by `\s+` or by `\s*$` can only match a whole
    run of non-space characters, and a `\s+` followed by `\S+` a whole run of
    spaces, so those pieces are matched here by maximal munch over positions
    (`WordAt`, `SpacesAt`, `SpacesToEnd`). The one place where the
    backtracking engine has a real choice is the two-operand tail
    `(\S+)\s*,\s*(\S+)\s*$`, where the first operand may stop at any comma
    inside its run: `PairAt` tries the longest first operand first, as the
    greedy `\S+` does. */
module Shapes {
  import opened Wrappers
  import opened Text
  import opened Errors

  /** The fields of a line; None where the line has no such field. */
  datatype Fields = Fields(
    labelName: Option<string>,
    opcode: Option<string>,
    operand1: Option<string>,
    operand2: Option<string>)

  const NoFields := Fields(None, None, None, None)

  /** A field as the regular expressions capture it: one `\S+` run. */
  predicate IsToken(s: string) {
    |s| > 0 && forall k :: 0 <= k < |s| ==> !IsSpace(s[k])
  }

  /** Where the run starting at i of spaces (space = true) or of non-spaces
      (space = false) ends. */
  function RunEnd(s: string, i: nat, space: bool): (j: nat)
    requires i <= |s|
    ensures i <= j <= |s|
    ensures j < |s| ==> IsSpace(s[j]) != space
    decreases |s| - i
  {
    if i == |s| || IsSpace(s[i]) != space then i else RunEnd(s, i + 1, space)
  }

  lemma {:induction false} RunEndSpan(s: string, i: nat, space: bool)
    requires i <= |s|
    ensures forall k :: i <= k < RunEnd(s, i, space) ==> IsSpace(s[k]) == space
    decreases |s| - i
  {
    if i < |s| && IsSpace(s[i]) == space {
      RunEndSpan(s, i + 1, space);
    }
  }

  /** `\s*$` from position i. */
  predicate SpacesToEnd(s: string, i: nat)
    requires i <= |s|
  {
    RunEnd(s, i, true) == |s|
  }

  /** `(\S+)` at i where what follows cannot begin with a non-space: the run
      and where it ends. */
  function WordAt(s: string, i: nat): (r: Option<(string, nat)>)
    requires i <= |s|
    ensures r.Some? ==> i < r.value.1 <= |s| && r.value.0 == s[i..r.value.1] && IsToken(r.value.0)
    ensures r.Some? ==> r.value.1 == |s| || IsSpace(s[r.value.1])
  {
    var j := RunEnd(s, i, false);
    if j == i then None
    else
      RunEndSpan(s, i, false);
      assert forall k :: 0 <= k < j - i ==> s[i..j][k] == s[i + k];
      Some((s[i..j], j))
  }

  /** `\s+` at i where what follows is `\S+`: where the spaces end. */
  function SpacesAt(s: string, i: nat): (r: Option<nat>)
    requires i <= |s|
    ensures r.Some? ==> i < r.value <= |s|
  {
    var j := RunEnd(s, i, true);
    if j == i then None else Some(j)
  }

  /** k captured groups, each a `\S+` run. */
  predicate Groups(g: seq<string>, k: nat) {
    |g| == k && forall i :: 0 <= i < k ==> IsToken(g[i])
  }

  /** `(\S+)\s+(\S+)...`: n words from position i separated by spaces;
      the captured words and where the last one ends. */
  function WordsAt(s: string, i: nat, n: nat): (r: Option<(seq<string>, nat)>)
    requires i <= |s| && n >= 1
    ensures r.Some? ==> Groups(r.value.0, n) && i < r.value.1 <= |s|
    decreases n
  {
    var w := WordAt(s, i);
    if w.None? then None
    else if n == 1 then Some(([w.value.0], w.value.1))
    else
      var sp := SpacesAt(s, w.value.1);
      if sp.None? then None
      else
        var more := WordsAt(s, sp.value, n - 1);
        if more.None? then None
        else Some(([w.value.0] + more.value.0, more.value.1))
  }

  /** `\s*,\s*(\S+)\s*$` from position i: the second operand. */
  function PairTailAt(s: string, i: nat): (r: Option<string>)
    requires i <= |s|
    ensures r.Some? ==> IsToken(r.value)
  {
    var c := RunEnd(s, i, true);
    if c == |s| || s[c] != ',' then None
    else
      var w := WordAt(s, RunEnd(s, c + 1, true));
      if w.Some? && SpacesToEnd(s, w.value.1) then Some(w.value.0) else None
  }

  /** The backtracking search for `(\S+)` in `(\S+)\s*,\s*(\S+)\s*$`:
      the first operand is s[start..e] for e from the end of the run down to
      start + 1, the first that lets the rest match. */
  function PairFrom(s: string, start: nat, e: nat): (r: Option<(string, string)>)
    requires start <= |s| && start <= e <= RunEnd(s, start, false)
    ensures r.Some? ==> IsToken(r.value.0) && IsToken(r.value.1)
    decreases e
  {
    if e == start then None
    else
      match PairTailAt(s, e)
      case Some(y) =>
        RunEndSpan(s, start, false);
        assert forall k :: 0 <= k < e - start ==> s[start..e][k] == s[start + k];
        Some((s[start..e], y))
      case None => PairFrom(s, start, e - 1)
  }

  /** `(\S+)\s*,\s*(\S+)\s*$` from position i. */
  function PairAt(s: string, i: nat): (r: Option<(string, string)>)
    requires i <= |s|
    ensures r.Some? ==> IsToken(r.value.0) && IsToken(r.value.1)
  {
    PairFrom(s, i, RunEnd(s, i, false))
  }

  // ---------------------------------------------------------------------
  // The eight line shapes; each returns the captured groups, as match.groups()

  /** `(\S+)\s+...(\S+)\s*$`: k words from i and nothing after them but spaces. */
  function WordsToEnd(p: string, i: nat, k: nat): (r: Option<seq<string>>)
    requires i <= |p| && k >= 1
    ensures r.Some? ==> Groups(r.value, k)
  {
    var w := WordsAt(p, i, k);
    if w.Some? && SpacesToEnd(p, w.value.1) then Some(w.value.0) else None
  }

  /** k words from i, spaces, then a comma-separated pair to the end. */
  function WordsThenPair(p: string, i: nat, k: nat): (r: Option<seq<string>>)
    requires i <= |p| && k >= 1
    ensures r.Some? ==> Groups(r.value, k + 2)
  {
    var w := WordsAt(p, i, k);
    if w.None? then None
    else
      var sp := SpacesAt(p, w.value.1);
      if sp.None? then None
      else
        var pair := PairAt(p, sp.value);
        if pair.None? then None
        else Some(w.value.0 + [pair.value.0, pair.value.1])
  }

  /** re_blank: `^\s*$` */
  predicate MatchBlank(p: string) {
    SpacesToEnd(p, 0)
  }

  /** re_label: `^(\S+)\s*$` */
  function MatchLabel(p: string): (r: Option<seq<string>>)
    ensures r.Some? ==> Groups(r.value, 1)
  {
    WordsToEnd(p, 0, 1)
  }

  /** re_labop: `^(\S+)\s+(\S+)\s*$` */
  function MatchLabOp(p: string): (r: Option<seq<string>>)
    ensures r.Some? ==> Groups(r.value, 2)
  {
    WordsToEnd(p, 0, 2)
  }

  /** re_labop1: `^(\S+)\s+(\S+)\s+(\S+)\s*$` */
  function MatchLabOp1(p: string): (r: Option<seq<string>>)
    ensures r.Some? ==> Groups(r.value, 3)
  {
    WordsToEnd(p, 0, 3)
  }

  /** re_labop2: `^(\S+)\s+(\S+)\s+(\S+)\s*,\s*(\S+)\s*$` */
  function MatchLabOp2(p: string): (r: Option<seq<string>>)
    ensures r.Some? ==> Groups(r.value, 4)
  {
    WordsThenPair(p, 0, 2)
  }

  /** re_opcode: `^\s+(\S+)\s*$` */
  function MatchOpcode(p: string): (r: Option<seq<string>>)
    ensures r.Some? ==> Groups(r.value, 1)
  {
    var sp := SpacesAt(p, 0);
    if sp.None? then None else WordsToEnd(p, sp.value, 1)
  }

  /** re_op1: `^\s+(\S+)\s+(\S+)\s*$` */
  function MatchOp1(p: string): (r: Option<seq<string>>)
    ensures r.Some? ==> Groups(r.value, 2)
  {
    var sp := SpacesAt(p, 0);
    if sp.None? then None else WordsToEnd(p, sp.value, 2)
  }

  /** re_op2: `^\s+(\S+)\s+(\S+)\s*,\s*(\S+)\s*$` */
  function MatchOp2(p: string): (r: Option<seq<string>>)
    ensures r.Some? ==> Groups(r.value, 3)
  {
    var sp := SpacesAt(p, 0);
    if sp.None? then None else WordsThenPair(p, sp.value, 1)
  }

  // ---------------------------------------------------------------------
  // __parseInitial

  /** text.find(';'): the index of the first ';', or -1. */
  function FindSemicolon(s: string): (k: int)
    ensures -1 <= k < |s|
    ensures k == -1 <==> ';' !in s
    ensures k >= 0 ==> s[k] == ';' && ';' !in s[..k]
  {
    if s == [] then -1
    else if s[0] == ';' then 0
    else
      var k := FindSemicolon(s[1..]);
      assert s[1..][..if k < 0 then 0 else k] == s[1..if k < 0 then 1 else k + 1];
      if k == -1 then -1 else k + 1
  }

  /** The comment is cut off only when the first ';' is not the first
      character (as240.py:531-535). */
  function StripComment(text: string): (p: string)
    ensures ';' !in text || text[0] == ';' ==> p == text
    ensures ';' in text && text[0] != ';' ==> p < text && text[|p|] == ';' && ';' !in p
  {
    var c := FindSemicolon(text);
    if c > 0 then text[..c] else text
  }

  predicate IsUpperToken(s: string) {
    IsToken(s) && forall k :: 0 <= k < |s| ==> !IsLower(s[k])
  }

  predicate UpperTokenOrNone(f: Option<string>) {
    f.None? || IsUpperToken(f.value)
  }

  /** What every parsed line looks like: operands only after an opcode, a
      second operand only after a first, and every field an upper-case run of
      non-space characters. */
  ghost predicate WellShaped(f: Fields) {
    && (f.operand2.Some? ==> f.operand1.Some?)
    && (f.operand1.Some? ==> f.opcode.Some?)
    && UpperTokenOrNone(f.labelName) && UpperTokenOrNone(f.opcode)
    && UpperTokenOrNone(f.operand1) && UpperTokenOrNone(f.operand2)
  }

  function UpperField(f: Option<string>): Option<string> {
    if f.Some? then Some(Upper(f.value)) else None
  }

  function UpperFields(f: Fields): Fields {
    Fields(UpperField(f.labelName), UpperField(f.opcode), UpperField(f.operand1), UpperField(f.operand2))
  }

  lemma UpperOfToken(s: string)
    requires IsToken(s)
    ensures IsUpperToken(Upper(s))
  {
    UpperKeepsClasses(s);
  }

  /** The upper-cased groups put into the fields a shape names. */
  function Assign(labelled: bool, g: seq<string>): (f: Fields)
    requires 1 <= |g| <= 4 && (!labelled ==> |g| <= 3)
    requires forall i :: 0 <= i < |g| ==> IsToken(g[i])
    ensures WellShaped(f)
  {
    var u := seq(|g|, i requires 0 <= i < |g| => Upper(g[i]));
    forall i | 0 <= i < |g| ensures IsUpperToken(u[i]) {
      UpperOfToken(g[i]);
    }
    var ops := if labelled then u[1..] else u;
    Fields(
      if labelled then Some(u[0]) else None,
      if |ops| >= 1 then Some(ops[0]) else None,
      if |ops| >= 2 then Some(ops[1]) else None,
      if |ops| >= 3 then Some(ops[2]) else None)
  }

  /** __parseInitial: the shapes are tried in the source's order and the first
      that matches decides the fields, upper-cased; a line no shape fits is a
      ParseError. */
  function ParseFields(text: string, lineNumber: int): (r: Result<Fields, AsmError>)
    ensures r.Ok? ==> WellShaped(r.value)
    ensures r.Err? ==> r.error == ParseError(lineNumber)
  {
    ParseStripped(StripComment(text), lineNumber)
  }

  /** The shapes tried on the line once its comment is cut off. */
  function ParseStripped(p: string, lineNumber: int): (r: Result<Fields, AsmError>)
    ensures r.Ok? ==> WellShaped(r.value)
    ensures r.Err? ==> r.error == ParseError(lineNumber)
  {
    if MatchBlank(p) then Ok(NoFields)
    else if MatchLabel(p).Some? then Ok(Assign(true, MatchLabel(p).value))
    else if MatchLabOp(p).Some? then Ok(Assign(true, MatchLabOp(p).value))
    else if MatchLabOp2(p).Some? then Ok(Assign(true, MatchLabOp2(p).value))
    else if MatchOp2(p).Some? then Ok(Assign(false, MatchOp2(p).value))
    else if MatchOpcode(p).Some? then Ok(Assign(false, MatchOpcode(p).value))
    else if MatchLabOp1(p).Some? then Ok(Assign(true, MatchLabOp1(p).value))
    else if MatchOp1(p).Some? then Ok(Assign(false, MatchOp1(p).value))
    else Err(ParseError(lineNumber))
  }
}
