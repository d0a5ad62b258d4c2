/** The symbol table (class SymbolTable, as240.py:895-956): a write-once map
    from name to the address it was declared at, with a sorted text listing.

    The source keeps one table for the whole process in a class attribute;
    here it is an object the driver allocates and passes to the lines it
    builds. An address can be missing (None): a `.EQU` line before the first
    `.ORG` registers its name without one. */
module Symbols {
  import opened Wrappers
  import opened Text
  import opened Errors
  import opened LabelOrder

  type Table = map<string, Option<nat>>

  /** add_label on a table value: a name can be declared once only. */
  function Insert(t: Table, name: string, address: Option<nat>, lineNumber: int): Result<Table, AsmError> {
    if name in t then Err(SyntaxError(lineNumber, DuplicateLabel)) else Ok(t[name := address])
  }

  /** lookup_label on a table value. */
  function Find(t: Table, name: string, lineNumber: int): Result<Option<nat>, AsmError> {
    if name in t then Ok(t[name]) else Err(SyntaxError(lineNumber, UndefinedLabel))
  }

  /** A declared name reads back as the address it was declared with. */
  lemma InsertThenFind(t: Table, name: string, address: Option<nat>, n: int, m: int)
    requires Insert(t, name, address, n).Ok?
    ensures Find(Insert(t, name, address, n).value, name, m) == Ok(address)
  {
  }

  /** Declaring a name again fails whatever the address, and the table is
      left as it was. */
  lemma InsertTwiceFails(t: Table, name: string, a: Option<nat>, b: Option<nat>, n: int, m: int)
    requires Insert(t, name, a, n).Ok?
    ensures Insert(Insert(t, name, a, n).value, name, b, m) == Err(SyntaxError(m, DuplicateLabel))
  {
  }

  /** Declaring one name leaves every other name's lookup as it was. */
  lemma InsertKeepsOthers(t: Table, name: string, address: Option<nat>, n: int, other: string, m: int)
    requires Insert(t, name, address, n).Ok? && other != name
    ensures Find(Insert(t, name, address, n).value, other, m) == Find(t, other, m)
  {
  }

  /** Looking up a name of an empty table fails. */
  lemma FindInEmpty(name: string, m: int)
    ensures Find(map[], name, m) == Err(SyntaxError(m, UndefinedLabel))
  {
  }

  // ---------------------------------------------------------------------
  // printable_string

  const EmptyText := "Symbol table is empty"
  const LongNotice := "Only 40 characters of long labels are shown. \nRemaining characters are still significant.\n"

  /** The longest name's length. */
  function MaxLength(ls: seq<string>): (m: nat)
    ensures forall i :: 0 <= i < |ls| ==> |ls[i]| <= m
    ensures ls != [] ==> exists i :: 0 <= i < |ls| && |ls[i]| == m
    ensures ls == [] ==> m == 0
  {
    if ls == [] then 0
    else
      var m := MaxLength(ls[..|ls| - 1]);
      var last := |ls[|ls| - 1]|;
      assert forall i :: 0 <= i < |ls| - 1 ==> ls[..|ls| - 1][i] == ls[i];
      if last > m then last else m
  }

  /** The name column's width: the longest name, but at most 40 and at
      least 7 (the width of the heading). */
  function Width(ls: seq<string>): nat {
    var m := MaxLength(ls);
    if m > 40 then 40 else if m < 7 then 7 else m
  }

  function Header(w: nat): string {
    Center("Label", w) + "  Address\n" + Repeat('-', w) + "  -------\n"
  }

  /** Only the first 40 characters of a name are listed. */
  function Shown(name: string): (s: string)
    ensures |s| <= 40
  {
    if |name| > 40 then name[..40] else name
  }

  function Row(name: string, address: nat, w: nat): string {
    PadRight(Shown(name), w) + "   $" + Hex4(address) + "\n"
  }

  /** The rows of the labels ls, in that order; formatting a missing address
      is an error. */
  function Rows(ls: seq<string>, t: Table, w: nat): Result<string, AsmError>
    requires forall i :: 0 <= i < |ls| ==> ls[i] in t
  {
    if ls == [] then Ok("")
    else
      var prev := Rows(ls[..|ls| - 1], t, w);
      var last := ls[|ls| - 1];
      if prev.Err? then prev
      else if t[last].None? then Err(AddressMissing(last))
      else Ok(prev.value + Row(last, t[last].value, w))
  }

  /** The two closing lines, when a label was cut short. */
  function Notice(ls: seq<string>): string {
    if MaxLength(ls) > 40 then LongNotice else ""
  }

  /** The listing of a non-empty table whose labels, in order, are ls. */
  function Layout(ls: seq<string>, t: Table): Result<string, AsmError>
    requires forall i :: 0 <= i < |ls| ==> ls[i] in t
  {
    var w := Width(ls);
    var rows := Rows(ls, t, w);
    if rows.Err? then rows else Ok(Header(w) + rows.value + Notice(ls))
  }

  /** printable_string on a table value. */
  ghost function Listing(t: Table): Result<string, AsmError> {
    if t == map[] then Ok(EmptyText) else Layout(SortedLabels(t.Keys), t)
  }

  /** An empty table lists as the one line "Symbol table is empty". */
  lemma ListingOfEmpty()
    ensures Listing(map[]) == Ok(EmptyText)
  {
  }

  /** The name column is between 7 and 40 wide and holds every shown name,
      so every row lines its address up under the heading's. */
  lemma WidthFits(ls: seq<string>)
    ensures 7 <= Width(ls) <= 40
    ensures forall i :: 0 <= i < |ls| ==> |PadRight(Shown(ls[i]), Width(ls))| == Width(ls)
    ensures Width(ls) == 7 || Width(ls) == 40 || exists i :: 0 <= i < |ls| && |ls[i]| == Width(ls)
  {
  }

  /** A row is the shown name padded to the column, and an address of at
      most four hex digits keeps every row the same length; an address from
      0x10000 on prints wider and makes the row longer. */
  lemma RowLength(name: string, address: nat, w: nat)
    requires |Shown(name)| <= w
    ensures address < 0x1_0000 ==> |Row(name, address, w)| == w + 9
    ensures address >= 0x1_0000 ==> |Row(name, address, w)| > w + 9
  {
    Hex4RoundTrip(address);
  }

  /** "Label" is centred over the column, with the odd space on the right. */
  lemma HeaderCentred(w: nat)
    requires w >= 7
    ensures Header(w)[..(w - 5) / 2] == Repeat(' ', (w - 5) / 2)
    ensures Header(w)[(w - 5) / 2..(w - 5) / 2 + 5] == "Label"
    ensures |Header(w)| == 2 * w + 20
  {
    var c := Center("Label", w);
    var left := (w - 5) / 2;
    assert c == Repeat(' ', left) + "Label" + Repeat(' ', w - 5 - left);
    assert Header(w) == c + ("  Address\n" + Repeat('-', w) + "  -------\n");
    assert c[..left] == Repeat(' ', left);
    assert c[left..left + 5] == "Label";
  }

  /** The notice about long labels is listed exactly when a name is longer
      than 40 characters. */
  lemma NoticeWhenLong(t: Table)
    requires t != map[] && Listing(t).Ok?
    ensures var ls := SortedLabels(t.Keys);
      Listing(t).value == Header(Width(ls)) + Rows(ls, t, Width(ls)).value
        + (if exists l :: l in t && |l| > 40 then LongNotice else "")
  {
    var ls := SortedLabels(t.Keys);
    if exists l :: l in t && |l| > 40 {
      var l :| l in t && |l| > 40;
      assert l in ls;
    }
  }

  /** The listing of the symbol table of SymbolTable_test.py:65-75: two
      labels, listed in label order under a heading 8 wide. */
  lemma ListingExample()
    ensures Listing(map["STARTING" := Some(1200), "ENDINGPT" := Some(1400)]) == Ok(
      " Label    Address\n" +
      "--------  -------\n" +
      "ENDINGPT   $0578\n" +
      "STARTING   $04B0\n")
  {
    var t := map["STARTING" := Some(1200), "ENDINGPT" := Some(1400)];
    var ls := ["ENDINGPT", "STARTING"];
    ExampleOrder(t, ls);
    ExampleWidth(ls);
    ExampleRows(t, ls);
    ExampleHeader();
    assert "STARTING" in t;
    ListingIsLayout(t, ls);
    var rows := "ENDINGPT   $0578\n" + "STARTING   $04B0\n";
    assert Layout(ls, t) == Ok(Header(8) + rows + "");
    ExampleText(Header(8), rows);
  }

  lemma ExampleText(h: string, rows: string)
    requires h == " Label    Address\n" + "--------  -------\n"
    requires rows == "ENDINGPT   $0578\n" + "STARTING   $04B0\n"
    ensures h + rows + "" ==
      " Label    Address\n" +
      "--------  -------\n" +
      "ENDINGPT   $0578\n" +
      "STARTING   $04B0\n"
  {
  }

  lemma ListingIsLayout(t: Table, ls: seq<string>)
    requires t != map[] && SortedLabels(t.Keys) == ls
    ensures Listing(t) == Layout(ls, t)
  {
  }

  lemma ExampleOrder(t: Table, ls: seq<string>)
    requires t == map["STARTING" := Some(1200), "ENDINGPT" := Some(1400)]
    requires ls == ["ENDINGPT", "STARTING"]
    ensures SortedLabels(t.Keys) == ls
  {
    assert Less("ENDINGPT", "STARTING");
    assert t.Keys == {"STARTING", "ENDINGPT"};
    SortedUnique(ls, SortedLabels(t.Keys));
  }

  lemma ExampleWidth(ls: seq<string>)
    requires ls == ["ENDINGPT", "STARTING"]
    ensures MaxLength(ls) == 8 && Width(ls) == 8
  {
    assert ls[..1] == ["ENDINGPT"];
    assert ls[..1][..0] == [];
  }

  lemma ExampleRows(t: Table, ls: seq<string>)
    requires t == map["STARTING" := Some(1200), "ENDINGPT" := Some(1400)]
    requires ls == ["ENDINGPT", "STARTING"]
    ensures Rows(ls, t, 8) == Ok("ENDINGPT   $0578\n" + "STARTING   $04B0\n")
  {
    ExampleRow("ENDINGPT", 1400, "0578");
    ExampleRow("STARTING", 1200, "04B0");
    assert t["ENDINGPT"] == Some(1400) && t["STARTING"] == Some(1200);
    RowsOfTwo("ENDINGPT", "STARTING", t, 8);
    assert Row("ENDINGPT", 1400, 8) == "ENDINGPT   $0578\n";
    assert Row("STARTING", 1200, 8) == "STARTING   $04B0\n";
  }

  lemma RowsOfTwo(a: string, b: string, t: Table, w: nat)
    requires a in t && b in t && t[a].Some? && t[b].Some?
    ensures Rows([a, b], t, w) == Ok(Row(a, t[a].value, w) + Row(b, t[b].value, w))
  {
    assert [a, b][..1] == [a];
    assert [a][..0] == [];
    assert Rows([a], t, w) == Ok("" + Row(a, t[a].value, w));
    assert "" + Row(a, t[a].value, w) == Row(a, t[a].value, w);
  }

  lemma ExampleRow(name: string, address: nat, digits: string)
    requires |name| == 8 && (name, address, digits) in {("ENDINGPT", 1400, "0578"), ("STARTING", 1200, "04B0")}
    ensures Row(name, address, 8) == name + "   $" + digits + "\n"
  {
    ExampleHex();
  }

  lemma ExampleHex()
    ensures Hex4(1400) == "0578" && Hex4(1200) == "04B0"
  {
    assert HexDigits(1400) == HexDigits(87) + "8";
    assert HexDigits(87) == HexDigits(5) + "7";
    assert HexDigits(1200) == HexDigits(75) + "0";
    assert HexDigits(75) == HexDigits(4) + "B";
  }

  lemma ExampleHeader()
    ensures Header(8) == " Label    Address\n" + "--------  -------\n"
  {
    ExampleCentre();
    ExampleRule();
  }

  lemma ExampleCentre()
    ensures Center("Label", 8) == " Label  "
  {
    assert Repeat(' ', 1) == " ";
    assert Repeat(' ', 2) == "  ";
  }

  lemma ExampleRule()
    ensures Repeat('-', 8) == "--------"
  {
  }

  /** The table object. */
  class SymbolTable {
    var table: Table

    /** A fresh, empty table. */
    constructor ()
      ensures table == map[]
    {
      table := map[];
    }

    /** add_label (as240.py:900-906). */
    method AddLabel(name: string, address: Option<nat>, lineNumber: int) returns (r: Result<(), AsmError>)
      modifies this
      ensures name in old(table) ==> r == Err(SyntaxError(lineNumber, DuplicateLabel)) && table == old(table)
      ensures name !in old(table) ==> r == Ok(()) && table == old(table)[name := address]
    {
      if name in table {
        return Err(SyntaxError(lineNumber, DuplicateLabel));
      }
      table := table[name := address];
      return Ok(());
    }

    /** lookup_label (as240.py:908-916). */
    method LookupLabel(name: string, lineNumber: int) returns (r: Result<Option<nat>, AsmError>)
      ensures name in table ==> r == Ok(table[name])
      ensures name !in table ==> r == Err(SyntaxError(lineNumber, UndefinedLabel))
    {
      if name in table {
        return Ok(table[name]);
      }
      return Err(SyntaxError(lineNumber, UndefinedLabel));
    }

    /** clear (as240.py:918-923). */
    method Clear()
      modifies this
      ensures table == map[]
    {
      table := map[];
    }

    /** printable_string (as240.py:925-956): the longest label sets the
        column, then one row per label in label order. */
    method PrintableString() returns (r: Result<string, AsmError>)
      ensures r == Listing(table)
    {
      if table == map[] {
        return Ok(EmptyText);
      }
      var labels := SortLabels(table.Keys);
      var maxLen := LongestLabel(labels);
      var longLabel := false;
      if maxLen > 40 {
        maxLen := 40;
        longLabel := true;
      }
      if maxLen < 7 {
        maxLen := 7;
      }
      var rows := FormatRows(labels, table, maxLen);
      if rows.Err? {
        return rows;
      }
      var text := Header(maxLen) + rows.value;
      if longLabel {
        text := text + LongNotice;
      }
      assert text == Header(maxLen) + rows.value + Notice(labels);
      return Ok(text);
    }
  }

  /** The max_len loop of printable_string. */
  method LongestLabel(labels: seq<string>) returns (maxLen: nat)
    ensures maxLen == MaxLength(labels)
  {
    maxLen := 0;
    for i := 0 to |labels|
      invariant maxLen == MaxLength(labels[..i])
    {
      assert labels[..i + 1][..i] == labels[..i];
      if |labels[i]| > maxLen {
        maxLen := |labels[i]|;
      }
    }
    assert labels[..|labels|] == labels;
  }

  /** The row loop of printable_string. */
  method FormatRows(labels: seq<string>, t: Table, w: nat) returns (r: Result<string, AsmError>)
    requires forall i :: 0 <= i < |labels| ==> labels[i] in t
    ensures r == Rows(labels, t, w)
  {
    var text := "";
    for i := 0 to |labels|
      invariant Rows(labels[..i], t, w) == Ok(text)
    {
      assert labels[..i + 1][..i] == labels[..i];
      var address := t[labels[i]];
      if address.None? {
        RowsStuck(labels, t, w, i + 1);
        return Err(AddressMissing(labels[i]));
      }
      text := text + Row(labels[i], address.value, w);
    }
    assert labels[..|labels|] == labels;
    return Ok(text);
  }

  /** Once a row fails, the listing fails with that row's error. */
  lemma {:induction false} RowsStuck(ls: seq<string>, t: Table, w: nat, k: nat)
    requires forall i :: 0 <= i < |ls| ==> ls[i] in t
    requires k <= |ls| && Rows(ls[..k], t, w).Err?
    ensures Rows(ls, t, w) == Rows(ls[..k], t, w)
    decreases |ls| - k
  {
    if k < |ls| {
      assert ls[..k + 1][..k] == ls[..k];
      RowsStuck(ls, t, w, k + 1);
    } else {
      assert ls[..k] == ls;
    }
  }
}
