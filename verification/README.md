# as240 in Dafny

as240 is the two-pass assembler for the 18-240 teaching processor. It reads
an assembly source file line by line. Each line may hold:

- a label;
- an opcode, which is either one of 36 mnemonics or one of the
  pseudo-operations `.ORG`, `.DW` and `.EQU`;
- up to two operands;
- a `;` comment.

The assembler then writes three files: a symbol listing, a program listing
and a memory image.

The first pass builds one line object per source line:

- It parses the text into fields.
- It checks the fields in a fixed order: the label, then the opcode, then
  the location counter.
- It enters the label into the symbol table.
- It hands on the next value of the location counter.

A line that fails a check is a syntax error. The run stops at the sixth. If
the pass saw no error, the assembler prints the symbol table. The second
pass then assembles every line into at most two 16-bit words (none for a
`.ORG`, `.EQU`, blank or label-only line), and prints the listing and memory
rows of each line that has a nonzero word.

The project follows the structure of `as240/as240.py`.

| file | models |
|---|---|
| `wrappers.dfy`, `errors.dfy` | `Option`/`Result`, and the `ParseError`/`SyntaxError` exceptions together with the Python runtime errors the driver can run into |
| `text.dfy` | the ASCII character classes, `upper()`, `int(s, 16)`, `int(s, 2)`, `%04X` and the `format` padding |
| `opcodes.dfy` | the `OpcodeInfo` table and its accessors |
| `operands.dfy` | the label, register, hex and pseudo-operation patterns, and the register encoder |
| `shapes.dfy` | `__parseInitial`, with the eight line-shape patterns written as scanners over positions |
| `parse_facts.dfy` | what those shapes accept, stated through `str.split()` tokens, and a parse/render round trip |
| `lines.dfy` | `__validate`, `next_mem_address`, `assemble`, `__str__` and `mem_str`, as functions on a line value |
| `asm_line.dfy` | the `AsmLine` class, whose methods are proved against the functions of `lines.dfy` |
| `label_order.dfy` | the order `sorted` puts labels in, and a selection sort proved to produce it |
| `symbols.dfy` | `SymbolTable`: as a map value, and as a class whose methods mutate its `table` field |
| `assembler.dfy` | `main`'s two passes, as a specification `RunSpec` and as an imperative `Run` proved equal to it |

How a run ends is an `Outcome`:

- `Crashed(e)`: an exception the driver does not catch. This covers a
  `ParseError`, a rejected first line, a symbol without an address in the
  symbol listing, and, in the second pass, `.DW` without an operand or a
  label that was never defined.
- `Halted(errors)`: `sys.exit` after the syntax errors are reported.
- `Assembled(symbols, listing, memory)`: the text items printed to the
  three files.

Where the code and its documentation disagree, the model follows the code:

- The table has 36 mnemonics.
- The location counter has no upper bound: lines after `.ORG $FFFF` sit at
  0x10000 and beyond, and their addresses print as five or more hex digits in the
  listing, the memory file and the symbol listing.
- A comment is cut off only when the first `;` is at index 1 or later.
- A `.EQU` line before the first `.ORG` registers its label without an
  address, and the symbol listing then fails on it.
- `.DW` without an operand passes validation and then fails in `assemble`.
  The model keeps that failure as an error result instead of making the
  operand a precondition.
- The second listing row of a long instruction prints `operand2`. For a
  one-operand long mnemonic that is the text `None`.
- On a syntax error the driver appends the previous line object again.
  When the first line is the one rejected, there is no previous object, and
  the run fails.

## Model

| member | source | states |
|---|---|---|
| Opcodes.Lookup | as240/as240.py:273-279 | finds the mnemonic whose name is the given text, and gives None exactly when no mnemonic has that name |
| Lines.LookupName | as240/as240.py:29-270 | looking up a mnemonic's own name finds that mnemonic |
| Lines.NameInjective | as240/as240.py:29-270 | no two table entries have the same name |
| Opcodes.OperationSize | as240/as240.py:293-298 | an instruction takes one or two words, and two exactly when its format is long |
| Opcodes.InfoWellFormed | as240/as240.py:29-270 | every entry takes at most two operands, has an operand kind for exactly the operands it takes, names only register operands in field1/field2, and has a field3 exactly when it is long, which then names a number operand |
| Opcodes.EncodingIsTenBits | as240/as240.py:29-270 | every opcode prefix is a string of ten binary digits |
| Opcodes.EncodingFitsTenBits | as240/as240.py:312-314 | the prefix's value is below 1024 |
| Operands.PseudoOf | as240/as240.py:448-453 | recognises `.ORG`, `.DW` and `.EQU`, each exactly, and nothing else |
| Operands.HexLiteralValue | as240/as240.py:440-446 | the value of a `$` plus one to four hex digits is below 0x10000 |
| Operands.RegisterBitsValue | as240/as240.py:843-864 | the field written for `Rk` is three binary digits whose value is k |
| Operands.RegisterIsNumberText | as240/as240.py:420-438 | a register name also matches the number pattern and is no hex literal, so a number slot must reject it explicitly |
| Operands.HexLiteralIsNoLabel | as240/as240.py:413-446 | a hex literal is neither a label nor a register |
| Shapes.FindSemicolon | as240/as240.py:531-532 | gives -1 exactly when the text has no `;`, and otherwise the index of the first `;` |
| Shapes.StripComment | as240/as240.py:531-535 | text without a `;`, or whose first character is the `;`, is kept whole; otherwise the result is the text before its first `;` |
| ParseFacts.CommentAtStartKept | as240/as240.py:531-535 | a line that starts with `;` keeps its comment |
| Lines.CommentLineRejected | as240/as240.py:531-535 | a line that starts with `;` is not a comment line: it fails to parse or fails as an invalid label |
| Shapes.ParseFields | as240/as240.py:526-611 | a parsed line has upper-case fields that are runs of non-space characters, with operands only after an opcode and a second operand only after a first; a line no shape fits is a ParseError at its own line number |
| ParseFacts.ParseWithoutComma | as240/as240.py:531-611 | a line without a comma is blank when it has no tokens; flush left with one to three tokens it is label, opcode, operand; indented with one or two it is opcode, operand; anything else is a ParseError |
| ParseFacts.TooManyTokens | as240/as240.py:531-611 | four or more tokens without a comma are a ParseError |
| ParseFacts.PairFromTokens | as240/as240.py:368-374 | the text `OP1 , OP2` that a two-operand shape takes holds at most three tokens |
| ParseFacts.TooManyFields | as240/as240.py:531-611 | six or more tokens are a ParseError, with or without a comma |
| ParseFacts.ExtraFieldRejected | as240/asmLine_test.py:178-180 | a label, an opcode, two operands set off around a comma and one more word, as in `Label  PUSH Operand , Operand2 ExtraField`, are a ParseError |
| ParseFacts.CommentIgnored | as240/as240.py:531-535 | a comment after at least one character leaves the parsed fields unchanged |
| ParseFacts.ParseRender | as240/as240.py:526-611 | a line written as `LABEL OPCODE OP1,OP2`, indented when there is no label, parses back to its fields, upper-cased |
| Lines.CheckOperand | as240/as240.py:753-789 | an operand passes exactly when it fits its slot: a register slot takes `R0`..`R7`; a number slot takes a hex literal or a label but no register; each failure reports its position |
| Lines.InstructionRule | as240/as240.py:632-668 | a mnemonic's checks pass exactly when the line has as many operands as the mnemonic takes, each of the kind the table asks for |
| Lines.CheckPseudo | as240/as240.py:685-751 | `.EQU` passes exactly with a label and one hex operand; `.DW` exactly with at most one operand, which is hex; `.ORG` exactly without a label and with one hex operand |
| Lines.CheckOpcode | as240/as240.py:619-626 | an opcode is reported unknown exactly when it is neither a pseudo-operation nor in the table |
| Lines.CheckAddress | as240/as240.py:792-805 | a line passes exactly when it has no label and no opcode, or is `.ORG` or `.EQU`, or the counter is set; otherwise the error is that the address is not initialised |
| Lines.Validate | as240/as240.py:614-629 | the label is checked first, then the opcode, then the address; a good new label is registered at the current address even when a later check fails; the line passes exactly when all three checks do |
| Lines.LineOutcome | as240/as240.py:455-470 | an accepted line is valid and keeps its line number and address; a rejected line reports a ParseError or a SyntaxError at its own line; a ParseError leaves the symbol table unchanged |
| Lines.NextAddress | as240/as240.py:807-823 | after `.ORG` the counter is set (below 0x10000); an unset counter stays unset; otherwise it advances by 0 to 2 |
| Lines.OrgSetsCounter | as240/as240.py:812-813 | a `.ORG` line moves the counter to its operand's value |
| Lines.CounterFollowsWords | as240/as240.py:807-841 | once every label has an address, the counter advances by exactly the number of words the line assembles to |
| Lines.FirstWord | as240/as240.py:833-876 | the first word is prefix·64 + field1·8 + field2, and is below 0x10000 |
| Lines.SecondWord | as240/as240.py:878-893 | the only error is an undefined-label error, and a hex operand gives a word below 0x10000 |
| Lines.LongInstructionWord | as240/as240.py:838-841 | a long instruction's second word is the value of its field3 operand when that is a hex literal, else the label's table entry; a label the table lacks is an undefined-label error |
| Lines.DwWord | as240/as240.py:829-831 | a `.DW` line assembles to its operand's value as word1 and no word2; without an operand it fails |
| Lines.Encode | as240/as240.py:825-841 | assembling fails only on `.DW` without an operand or on an undefined label; a line with words has an address; word1 is below 0x10000; word2 is set only together with word1 |
| Lines.InstructionWord | as240/as240.py:833-839 | an instruction's word1 is FirstWord of its table entry |
| Lines.WordsByKind | as240/as240.py:825-841 | a line without an opcode, or with `.EQU` or `.ORG`, assembles to no words; `.DW` to one; every instruction to a first word; only a long instruction to a second |
| Lines.AddExample | as240/as240.py:29-35 | `ADD R1, R2` is a valid line and assembles to 0x0E0A |
| Lines.SilentIffZero | as240/as240.py:472-524 | the listing text is empty exactly when the memory text is, and that is when neither word is set and nonzero |
| Lines.MemoryRowRoundTrip | as240/as240.py:511-524 | for an address and a word below 0x10000, a memory row is nine characters, and its two columns read back as the address and the word |
| Lines.MemoryRowWide | as240/as240.py:511-524 | from address 0x10000 on, the address prints as five or more digits and the memory row is longer than nine characters |
| Lines.ListingMatchesMemory | as240/as240.py:472-524 | when word1 prints, the listing text and the memory text both begin with the same address-and-word row |
| AsmLines.AsmLine.constructor | as240/as240.py:455-470 | the fields of the new object are the parsed fields, and its words are unset |
| AsmLines.AsmLine.Create | as240/as240.py:455-470 | construction changes the symbol table as LineOutcome does; it fails exactly when LineOutcome rejects the line, with the same error; otherwise it returns a fresh valid object with LineOutcome's value and unset words |
| AsmLines.AsmLine.Assemble | as240/as240.py:825-841 | fails exactly when Encode does, with Encode's error; otherwise it sets the words Encode computes and leaves the other words as they were |
| AsmLines.AsmLine.AssembleLong | as240/as240.py:878-893 | returns SecondWord for the object's fields and the current symbol table |
| AsmLines.AsmLine.ListingText | as240/as240.py:472-510 | the listing text is empty exactly when neither word is set and nonzero; when word1 prints, the text begins with the memory row |
| AsmLines.AsmLine.MemText | as240/as240.py:511-524 | the memory text is empty exactly when neither word is set and nonzero, and otherwise begins with the memory row |
| Symbols.InsertThenFind | as240/as240.py:900-916 | a name that was added reads back as the address it was added with |
| Symbols.InsertTwiceFails | as240/as240.py:900-906 | adding a name a second time is a duplicate-label error, whatever the address |
| Symbols.InsertKeepsOthers | as240/as240.py:900-916 | adding one name leaves the lookup of every other name as it was |
| Symbols.FindInEmpty | as240/as240.py:908-916 | looking any name up in an empty table is an undefined-label error |
| Symbols.SymbolTable.constructor | as240/as240.py:895-898 | a new table is empty |
| Symbols.SymbolTable.AddLabel | as240/as240.py:900-906 | adding a known name is a duplicate-label error and leaves the table unchanged; adding a new name extends the table by exactly that entry |
| Symbols.SymbolTable.LookupLabel | as240/as240.py:908-916 | returns the stored address of a known name, and an undefined-label error for any other name |
| Symbols.SymbolTable.Clear | as240/as240.py:918-923 | the table is empty afterwards |
| Symbols.SymbolTable.PrintableString | as240/as240.py:925-956 | returns Listing of the table |
| Symbols.LongestLabel | as240/as240.py:930-935 | returns the length of the longest label |
| Symbols.FormatRows | as240/as240.py:947-952 | returns the rows of the labels, in order, or the error of the first label that has no address |
| Symbols.MaxLength | as240/as240.py:930-935 | no label is longer than the result, some label is exactly that long, and the result is 0 for no labels |
| Symbols.WidthFits | as240/as240.py:937-942 | the name column is between 7 and 40 wide, every shown name is padded to exactly that width, and the width is 7, 40 or some label's length |
| Symbols.RowLength | as240/as240.py:951-952 | for an address below 0x10000 a row is the column width plus nine characters long; from 0x10000 on it is longer |
| Symbols.HeaderCentred | as240/as240.py:944-945 | "Label" is centred with floor(pad/2) spaces on its left, and the two heading lines are 2·width + 20 characters long |
| Symbols.NoticeWhenLong | as240/as240.py:937-955 | a non-empty listing is the heading, then the rows in label order, then the two notice lines exactly when some label is longer than 40 characters |
| Symbols.ListingOfEmpty | as240/as240.py:927-928 | an empty table lists as `Symbol table is empty` |
| Symbols.ListingExample | as240/SymbolTable_test.py:65-75 | the listing of `STARTING` at 1200 and `ENDINGPT` at 1400 is the four lines the unit test expects |
| LabelOrder.LessTotal | as240/as240.py:947 | two different labels are ordered one way or the other |
| LabelOrder.LessTransitive | as240/as240.py:947 | the label order is transitive |
| LabelOrder.SortedLabels | as240/as240.py:947 | the sorted labels are strictly increasing and hold exactly the table's keys |
| LabelOrder.SortedUnique | as240/as240.py:947 | only one strictly increasing sequence holds a given set of labels |
| LabelOrder.SortLabels | as240/as240.py:947 | sorting the keys yields SortedLabels of them |
| Text.Hex4RoundTrip | as240/as240.py:477 | `%04X` of a value below 0x10000 is four hex digits, of a larger value more than four, and either reads back as the value |
| Assembler.Step | as240/as240.py:1058-1068 | one line of the first pass: it appends one line object and advances the line number; it either keeps the errors or adds one, and adding one leaves the counter where it was; an accepted line sits at the current address; a stop is a ParseError, a rejected first line or a sixth error |
| Assembler.Accept | as240/as240.py:1059-1068 | an accepted line is appended, and the errors stay as they were |
| Assembler.Reject | as240/as240.py:1060-1068 | a rejected line adds one error and leaves the counter as it was |
| Assembler.FirstPass | as240/as240.py:1050-1068 | after n lines there are n line objects and the line number is n + 1; an error-free pass numbers its lines from 1 and places each at the address the previous one handed on |
| Assembler.StoppedStays | as240/as240.py:1063-1064 | once the first pass has stopped, later lines change nothing |
| Assembler.LineTexts | as240/as240.py:1082-1087 | one line of the second pass: it fails exactly when assembling does; it prints exactly when a word is set and nonzero, and then both texts are non-empty |
| Assembler.SecondPass | as240/as240.py:1082-1087 | the second pass gives as many listing texts as memory texts, no more than there are lines, and none of them empty |
| Assembler.FailedStays | as240/as240.py:1082-1087 | once assembling a line has failed, later lines change nothing |
| Assembler.RunSpec | as240/as240.py:1046-1090 | a halted run reports between one and six syntax errors; an assembled listing is the two heading lines followed by one text per memory text |
| Assembler.EmptySource | as240/as240.py:1046-1090 | an empty source file gives `Symbol table is empty` and a listing of only the heading |
| Assembler.FirstLineRejected | as240/as240.py:1058-1066 | a syntax error on the first line ends the run on the unbound previous line object |
| Assembler.Run | as240/as240.py:1046-1090 | the imperative driver, with its symbol table object and its line objects, produces RunSpec of the lines |
| Assembler.ReadLines | as240/as240.py:1058-1068 | the first-pass loop stops exactly as FirstPass does, or ends with FirstPass's table, line objects and errors, the objects being fresh lines with unset words, and distinct when no line was rejected |
| Assembler.ReadLine | as240/as240.py:1058-1068 | one iteration of that loop keeps the correspondence with FirstPass over one more line |
| Assembler.AssembleLines | as240/as240.py:1082-1087 | the second-pass loop over the line objects produces SecondPass of their values |
| Assembler.AssembleLine | as240/as240.py:1083-1087 | assembling one line object and formatting it gives LineTexts of its value |

`Lines.ListingOf` and `Lines.MemoryOf` (as240/as240.py:472-524) are stated
by `Lines.SilentIffZero`, `Lines.MemoryRowRoundTrip` and
`Lines.ListingMatchesMemory`; `Symbols.Listing` (as240/as240.py:925-956) by
`Symbols.ListingOfEmpty`, `Symbols.WidthFits`, `Symbols.RowLength`,
`Symbols.HeaderCentred`, `Symbols.NoticeWhenLong` and `Symbols.ListingExample`.

## Left out

- Command-line parsing, opening and closing files, and printing to stderr
  (`parse_command_line`, `main`'s file handling) are not modelled. The
  outcome lists the printed items instead.
- The texts of the error messages are not modelled. Each error carries its
  line number and a kind, one per `raise`.
- The exit status of `sys.exit(syntax_errors)` is the length of `Halted`'s
  list.
- Output written before a crash in the second pass is not kept: a
  `Crashed` outcome carries no partial files.
- The process-wide class attribute `SymbolTable.table` becomes an object
  that `Run` allocates empty. `Clear` is modelled but never needed by the
  driver.
- The `max_len` loop walks the labels in sorted order instead of dictionary
  order. The maximum is the same.
- `is_blank` is set by the source but never read, so it is not modelled.
- Unicode is not modelled. `\s`, `\w` and `upper()` are their ASCII
  versions, as Python 2's byte strings have them.
- The regular-expression engine is not modelled. Each pattern is a scanner
  written for it, and `shapes.dfy` says why the two agree.
- The `DEBUG` `ValueError`s in `__assemble_register`, `__assemble_field`
  and `__assemble_long` cannot be reached after validation, so they do not
  appear.
- Opcodes.Lookup: the dictionary is an enumeration of mnemonics plus a
  lookup by name; its iteration order plays no part.
- AsmLines.AsmLine.Assemble: states the words it leaves alone relative to
  their earlier values. The driver calls it once per line, on words that
  are still unset.
- The simulator and the test harnesses next to the assembler are not part
  of this model.
