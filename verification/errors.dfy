/** The assembler's failures (as240.py:9-25 and the uncaught Python errors the
    driver can run into). Each carries the 1-based line number it belongs to. */
module Errors {

  /** Why a line was rejected with a SyntaxError: one constructor per `raise`
      in the line validator, the symbol table and the encoder. */
  datatype SyntaxKind =
    | InvalidLabel            // label is not \w+
    | DuplicateLabel          // label already in the symbol table
    | UndefinedLabel          // lookup of a label that was never declared
    | InvalidOpcode           // mnemonic not in the opcode table
    | NoOperandsExpected      // zero-operand mnemonic given an operand
    | OneOperandGotTwo
    | OneOperandGotNone
    | TwoOperandsGotNone
    | TwoOperandsGotOne
    | RegisterExpected(position: nat)     // register slot given something else
    | NumberExpected(position: nat)       // number slot given neither hex nor \w+
    | RegisterNotAllowed(position: nat)   // number slot given R0..R7
    | EquWithoutLabel | EquTwoOperands | EquNoOperand | EquNotHex
    | DwTwoOperands | DwNotHex
    | OrgWithLabel | OrgTwoOperands | OrgNoOperand | OrgNotHex
    | AddressNotInitialized   // label or opcode before any .ORG

  datatype AsmError =
    | ParseError(lineNumber: int)                    // no line shape matched
    | SyntaxError(lineNumber: int, kind: SyntaxKind)
    | NoLineObject(lineNumber: int)      // driver: first line failed, `a` is unbound
    | DwWithoutOperand(lineNumber: int)  // assemble: .DW without operand indexes None
    | AddressMissing(labelName: string)      // symbol listing: label registered without address
}
