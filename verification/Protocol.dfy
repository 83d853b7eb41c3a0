/** Parsed requests and response values of the wire protocol, without ids, messages and timing. */
module Protocol {
  import opened Wrappers

  datatype Operation =
    | UNKNOWN
    | ADDITION
    | SUBTRACTION
    | MULTIPLICATION
    | DIVISION
    | EXPONENTIATION
    | FACTORIAL

  datatype Status =
    | OK
    | INVALID_JSON
    | INVALID_OPERATION
    | INVALID_OPERANDS
    | OPERANDS_COUNT_MISMATCH
    | OPERAND_OUT_OF_RANGE
    | DIVISION_BY_ZERO
    | FACTORIAL_OF_NEGATIVE_NUMBER
    | NUMERIC_OVERFLOW
    | STORAGE_ERROR
    | CALCULATION_ERROR
    | INTERNAL_ERROR

  datatype Request = Request(operation: Operation, operands: seq<Int64>)

  datatype Source = CACHE | CALCULATED

  /** `UndefinedBehaviour` stands for dereferencing an empty optional, which no run may reach. */
  datatype Response =
    | Response(status: Status, value: Option<Int32>, source: Option<Source>)
    | UndefinedBehaviour
}
