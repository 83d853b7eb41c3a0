/** Internal error codes (support/include/types/error-code.h). */
module ErrorCodes {
  import opened Wrappers

  const ERROR_NONE: Int32 := 0
  const ERROR_UNKNOWN_OPTION: Int32 := 1
  const ERROR_INVALID_NUMBER: Int32 := 2
  const ERROR_MISSING_FIRST_NUMBER: Int32 := 3
  const ERROR_MISSING_SECOND_NUMBER: Int32 := 4
  const ERROR_MISSING_OPERATION: Int32 := 5
  const ERROR_INVALID_OPERATION: Int32 := 6
  const ERROR_DIVISION_BY_ZERO: Int32 := 7
  const ERROR_NEGATIVE_FACTORIAL: Int32 := 8
  const ERROR_NEGATIVE_POWER: Int32 := 9
  const ERROR_OVERFLOW: Int32 := 10
  const ERROR_INVALID_JSON: Int32 := 11
  const ERROR_STORAGE: Int32 := 12
}
