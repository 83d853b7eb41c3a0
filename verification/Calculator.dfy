/** The calculator core: data, checker and abacus over an abstract math library (core/src). */
module Calculator {
  import opened Wrappers
  import opened ErrorCodes

  datatype OperationCode =
    | NoOperation
    | Addition
    | Subtraction
    | Multiplication
    | Division
    | Exponentiation
    | Factorial

  datatype CalculatorData = CalculatorData(
    first: Int32, second: Int32, result: Int32,
    hasFirst: bool, hasSecond: bool,
    operation: OperationCode, needHelp: bool)

  const EMPTY_DATA := CalculatorData(0, 0, 0, false, false, NoOperation, false)

  /** `Checker::check_arguments`: the code it throws, or success. */
  function CheckArguments(d: CalculatorData): Result<(), Int32> {
    if d.needHelp then Ok(())
    else if d.operation.NoOperation? then Err(ERROR_MISSING_OPERATION)
    else if !d.hasFirst then Err(ERROR_MISSING_FIRST_NUMBER)
    else if d.operation.Factorial? then
      if d.first < 0 then Err(ERROR_NEGATIVE_FACTORIAL) else Ok(())
    else if !d.hasSecond then Err(ERROR_MISSING_SECOND_NUMBER)
    else if d.operation.Exponentiation? && d.second < 0 then Err(ERROR_NEGATIVE_POWER)
    else Ok(())
  }

  /** What the checker lets through, and the number it throws for what it does not. */
  lemma CheckerAcceptsExactly(d: CalculatorData)
    ensures CheckArguments(d).Ok? <==>
            d.needHelp || (!d.operation.NoOperation? && d.hasFirst && (if d.operation.Factorial? then d.first >= 0
                                                                       else d.hasSecond && (d.operation.Exponentiation? ==> d.second >= 0)))
    ensures !d.needHelp && d.operation.NoOperation? ==> CheckArguments(d) == Err(5)
    ensures !d.needHelp && !d.operation.NoOperation? && !d.hasFirst ==> CheckArguments(d) == Err(3)
    ensures !d.needHelp && d.operation.Factorial? && d.hasFirst && d.first < 0 ==> CheckArguments(d) == Err(8)
    ensures !d.needHelp && !d.operation.NoOperation? && !d.operation.Factorial? && d.hasFirst && !d.hasSecond ==> CheckArguments(d) == Err(4)
    ensures !d.needHelp && d.operation.Exponentiation? && d.hasFirst && d.hasSecond && d.second < 0 ==> CheckArguments(d) == Err(9)
  {
  }

  /** The status a math routine returns; any code the abacus does not know is `MathOther`. */
  datatype MathStatus = MathNone | MathOverflow | MathDivisionByZero | MathInvalidArguments | MathOther(code: int)

  /** What a math routine leaves behind: its status and the result cell. */
  datatype MathReturn = MathReturn(status: MathStatus, result: Int32)

  /** The external math library, one routine per operation. */
  datatype MathLibrary = MathLibrary(
    addition: (Int32, Int32) -> MathReturn,
    subtraction: (Int32, Int32) -> MathReturn,
    multiplication: (Int32, Int32) -> MathReturn,
    division: (Int32, Int32) -> MathReturn,
    exponentiation: (Int32, Int32) -> MathReturn,
    factorial: Int32 -> MathReturn)

  /** `Abacus::map_math_error`. */
  function MapMathError(status: MathStatus): Int32 {
    match status
    case MathNone => ERROR_NONE
    case MathOverflow => ERROR_OVERFLOW
    case MathDivisionByZero => ERROR_DIVISION_BY_ZERO
    case MathInvalidArguments => ERROR_INVALID_OPERATION
    case MathOther(_) => ERROR_INVALID_OPERATION
  }

  /** The number thrown for each status of a math routine; an unknown status is an invalid operation. */
  lemma CodeOfMathStatus(code: int)
    ensures MapMathError(MathNone) == 0 && MapMathError(MathOverflow) == 10 && MapMathError(MathDivisionByZero) == 7
    ensures MapMathError(MathInvalidArguments) == 6 && MapMathError(MathOther(code)) == 6
  {
  }

  /** The observable outcome of a math routine: its result, or the mapped error code. */
  function Outcome(r: MathReturn): Result<Int32, Int32> {
    if MapMathError(r.status) == ERROR_NONE then Ok(r.result) else Err(MapMathError(r.status))
  }

  function CallMath(math: MathLibrary, operation: OperationCode, first: Int32, second: Int32): MathReturn
    requires !operation.NoOperation?
  {
    match operation
    case Addition => math.addition(first, second)
    case Subtraction => math.subtraction(first, second)
    case Multiplication => math.multiplication(first, second)
    case Division => math.division(first, second)
    case Exponentiation => math.exponentiation(first, second)
    case Factorial => math.factorial(first)
  }

  /** The value of an operation on two numbers, as the abacus computes it. */
  function Evaluate(math: MathLibrary, operation: OperationCode, first: Int32, second: Int32): Result<Int32, Int32> {
    if operation.NoOperation? then Err(ERROR_INVALID_OPERATION)
    else Outcome(CallMath(math, operation, first, second))
  }

  /**
   * The one thing the cache assumes of the math library: swapping the operands of an addition or a
   * multiplication changes neither its status nor, when it succeeds, its result.
   */
  ghost predicate Commutes(math: MathLibrary) {
    && (forall a: Int32, b: Int32 :: Outcome(math.addition(a, b)) == Outcome(math.addition(b, a)))
    && (forall a: Int32, b: Int32 :: Outcome(math.multiplication(a, b)) == Outcome(math.multiplication(b, a)))
  }

  /** `Abacus` works in place on the data it was given. */
  class Abacus {
    const math: MathLibrary
    var data: CalculatorData

    constructor (math: MathLibrary, data: CalculatorData)
      ensures this.math == math && this.data == data
    {
      this.math := math;
      this.data := data;
    }

    /** `Abacus::calculate_result`: returns the code it throws, or success. */
    method CalculateResult() returns (r: Result<(), Int32>)
      modifies this
      ensures data == old(data).(result := data.result)
      ensures old(data.needHelp) ==> r == Ok(()) && data == old(data)
      ensures !old(data.needHelp) ==>
                match Evaluate(math, old(data.operation), old(data.first), old(data.second))
                case Ok(v) => r == Ok(()) && data.result == v
                case Err(e) => r == Err(e)
    {
      if data.needHelp {
        return Ok(());
      }
      var returned: MathReturn;
      match data.operation {
        case Addition => returned := math.addition(data.first, data.second);
        case Subtraction => returned := math.subtraction(data.first, data.second);
        case Multiplication => returned := math.multiplication(data.first, data.second);
        case Division => returned := math.division(data.first, data.second);
        case Exponentiation => returned := math.exponentiation(data.first, data.second);
        case Factorial => returned := math.factorial(data.first);
        case NoOperation => return Err(ERROR_INVALID_OPERATION);
      }
      data := data.(result := returned.result);
      var mapped := MapMathError(returned.status);
      if mapped != ERROR_NONE {
        return Err(mapped);
      }
      return Ok(());
    }
  }
}
