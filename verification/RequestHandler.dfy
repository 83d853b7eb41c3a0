/**
 * `RequestHandler::handle` cut at its storage calls (server/src/request-handler.cpp). A handler runs
 * until it needs the storage, asks one call, and resumes with the reply.
 */
module RequestHandler {
  import opened Wrappers
  import opened ErrorCodes
  import opened Calculator
  import opened OperationKey
  import opened Storage
  import opened Protocol

  function ToInternalOperation(operation: Operation): Result<OperationCode, Status> {
    match operation
    case ADDITION => Ok(Addition)
    case SUBTRACTION => Ok(Subtraction)
    case MULTIPLICATION => Ok(Multiplication)
    case DIVISION => Ok(Division)
    case EXPONENTIATION => Ok(Exponentiation)
    case FACTORIAL => Ok(Factorial)
    case UNKNOWN => Err(INVALID_OPERATION)
  }

  function StorageName(operation: Operation): Result<string, Status> {
    match operation
    case ADDITION => Ok("add")
    case SUBTRACTION => Ok("sub")
    case MULTIPLICATION => Ok("mul")
    case DIVISION => Ok("div")
    case EXPONENTIATION => Ok("pow")
    case FACTORIAL => Ok("fact")
    case UNKNOWN => Err(INVALID_OPERATION)
  }

  predicate FitsInt(x: Int64) {
    INT32_MIN <= x <= INT32_MAX
  }

  function ToCalculatorData(request: Request): Result<CalculatorData, Status> {
    var operands := request.operands;
    match ToInternalOperation(request.operation)
    case Err(e) => Err(e)
    case Ok(operation) =>
      if |operands| > 0 && !FitsInt(operands[0]) then Err(OPERAND_OUT_OF_RANGE)
      else if |operands| > 1 && !FitsInt(operands[1]) then Err(OPERAND_OUT_OF_RANGE)
      else Ok(EMPTY_DATA.(
              operation := operation,
              first := if |operands| > 0 then operands[0] else 0,
              hasFirst := |operands| > 0,
              second := if |operands| > 1 then operands[1] else 0,
              hasSecond := |operands| > 1))
  }

  function SecondForStorage(d: CalculatorData): Option<Int32> {
    if d.operation.Factorial? || !d.hasSecond then None else Some(d.second)
  }

  predicate IsStorable(d: CalculatorData) {
    && !d.needHelp && !d.operation.NoOperation? && d.hasFirst
    && (d.operation.Factorial? || d.hasSecond)
  }

  function QueryFor(d: CalculatorData, name: string): Query {
    Query(d.first, SecondForStorage(d), name)
  }

  function MakeRecord(d: CalculatorData, status: Int32, name: string): Result<Record, Int32> {
    var result := if status == ERROR_NONE then Some(d.result) else None;
    match Make(QueryFor(d, name))
    case Err(e) => Err(e)
    case Ok(key) => Ok(Record(d.first, SecondForStorage(d), name, result, status, key))
  }

  /** The internal code goes through a conversion to an 8-bit enumeration. */
  function MapInternalError(code: Int32): Status {
    var c := code % 256;
    if c == ERROR_NONE then OK
    else if c == ERROR_MISSING_FIRST_NUMBER || c == ERROR_MISSING_SECOND_NUMBER then OPERANDS_COUNT_MISMATCH
    else if c == ERROR_INVALID_NUMBER then INVALID_OPERANDS
    else if c == ERROR_MISSING_OPERATION || c == ERROR_INVALID_OPERATION then INVALID_OPERATION
    else if c == ERROR_DIVISION_BY_ZERO then DIVISION_BY_ZERO
    else if c == ERROR_NEGATIVE_FACTORIAL then FACTORIAL_OF_NEGATIVE_NUMBER
    else if c == ERROR_OVERFLOW then NUMERIC_OVERFLOW
    else if c == ERROR_STORAGE then STORAGE_ERROR
    else if c == ERROR_INVALID_JSON then Status.INVALID_JSON
    else if c == ERROR_NEGATIVE_POWER then INVALID_OPERANDS
    else CALCULATION_ERROR
  }

  /** The protocol status of each internal code, and of whatever else eight bits make of a number. */
  lemma StatusOfCode(code: Int32)
    ensures MapInternalError(0) == OK && MapInternalError(1) == CALCULATION_ERROR && MapInternalError(2) == INVALID_OPERANDS
    ensures MapInternalError(3) == MapInternalError(4) == OPERANDS_COUNT_MISMATCH
    ensures MapInternalError(5) == MapInternalError(6) == INVALID_OPERATION
    ensures MapInternalError(7) == Status.DIVISION_BY_ZERO && MapInternalError(8) == FACTORIAL_OF_NEGATIVE_NUMBER
    ensures MapInternalError(9) == INVALID_OPERANDS && MapInternalError(10) == NUMERIC_OVERFLOW
    ensures MapInternalError(11) == Status.INVALID_JSON && MapInternalError(12) == STORAGE_ERROR
    ensures 12 < code % 256 ==> MapInternalError(code) == CALCULATION_ERROR
    ensures MapInternalError(code) == MapInternalError(code % 256)
  {
  }

  lemma StorageErrorIsReported()
    ensures MapInternalError(ERROR_STORAGE) == STORAGE_ERROR
  {
  }

  function Failure(status: Status): Response {
    Response(status, None, None)
  }

  /** The answer to a hit. The result of a successful record is dereferenced without a test. */
  function CachedAnswer(r: Record): Response {
    if r.status == ERROR_NONE then
      if r.result.Some? then Response(OK, Some(r.result.value), Some(CACHE)) else UndefinedBehaviour
    else Response(MapInternalError(r.status), None, Some(CACHE))
  }

  /** Where a handler is while a storage call is out. */
  datatype Frame =
    | LookingUp(data: CalculatorData, name: string)
    | Storing(data: CalculatorData, name: string)
    | StoringFailure(code: Int32)

  datatype Progress = Ask(frame: Frame, call: StorageCall) | Answer(response: Response)

  function Begin(request: Request): Progress {
    match ToCalculatorData(request)
    case Err(e) => Answer(Failure(e))
    case Ok(d) =>
      match StorageName(request.operation)
      case Err(e) => Answer(Failure(e))
      case Ok(name) => Ask(LookingUp(d, name), FindCall(QueryFor(d, name)))
  }

  /** The inner catch: save the failure if it can be stored, then rethrow. */
  function OnCalculatorException(d: CalculatorData, name: string, code: Int32): Progress {
    if !IsStorable(d) then Answer(Failure(MapInternalError(code)))
    else
      match MakeRecord(d, code, name)
      case Err(_) => Answer(Failure(MapInternalError(code)))
      case Ok(r) => Ask(StoringFailure(code), SaveCall(r))
  }

  /** After a miss: check, calculate, save. */
  function OnMiss(math: MathLibrary, d: CalculatorData, name: string): Progress {
    match CheckArguments(d)
    case Err(code) => Answer(Failure(MapInternalError(code)))
    case Ok(_) =>
      match Evaluate(math, d.operation, d.first, d.second)
      case Err(code) => OnCalculatorException(d, name, code)
      case Ok(v) =>
        var done := d.(result := v);
        match MakeRecord(done, ERROR_NONE, name)
        case Err(code) => OnCalculatorException(done, name, code)
        case Ok(r) => Ask(Storing(done, name), SaveCall(r))
  }

  /** A reply of the other kind of future has no meaning in C++. */
  function Resume(math: MathLibrary, frame: Frame, reply: Reply): Progress {
    match frame
    case LookingUp(d, name) => (
      match reply
      case Found(Some(r)) => Answer(CachedAnswer(r))
      case Found(None) => OnMiss(math, d, name)
      case Threw(CalculatorException(code)) => Answer(Failure(MapInternalError(code)))
      case Threw(RuntimeError) => Answer(Failure(INTERNAL_ERROR))
      case Saved => Answer(UndefinedBehaviour))
    case Storing(d, name) => (
      match reply
      case Saved => Answer(Response(OK, Some(d.result), Some(CALCULATED)))
      case Threw(CalculatorException(code)) => OnCalculatorException(d, name, code)
      case Threw(RuntimeError) => Answer(Failure(INTERNAL_ERROR))
      case Found(_) => Answer(UndefinedBehaviour))
    case StoringFailure(code) => (
      match reply
      case Found(_) => Answer(UndefinedBehaviour)
      case Saved => Answer(Failure(MapInternalError(code)))
      case Threw(_) => Answer(Failure(MapInternalError(code))))
  }

  /** A refused storage call is an internal error, except when it was to save a failure: then the failure is reported. */
  lemma RefusedCalls(math: MathLibrary, d: CalculatorData, name: string, code: Int32)
    ensures Resume(math, LookingUp(d, name), Threw(RuntimeError)) == Answer(Response(INTERNAL_ERROR, None, None))
    ensures Resume(math, Storing(d, name), Threw(RuntimeError)) == Answer(Response(INTERNAL_ERROR, None, None))
    ensures Resume(math, StoringFailure(code), Threw(RuntimeError)) == Answer(Response(MapInternalError(code), None, None))
  {
  }

  /** The reference: run the checker, then the abacus, with no storage at all. */
  function Direct(math: MathLibrary, request: Request): Response {
    match ToCalculatorData(request)
    case Err(e) => Failure(e)
    case Ok(d) =>
      match CheckArguments(d)
      case Err(code) => Failure(MapInternalError(code))
      case Ok(_) =>
        match Evaluate(math, d.operation, d.first, d.second)
        case Err(code) => Failure(MapInternalError(code))
        case Ok(v) => Response(OK, Some(v), None)
  }

  /** How many storage calls a handler may still make, the one that is out included. */
  function Calls(frame: Frame): nat {
    match frame
    case LookingUp(_, _) => 3
    case Storing(_, _) => 2
    case StoringFailure(_) => 1
  }

  /** Every reply brings a handler closer to its answer: at most three storage calls per request. */
  lemma ResumeMakesProgress(math: MathLibrary, frame: Frame, reply: Reply)
    ensures Resume(math, frame, reply).Ask? ==> Calls(Resume(math, frame, reply).frame) < Calls(frame)
  {
  }
}
