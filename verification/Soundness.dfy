/** What stored records say about the calculator, and why a hit may replace a calculation. */
module Soundness {
  import opened Wrappers
  import opened ErrorCodes
  import opened Calculator
  import opened OperationKey
  import opened Storage
  import opened Protocol
  import opened RequestHandler

  /** The operation a stored name stands for; the key accepts symbols and long names as aliases. */
  function CodeOf(name: string): OperationCode {
    match SymbolFor(name)
    case Err(_) => NoOperation
    case Ok(symbol) =>
      if symbol == "+" then Addition
      else if symbol == "-" then Subtraction
      else if symbol == "*" then Multiplication
      else if symbol == "/" then Division
      else if symbol == "^" then Exponentiation
      else Factorial
  }

  function SecondOrZero(q: Query): Int32 {
    if q.second.Some? then q.second.value else 0
  }

  /** The calculator data a stored question stands for. */
  function Asked(q: Query): CalculatorData {
    CalculatorData(q.first, SecondOrZero(q), 0, true, q.second.Some?, CodeOf(q.operation), false)
  }

  function Truth(math: MathLibrary, q: Query): Result<Int32, Int32> {
    Evaluate(math, CodeOf(q.operation), q.first, SecondOrZero(q))
  }

  function QueryOf(r: Record): Query {
    Query(r.first, r.second, r.operation)
  }

  /** The record tells the truth about its own question; where saves fail it may also say "storage error". */
  predicate Remembers(truth: Result<Int32, Int32>, failing: bool, r: Record) {
    match truth
    case Ok(v) =>
      || (r.status == ERROR_NONE && r.result == Some(v))
      || (failing && r.status == ERROR_STORAGE && r.result == None)
    case Err(code) => r.status == code && r.result == None
  }

  ghost predicate Good(math: MathLibrary, faults: Faults, r: Record) {
    && CheckArguments(Asked(QueryOf(r))).Ok?
    && Make(QueryOf(r)) == Ok(r.key)
    && Remembers(Truth(math, QueryOf(r)), r.key in faults, r)
  }

  /** A table the service may find: each key once, every row truthful, whatever alias names it uses. */
  ghost predicate TableGood(math: MathLibrary, faults: Faults, table: seq<Record>) {
    && UniqueKeys(table)
    && forall i | 0 <= i < |table| :: Good(math, faults, table[i])
  }

  lemma NameDecidesCode(name: string)
    ensures CodeOf(name).NoOperation? <==> SymbolFor(name).Err?
    ensures IsFactorial(name) <==> CodeOf(name).Factorial?
    ensures IsCommutative(name) <==> CodeOf(name).Addition? || CodeOf(name).Multiplication?
  {
  }

  /** Two stored questions with one key have one answer and are accepted or rejected together. */
  lemma SameKeySameTruth(math: MathLibrary, a: Query, b: Query)
    requires Commutes(math)
    requires Make(a).Ok? && Make(a) == Make(b)
    ensures Truth(math, a) == Truth(math, b)
    ensures CheckArguments(Asked(a)).Ok? <==> CheckArguments(Asked(b)).Ok?
  {
    KeyInjective(a, b);
    NameDecidesCode(a.operation);
    NameDecidesCode(b.operation);
    if a.first != b.first || SecondOrZero(a) != SecondOrZero(b) {
      if CodeOf(a.operation).Addition? {
        assert Outcome(math.addition(a.first, b.first)) == Outcome(math.addition(b.first, a.first));
      } else if CodeOf(a.operation).Multiplication? {
        assert Outcome(math.multiplication(a.first, b.first)) == Outcome(math.multiplication(b.first, a.first));
      }
    }
  }

  lemma GoodHasNoNul(math: MathLibrary, faults: Faults, r: Record)
    requires Good(math, faults, r)
    ensures Stored(r) == r
  {
    KeyHasNoNul(QueryOf(r));
    assert '\0' !in r.operation;
    StoredIsItself(r);
  }

  /** Good records of a key whose saves do not fail agree on status and result, whoever wrote them. */
  lemma GoodRecordsAgree(math: MathLibrary, faults: Faults, a: Record, b: Record)
    requires Commutes(math) && Good(math, faults, a) && Good(math, faults, b) && a.key == b.key && a.key !in faults
    ensures a.status == b.status && a.result == b.result
  {
    SameKeySameTruth(math, QueryOf(a), QueryOf(b));
  }

  // Requests, their names and their data.

  lemma NameMatchesCode(request: Request)
    requires ToCalculatorData(request).Ok?
    ensures StorageName(request.operation).Ok?
    ensures CodeOf(StorageName(request.operation).value) == ToCalculatorData(request).value.operation
    ensures !ToCalculatorData(request).value.operation.NoOperation?
  {
  }

  /** The question a request looks up, for requests that get as far as the lookup. */
  function Question(request: Request): (q: Query)
    requires ToCalculatorData(request).Ok?
  {
    NameMatchesCode(request);
    QueryFor(ToCalculatorData(request).value, StorageName(request.operation).value)
  }

  /** The key a request is looked up under, if it has one. */
  function KeyOf(request: Request): Option<string> {
    if ToCalculatorData(request).Err? then None
    else
      match Make(Question(request))
      case Err(_) => None
      case Ok(key) => Some(key)
  }

  /** A save under the request's own key may fail. */
  ghost predicate MayFail(faults: Faults, request: Request) {
    KeyOf(request).Some? && KeyOf(request).value in faults
  }

  /** The request gets past the checker. */
  predicate Accepted(request: Request) {
    ToCalculatorData(request).Ok? && CheckArguments(ToCalculatorData(request).value).Ok?
  }

  lemma QuestionFacts(math: MathLibrary, request: Request)
    requires ToCalculatorData(request).Ok?
    ensures var d := ToCalculatorData(request).value; var q := Question(request);
            && CodeOf(q.operation) == d.operation && !d.operation.NoOperation?
            && Truth(math, q) == Evaluate(math, d.operation, d.first, d.second)
            && (d.hasFirst ==> CheckArguments(Asked(q)) == CheckArguments(d))
            && (Make(q).Ok? <==> d.operation.Factorial? || d.hasSecond)
            && (Make(q).Err? ==> Make(q).error == ERROR_MISSING_SECOND_NUMBER)
            && (d.hasSecond ==> d.hasFirst)
  {
    NameMatchesCode(request);
  }

  lemma EvaluateErrors(math: MathLibrary, operation: OperationCode, first: Int32, second: Int32)
    ensures Evaluate(math, operation, first, second).Err? ==>
              Evaluate(math, operation, first, second).error in {ERROR_OVERFLOW, ERROR_DIVISION_BY_ZERO, ERROR_INVALID_OPERATION}
  {
  }

  /** The reference answer carries a value exactly when it is a success. */
  lemma DirectShape(math: MathLibrary, request: Request)
    ensures Direct(math, request).Response?
    ensures Direct(math, request).status == OK <==> Direct(math, request).value.Some?
  {
    if ToCalculatorData(request).Ok? {
      var d := ToCalculatorData(request).value;
      EvaluateErrors(math, d.operation, d.first, d.second);
    }
  }

  lemma SuccessIsAccepted(math: MathLibrary, request: Request)
    requires Direct(math, request).Response? && Direct(math, request).status == OK
    ensures Accepted(request)
  {
  }

  /** A factorial request with no operands: the one request whose lookup is not its own question. */
  predicate Unposed(request: Request) {
    request.operation.FACTORIAL? && request.operands == []
  }

  const FACT_OF_ZERO := Request(FACTORIAL, [0])

  /** The response has the status and the value of the reference answer. */
  predicate Agrees(response: Response, reference: Response) {
    && response.Response? && reference.Response?
    && response.status == reference.status && response.value == reference.value
  }

  /** Where saves fail, an answer that should be a value may be a storage error instead. */
  predicate Faithful(failing: bool, response: Response, reference: Response) {
    || Agrees(response, reference)
    || (failing && reference.Response? && reference.status.OK? && Agrees(response, Failure(STORAGE_ERROR)))
  }

  predicate FromCache(response: Response) {
    response.Response? && response.source == Some(CACHE)
  }

  /**
   * The answer is faithful to the request, as far as saves of its own key may fail; a hit is faithful
   * to fact(0) when the request poses no question of its own.
   */
  ghost predicate Explained(math: MathLibrary, faults: Faults, request: Request, response: Response) {
    var asked := if Unposed(request) && FromCache(response) then FACT_OF_ZERO else request;
    Faithful(MayFail(faults, request), response, Direct(math, asked))
  }

  // What handlers keep true from one storage call to the next.

  ghost predicate TaskOk(math: MathLibrary, faults: Faults, request: Request, frame: Frame, call: StorageCall) {
    && ToCalculatorData(request).Ok?
    && var d := ToCalculatorData(request).value;
       var q := Question(request);
       var value := Evaluate(math, d.operation, d.first, d.second);
       match frame
       case LookingUp(d', name) => d' == d && name == q.operation && call == FindCall(q)
       case Storing(d', name) =>
         && CheckArguments(d).Ok?
         && value.Ok? && d' == d.(result := value.value) && name == q.operation
         && call.SaveCall? && MakeRecord(d', ERROR_NONE, name) == Ok(call.record)
       case StoringFailure(code) =>
         && CheckArguments(d).Ok?
         && (value == Err(code) || (MayFail(faults, request) && value.Ok? && code == ERROR_STORAGE))
         && call.SaveCall? && MakeRecord(d, code, q.operation) == Ok(call.record)
  }

  /** Replies a handler may see: what the store holds under the key, or the exception of its call. */
  ghost predicate ReplyOk(math: MathLibrary, faults: Faults, call: StorageCall, reply: Reply) {
    match call
    case FindCall(q) => (
      match Make(q)
      case Err(e) => reply == Threw(CalculatorException(e))
      case Ok(key) =>
        && reply.Found?
        && (reply.record.Some? ==> Good(math, faults, reply.record.value) && reply.record.value.key == key))
    case SaveCall(r) => reply == Saved || (r.key in faults && reply == Threw(CalculatorException(ERROR_STORAGE)))
  }

  /** Whatever a handler saves is good, under the key its request looks up. */
  lemma SavedRecordIsGood(math: MathLibrary, faults: Faults, request: Request, frame: Frame, call: StorageCall)
    requires TaskOk(math, faults, request, frame, call) && call.SaveCall?
    ensures Good(math, faults, call.record)
    ensures Make(Question(request)) == Ok(call.record.key) && Accepted(request)
  {
    QuestionFacts(math, request);
    var d := ToCalculatorData(request).value;
    EvaluateErrors(math, d.operation, d.first, d.second);
    assert QueryOf(call.record) == Question(request);
  }

  /** How the protocol reports an outcome of the calculator. */
  function Reported(truth: Result<Int32, Int32>): Response {
    match truth
    case Ok(v) => Response(OK, Some(v), None)
    case Err(code) => Failure(MapInternalError(code))
  }

  lemma CachedAnswerIsFaithful(math: MathLibrary, faults: Faults, r: Record)
    requires Good(math, faults, r)
    ensures Faithful(r.key in faults, CachedAnswer(r), Reported(Truth(math, QueryOf(r)))) && FromCache(CachedAnswer(r))
  {
    EvaluateErrors(math, CodeOf(r.operation), r.first, SecondOrZero(QueryOf(r)));
  }

  lemma AcceptedIsReported(math: MathLibrary, request: Request)
    requires ToCalculatorData(request).Ok? && ToCalculatorData(request).value.hasFirst
    requires CheckArguments(Asked(Question(request))).Ok?
    ensures Direct(math, request) == Reported(Truth(math, Question(request)))
  {
    QuestionFacts(math, request);
  }

  /** A hit says what the calculator would have said. */
  lemma HitIsFaithful(math: MathLibrary, faults: Faults, request: Request, r: Record)
    requires Commutes(math) && ToCalculatorData(request).Ok? && Make(Question(request)) == Ok(r.key)
    requires Good(math, faults, r)
    ensures Explained(math, faults, request, CachedAnswer(r))
  {
    QuestionFacts(math, request);
    SameKeySameTruth(math, Question(request), QueryOf(r));
    CachedAnswerIsFaithful(math, faults, r);
    if Unposed(request) {
      assert Question(FACT_OF_ZERO) == Question(request);
      AcceptedIsReported(math, FACT_OF_ZERO);
    } else {
      AcceptedIsReported(math, request);
    }
  }

  lemma CaughtIsOk(math: MathLibrary, faults: Faults, request: Request, d: CalculatorData, code: Int32)
    requires ToCalculatorData(request).Ok?
    requires var e := ToCalculatorData(request).value; d == e.(result := d.result) && CheckArguments(e).Ok?
    requires var value := Evaluate(math, d.operation, d.first, d.second);
             value == Err(code) || (MayFail(faults, request) && value.Ok? && code == ERROR_STORAGE)
    ensures var p := OnCalculatorException(d, Question(request).operation, code);
            p.Ask? && TaskOk(math, faults, request, p.frame, p.call)
  {
    QuestionFacts(math, request);
    EvaluateErrors(math, d.operation, d.first, d.second);
    var e := ToCalculatorData(request).value;
    assert QueryFor(d, Question(request).operation) == Question(request);
    assert MakeRecord(d, code, Question(request).operation) == MakeRecord(e, code, Question(request).operation);
  }

  lemma MissIsOk(math: MathLibrary, faults: Faults, request: Request)
    requires ToCalculatorData(request).Ok?
    ensures var p := OnMiss(math, ToCalculatorData(request).value, Question(request).operation);
            if p.Ask? then TaskOk(math, faults, request, p.frame, p.call)
            else Agrees(p.response, Direct(math, request)) && !FromCache(p.response) && !Accepted(request)
  {
    var d := ToCalculatorData(request).value;
    QuestionFacts(math, request);
    if CheckArguments(d).Ok? {
      var value := Evaluate(math, d.operation, d.first, d.second);
      if value.Err? {
        CaughtIsOk(math, faults, request, d, value.error);
      } else {
        assert QueryFor(d.(result := value.value), Question(request).operation) == Question(request);
      }
    }
  }

  lemma BeginIsOk(math: MathLibrary, faults: Faults, request: Request)
    ensures var p := Begin(request);
            if p.Ask? then TaskOk(math, faults, request, p.frame, p.call) && p.frame.LookingUp?
            else Agrees(p.response, Direct(math, request)) && p.response.source.None?
  {
    if ToCalculatorData(request).Ok? {
      NameMatchesCode(request);
    }
  }

  lemma LookupResumes(math: MathLibrary, faults: Faults, request: Request, frame: Frame, call: StorageCall, reply: Reply)
    requires Commutes(math) && frame.LookingUp?
    requires TaskOk(math, faults, request, frame, call) && ReplyOk(math, faults, call, reply)
    ensures var p := Resume(math, frame, reply);
            if p.Ask? then TaskOk(math, faults, request, p.frame, p.call)
            else Explained(math, faults, request, p.response)
  {
    if reply.Threw? {
      QuestionFacts(math, request);
    } else if reply.record.Some? {
      HitIsFaithful(math, faults, request, reply.record.value);
    } else {
      MissIsOk(math, faults, request);
    }
  }

  lemma StoringResumes(math: MathLibrary, faults: Faults, request: Request, frame: Frame, call: StorageCall, reply: Reply)
    requires frame.Storing?
    requires TaskOk(math, faults, request, frame, call) && ReplyOk(math, faults, call, reply)
    ensures var p := Resume(math, frame, reply);
            if p.Ask? then TaskOk(math, faults, request, p.frame, p.call)
            else Explained(math, faults, request, p.response)
  {
    if reply.Threw? {
      SavedRecordIsGood(math, faults, request, frame, call);
      CaughtIsOk(math, faults, request, frame.data, ERROR_STORAGE);
    }
  }

  /** One storage reply takes a handler to its next sound call or to an explained answer. */
  lemma ResumeIsOk(math: MathLibrary, faults: Faults, request: Request, frame: Frame, call: StorageCall, reply: Reply)
    requires Commutes(math)
    requires TaskOk(math, faults, request, frame, call) && ReplyOk(math, faults, call, reply)
    ensures var p := Resume(math, frame, reply);
            if p.Ask? then TaskOk(math, faults, request, p.frame, p.call)
            else Explained(math, faults, request, p.response)
  {
    if frame.LookingUp? {
      LookupResumes(math, faults, request, frame, call, reply);
    } else if frame.Storing? {
      StoringResumes(math, faults, request, frame, call, reply);
    }
  }
}
