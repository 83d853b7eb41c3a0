/** `RequestHandler::handle` as one sequential method over a storage whose saves may fail. */
module HandlerObject {
  import opened Wrappers
  import opened ErrorCodes
  import opened Calculator
  import opened OperationKey
  import opened Storage
  import opened Protocol
  import opened RequestHandler
  import opened Soundness
  import opened Repositories
  import opened Transparency

  /** How the database ends the saves of one request, by how many storage calls are left. */
  type Outcomes = nat -> DbOutcome

  /** Drive a handler to its answer, one storage call at a time. */
  function Drive(math: MathLibrary, store: Store, p: Progress, outcomes: Outcomes): (Store, Response)
    decreases if p.Ask? then Calls(p.frame) else 0
  {
    match p
    case Answer(response) => (store, response)
    case Ask(frame, call) =>
      var (store', reply) := Execute(store, call, outcomes(Calls(frame)));
      ResumeMakesProgress(math, frame, reply);
      Drive(math, store', Resume(math, frame, reply), outcomes)
  }

  function Serve(math: MathLibrary, store: Store, request: Request, outcomes: Outcomes): (Store, Response) {
    Drive(math, store, Begin(request), outcomes)
  }

  class Handler {
    const math: MathLibrary
    const storage: StorageService

    ghost predicate Valid()
      reads this, storage, storage.postgresRepository
    {
      storage.Valid()
    }

    constructor (math: MathLibrary, storage: StorageService)
      ensures this.math == math && this.storage == storage
    {
      this.math := math;
      this.storage := storage;
    }

    /** `to_calculator_data`, filling the data field by field. */
    static method BuildData(request: Request) returns (r: Result<CalculatorData, Status>)
      ensures r == ToCalculatorData(request)
    {
      var data := EMPTY_DATA;
      var operation := ToInternalOperation(request.operation);
      if operation.Err? {
        return Err(operation.error);
      }
      data := data.(operation := operation.value);
      var operands := request.operands;
      if operands != [] {
        if !FitsInt(operands[0]) {
          return Err(OPERAND_OUT_OF_RANGE);
        }
        data := data.(first := operands[0], hasFirst := true);
      }
      if |operands| > 1 {
        if !FitsInt(operands[1]) {
          return Err(OPERAND_OUT_OF_RANGE);
        }
        data := data.(second := operands[1], hasSecond := true);
      }
      return Ok(data);
    }

    /** The inner catch with its rethrow: a failure to save the failure is swallowed. */
    method Catch(data: CalculatorData, name: string, code: Int32, outcomes: Outcomes) returns (response: Response)
      requires Valid()
      modifies storage.cacheRepository, storage.postgresRepository
      ensures Valid()
      ensures (storage.Value(), response) ==
              Drive(math, old(storage.Value()), OnCalculatorException(data, name, code), outcomes)
    {
      if IsStorable(data) {
        var record := MakeRecord(data, code, name);
        if record.Ok? {
          var ignored := storage.Save(record.value, outcomes(1));
        }
      }
      return Failure(MapInternalError(code));
    }

    /** The try block after a miss: check, calculate, save. */
    method Calculate(data: CalculatorData, name: string, outcomes: Outcomes) returns (response: Response)
      requires Valid() && !data.needHelp
      modifies storage.cacheRepository, storage.postgresRepository
      ensures Valid()
      ensures (storage.Value(), response) == Drive(math, old(storage.Value()), OnMiss(math, data, name), outcomes)
    {
      var checked := CheckArguments(data);
      if checked.Err? {
        return Failure(MapInternalError(checked.error));
      }
      var abacus := new Abacus(math, data);
      var calculated := abacus.CalculateResult();
      if calculated.Err? {
        response := Catch(data, name, calculated.error, outcomes);
        return;
      }
      var record := MakeRecord(abacus.data, ERROR_NONE, name);
      if record.Err? {
        response := Catch(abacus.data, name, record.error, outcomes);
        return;
      }
      var saved := storage.Save(record.value, outcomes(2));
      if saved.Threw? && saved.exception.CalculatorException? {
        response := Catch(abacus.data, name, saved.exception.code, outcomes);
        return;
      }
      return Response(OK, Some(abacus.data.result), Some(CALCULATED));
    }

    method Handle(request: Request, outcomes: Outcomes) returns (response: Response)
      requires Valid()
      modifies storage.cacheRepository, storage.postgresRepository
      ensures Valid()
      ensures (storage.Value(), response) == Serve(math, old(storage.Value()), request, outcomes)
    {
      var converted := BuildData(request);
      if converted.Err? {
        return Failure(converted.error);
      }
      var data := converted.value;
      var name: string;
      match StorageName(request.operation) {
        case Err(e) => return Failure(e);
        case Ok(n) => name := n;
      }
      var cached := storage.Find(QueryFor(data, name));
      assert Serve(math, storage.Value(), request, outcomes)
          == Drive(math, storage.Value(), Resume(math, LookingUp(data, name), cached), outcomes);
      if cached.Threw? && cached.exception.CalculatorException? {
        return Failure(MapInternalError(cached.exception.code));
      }
      if cached.Found? && cached.record.Some? {
        return CachedAnswer(cached.record.value);
      }
      response := Calculate(data, name, outcomes);
    }
  }

  lemma {:induction false} DriveIsFaithful(
    math: MathLibrary, faults: Faults, store: Store, request: Request, p: Progress, outcomes: Outcomes)
    requires Commutes(math) && StoreGood(math, faults, store)
    requires MayFail(faults, request) || forall n :: outcomes(n).Committed?
    requires if p.Ask? then TaskOk(math, faults, request, p.frame, p.call) else Explained(math, faults, request, p.response)
    ensures StoreGood(math, faults, Drive(math, store, p, outcomes).0)
    ensures Explained(math, faults, request, Drive(math, store, p, outcomes).1)
    decreases if p.Ask? then Calls(p.frame) else 0
  {
    if p.Ask? {
      var outcome := outcomes(Calls(p.frame));
      var (store', reply) := Execute(store, p.call, outcome);
      if p.call.SaveCall? {
        SavedRecordIsGood(math, faults, request, p.frame, p.call);
      }
      ExecuteKeeps(math, faults, store, p.call, outcome);
      ResumeMakesProgress(math, p.frame, reply);
      ResumeIsOk(math, faults, request, p.frame, p.call, reply);
      DriveIsFaithful(math, faults, store', request, Resume(math, p.frame, reply), outcomes);
    }
  }

  /** Handling a request keeps the store truthful and answers as the calculator does, as far as its saves succeed. */
  lemma ServeIsFaithful(math: MathLibrary, faults: Faults, store: Store, request: Request, outcomes: Outcomes)
    requires Commutes(math) && StoreGood(math, faults, store)
    requires MayFail(faults, request) || forall n :: outcomes(n).Committed?
    ensures StoreGood(math, faults, Serve(math, store, request, outcomes).0)
    ensures Explained(math, faults, request, Serve(math, store, request, outcomes).1)
  {
    BeginIsOk(math, faults, request);
    DriveIsFaithful(math, faults, store, request, Begin(request), outcomes);
  }

  // What one handling does to cache and table, case by case.

  /** The fields a request that gets past the checker is stored with. */
  predicate StoredAs(request: Request, r: Record)
    requires Accepted(request)
  {
    && r.first == request.operands[0]
    && r.second == (if request.operation.FACTORIAL? then None else Some(request.operands[1]))
    && r.operation == match request.operation {
        case ADDITION => "add"
        case SUBTRACTION => "sub"
        case MULTIPLICATION => "mul"
        case DIVISION => "div"
        case EXPONENTIATION => "pow"
        case FACTORIAL => "fact"
        case UNKNOWN => ""
      }
  }

  /** The record of a value, of a calculation error, and of a failed save, with their numeric statuses. */
  predicate SaysValue(math: MathLibrary, request: Request, r: Record)
    requires Accepted(request)
  {
    StoredAs(request, r) && r.status == 0 && r.result.Some? && r.result == Direct(math, request).value
  }

  predicate SaysError(math: MathLibrary, request: Request, r: Record)
    requires Accepted(request)
  {
    && StoredAs(request, r) && r.result.None?
    && match Direct(math, request).status {
        case INVALID_OPERATION => r.status == 6
        case DIVISION_BY_ZERO => r.status == 7
        case NUMERIC_OVERFLOW => r.status == 10
        case _ => false
      }
  }

  predicate SaysStorageError(request: Request, r: Record)
    requires Accepted(request)
  {
    StoredAs(request, r) && r.result.None? && r.status == 12
  }

  /** The table after a row under a key without NUL: appended, unless the key is taken. */
  predicate Inserted(table: seq<Record>, r: Record, table': seq<Record>) {
    table' == if r.key in Keys(table) then table else table + [r]
  }

  /** The record `MakeRecord` makes for an accepted request. */
  lemma MadeRecord(math: MathLibrary, request: Request, d: CalculatorData, status: Int32, key: string) returns (r: Record)
    requires Accepted(request) && KeyOf(request) == Some(key)
    requires d == ToCalculatorData(request).value.(result := d.result)
    ensures MakeRecord(d, status, Question(request).operation) == Ok(r) && StoredAs(request, r)
    ensures r.key == key && r.status == status && r.result == if status == 0 then Some(d.result) else None
    ensures Stored(r) == r && IsStorable(d)
  {
    QuestionFacts(math, request);
    NameMatchesCode(request);
    assert QueryFor(d, Question(request).operation) == Question(request);
    r := MakeRecord(d, status, Question(request).operation).value;
    KeyHasNoNul(Question(request));
    StoredIsItself(r);
  }

  /** A request without a key, or one that misses and is rejected, gets the reference answer and leaves no trace. */
  lemma RejectedLeavesNoTrace(math: MathLibrary, store: Store, request: Request, outcomes: Outcomes)
    requires match KeyOf(request) case None => true case Some(key) => key !in store.cache && !Accepted(request)
    ensures Serve(math, store, request, outcomes) == (store, Direct(math, request))
  {
    if ToCalculatorData(request).Ok? {
      NameMatchesCode(request);
      QuestionFacts(math, request);
      MissIsOk(math, iset{}, request);
      assert Serve(math, store, request, outcomes)
          == Drive(math, store, Resume(math, Begin(request).frame, FindReply(store.cache, Question(request))), outcomes);
    }
  }

  /** A hit is answered from the record, with its source, and changes nothing. */
  lemma HitChangesNothing(math: MathLibrary, store: Store, request: Request, key: string, outcomes: Outcomes)
    requires KeyOf(request) == Some(key) && key in store.cache
    ensures Serve(math, store, request, outcomes).0 == store
    ensures var r, response := store.cache[key], Serve(math, store, request, outcomes).1;
            && (r.status == 0 && r.result.Some? ==> response == Response(OK, r.result, Some(CACHE)))
            && (r.status != 0 ==> response == Response(MapInternalError(r.status), None, Some(CACHE)))
  {
    NameMatchesCode(request);
    assert Serve(math, store, request, outcomes)
        == Drive(math, store, Resume(math, Begin(request).frame, Found(Some(store.cache[key]))), outcomes);
  }

  /** On a miss, a handler goes on as `OnMiss` says. */
  lemma MissGoesOn(math: MathLibrary, store: Store, request: Request, key: string, outcomes: Outcomes)
    requires KeyOf(request) == Some(key) && key !in store.cache
    ensures Serve(math, store, request, outcomes)
         == Drive(math, store, OnMiss(math, ToCalculatorData(request).value, Question(request).operation), outcomes)
  {
    NameMatchesCode(request);
    assert FindReply(store.cache, Question(request)) == Found(None);
  }

  /** The save of a failure and the answer that follows it, however the save ends. */
  lemma FailureIsSaved(math: MathLibrary, store: Store, request: Request, d: CalculatorData, code: Int32, key: string, outcomes: Outcomes)
    returns (r: Record, after: Store)
    requires Accepted(request) && KeyOf(request) == Some(key) && code != 0
    requires d == ToCalculatorData(request).value.(result := d.result)
    ensures StoredAs(request, r) && r.result.None? && r.status == code && r.key == key && Stored(r) == r
    ensures Drive(math, store, OnCalculatorException(d, Question(request).operation, code), outcomes)
         == (after, Failure(MapInternalError(code)))
    ensures after.cache == store.cache[key := r]
    ensures if outcomes(1).Lost? then after.table == store.table else Inserted(store.table, r, after.table)
  {
    r := MadeRecord(math, request, d, code, key);
    var p := OnCalculatorException(d, Question(request).operation, code);
    assert p == Ask(StoringFailure(code), SaveCall(r));
    after := Execute(store, SaveCall(r), outcomes(1)).0;
    assert Drive(math, store, p, outcomes) == (after, Failure(MapInternalError(code)));
  }

  /** A miss with a value asks for its record to be saved. */
  lemma MissAsksToStore(math: MathLibrary, request: Request, key: string) returns (done: CalculatorData, r: Record)
    requires KeyOf(request) == Some(key) && Direct(math, request).status == OK
    ensures Accepted(request) && SaysValue(math, request, r) && r.key == key && Stored(r) == r
    ensures done == ToCalculatorData(request).value.(result := done.result) && Direct(math, request).value == Some(done.result)
    ensures OnMiss(math, ToCalculatorData(request).value, Question(request).operation)
         == Ask(Storing(done, Question(request).operation), SaveCall(r))
  {
    SuccessIsAccepted(math, request);
    done := ToCalculatorData(request).value.(result := Direct(math, request).value.value);
    r := MadeRecord(math, request, done, 0, key);
  }

  lemma SavedTwice(table: seq<Record>, a: Record, b: Record)
    requires a.key == b.key && Stored(a) == a && Stored(b) == b
    ensures Inserted(table, a, Insert(table, a)) && Insert(Insert(table, a), b) == Insert(table, a)
  {
    InsertKeys(table, a);
  }

  /**
   * A miss with a value is calculated: it is answered with the value and its source, and its record
   * is in the cache and, when the save is committed, in the table.
   */
  lemma MissIsCalculatedAndSaved(math: MathLibrary, store: Store, request: Request, key: string, outcomes: Outcomes)
    returns (r: Record)
    requires KeyOf(request) == Some(key) && key !in store.cache
    requires Direct(math, request).status == OK && outcomes(2).Committed?
    ensures Accepted(request) && SaysValue(math, request, r) && r.key == key
    ensures var (store', response) := Serve(math, store, request, outcomes);
            && response == Response(OK, Direct(math, request).value, Some(CALCULATED))
            && store'.cache == store.cache[key := r]
            && Inserted(store.table, r, store'.table)
  {
    var done;
    done, r := MissAsksToStore(math, request, key);
    MissGoesOn(math, store, request, key, outcomes);
    assert Drive(math, store, Ask(Storing(done, Question(request).operation), SaveCall(r)), outcomes)
        == (Execute(store, SaveCall(r), Committed).0, Response(OK, Some(done.result), Some(CALCULATED)));
  }

  /** The code a calculation throws, its protocol status, and where it takes the handler. */
  lemma CalculationFails(math: MathLibrary, request: Request) returns (code: Int32)
    requires Accepted(request) && Direct(math, request).status != OK
    ensures Direct(math, request) == Failure(MapInternalError(code))
    ensures match Direct(math, request).status {
        case INVALID_OPERATION => code == 6
        case DIVISION_BY_ZERO => code == 7
        case NUMERIC_OVERFLOW => code == 10
        case _ => false
      }
    ensures ToCalculatorData(request).Ok?
    ensures var d, name := ToCalculatorData(request).value, Question(request).operation;
            OnMiss(math, d, name) == OnCalculatorException(d, name, code)
  {
    var d := ToCalculatorData(request).value;
    EvaluateErrors(math, d.operation, d.first, d.second);
    code := Evaluate(math, d.operation, d.first, d.second).error;
    StatusOfCode(0);
  }

  /** A miss with a calculation error is answered with the error, whose record is in the cache and, unless the save is lost, in the table. */
  lemma MissedErrorIsSaved(math: MathLibrary, store: Store, request: Request, key: string, outcomes: Outcomes)
    returns (r: Record, after: Store)
    requires KeyOf(request) == Some(key) && key !in store.cache
    requires Accepted(request) && Direct(math, request).status != OK
    ensures SaysError(math, request, r) && r.key == key
    ensures Serve(math, store, request, outcomes) == (after, Direct(math, request))
    ensures after.cache == store.cache[key := r]
    ensures if outcomes(1).Lost? then after.table == store.table else Inserted(store.table, r, after.table)
  {
    MissGoesOn(math, store, request, key, outcomes);
    var code := CalculationFails(math, request);
    r, after := FailureIsSaved(math, store, request, ToCalculatorData(request).value, code, key, outcomes);
  }

  lemma TableOfTwoSaves(table: seq<Record>, value: Record, failure: Record, first: DbOutcome, second: DbOutcome, table': seq<Record>)
    requires value.key == failure.key && Stored(value) == value && Stored(failure) == failure && !first.Committed?
    requires var between := Storage.Save(table, value, first);
             if second.Lost? then table' == between else Inserted(between, failure, table')
    ensures first.Unacknowledged? ==> Inserted(table, value, table')
    ensures first.Lost? && !second.Lost? ==> Inserted(table, failure, table')
    ensures first.Lost? && second.Lost? ==> table' == table
  {
    SavedTwice(table, value, failure);
  }

  lemma FailedSaveGoesOn(math: MathLibrary, store: Store, done: CalculatorData, name: string, value: Record, outcomes: Outcomes)
    requires !outcomes(2).Committed?
    ensures Drive(math, store, Ask(Storing(done, name), SaveCall(value)), outcomes)
         == Drive(math, Execute(store, SaveCall(value), outcomes(2)).0, OnCalculatorException(done, name, ERROR_STORAGE), outcomes)
  {
  }

  lemma FailedMissGoesOn(math: MathLibrary, store: Store, request: Request, key: string, outcomes: Outcomes)
    returns (done: CalculatorData, value: Record)
    requires KeyOf(request) == Some(key) && key !in store.cache
    requires Direct(math, request).status == OK && !outcomes(2).Committed?
    ensures Accepted(request) && SaysValue(math, request, value) && value.key == key && Stored(value) == value
    ensures done == ToCalculatorData(request).value.(result := done.result)
    ensures Serve(math, store, request, outcomes)
         == Drive(math, Store(store.cache[key := value], Storage.Save(store.table, value, outcomes(2))),
                  OnCalculatorException(done, Question(request).operation, ERROR_STORAGE), outcomes)
  {
    done, value := MissAsksToStore(math, request, key);
    MissGoesOn(math, store, request, key, outcomes);
    FailedSaveGoesOn(math, store, done, Question(request).operation, value, outcomes);
  }

  /** The second save of a handler whose first has failed. */
  lemma FailedSaveEnds(math: MathLibrary, store: Store, request: Request, done: CalculatorData, value: Record, key: string, outcomes: Outcomes)
    returns (failure: Record, after: Store)
    requires Accepted(request) && KeyOf(request) == Some(key) && !outcomes(2).Committed?
    requires done == ToCalculatorData(request).value.(result := done.result) && value.key == key && Stored(value) == value
    ensures SaysStorageError(request, failure) && failure.key == key
    ensures Drive(math, Store(store.cache[key := value], Storage.Save(store.table, value, outcomes(2))),
                  OnCalculatorException(done, Question(request).operation, ERROR_STORAGE), outcomes) == (after, Failure(STORAGE_ERROR))
    ensures after.cache == store.cache[key := failure]
    ensures outcomes(2).Unacknowledged? ==> Inserted(store.table, value, after.table)
    ensures outcomes(2).Lost? && !outcomes(1).Lost? ==> Inserted(store.table, failure, after.table)
    ensures outcomes(2).Lost? && outcomes(1).Lost? ==> after.table == store.table
  {
    var between := Store(store.cache[key := value], Storage.Save(store.table, value, outcomes(2)));
    StorageErrorIsReported();
    failure, after := FailureIsSaved(math, between, request, done, ERROR_STORAGE, key, outcomes);
    assert store.cache[key := value][key := failure] == store.cache[key := failure];
    TableOfTwoSaves(store.table, value, failure, outcomes(2), outcomes(1), after.table);
  }

  /**
   * A miss whose save fails is answered with a storage error, which also replaces the value in the
   * cache. The table keeps what each save left: the value if only the acknowledgement was lost, else
   * the storage error if the second save took effect.
   */
  lemma FailedSaveIsRemembered(math: MathLibrary, store: Store, request: Request, key: string, outcomes: Outcomes)
    returns (value: Record, failure: Record, after: Store)
    requires KeyOf(request) == Some(key) && key !in store.cache
    requires Direct(math, request).status == OK && !outcomes(2).Committed?
    ensures Accepted(request) && value.key == failure.key == key
    ensures SaysValue(math, request, value) && SaysStorageError(request, failure)
    ensures Serve(math, store, request, outcomes) == (after, Failure(STORAGE_ERROR))
    ensures after.cache == store.cache[key := failure]
    ensures outcomes(2).Unacknowledged? ==> Inserted(store.table, value, after.table)
    ensures outcomes(2).Lost? && !outcomes(1).Lost? ==> Inserted(store.table, failure, after.table)
    ensures outcomes(2).Lost? && outcomes(1).Lost? ==> after.table == store.table
  {
    var done;
    done, value := FailedMissGoesOn(math, store, request, key, outcomes);
    failure, after := FailedSaveEnds(math, store, request, done, value, key, outcomes);
  }

  /** Asking again, in any operand order, is answered from the cache with the same value, and nothing is saved again. */
  lemma SecondTimeHits(math: MathLibrary, store: Store, request: Request, again: Request, key: string, outcomes: Outcomes)
    requires KeyOf(request) == Some(key) && KeyOf(again) == Some(key) && key !in store.cache
    requires Direct(math, request).status == OK && outcomes(2).Committed?
    ensures var store' := Serve(math, store, request, outcomes).0;
            Serve(math, store', again, outcomes) == (store', Response(OK, Direct(math, request).value, Some(CACHE)))
  {
    var r := MissIsCalculatedAndSaved(math, store, request, key, outcomes);
    HitChangesNothing(math, Serve(math, store, request, outcomes).0, again, key, outcomes);
  }
}
