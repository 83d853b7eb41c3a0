/** The answers of the service against the bare calculator, and exactly when they agree. */
module Answers {
  import opened Wrappers
  import opened ErrorCodes
  import opened Calculator
  import opened OperationKey
  import opened Storage
  import opened Queue
  import opened Protocol
  import opened RequestHandler
  import opened Soundness
  import opened Service
  import opened QueueProtocol
  import opened Shutdown
  import opened Transparency
  import opened Failures

  /**
   * Soundness under faults: an error is always answered with its own status; a value is answered
   * exactly, or, when saves under the request's own key may fail, as a storage error.
   */
  lemma SoundUnderFaults(math: MathLibrary, faults: Faults, s: System, i: nat)
    requires Commutes(math) && Reachable(math, faults, s)
    requires i < |s.answered| && !Unposed(s.answered[i].request)
    ensures var response, direct := s.answered[i].response, Direct(math, s.answered[i].request);
            || Agrees(response, direct)
            || (direct.status == OK && MayFail(faults, s.answered[i].request) && Agrees(response, Failure(STORAGE_ERROR)))
  {
    ReachableTruth(math, faults, s);
    DirectShape(math, s.answered[i].request);
  }

  /**
   * Concurrent cache transparency: however many threads interleave, however often the service
   * restarts and whatever other saves fail, an answer has the status and the value of running the
   * checker and the calculator with no storage, unless a save under the request's own key has failed.
   */
  lemma ConcurrentTransparency(math: MathLibrary, faults: Faults, s: System, i: nat)
    requires Commutes(math) && Reachable(math, faults, s)
    requires i < |s.answered| && !Unposed(s.answered[i].request)
    requires !MayFail(Failed(s), s.answered[i].request)
    ensures Agrees(s.answered[i].response, Direct(math, s.answered[i].request))
  {
    ReachableByItsFailures(math, faults, s);
    SoundUnderFaults(math, Failed(s), s, i);
  }

  lemma ExplainedIsDefined(math: MathLibrary, faults: Faults, request: Request, response: Response)
    requires Explained(math, faults, request, response)
    ensures response.Response? && response.status != INTERNAL_ERROR
  {
    DirectIsNotInternal(math, request);
    DirectIsNotInternal(math, FACT_OF_ZERO);
  }

  lemma DirectIsNotInternal(math: MathLibrary, request: Request)
    ensures Direct(math, request).Response? && Direct(math, request).status != INTERNAL_ERROR
  {
    DirectShape(math, request);
  }

  /**
   * No answer ever comes from an empty optional or from a refused storage call: network threads are
   * joined before the storage worker is told to stop.
   */
  lemma NeverUndefinedNeverStopping(math: MathLibrary, faults: Faults, s: System)
    requires Commutes(math) && Reachable(math, faults, s)
    ensures forall i | 0 <= i < |s.answered| ::
              s.answered[i].response.Response? && s.answered[i].response.status != INTERNAL_ERROR
    ensures forall t | 0 <= t < |s.net| && !s.net[t].Left? :: !s.stopping
  {
    ReachableTruth(math, faults, s);
    ReachableProtocol(math, faults, s);
    forall i | 0 <= i < |s.answered|
      ensures s.answered[i].response.Response? && s.answered[i].response.status != INTERNAL_ERROR
    {
      ExplainedIsDefined(math, faults, s.answered[i].request, s.answered[i].response);
    }
  }

  /**
   * Looking up before checking is safe, faults or not: each cached record has the key its own fields
   * make, has a result exactly when its status is success, and has arguments the checker accepts.
   */
  lemma LookupBeforeCheck(math: MathLibrary, faults: Faults, s: System, k: string)
    requires Commutes(math) && Reachable(math, faults, s) && Initialised(s) && k in s.store.cache
    ensures var r := s.store.cache[k];
            && Make(QueryOf(r)) == Ok(k) && r.key == k
            && (r.result.Some? <==> r.status == ERROR_NONE)
            && CheckArguments(Asked(QueryOf(r))).Ok?
  {
    ReachableTruth(math, faults, s);
    var r := s.store.cache[k];
    EvaluateErrors(math, CodeOf(r.operation), r.first, SecondOrZero(QueryOf(r)));
  }

  /** No hit lets a request with a first operand past a rejection of the checker. */
  lemma HitMeansAccepted(math: MathLibrary, faults: Faults, s: System, request: Request)
    requires Commutes(math) && Reachable(math, faults, s) && Initialised(s)
    requires ToCalculatorData(request).Ok? && request.operands != []
    requires Find(s.store.cache, Question(request)).Ok? && Find(s.store.cache, Question(request)).value.Some?
    ensures CheckArguments(ToCalculatorData(request).value).Ok?
    ensures CachedAnswer(Find(s.store.cache, Question(request)).value.value).Response?
  {
    ReachableTruth(math, faults, s);
    var r := Find(s.store.cache, Question(request)).value.value;
    QuestionFacts(math, request);
    SameKeySameTruth(math, Question(request), QueryOf(r));
    EvaluateErrors(math, CodeOf(r.operation), r.first, SecondOrZero(QueryOf(r)));
  }

  /** A binary request with fewer than two operands, those it has in range. */
  predicate TooFewOperands(request: Request) {
    && !request.operation.UNKNOWN? && !request.operation.FACTORIAL?
    && |request.operands| < 2
    && forall i | 0 <= i < |request.operands| :: FitsInt(request.operands[i])
  }

  lemma TooFewOperandsDirect(math: MathLibrary, request: Request)
    requires TooFewOperands(request)
    ensures Direct(math, request) == Failure(OPERANDS_COUNT_MISMATCH)
    ensures ToCalculatorData(request).Ok? && Make(Question(request)).Err?
  {
    QuestionFacts(math, request);
  }

  /**
   * Too few operands are reported as such whatever the store holds and whatever fails, and a handler
   * of such a request never gets past its lookup, so it saves nothing.
   */
  lemma TooFewOperandsAlways(math: MathLibrary, faults: Faults, s: System)
    requires Commutes(math) && Reachable(math, faults, s)
    ensures forall i | 0 <= i < |s.answered| && TooFewOperands(s.answered[i].request) ::
              Agrees(s.answered[i].response, Failure(OPERANDS_COUNT_MISMATCH))
    ensures forall t | 0 <= t < |s.net| && HasTask(s.net[t]) && TooFewOperands(s.net[t].task.request) ::
              s.net[t].task.call.FindCall?
  {
    ReachableTruth(math, faults, s);
    forall i | 0 <= i < |s.answered| && TooFewOperands(s.answered[i].request)
      ensures Agrees(s.answered[i].response, Failure(OPERANDS_COUNT_MISMATCH))
    {
      TooFewOperandsDirect(math, s.answered[i].request);
    }
    forall t | 0 <= t < |s.net| && HasTask(s.net[t]) && TooFewOperands(s.net[t].task.request)
      ensures s.net[t].task.call.FindCall?
    {
      var task := s.net[t].task;
      TooFewOperandsDirect(math, task.request);
      if task.call.SaveCall? {
        SavedRecordIsGood(math, faults, task.request, task.frame, task.call);
      }
    }
  }

  // Runs that show where transparency ends.

  lemma ReachStep(math: MathLibrary, faults: Faults, s: System, step: Step) returns (s': System)
    requires Reachable(math, faults, s) && Enabled(s, step) && Permitted(faults, s, step)
    ensures s' == Next(math, s, step) && Reachable(math, faults, s')
  {
    var table, steps :| TableGood(math, faults, table) && Run(math, faults, Off(table), steps) == Some(s);
    s' := Next(math, s, step);
    var steps' := steps + [step];
    assert steps'[..|steps'| - 1] == steps;
    assert Run(math, faults, Off(table), steps') == Some(s');
  }

  /** The service is up, the worker is asleep, and thread 0 is there. */
  ghost predicate Calm(s: System) {
    && s.worker.Asleep? && s.jobs == [] && !s.stopping && Initialised(s) && !IoStopped(s.main)
    && |s.net| >= 1 && ProtocolInv(s)
  }

  lemma FreshService(math: MathLibrary, faults: Faults) returns (s: System)
    ensures Reachable(math, faults, s) && Calm(s) && s.net[0].Idle?
    ensures s.store == Store(map[], [])
  {
    var s1 := BootedService(math, faults);
    var s2 := ReachStep(math, faults, s1, MainServe);
    s := ReachStep(math, faults, s2, WorkerDecide);
    ReachableProtocol(math, faults, s);
  }

  lemma BootedService(math: MathLibrary, faults: Faults) returns (s: System)
    ensures Reachable(math, faults, s)
    ensures s.main.Starting? && s.worker.Checking? && s.jobs == [] && !s.stopping && s.threads == 1
    ensures s.store == Store(map[], [])
  {
    assert TableGood(math, faults, []) && Run(math, faults, Off([]), []) == Some(Off([]));
    var s1 := ReachStep(math, faults, Off([]), Boot(1));
    s := ReachStep(math, faults, s1, InitOk);
  }

  /** Thread 0 hands its call to the worker: submit, notify, take. */
  lemma HandOver(math: MathLibrary, faults: Faults, s: System) returns (s': System)
    requires Reachable(math, faults, s) && Calm(s) && s.net[0].Submitting?
    ensures Reachable(math, faults, s')
    ensures var task, ticket := s.net[0].task, |s.accepted|;
            s' == s.(worker := Running(Job(ticket, task.call)), accepted := s.accepted + [task.call],
                  net := s.net[0 := Awaiting(task, ticket)])
  {
    var task, ticket := s.net[0].task, |s.accepted|;
    var s1 := Submitted(math, faults, s);
    var s2 := ReachStep(math, faults, s1, NetNotify(0));
    assert s2.net == s.net[0 := Awaiting(task, ticket)];
    s' := ReachStep(math, faults, s2, WorkerDecide);
  }

  lemma Submitted(math: MathLibrary, faults: Faults, s: System) returns (s': System)
    requires Reachable(math, faults, s) && Calm(s) && s.net[0].Submitting?
    ensures Reachable(math, faults, s')
    ensures var task, ticket := s.net[0].task, |s.accepted|;
            s' == s.(jobs := [Job(ticket, task.call)], accepted := s.accepted + [task.call],
                  net := s.net[0 := Notifying(task, ticket)])
  {
    s' := ReachStep(math, faults, s, NetSubmit(0));
  }

  /** The worker executes the only job and goes back to sleep. */
  lemma ExecuteAlone(math: MathLibrary, faults: Faults, s: System, outcome: DbOutcome) returns (s': System)
    requires Reachable(math, faults, s) && s.worker.Running? && OutcomeAllowed(faults, s.worker.job.call, outcome)
    requires s.jobs == [] && !s.stopping
    ensures Reachable(math, faults, s')
    ensures s' == RunJob(s, outcome).(worker := Asleep)
  {
    var s1 := ReachStep(math, faults, s, WorkerRun(outcome));
    s' := ReachStep(math, faults, s1, WorkerDecide);
  }

  /** Thread 0 makes its storage call alone: submit, notify, execute, resume. */
  lemma RoundTrip(math: MathLibrary, faults: Faults, s: System, outcome: DbOutcome) returns (s': System)
    requires Reachable(math, faults, s) && Calm(s) && s.net[0].Submitting? && OutcomeAllowed(faults, s.net[0].task.call, outcome)
    ensures Reachable(math, faults, s') && Calm(s')
    ensures var task := s.net[0].task;
            var (store, reply) := Execute(s.store, task.call, outcome);
            && s'.store == store
            && match Resume(math, task.frame, reply)
               case Ask(frame, call) => s'.net[0] == Submitting(Task(task.request, task.born, frame, call))
               case Answer(response) =>
                 && s'.net[0].Idle?
                 && s'.answered == s.answered + [Answered(task.request, response, task.born)]
  {
    var s1 := HandOver(math, faults, s);
    var s2 := ExecuteAlone(math, faults, s1, outcome);
    s' := ReachStep(math, faults, s2, NetResume(0));
    ReachableProtocol(math, faults, s');
  }

  lemma BeginAlone(math: MathLibrary, faults: Faults, s: System, request: Request) returns (s': System)
    requires Reachable(math, faults, s) && Calm(s) && s.net[0].Idle? && ToCalculatorData(request).Ok?
    ensures Reachable(math, faults, s') && Calm(s') && s'.store == s.store
    ensures s'.net[0].Submitting? && s'.net[0].task.request == request
    ensures s'.net[0].task.frame.LookingUp? && s'.net[0].task.call == FindCall(Question(request))
    ensures TaskOk(math, faults, request, s'.net[0].task.frame, s'.net[0].task.call)
  {
    NameMatchesCode(request);
    BeginIsOk(math, faults, request);
    s' := ReachStep(math, faults, s, NetBegin(0, request));
    ReachableProtocol(math, faults, s');
  }

  /** On an empty store a request whose arguments are accepted misses and saves. */
  lemma MissAlone(math: MathLibrary, faults: Faults, s: System, request: Request) returns (s': System)
    requires Commutes(math) && Reachable(math, faults, s) && Calm(s) && s.net[0].Idle? && s.store == Store(map[], [])
    requires ToCalculatorData(request).Ok? && CheckArguments(ToCalculatorData(request).value).Ok?
    ensures Reachable(math, faults, s') && Calm(s')
    ensures s'.net[0].Submitting? && s'.net[0].task.call.SaveCall? && s'.net[0].task.request == request
    ensures TaskOk(math, faults, request, s'.net[0].task.frame, s'.net[0].task.call)
    ensures !s'.net[0].task.frame.LookingUp?
    ensures Direct(math, request).status == OK ==> s'.net[0].task.frame.Storing?
  {
    QuestionFacts(math, request);
    DirectShape(math, request);
    var d := ToCalculatorData(request).value;
    EvaluateErrors(math, d.operation, d.first, d.second);
    var s1 := BeginAlone(math, faults, s, request);
    s' := RoundTrip(math, faults, s1, Committed);
    assert Execute(s1.store, s1.net[0].task.call, Committed).1 == Found(None);
    MissIsOk(math, faults, request);
    assert OnMiss(math, d, Question(request).operation).Ask?;
  }

  lemma UnposedDirect(math: MathLibrary, request: Request)
    requires Unposed(request)
    ensures Direct(math, request) == Failure(OPERANDS_COUNT_MISMATCH)
    ensures ToCalculatorData(request).Ok? && Question(request) == Question(FACT_OF_ZERO)
  {
  }

  lemma FactOfZeroIsAccepted()
    ensures ToCalculatorData(FACT_OF_ZERO).Ok? && CheckArguments(ToCalculatorData(FACT_OF_ZERO).value).Ok?
  {
  }

  lemma SavedIsAnswered(math: MathLibrary, frame: Frame)
    ensures !frame.LookingUp? ==> Resume(math, frame, Saved).Answer?
  {
  }

  /** A run that leaves the answer to fact(0) in the store. */
  lemma FactOfZeroStored(math: MathLibrary, faults: Faults) returns (s: System, r: Record)
    requires Commutes(math)
    ensures Reachable(math, faults, s) && Calm(s) && s.net[0].Idle?
    ensures Good(math, faults, r) && Make(Question(FACT_OF_ZERO)) == Ok(r.key)
    ensures FindByKey(s.store.cache, r.key) == Some(r)
  {
    FactOfZeroIsAccepted();
    var s0 := FreshService(math, faults);
    var s1 := MissAlone(math, faults, s0, FACT_OF_ZERO);
    var task := s1.net[0].task;
    r := task.call.record;
    SavedRecordIsGood(math, faults, FACT_OF_ZERO, task.frame, task.call);
    SavedIsAnswered(math, task.frame);
    s := RoundTrip(math, faults, s1, Committed);
    assert s.store.cache == Put(s1.store.cache, r);
  }

  /** The store may answer fact() as fact(0): a run in which the answer is not the calculator's. */
  lemma UnposedIsNotTransparent(math: MathLibrary, faults: Faults, request: Request) returns (s: System, i: nat)
    requires Commutes(math) && Unposed(request)
    ensures Reachable(math, faults, s) && i < |s.answered| && s.answered[i].request == request
    ensures !Agrees(s.answered[i].response, Direct(math, request))
  {
    var s1, r := FactOfZeroStored(math, faults);
    UnposedDirect(math, request);
    var s2 := BeginAlone(math, faults, s1, request);
    assert FindReply(s2.store.cache, Question(request)) == Found(Some(r));
    s := RoundTrip(math, faults, s2, Committed);
    i := |s2.answered|;
    GoodIsNoMismatch(math, faults, r);
  }

  lemma GoodIsNoMismatch(math: MathLibrary, faults: Faults, r: Record)
    requires Good(math, faults, r)
    ensures CachedAnswer(r).Response? && CachedAnswer(r).status != OPERANDS_COUNT_MISMATCH
  {
    EvaluateErrors(math, CodeOf(r.operation), r.first, SecondOrZero(QueryOf(r)));
  }

  /** A lost first save sends the handler to its second save, with the storage error as its outcome. */
  lemma LostSaveResumes(math: MathLibrary, faults: Faults, request: Request, frame: Frame, call: StorageCall)
    requires TaskOk(math, faults, request, frame, call) && frame.Storing? && MayFail(faults, request)
    ensures var p := Resume(math, frame, SaveReply(Lost));
            p.Ask? && p.frame == StoringFailure(ERROR_STORAGE) && p.call.SaveCall? && p.call.record.key in faults
    ensures call.SaveCall? && call.record.key in faults
  {
    SavedRecordIsGood(math, faults, request, frame, call);
    CaughtIsOk(math, faults, request, frame.data, ERROR_STORAGE);
    var p := Resume(math, frame, SaveReply(Lost));
    SavedRecordIsGood(math, faults, request, p.frame, p.call);
  }

  lemma FailureIsReported(math: MathLibrary, faults: Faults, s: System, outcome: DbOutcome) returns (s': System, i: nat)
    requires Reachable(math, faults, s) && Calm(s) && s.net[0].Submitting? && OutcomeAllowed(faults, s.net[0].task.call, outcome)
    requires s.net[0].task.frame.StoringFailure? && s.net[0].task.call.SaveCall?
    ensures Reachable(math, faults, s') && i < |s'.answered|
    ensures s'.answered[i].request == s.net[0].task.request
    ensures s'.answered[i].response == Failure(MapInternalError(s.net[0].task.frame.code))
  {
    s' := RoundTrip(math, faults, s, outcome);
    i := |s.answered|;
  }

  /** When both saves of a handler are lost, its answer is a storage error. */
  lemma BothSavesLost(math: MathLibrary, faults: Faults, s: System, request: Request) returns (s': System, i: nat)
    requires Reachable(math, faults, s) && Calm(s) && s.net[0].Submitting? && s.net[0].task.request == request
    requires MayFail(faults, request)
    requires s.net[0].task.frame.Storing? && TaskOk(math, faults, request, s.net[0].task.frame, s.net[0].task.call)
    ensures Reachable(math, faults, s') && i < |s'.answered|
    ensures s'.answered[i].request == request && s'.answered[i].response == Failure(STORAGE_ERROR)
  {
    var task := s.net[0].task;
    LostSaveResumes(math, faults, request, task.frame, task.call);
    assert Execute(s.store, task.call, Lost).1 == SaveReply(Lost);
    var s1 := RoundTrip(math, faults, s, Lost);
    assert s1.net[0].Submitting? && s1.net[0].task.request == request;
    StorageErrorIsReported();
    s', i := FailureIsReported(math, faults, s1, Lost);
  }

  /**
   * The answers to a factorial without operands, faults or not: a hit says what fact(0) is answered,
   * anything else is the operand-count error.
   */
  lemma UnposedIsMismatchOrFactOfZero(math: MathLibrary, faults: Faults, s: System, i: nat)
    requires Commutes(math) && Reachable(math, faults, s)
    requires i < |s.answered| && Unposed(s.answered[i].request)
    ensures if FromCache(s.answered[i].response)
            then Faithful(MayFail(faults, FACT_OF_ZERO), s.answered[i].response, Direct(math, FACT_OF_ZERO))
            else Agrees(s.answered[i].response, Failure(OPERANDS_COUNT_MISMATCH))
  {
    ReachableTruth(math, faults, s);
    UnposedDirect(math, s.answered[i].request);
    assert KeyOf(s.answered[i].request) == KeyOf(FACT_OF_ZERO);
  }

  /** Failed saves under a request's own key can turn its value into a storage error. */
  lemma LostSaveIsNotTransparent(math: MathLibrary, faults: Faults, request: Request) returns (s: System, i: nat)
    requires Commutes(math) && Direct(math, request).Response? && Direct(math, request).status == OK && MayFail(faults, request)
    ensures Reachable(math, faults, s) && i < |s.answered|
    ensures s.answered[i].request == request && s.answered[i].response == Failure(STORAGE_ERROR)
  {
    SuccessIsAccepted(math, request);
    var s0 := FreshService(math, faults);
    var s1 := MissAlone(math, faults, s0, request);
    s, i := BothSavesLost(math, faults, s1, request);
  }

  /** Every answer this request can get, in any run, is the calculator's own. */
  ghost predicate AlwaysTransparent(math: MathLibrary, faults: Faults, request: Request) {
    forall s, i: nat | Reachable(math, faults, s) && i < |s.answered| && s.answered[i].request == request ::
      Agrees(s.answered[i].response, Direct(math, request))
  }

  /**
   * Caching is invisible to a request, in all runs in which saves fail under the given keys only,
   * exactly when it poses its own question and either ends in an error or has none of those keys.
   */
  lemma TransparentExactly(math: MathLibrary, faults: Faults, request: Request)
    requires Commutes(math)
    ensures AlwaysTransparent(math, faults, request) <==>
            !Unposed(request) && (Direct(math, request).status != OK || !MayFail(faults, request))
  {
    DirectShape(math, request);
    if Unposed(request) {
      var s, i := UnposedIsNotTransparent(math, faults, request);
    } else if Direct(math, request).status == OK && MayFail(faults, request) {
      var s, i := LostSaveIsNotTransparent(math, faults, request);
    } else {
      forall s, i: nat | Reachable(math, faults, s) && i < |s.answered| && s.answered[i].request == request
        ensures Agrees(s.answered[i].response, Direct(math, request))
      {
        SoundUnderFaults(math, faults, s, i);
      }
    }
  }
}
