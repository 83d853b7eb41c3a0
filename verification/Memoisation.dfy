/** Once answered, always cached: across threads, swapped operands and restarts. */
module Memoisation {
  import opened Wrappers
  import opened ErrorCodes
  import opened Calculator
  import opened OperationKey
  import opened Storage
  import opened Protocol
  import opened RequestHandler
  import opened Soundness
  import opened Service
  import opened QueueProtocol
  import opened Shutdown
  import opened Transparency

  predicate Calculated(a: Answered) {
    a.response.Response? && a.response.source == Some(CALCULATED)
  }

  /**
   * The answer leaves its question in the table: it was calculated, so its save was acknowledged, or
   * the checker let it pass and saves of its key do not fail. The second covers calculation errors.
   */
  ghost predicate Remembered(faults: Faults, a: Answered) {
    Calculated(a) || (Accepted(a.request) && !MayFail(faults, a.request))
  }

  /** Among the first `n` answers, one was remembered for a request with the same key. */
  ghost predicate Known(faults: Faults, answered: seq<Answered>, n: nat, request: Request) {
    exists i :: 0 <= i < n && i < |answered| && Remembered(faults, answered[i])
                && KeyOf(request).Some? && KeyOf(answered[i].request) == KeyOf(request)
  }

  /** The key a storage reply shows to be in the table. */
  ghost predicate Shows(faults: Faults, e: Entry, key: string) {
    match e.call
    case SaveCall(r) => e.reply.Saved? && key == r.key
    case FindCall(q) => e.reply.Found? && e.reply.record.Some? && Make(q) == Ok(key) && key !in faults
  }

  /** Acknowledged saves are in the table, and so is what was found under a key whose saves do not fail. */
  ghost predicate ShownInTable(faults: Faults, table: seq<Record>, log: seq<Entry>) {
    forall i, key | 0 <= i < |log| && Shows(faults, log[i], key) :: key in Keys(table)
  }

  /** So are the keys of remembered answers. */
  ghost predicate RememberedInTable(faults: Faults, table: seq<Record>, answered: seq<Answered>) {
    forall i | 0 <= i < |answered| && Remembered(faults, answered[i]) :: InTable(table, answered[i])
  }

  ghost predicate InTable(table: seq<Record>, a: Answered) {
    && KeyOf(a.request).Some? && KeyOf(a.request).value in Keys(table)
    && (Calculated(a) ==> a.response.status == OK)
  }

  /** A request born after its question was answered is still at its lookup, and the lookup hits. */
  ghost predicate WillHit(faults: Faults, answered: seq<Answered>, log: seq<Entry>, n: Net)
    requires HasTask(n)
  {
    && n.task.born <= |answered|
    && (Known(faults, answered, n.task.born, n.task.request) ==>
          && n.task.frame.LookingUp?
          && (HasTicket(n) && n.ticket < |log| ==> log[n.ticket].reply.Found? && log[n.ticket].reply.record.Some?))
  }

  ghost predicate LookupsHit(faults: Faults, answered: seq<Answered>, log: seq<Entry>, net: seq<Net>) {
    forall t | 0 <= t < |net| && HasTask(net[t]) :: WillHit(faults, answered, log, net[t])
  }

  ghost predicate AnswersHit(faults: Faults, answered: seq<Answered>) {
    forall j | 0 <= j < |answered| ::
      && answered[j].born <= j
      && (Known(faults, answered, answered[j].born, answered[j].request) ==> FromCache(answered[j].response))
  }

  ghost predicate MemoInv(faults: Faults, s: System) {
    && ShownInTable(faults, s.store.table, s.log)
    && RememberedInTable(faults, s.store.table, s.answered)
    && LookupsHit(faults, s.answered, s.log, s.net)
    && AnswersHit(faults, s.answered)
  }

  lemma KnownIsStable(faults: Faults, answered: seq<Answered>, a: Answered, n: nat, request: Request)
    requires n <= |answered|
    ensures Known(faults, answered + [a], n, request) <==> Known(faults, answered, n, request)
  {
    if Known(faults, answered, n, request) {
      var i :| 0 <= i < n && i < |answered| && Remembered(faults, answered[i])
        && KeyOf(request).Some? && KeyOf(answered[i].request) == KeyOf(request);
      assert (answered + [a])[i] == answered[i];
    }
  }

  lemma AskKeepsMemo(faults: Faults, s: System, t: nat, request: Request, born: nat, p: Progress)
    requires MemoInv(faults, s) && t < |s.net| && p.Ask? && born <= |s.answered|
    requires Known(faults, s.answered, born, request) ==> p.frame.LookingUp?
    ensures MemoInv(faults, Settle(s, t, request, born, p))
  {
  }

  lemma AnswerKeepsMemo(faults: Faults, s: System, t: nat, request: Request, born: nat, p: Progress)
    requires MemoInv(faults, s) && t < |s.net| && p.Answer? && born <= |s.answered|
    requires Known(faults, s.answered, born, request) ==> FromCache(p.response)
    requires var a := Answered(request, p.response, born); Remembered(faults, a) ==> InTable(s.store.table, a)
    ensures MemoInv(faults, Settle(s, t, request, born, p))
  {
    var a := Answered(request, p.response, born);
    var answered' := s.answered + [a];
    forall j | 0 <= j < |answered'|
      ensures answered'[j].born <= j && (Known(faults, answered', answered'[j].born, answered'[j].request) ==> FromCache(answered'[j].response))
    {
      KnownIsStable(faults, s.answered, a, answered'[j].born, answered'[j].request);
    }
    var s' := Settle(s, t, request, born, p);
    forall u | 0 <= u < |s'.net| && HasTask(s'.net[u]) ensures WillHit(faults, answered', s.log, s'.net[u]) {
      KnownIsStable(faults, s.answered, a, s'.net[u].task.born, s'.net[u].task.request);
    }
  }

  /** A remembered answer comes with a reply that shows its key; a known question is answered from the cache. */
  lemma ResumeFacts(math: MathLibrary, faults: Faults, a: Answered, frame: Frame, e: Entry)
    requires TaskOk(math, faults, a.request, frame, e.call) && ReplyOk(math, faults, e.call, e.reply)
    requires Resume(math, frame, e.reply) == Answer(a.response) && Remembered(faults, a)
    ensures KeyOf(a.request).Some? && Shows(faults, e, KeyOf(a.request).value)
    ensures Calculated(a) ==> a.response.status == OK
  {
    if e.call.SaveCall? {
      SavedRecordIsGood(math, faults, a.request, frame, e.call);
      if frame.Storing? && e.reply.Threw? {
        CaughtIsOk(math, faults, a.request, frame.data, ERROR_STORAGE);
      }
    } else if e.reply.Threw? {
      QuestionFacts(math, a.request);
    } else if e.reply.record.None? {
      MissIsOk(math, faults, a.request);
    }
  }

  lemma ResumeKeepsMemo(math: MathLibrary, faults: Faults, s: System, t: nat)
    requires ProtocolInv(s) && TruthInv(math, faults, s) && MemoInv(faults, s) && Enabled(s, NetResume(t))
    ensures MemoInv(faults, Next(math, s, NetResume(t)))
  {
    var task, ticket := s.net[t].task, s.net[t].ticket;
    var e := s.log[ticket];
    assert s.promises[ticket] == e.reply && e.call == task.call;
    assert WillHit(faults, s.answered, s.log, s.net[t]);
    var p := Resume(math, task.frame, e.reply);
    if p.Ask? {
      AskKeepsMemo(faults, s, t, task.request, task.born, p);
    } else {
      var a := Answered(task.request, p.response, task.born);
      if Remembered(faults, a) {
        ResumeFacts(math, faults, a, task.frame, e);
      }
      if Known(faults, s.answered, task.born, task.request) {
        CachedAnswerIsFaithful(math, faults, e.reply.record.value);
      }
      AnswerKeepsMemo(faults, s, t, task.request, task.born, p);
    }
  }

  lemma BeginKeepsMemo(math: MathLibrary, faults: Faults, s: System, t: nat, request: Request)
    requires MemoInv(faults, s) && Enabled(s, NetBegin(t, request))
    ensures MemoInv(faults, Next(math, s, NetBegin(t, request)))
  {
    BeginIsOk(math, faults, request);
    var p := Begin(request);
    if p.Ask? {
      AskKeepsMemo(faults, s, t, request, |s.answered|, p);
    } else {
      assert KeyOf(request).None?;
      AnswerKeepsMemo(faults, s, t, request, |s.answered|, p);
    }
  }

  lemma SubmitKeepsMemo(math: MathLibrary, faults: Faults, s: System, t: nat)
    requires ProtocolInv(s) && MemoInv(faults, s) && Enabled(s, NetSubmit(t))
    ensures MemoInv(faults, Next(math, s, NetSubmit(t)))
  {
    NeverRefused(s, t);
    assert WillHit(faults, s.answered, s.log, s.net[t]);
  }

  /** The lookup of a known question finds a record: its key is in the table, so in the cache. */
  lemma KnownLookupHits(math: MathLibrary, faults: Faults, s: System, n: Net)
    requires TruthInv(math, faults, s) && MemoInv(faults, s) && Initialised(s)
    requires HasTask(n) && n.task.frame.LookingUp?
    requires TaskOk(math, faults, n.task.request, n.task.frame, n.task.call)
    requires Known(faults, s.answered, n.task.born, n.task.request)
    ensures n.task.call.FindCall?
    ensures FindReply(s.store.cache, n.task.call.query).Found? && FindReply(s.store.cache, n.task.call.query).record.Some?
  {
    var i :| 0 <= i < n.task.born && i < |s.answered| && Remembered(faults, s.answered[i])
      && KeyOf(n.task.request).Some? && KeyOf(s.answered[i].request) == KeyOf(n.task.request);
    assert KeyOf(n.task.request).value in Keys(s.store.table);
  }

  lemma RunJobKeepsMemo(math: MathLibrary, faults: Faults, s: System, outcome: DbOutcome)
    requires ProtocolInv(s) && TruthInv(math, faults, s) && MemoInv(faults, s) && s.worker.Running?
    ensures MemoInv(faults, RunJob(s, outcome))
  {
    var call, s' := s.worker.job.call, RunJob(s, outcome);
    assert call == s.accepted[|s.log|];
    if call.SaveCall? {
      GoodHasNoNul(math, faults, call.record);
      InsertKeys(s.store.table, call.record);
    }
    assert Keys(s.store.table) <= Keys(s'.store.table);
    forall t | 0 <= t < |s.net| && HasTask(s.net[t]) ensures WillHit(faults, s.answered, s'.log, s.net[t]) {
      var n := s.net[t];
      assert WillHit(faults, s.answered, s.log, n);
      if Known(faults, s.answered, n.task.born, n.task.request) && HasTicket(n) && n.ticket == |s.log| {
        KnownLookupHits(math, faults, s, n);
      }
    }
  }

  lemma NotifyKeepsMemo(math: MathLibrary, faults: Faults, s: System, step: Step)
    requires MemoInv(faults, s) && Enabled(s, step) && (step.NetNotify? || step.NetLeave?)
    ensures MemoInv(faults, Next(math, s, step))
  {
    assert HasTask(s.net[step.tid]) ==> WillHit(faults, s.answered, s.log, s.net[step.tid]);
  }

  lemma MemoKept(math: MathLibrary, faults: Faults, s: System, step: Step)
    requires ProtocolInv(s) && TruthInv(math, faults, s) && MemoInv(faults, s) && Enabled(s, step)
    ensures MemoInv(faults, Next(math, s, step))
  {
    match step {
      case NetBegin(t, request) => BeginKeepsMemo(math, faults, s, t, request);
      case NetSubmit(t) => SubmitKeepsMemo(math, faults, s, t);
      case NetNotify(_) => NotifyKeepsMemo(math, faults, s, step);
      case NetResume(t) => ResumeKeepsMemo(math, faults, s, t);
      case NetLeave(_) => NotifyKeepsMemo(math, faults, s, step);
      case WorkerRun(outcome) => RunJobKeepsMemo(math, faults, s, outcome);
      case _ =>
    }
  }

  lemma {:induction false} RunKeepsMemo(math: MathLibrary, faults: Faults, table: seq<Record>, steps: seq<Step>)
    requires Commutes(math) && TableGood(math, faults, table) && Run(math, faults, Off(table), steps).Some?
    ensures MemoInv(faults, Run(math, faults, Off(table), steps).value)
  {
    if steps != [] {
      var front, last := steps[..|steps| - 1], steps[|steps| - 1];
      RunKeepsMemo(math, faults, table, front);
      RunKeepsProtocol(math, faults, Off(table), front);
      RunKeepsTruth(math, faults, table, front);
      MemoKept(math, faults, Run(math, faults, Off(table), front).value, last);
    }
  }

  lemma ReachableMemo(math: MathLibrary, faults: Faults, s: System)
    requires Commutes(math) && Reachable(math, faults, s)
    ensures MemoInv(faults, s)
  {
    var table, steps :| TableGood(math, faults, table) && Run(math, faults, Off(table), steps) == Some(s);
    RunKeepsMemo(math, faults, table, steps);
  }

  /** Requests with one key have one reference answer, where the checker accepts it. */
  lemma SameKeySameDirect(math: MathLibrary, a: Request, b: Request)
    requires Commutes(math) && KeyOf(a).Some? && KeyOf(a) == KeyOf(b) && Accepted(a) && !Unposed(b)
    ensures Direct(math, b) == Direct(math, a)
  {
    QuestionFacts(math, a);
    QuestionFacts(math, b);
    SameKeySameTruth(math, Question(a), Question(b));
    AcceptedIsReported(math, a);
    AcceptedIsReported(math, b);
  }

  lemma CalculatedIsAccepted(math: MathLibrary, faults: Faults, a: Answered)
    requires Calculated(a) && Explained(math, faults, a.request, a.response) && a.response.status == OK
    ensures Accepted(a.request)
  {
    assert Agrees(a.response, Direct(math, a.request));
    SuccessIsAccepted(math, a.request);
  }

  /** The hit on an accepted question whose saves do not fail repeats the earlier answer. */
  lemma AgreeingAnswers(math: MathLibrary, faults: Faults, a: Answered, b: Answered)
    requires Commutes(math) && KeyOf(a.request).Some? && KeyOf(a.request) == KeyOf(b.request)
    requires Accepted(a.request) && !MayFail(faults, a.request) && FromCache(b.response)
    requires Explained(math, faults, a.request, a.response) && Explained(math, faults, b.request, b.response)
    ensures Agrees(b.response, a.response)
  {
    var asked := if Unposed(b.request) then FACT_OF_ZERO else b.request;
    assert KeyOf(asked) == KeyOf(b.request);
    SameKeySameDirect(math, a.request, asked);
  }

  /**
   * Memoisation takes effect: when answer `i` was remembered and a request with the same key began
   * after it, however threads interleave, saves of other keys fail and the service restarts between,
   * that request is answered from the cache.
   */
  lemma LaterRequestsHit(math: MathLibrary, faults: Faults, s: System, i: nat, j: nat)
    requires Commutes(math) && Reachable(math, faults, s)
    requires i < |s.answered| && j < |s.answered| && Remembered(faults, s.answered[i]) && i < s.answered[j].born
    requires KeyOf(s.answered[j].request).Some? && KeyOf(s.answered[i].request) == KeyOf(s.answered[j].request)
    ensures FromCache(s.answered[j].response)
  {
    ReachableMemo(math, faults, s);
    assert Known(faults, s.answered, s.answered[j].born, s.answered[j].request);
  }

  /** Where saves of the key do not fail the hit repeats the earlier answer, a value or an error. */
  lemma Memoised(math: MathLibrary, faults: Faults, s: System, i: nat, j: nat)
    requires Commutes(math) && Reachable(math, faults, s)
    requires i < |s.answered| && j < |s.answered| && Remembered(faults, s.answered[i]) && i < s.answered[j].born
    requires KeyOf(s.answered[j].request).Some? && KeyOf(s.answered[i].request) == KeyOf(s.answered[j].request)
    requires !MayFail(faults, s.answered[j].request)
    ensures FromCache(s.answered[j].response) && Agrees(s.answered[j].response, s.answered[i].response)
  {
    LaterRequestsHit(math, faults, s, i, j);
    ReachableTruth(math, faults, s);
    ReachableMemo(math, faults, s);
    if Calculated(s.answered[i]) {
      CalculatedIsAccepted(math, faults, s.answered[i]);
    }
    AgreeingAnswers(math, faults, s.answered[i], s.answered[j]);
  }

  // The same over runs, without the bookkeeping of when a request began.

  ghost predicate NobodyAsks(s: System, key: string) {
    forall t | 0 <= t < |s.net| && HasTask(s.net[t]) :: KeyOf(s.net[t].task.request) != Some(key)
  }

  /** Requests with the key that are being handled, or were answered after the first `n` answers, began after those. */
  ghost predicate BeganAfter(n: nat, key: string, s: System) {
    && n <= |s.answered|
    && (forall t | 0 <= t < |s.net| && HasTask(s.net[t]) && KeyOf(s.net[t].task.request) == Some(key) :: s.net[t].task.born >= n)
    && (forall j | n <= j < |s.answered| && KeyOf(s.answered[j].request) == Some(key) :: s.answered[j].born >= n)
  }

  lemma SettleKeepsBegan(n: nat, key: string, s: System, t: nat, request: Request, born: nat, p: Progress)
    requires BeganAfter(n, key, s) && t < |s.net| && (KeyOf(request) == Some(key) ==> born >= n)
    ensures BeganAfter(n, key, Settle(s, t, request, born, p)) && s.answered <= Settle(s, t, request, born, p).answered
  {
  }

  lemma BeganKept(math: MathLibrary, n: nat, key: string, s: System, step: Step)
    requires ProtocolInv(s) && BeganAfter(n, key, s) && Enabled(s, step)
    ensures BeganAfter(n, key, Next(math, s, step)) && s.answered <= Next(math, s, step).answered
  {
    match step {
      case NetBegin(t, request) => SettleKeepsBegan(n, key, s, t, request, |s.answered|, Begin(request));
      case NetSubmit(t) => NeverRefused(s, t);
      case NetResume(t) =>
        var task := s.net[t].task;
        SettleKeepsBegan(n, key, s, t, task.request, task.born, Resume(math, task.frame, s.promises[s.net[t].ticket]));
      case _ =>
    }
  }

  lemma {:induction false} RunKeepsBegan(math: MathLibrary, faults: Faults, n: nat, key: string, s: System, steps: seq<Step>)
    requires ProtocolInv(s) && BeganAfter(n, key, s) && Run(math, faults, s, steps).Some?
    ensures var s' := Run(math, faults, s, steps).value; BeganAfter(n, key, s') && s.answered <= s'.answered
  {
    if steps != [] {
      var front := steps[..|steps| - 1];
      RunKeepsBegan(math, faults, n, key, s, front);
      RunKeepsProtocol(math, faults, s, front);
      BeganKept(math, n, key, Run(math, faults, s, front).value, steps[|steps| - 1]);
    }
  }

  lemma {:induction false} ReachableFurther(math: MathLibrary, faults: Faults, s: System, steps: seq<Step>)
    requires Reachable(math, faults, s) && Run(math, faults, s, steps).Some?
    ensures Reachable(math, faults, Run(math, faults, s, steps).value)
  {
    if steps != [] {
      var front, last := steps[..|steps| - 1], steps[|steps| - 1];
      ReachableFurther(math, faults, s, front);
      var mid := Run(math, faults, s, front).value;
      var table, before :| TableGood(math, faults, table) && Run(math, faults, Off(table), before) == Some(mid);
      var all := before + [last];
      assert all[..|all| - 1] == before;
      assert Run(math, faults, Off(table), all) == Run(math, faults, s, steps);
    }
  }

  /**
   * Once a question has been remembered and nobody is asking it, every later request with its key, in
   * whatever run follows, restarts included, is answered from the cache, and, where saves of the key
   * do not fail, with the same answer.
   */
  lemma RememberedForGood(math: MathLibrary, faults: Faults, s: System, i: nat, key: string, steps: seq<Step>, j: nat)
    requires Commutes(math) && Reachable(math, faults, s) && i < |s.answered|
    requires Remembered(faults, s.answered[i]) && KeyOf(s.answered[i].request) == Some(key) && NobodyAsks(s, key)
    requires Run(math, faults, s, steps).Some? && |s.answered| <= j < |Run(math, faults, s, steps).value.answered|
    requires KeyOf(Run(math, faults, s, steps).value.answered[j].request) == Some(key)
    ensures var s' := Run(math, faults, s, steps).value;
            && s.answered <= s'.answered && FromCache(s'.answered[j].response)
            && (key !in faults ==> Agrees(s'.answered[j].response, s.answered[i].response))
  {
    ReachableProtocol(math, faults, s);
    RunKeepsBegan(math, faults, |s.answered|, key, s, steps);
    ReachableFurther(math, faults, s, steps);
    var s' := Run(math, faults, s, steps).value;
    assert s'.answered[i] == s.answered[i];
    LaterRequestsHit(math, faults, s', i, j);
    if key !in faults {
      Memoised(math, faults, s', i, j);
    }
  }
}
