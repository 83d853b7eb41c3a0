/** The store tells the truth in every reachable state, and so does every answer. */
module Transparency {
  import opened Wrappers
  import opened Calculator
  import opened OperationKey
  import opened Storage
  import opened Protocol
  import opened RequestHandler
  import opened Soundness
  import opened Service
  import opened QueueProtocol
  import opened Shutdown

  ghost predicate CacheGood(math: MathLibrary, faults: Faults, cache: Cache) {
    forall k | k in cache :: Good(math, faults, cache[k]) && cache[k].key == k
  }

  /**
   * Cache and table between jobs. The table never has a key the cache lacks, and the cache lacks from
   * the table only keys whose saves may fail.
   */
  ghost predicate StoreGood(math: MathLibrary, faults: Faults, store: Store) {
    && CacheGood(math, faults, store.cache)
    && TableGood(math, faults, store.table)
    && Keys(store.table) <= store.cache.Keys
    && forall k | k in store.cache && k !in faults :: k in Keys(store.table)
  }

  ghost predicate CallsGood(math: MathLibrary, faults: Faults, calls: seq<StorageCall>) {
    forall i | 0 <= i < |calls| && calls[i].SaveCall? :: Good(math, faults, calls[i].record)
  }

  ghost predicate RepliesGood(math: MathLibrary, faults: Faults, log: seq<Entry>) {
    forall i | 0 <= i < |log| :: ReplyOk(math, faults, log[i].call, log[i].reply)
  }

  predicate HasTask(n: Net) {
    n.Submitting? || n.Notifying? || n.Awaiting?
  }

  ghost predicate TasksGood(math: MathLibrary, faults: Faults, net: seq<Net>) {
    forall t | 0 <= t < |net| && HasTask(net[t]) ::
      TaskOk(math, faults, net[t].task.request, net[t].task.frame, net[t].task.call)
  }

  ghost predicate AnswersGood(math: MathLibrary, faults: Faults, answered: seq<Answered>) {
    forall i | 0 <= i < |answered| :: Explained(math, faults, answered[i].request, answered[i].response)
  }

  /** The storage of this process has been warmed up. */
  predicate Initialised(s: System) {
    !s.main.Booting? && !s.main.Aborted?
  }

  ghost predicate TruthInv(math: MathLibrary, faults: Faults, s: System) {
    && TableGood(math, faults, s.store.table)
    && (Initialised(s) ==> StoreGood(math, faults, s.store))
    && CallsGood(math, faults, s.accepted)
    && RepliesGood(math, faults, s.log)
    && TasksGood(math, faults, s.net)
    && AnswersGood(math, faults, s.answered)
  }

  lemma FindIsReliable(math: MathLibrary, faults: Faults, cache: Cache, q: Query)
    requires CacheGood(math, faults, cache)
    ensures ReplyOk(math, faults, FindCall(q), FindReply(cache, q))
  {
  }

  lemma InsertKeepsTable(math: MathLibrary, faults: Faults, table: seq<Record>, r: Record)
    requires TableGood(math, faults, table) && Good(math, faults, r)
    ensures TableGood(math, faults, Insert(table, r)) && Keys(Insert(table, r)) == Keys(table) + {r.key}
  {
    GoodHasNoNul(math, faults, r);
    InsertKeys(table, r);
  }

  /** One job keeps the store good and gets a reply its caller can rely on. */
  lemma ExecuteKeeps(math: MathLibrary, faults: Faults, store: Store, call: StorageCall, outcome: DbOutcome)
    requires StoreGood(math, faults, store) && OutcomeAllowed(faults, call, outcome)
    requires call.SaveCall? ==> Good(math, faults, call.record)
    ensures var (store', reply) := Execute(store, call, outcome);
            StoreGood(math, faults, store') && ReplyOk(math, faults, call, reply)
  {
    match call {
      case FindCall(q) => FindIsReliable(math, faults, store.cache, q);
      case SaveCall(r) => InsertKeepsTable(math, faults, store.table, r);
    }
  }

  lemma InitialiseGood(math: MathLibrary, faults: Faults, table: seq<Record>)
    requires TableGood(math, faults, table)
    ensures StoreGood(math, faults, Initialise(table))
  {
    WarmUpFromTable(table);
    var cache := Initialise(table).cache;
    forall k | k in cache ensures Good(math, faults, cache[k]) && cache[k].key == k {
      assert HasKey(table, k);
      var i :| 0 <= i < |table| && table[i].key == k;
      assert FindByKey(cache, k) == Some(table[i]);
    }
  }

  /** A started process has every row of the table in its cache, under its key, and nothing else. */
  lemma StartWarmsUp(math: MathLibrary, s: System, r: Record)
    requires Enabled(s, InitOk) && UniqueKeys(s.store.table)
    ensures var started := Next(math, s, InitOk);
            && started.store.table == s.store.table && started.store.cache.Keys == Keys(s.store.table)
            && (r in s.store.table ==> FindByKey(started.store.cache, r.key) == Some(r))
  {
    WarmUpFromTable(s.store.table);
  }

  lemma SettleKeepsTruth(math: MathLibrary, faults: Faults, s: System, t: nat, request: Request, born: nat, p: Progress)
    requires TruthInv(math, faults, s) && t < |s.net|
    requires if p.Ask? then TaskOk(math, faults, request, p.frame, p.call)
             else Explained(math, faults, request, p.response)
    ensures TruthInv(math, faults, Settle(s, t, request, born, p))
  {
  }

  lemma BeginKeepsTruth(math: MathLibrary, faults: Faults, s: System, t: nat, request: Request)
    requires TruthInv(math, faults, s) && Enabled(s, NetBegin(t, request))
    ensures TruthInv(math, faults, Next(math, s, NetBegin(t, request)))
  {
    BeginIsOk(math, faults, request);
    SettleKeepsTruth(math, faults, s, t, request, |s.answered|, Begin(request));
  }

  lemma SubmitKeepsTruth(math: MathLibrary, faults: Faults, s: System, t: nat)
    requires ProtocolInv(s) && TruthInv(math, faults, s) && Enabled(s, NetSubmit(t))
    ensures TruthInv(math, faults, Next(math, s, NetSubmit(t)))
  {
    NeverRefused(s, t);
    var task := s.net[t].task;
    if task.call.SaveCall? {
      SavedRecordIsGood(math, faults, task.request, task.frame, task.call);
    }
  }

  lemma ResumeKeepsTruth(math: MathLibrary, faults: Faults, s: System, t: nat)
    requires Commutes(math) && ProtocolInv(s) && TruthInv(math, faults, s) && Enabled(s, NetResume(t))
    ensures TruthInv(math, faults, Next(math, s, NetResume(t)))
  {
    var task, reply := s.net[t].task, s.promises[s.net[t].ticket];
    ResumeIsOk(math, faults, task.request, task.frame, task.call, reply);
    SettleKeepsTruth(math, faults, s, t, task.request, task.born, Resume(math, task.frame, reply));
  }

  lemma RunJobKeepsTruth(math: MathLibrary, faults: Faults, s: System, outcome: DbOutcome)
    requires ProtocolInv(s) && TruthInv(math, faults, s) && s.worker.Running? && OutcomeAllowed(faults, s.worker.job.call, outcome)
    ensures TruthInv(math, faults, RunJob(s, outcome))
  {
    assert s.worker.job.call == s.accepted[|s.log|];
    ExecuteKeeps(math, faults, s.store, s.worker.job.call, outcome);
  }

  lemma ThreadStepKeepsTruth(math: MathLibrary, faults: Faults, s: System, step: Step)
    requires TruthInv(math, faults, s) && Enabled(s, step)
    requires step.NetNotify? || step.NetLeave?
    ensures TruthInv(math, faults, Next(math, s, step))
  {
  }

  /** Steps of the main thread, the signal and waking up change neither store, calls, tasks nor answers. */
  lemma MainStepKeepsTruth(math: MathLibrary, faults: Faults, s: System, step: Step)
    requires TruthInv(math, faults, s) && Enabled(s, step)
    requires !step.NetBegin? && !step.NetSubmit? && !step.NetResume? && !step.NetNotify? && !step.NetLeave?
    requires !step.WorkerRun? && !step.InitOk?
    ensures TruthInv(math, faults, Next(math, s, step))
  {
    var s' := Next(math, s, step);
    assert s'.store.table == s.store.table && s'.answered == s.answered;
    assert Initialised(s') ==> Initialised(s) && s'.store == s.store;
  }

  lemma TruthKept(math: MathLibrary, faults: Faults, s: System, step: Step)
    requires Commutes(math) && ProtocolInv(s) && TruthInv(math, faults, s) && Enabled(s, step)
    requires Permitted(faults, s, step)
    ensures TruthInv(math, faults, Next(math, s, step))
  {
    match step {
      case NetBegin(t, request) => BeginKeepsTruth(math, faults, s, t, request);
      case NetSubmit(t) => SubmitKeepsTruth(math, faults, s, t);
      case NetResume(t) => ResumeKeepsTruth(math, faults, s, t);
      case WorkerRun(outcome) => RunJobKeepsTruth(math, faults, s, outcome);
      case InitOk => InitialiseGood(math, faults, s.store.table);
      case NetNotify(_) => ThreadStepKeepsTruth(math, faults, s, step);
      case NetLeave(_) => ThreadStepKeepsTruth(math, faults, s, step);
      case _ => MainStepKeepsTruth(math, faults, s, step);
    }
  }

  lemma {:induction false} RunKeepsTruth(math: MathLibrary, faults: Faults, table: seq<Record>, steps: seq<Step>)
    requires Commutes(math) && TableGood(math, faults, table) && Run(math, faults, Off(table), steps).Some?
    ensures TruthInv(math, faults, Run(math, faults, Off(table), steps).value)
  {
    if steps != [] {
      var front, last := steps[..|steps| - 1], steps[|steps| - 1];
      RunKeepsTruth(math, faults, table, front);
      RunKeepsProtocol(math, faults, Off(table), front);
      TruthKept(math, faults, Run(math, faults, Off(table), front).value, last);
    }
  }

  lemma ReachableTruth(math: MathLibrary, faults: Faults, s: System)
    requires Commutes(math) && Reachable(math, faults, s)
    ensures TruthInv(math, faults, s)
  {
    var table, steps :| TableGood(math, faults, table) && Run(math, faults, Off(table), steps) == Some(s);
    RunKeepsTruth(math, faults, table, steps);
  }
}
