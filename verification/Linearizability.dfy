/** The storage behind the queue is one map: its replies, its order and its restarts. */
module Linearizability {
  import opened Wrappers
  import opened Calculator
  import opened OperationKey
  import opened Storage
  import opened Soundness
  import opened Service
  import opened QueueProtocol
  import opened Shutdown
  import opened Transparency

  /** Every lookup of the log saw the map made by the saves before it. */
  ghost predicate Linear(start: Cache, log: seq<Entry>) {
    forall i | 0 <= i < |log| && log[i].call.FindCall? ::
      log[i].reply == FindReply(Replay(start, log[..i]), log[i].call.query)
  }

  /** Replies that agree on what was found, up to which of several equal questions wrote the record. */
  predicate SameReply(a: Reply, b: Reply) {
    || a == b
    || (a.Found? && b.Found? && a.record.Some? && b.record.Some?
        && a.record.value.status == b.record.value.status && a.record.value.result == b.record.value.result)
  }

  /** A lookup under a key whose saves do not fail, or under none. */
  ghost predicate Reliable(faults: Faults, q: Query) {
    Make(q).Ok? ==> Make(q).value !in faults
  }

  ghost predicate AgreesWithMap(faults: Faults, start: Cache, history: seq<Entry>) {
    forall i | 0 <= i < |history| && history[i].call.FindCall? && Reliable(faults, history[i].call.query) ::
      SameReply(history[i].reply, FindReply(Replay(start, history[..i]), history[i].call.query))
  }

  function History(s: System): seq<Entry> {
    s.past + s.log
  }

  ghost predicate LinearInv(s: System) {
    && (!Initialised(s) ==> s.log == [])
    && (Initialised(s) ==> s.store.cache == Replay(s.warm, s.log))
    && Linear(s.warm, s.log)
  }

  /** The one map that starts with the first table and is never restarted. */
  function MapOf(s: System): Cache {
    Replay(Initialise(s.origin).cache, History(s))
  }

  /** The table, and so the cache, has the keys of that map, but for keys whose saves may fail. */
  ghost predicate MapInv(math: MathLibrary, faults: Faults, s: System) {
    && CacheGood(math, faults, MapOf(s))
    && (forall k | k !in faults :: k in Keys(s.store.table) <==> k in MapOf(s))
    && AgreesWithMap(faults, Initialise(s.origin).cache, History(s))
  }

  lemma ReplayAppend(start: Cache, log: seq<Entry>, e: Entry)
    ensures Replay(start, log + [e]) == Apply(Replay(start, log), e.call)
  {
    assert (log + [e])[..|log|] == log;
  }

  lemma LinearAppend(start: Cache, log: seq<Entry>, e: Entry)
    requires Linear(start, log)
    requires e.call.FindCall? ==> e.reply == FindReply(Replay(start, log), e.call.query)
    ensures Linear(start, log + [e])
  {
    var log' := log + [e];
    forall i | 0 <= i < |log'| && log'[i].call.FindCall?
      ensures log'[i].reply == FindReply(Replay(start, log'[..i]), log'[i].call.query)
    {
      assert log'[..i] == log[..i];
      assert log[..|log|] == log;
    }
  }

  lemma AgreesAppend(faults: Faults, start: Cache, history: seq<Entry>, e: Entry)
    requires AgreesWithMap(faults, start, history)
    requires e.call.FindCall? && Reliable(faults, e.call.query) ==>
               SameReply(e.reply, FindReply(Replay(start, history), e.call.query))
    ensures AgreesWithMap(faults, start, history + [e])
  {
    var history' := history + [e];
    forall i | 0 <= i < |history'| && history'[i].call.FindCall? && Reliable(faults, history'[i].call.query)
      ensures SameReply(history'[i].reply, FindReply(Replay(start, history'[..i]), history'[i].call.query))
    {
      assert history'[..i] == history[..i];
      assert history[..|history|] == history;
    }
  }

  lemma RunJobKeepsLinear(s: System, outcome: DbOutcome)
    requires ProtocolInv(s) && LinearInv(s) && s.worker.Running?
    ensures LinearInv(RunJob(s, outcome))
  {
    var call := s.worker.job.call;
    var e := Entry(call, outcome, Execute(s.store, call, outcome).1);
    ReplayAppend(s.warm, s.log, e);
    LinearAppend(s.warm, s.log, e);
  }

  lemma LinearKept(math: MathLibrary, s: System, step: Step)
    requires ProtocolInv(s) && LinearInv(s) && Enabled(s, step)
    ensures LinearInv(Next(math, s, step))
  {
    if step.WorkerRun? {
      RunJobKeepsLinear(s, step.outcome);
    } else if !step.Boot? && !step.InitOk? {
      OnlyTheWorkerTouchesTheStore(math, s, step);
    }
  }

  /** Two good maps that both have a key, or both lack it, answer its lookup alike. */
  lemma GoodMapsAgree(math: MathLibrary, faults: Faults, a: Cache, b: Cache, q: Query)
    requires Commutes(math) && CacheGood(math, faults, a) && CacheGood(math, faults, b) && Reliable(faults, q)
    requires Make(q).Ok? ==> (Make(q).value in a <==> Make(q).value in b)
    ensures SameReply(FindReply(a, q), FindReply(b, q))
  {
    if Make(q).Ok? && Make(q).value in a {
      GoodRecordsAgree(math, faults, a[Make(q).value], b[Make(q).value]);
    }
  }

  lemma SaveKeepsMap(math: MathLibrary, faults: Faults, s: System, outcome: DbOutcome)
    requires ProtocolInv(s) && TruthInv(math, faults, s) && MapInv(math, faults, s)
    requires s.worker.Running? && s.worker.job.call.SaveCall? && OutcomeAllowed(faults, s.worker.job.call, outcome)
    ensures var r, table := s.worker.job.call.record, RunJob(s, outcome).store.table;
            && CacheGood(math, faults, Put(MapOf(s), r))
            && forall k | k !in faults :: k in Keys(table) <==> k in Put(MapOf(s), r)
  {
    var r := s.worker.job.call.record;
    assert s.worker.job.call == s.accepted[|s.log|];
    GoodHasNoNul(math, faults, r);
    InsertKeys(s.store.table, r);
  }

  lemma RunJobKeepsMap(math: MathLibrary, faults: Faults, s: System, outcome: DbOutcome)
    requires Commutes(math) && ProtocolInv(s) && TruthInv(math, faults, s) && MapInv(math, faults, s)
    requires s.worker.Running? && OutcomeAllowed(faults, s.worker.job.call, outcome)
    ensures MapInv(math, faults, RunJob(s, outcome))
  {
    var call, start := s.worker.job.call, Initialise(s.origin).cache;
    var e := Entry(call, outcome, Execute(s.store, call, outcome).1);
    assert History(RunJob(s, outcome)) == History(s) + [e];
    ReplayAppend(start, History(s), e);
    if call.SaveCall? {
      SaveKeepsMap(math, faults, s, outcome);
    } else if Reliable(faults, call.query) {
      GoodMapsAgree(math, faults, s.store.cache, MapOf(s), call.query);
    }
    AgreesAppend(faults, start, History(s), e);
  }

  lemma SameHistoryKeepsMap(math: MathLibrary, faults: Faults, s: System, s': System)
    requires MapInv(math, faults, s)
    requires s'.origin == s.origin && s'.store.table == s.store.table && History(s') == History(s)
    ensures MapInv(math, faults, s')
  {
  }

  lemma MapKept(math: MathLibrary, faults: Faults, s: System, step: Step)
    requires Commutes(math) && ProtocolInv(s) && TruthInv(math, faults, s) && MapInv(math, faults, s)
    requires Enabled(s, step) && Permitted(faults, s, step)
    ensures MapInv(math, faults, Next(math, s, step))
  {
    if step.WorkerRun? {
      RunJobKeepsMap(math, faults, s, step.outcome);
    } else {
      if !step.Boot? && !step.InitOk? {
        OnlyTheWorkerTouchesTheStore(math, s, step);
      }
      SameHistoryKeepsMap(math, faults, s, Next(math, s, step));
    }
  }

  lemma {:induction false} RunKeepsLinear(math: MathLibrary, faults: Faults, table: seq<Record>, steps: seq<Step>)
    requires Run(math, faults, Off(table), steps).Some?
    ensures LinearInv(Run(math, faults, Off(table), steps).value)
  {
    if steps != [] {
      var front := steps[..|steps| - 1];
      RunKeepsLinear(math, faults, table, front);
      RunKeepsProtocol(math, faults, Off(table), front);
      LinearKept(math, Run(math, faults, Off(table), front).value, steps[|steps| - 1]);
    }
  }

  lemma {:induction false} RunKeepsMap(math: MathLibrary, faults: Faults, table: seq<Record>, steps: seq<Step>)
    requires Commutes(math) && TableGood(math, faults, table) && Run(math, faults, Off(table), steps).Some?
    ensures MapInv(math, faults, Run(math, faults, Off(table), steps).value)
  {
    if steps == [] {
      InitialiseGood(math, faults, table);
      WarmUpFromTable(table);
    } else {
      var front, last := steps[..|steps| - 1], steps[|steps| - 1];
      RunKeepsMap(math, faults, table, front);
      RunKeepsProtocol(math, faults, Off(table), front);
      RunKeepsTruth(math, faults, table, front);
      MapKept(math, faults, Run(math, faults, Off(table), front).value, last);
    }
  }

  /**
   * Storage calls are linearizable, faults or not: in worker order, the lookup of ticket `t` returns
   * the record of the latest save of its key before it, or what the warmed-up cache held.
   */
  lemma LookupSeesLatestSave(math: MathLibrary, faults: Faults, s: System, t: nat, key: string)
    requires Reachable(math, faults, s)
    requires t < |s.log| && s.log[t].call.FindCall? && Make(s.log[t].call.query) == Ok(key)
    ensures NoSave(s.log[..t], 0, key) ==> s.log[t].reply == Found(FindByKey(s.warm, key))
    ensures forall i | 0 <= i < t && Saves(s.log[i], key) && NoSave(s.log[..t], i + 1, key) ::
              s.log[t].reply == Found(Some(s.log[i].call.record))
  {
    var table, steps :| TableGood(math, faults, table) && Run(math, faults, Off(table), steps) == Some(s);
    RunKeepsLinear(math, faults, table, steps);
    var before := s.log[..t];
    assert s.log[t].reply == Found(FindByKey(Replay(s.warm, before), key));
    if NoSave(before, 0, key) {
      ReplayKeepsOthers(s.warm, before, key);
    }
    forall i | 0 <= i < t && Saves(s.log[i], key) && NoSave(before, i + 1, key)
      ensures s.log[t].reply == Found(Some(s.log[i].call.record))
    {
      assert before[i] == s.log[i];
      ReplayHoldsLatestSave(s.warm, before, i, key);
    }
  }

  /** What has been accepted and executed is never taken back within a process. */
  lemma {:induction false} HistoriesGrow(math: MathLibrary, faults: Faults, s: System, steps: seq<Step>)
    requires Run(math, faults, s, steps).Some? && NoBoot(steps) && ProtocolInv(s)
    ensures var s' := Run(math, faults, s, steps).value;
            s.accepted <= s'.accepted && s.log <= s'.log && (Initialised(s) ==> s.warm == s'.warm && Initialised(s'))
  {
    if steps != [] {
      var front, last := steps[..|steps| - 1], steps[|steps| - 1];
      assert last in steps;
      HistoriesGrow(math, faults, s, front);
      var mid := Run(math, faults, s, front).value;
      RunKeepsProtocol(math, faults, s, front);
      if !last.InitOk? && !last.WorkerRun? {
        OnlyTheWorkerTouchesTheStore(math, mid, last);
      }
    }
  }

  /**
   * Worker order respects real time: a call that had returned when another was submitted has the
   * smaller ticket, so it is executed earlier.
   */
  lemma RealTimeOrder(math: MathLibrary, faults: Faults, s: System, steps: seq<Step>, t: nat, u: nat)
    requires Reachable(math, faults, s) && Run(math, faults, s, steps).Some? && NoBoot(steps)
    requires t in s.promises && |s.accepted| <= u
    requires u in Run(math, faults, s, steps).value.promises
    ensures t < |s.log| <= u && s.log <= Run(math, faults, s, steps).value.log
  {
    ReachableProtocol(math, faults, s);
    RunKeepsProtocol(math, faults, s, steps);
    HistoriesGrow(math, faults, s, steps);
  }

  /**
   * Over any number of restarts, every lookup ever answered under a key whose saves do not fail is
   * answered as by a single in-memory map that started with the first table, executed the same calls
   * and was never restarted.
   */
  lemma SameAsInMemoryMap(math: MathLibrary, faults: Faults, s: System)
    requires Commutes(math) && Reachable(math, faults, s)
    ensures AgreesWithMap(faults, Initialise(s.origin).cache, s.past + s.log)
    ensures Initialised(s) ==> forall q | Reliable(faults, q) ::
              SameReply(FindReply(s.store.cache, q), FindReply(Replay(Initialise(s.origin).cache, s.past + s.log), q))
  {
    var table, steps :| TableGood(math, faults, table) && Run(math, faults, Off(table), steps) == Some(s);
    RunKeepsMap(math, faults, table, steps);
    RunKeepsTruth(math, faults, table, steps);
    if Initialised(s) {
      forall q | Reliable(faults, q) ensures SameReply(FindReply(s.store.cache, q), FindReply(MapOf(s), q)) {
        GoodMapsAgree(math, faults, s.store.cache, MapOf(s), q);
      }
    }
  }

  /**
   * Restart equivalence: although the cache keeps the last writer and the table the first, warming
   * up from the table answers every lookup as the running cache does, unless saves of its key fail.
   */
  lemma RestartEquivalence(math: MathLibrary, faults: Faults, s: System, q: Query)
    requires Commutes(math) && Reachable(math, faults, s) && Initialised(s) && Reliable(faults, q)
    ensures SameReply(FindReply(s.store.cache, q), FindReply(Initialise(s.store.table).cache, q))
  {
    ReachableTruth(math, faults, s);
    InitialiseGood(math, faults, s.store.table);
    GoodMapsAgree(math, faults, s.store.cache, Initialise(s.store.table).cache, q);
  }

  /** The table never holds a key the cache lacks, and lacks none the cache holds unless its saves fail. */
  lemma Containment(math: MathLibrary, faults: Faults, s: System)
    requires Commutes(math) && Reachable(math, faults, s) && Initialised(s)
    ensures Keys(s.store.table) <= s.store.cache.Keys && UniqueKeys(s.store.table)
    ensures forall k | k in s.store.cache && k !in faults :: k in Keys(s.store.table)
  {
    ReachableTruth(math, faults, s);
  }

  /** Under any faults cache keys and table rows never disappear while a process lives. */
  lemma {:induction false} StoreOnlyGrows(math: MathLibrary, faults: Faults, s: System, steps: seq<Step>)
    requires ProtocolInv(s) && Initialised(s) && Run(math, faults, s, steps).Some? && NoBoot(steps)
    ensures s.store.cache.Keys <= Run(math, faults, s, steps).value.store.cache.Keys
    ensures s.store.table <= Run(math, faults, s, steps).value.store.table
  {
    if steps != [] {
      var front, last := steps[..|steps| - 1], steps[|steps| - 1];
      assert last in steps;
      StoreOnlyGrows(math, faults, s, front);
      HistoriesGrow(math, faults, s, front);
      var mid := Run(math, faults, s, front).value;
      if !last.InitOk? && !last.WorkerRun? {
        OnlyTheWorkerTouchesTheStore(math, mid, last);
      }
    }
  }
}
