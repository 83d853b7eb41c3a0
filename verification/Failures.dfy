/** Which failed saves a state has seen, and why no others matter to it. */
module Failures {
  import opened Wrappers
  import opened ErrorCodes
  import opened Calculator
  import opened Storage
  import opened Soundness
  import opened Service
  import opened QueueProtocol
  import opened Linearizability

  /** A save under the key that the database did not commit, or reported as failed. */
  predicate FailedSave(e: Entry, key: string) {
    Saves(e, key) && !e.outcome.Committed?
  }

  ghost predicate SaveFailed(history: seq<Entry>, key: string) {
    exists i :: 0 <= i < |history| && FailedSave(history[i], key)
  }

  ghost predicate LeftFailed(table: seq<Record>, key: string) {
    exists i :: 0 <= i < |table| && table[i].key == key && table[i].status == ERROR_STORAGE
  }

  /** The keys of which some save has failed, in this process, in an earlier one, or before the first. */
  ghost function Failed(s: System): Faults {
    iset key: string | SaveFailed(History(s), key) || LeftFailed(s.origin, key)
  }

  lemma FailuresStay(history: seq<Entry>, more: seq<Entry>, key: string)
    requires SaveFailed(history, key)
    ensures SaveFailed(history + more, key)
  {
    var i :| 0 <= i < |history| && FailedSave(history[i], key);
    assert (history + more)[i] == history[i];
  }

  /** A step adds to the history what it executes. */
  lemma StepExtendsHistory(math: MathLibrary, s: System, step: Step) returns (more: seq<Entry>)
    requires Enabled(s, step)
    ensures History(Next(math, s, step)) == History(s) + more && Next(math, s, step).origin == s.origin
    ensures step.WorkerRun? ==> more == [Entry(s.worker.job.call, step.outcome, Execute(s.store, s.worker.job.call, step.outcome).1)]
  {
    more := [];
    if step.WorkerRun? {
      more := [Entry(s.worker.job.call, step.outcome, Execute(s.store, s.worker.job.call, step.outcome).1)];
    } else if !step.Boot? && !step.InitOk? {
      OnlyTheWorkerTouchesTheStore(math, s, step);
    }
  }

  /** A run is also a run of the service in which only the saves that did fail may fail. */
  lemma {:induction false} RunFailsOnly(math: MathLibrary, faults: Faults, own: Faults, table: seq<Record>, steps: seq<Step>)
    requires Run(math, faults, Off(table), steps).Some?
    requires forall key :: SaveFailed(History(Run(math, faults, Off(table), steps).value), key) ==> key in own
    ensures Run(math, own, Off(table), steps) == Run(math, faults, Off(table), steps)
    ensures Run(math, faults, Off(table), steps).value.origin == table
  {
    if steps != [] {
      var front, last := steps[..|steps| - 1], steps[|steps| - 1];
      var mid := Run(math, faults, Off(table), front).value;
      var more := StepExtendsHistory(math, mid, last);
      forall key | SaveFailed(History(mid), key) ensures key in own {
        FailuresStay(History(mid), more, key);
      }
      RunFailsOnly(math, faults, own, table, front);
      if last.WorkerRun? && mid.worker.job.call.SaveCall? && !last.outcome.Committed? {
        var key, end := mid.worker.job.call.record.key, History(mid) + more;
        assert FailedSave(end[|History(mid)|], key);
        assert SaveFailed(end, key);
      }
    }
  }

  /** A truthful table is truthful about failures left in it alone. */
  lemma TableFailsOnly(math: MathLibrary, faults: Faults, own: Faults, table: seq<Record>)
    requires TableGood(math, faults, table)
    requires forall key :: LeftFailed(table, key) ==> key in own
    ensures TableGood(math, own, table)
  {
    forall i | 0 <= i < |table| ensures Good(math, own, table[i]) {
      assert table[i].status == ERROR_STORAGE ==> LeftFailed(table, table[i].key);
    }
  }

  /** Every state is a state of the service in which only the saves that did fail may fail. */
  lemma ReachableByItsFailures(math: MathLibrary, faults: Faults, s: System)
    requires Reachable(math, faults, s)
    ensures Reachable(math, Failed(s), s)
  {
    var table, steps :| TableGood(math, faults, table) && Run(math, faults, Off(table), steps) == Some(s);
    RunFailsOnly(math, faults, Failed(s), table, steps);
    TableFailsOnly(math, faults, Failed(s), table);
  }
}
