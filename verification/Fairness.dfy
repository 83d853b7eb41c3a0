/** Endless runs in which every thread gets its turn, and why each of them shuts down. */
module Fairness {
  import opened Wrappers
  import opened Calculator
  import opened Storage
  import opened Service
  import opened QueueProtocol
  import opened Shutdown

  /**
   * An endless run of one process. Nothing may happen for a while, or for ever: fairness decides how
   * long.
   */
  ghost predicate Behaviour(math: MathLibrary, faults: Faults, run: nat -> System, taken: nat -> Option<Step>) {
    forall i: nat :: Follows(math, faults, run(i), taken(i), run(i + 1))
  }

  ghost predicate Follows(math: MathLibrary, faults: Faults, s: System, taken: Option<Step>, s': System) {
    match taken
    case None => s' == s
    case Some(step) => Enabled(s, step) && Permitted(faults, s, step) && !step.Boot? && s' == Next(math, s, step)
  }

  ghost predicate CanStep(s: System, p: Thread) {
    exists step :: Enabled(s, step) && Of(p, step)
  }

  /** At `j`, the thread takes a step or has none to take. */
  ghost predicate Served(run: nat -> System, taken: nat -> Option<Step>, p: Thread, j: nat) {
    !CanStep(run(j), p) || (taken(j).Some? && Of(p, taken(j).value))
  }

  ghost predicate ServedAfter(run: nat -> System, taken: nat -> Option<Step>, p: Thread, i: nat) {
    exists j: nat :: i <= j && Served(run, taken, p, j)
  }

  /**
   * Weak fairness: no thread, be it the main, the signal, the worker or a network thread, can step
   * for ever without stepping. Requests, signals and spurious wakeups owe nothing.
   */
  ghost predicate WeaklyFair(run: nat -> System, taken: nat -> Option<Step>) {
    forall p, i: nat :: ServedAfter(run, taken, p, i)
  }

  predicate Over(s: System) {
    s.main.Finished? || s.main.Aborted?
  }

  /** How far the main thread of a signalled service is from having stopped the network. */
  function Stage(s: System): nat {
    match s.main
    case Booting => 5
    case Starting => 4
    case AwaitSignal => 3
    case CheckSignal => 2
    case StopNetwork => 1
    case _ => 0
  }

  /** The work left after that, where a worker that only wakes and sleeps again gets nowhere. */
  function Rest(s: System): nat {
    if IoStopped(s.main) then Work(s) + (if s.worker.Asleep? then 1 else 0) else 0
  }

  predicate Closer(s': System, s: System) {
    Stage(s') < Stage(s) || (Stage(s') == Stage(s) && Rest(s') < Rest(s))
  }

  predicate AsFar(s': System, s: System) {
    Stage(s') == Stage(s) && Rest(s') == Rest(s)
  }

  /** Once the network is being joined it stays so, and only a worker that finds nothing falls asleep. */
  lemma StoppingStays(math: MathLibrary, s: System, step: Step)
    requires ProtocolInv(s) && s.signalled && IoStopped(s.main) && Enabled(s, step) && !step.Boot?
    ensures IoStopped(Next(math, s, step).main) && (IsEnvironment(step) ==> step.WorkerSpurious?)
    ensures Next(math, s, step).worker.Asleep? && !s.worker.Asleep? ==> step.WorkerDecide?
  {
  }

  lemma TurningOver(s: System, worker: Worker)
    requires IoStopped(s.main) && (s.worker.Asleep? || s.worker.Checking?) && (worker.Asleep? || worker.Checking?)
    ensures AsFar(s.(worker := worker), s)
  {
  }

  /** Each step then helps, but for a worker turning over in its sleep. */
  lemma StoppingStep(math: MathLibrary, s: System, step: Step)
    requires ProtocolInv(s) && s.signalled && IoStopped(s.main) && Enabled(s, step) && !step.Boot?
    ensures var s' := Next(math, s, step);
            || Closer(s', s)
            || (AsFar(s', s) && s' == s.(worker := s'.worker)
                && if step.WorkerSpurious? then s.worker.Asleep? else step.WorkerDecide? && s.jobs == [] && !s.stopping)
  {
    if step.WorkerSpurious? || (step.WorkerDecide? && DecideStep(s).worker.Asleep?) {
      TurningOver(s, Next(math, s, step).worker);
    } else {
      StoppingStays(math, s, step);
      StepCost(math, s, step);
    }
  }

  /** Steps before that: unless the main thread moves on, they do not matter. */
  lemma EarlyStep(math: MathLibrary, s: System, step: Step)
    requires ProtocolInv(s) && s.signalled && !IoStopped(s.main) && !Over(s) && Enabled(s, step) && !step.Boot?
    ensures var s' := Next(math, s, step);
            Closer(s', s) || (AsFar(s', s) && s'.main == s.main)
  {
  }

  lemma SignalStays(math: MathLibrary, s: System, step: Step)
    requires s.signalled && Enabled(s, step) && !step.Boot?
    ensures Next(math, s, step).signalled
  {
  }

  /** Whoever steps, the service gets closer to its end or a helpful thread stays helpful. */
  lemma HelpStays(math: MathLibrary, s: System, p: Thread, step: Step)
    requires ProtocolInv(s) && s.signalled && Helpful(s, p) && Enabled(s, step) && !step.Boot?
    ensures var s' := Next(math, s, step); Closer(s', s) || (AsFar(s', s) && Helpful(s', p))
  {
    if IoStopped(s.main) {
      StoppingStep(math, s, step);
    } else {
      EarlyStep(math, s, step);
    }
  }

  /** A step of a helpful thread gets the service closer to its end. */
  lemma HelpHelps(math: MathLibrary, s: System, p: Thread, step: Step)
    requires ProtocolInv(s) && s.signalled && Helpful(s, p) && Enabled(s, step) && Of(p, step)
    ensures Closer(Next(math, s, step), s)
  {
    if IoStopped(s.main) {
      StoppingStep(math, s, step);
    } else {
      EarlyStep(math, s, step);
    }
  }

  /** The next time a helpful thread is served, the service has got closer to its end. */
  lemma {:induction false} HelpArrives(
    math: MathLibrary, faults: Faults, run: nat -> System, taken: nat -> Option<Step>, p: Thread, i: nat, j: nat)
    returns (k: nat)
    requires Behaviour(math, faults, run, taken) && i <= j && Served(run, taken, p, j)
    requires ProtocolInv(run(i)) && run(i).signalled && Helpful(run(i), p)
    ensures i < k && Closer(run(k), run(i)) && ProtocolInv(run(k)) && run(k).signalled
    decreases j - i
  {
    assert Follows(math, faults, run(i), taken(i), run(i + 1));
    if taken(i).Some? {
      ProtocolKept(math, run(i), taken(i).value);
      SignalStays(math, run(i), taken(i).value);
      HelpStays(math, run(i), p, taken(i).value);
    }
    k := i + 1;
    if i == j {
      var step := HelpfulCanStep(run(i), p);
      assert CanStep(run(i), p);
      HelpHelps(math, run(i), p, taken(i).value);
    } else if !Closer(run(k), run(i)) {
      k := HelpArrives(math, faults, run, taken, p, i + 1, j);
    }
  }

  lemma {:induction false} FairRunsEnd(
    math: MathLibrary, faults: Faults, run: nat -> System, taken: nat -> Option<Step>, i: nat)
    returns (n: nat)
    requires Behaviour(math, faults, run, taken) && WeaklyFair(run, taken)
    requires ProtocolInv(run(i)) && run(i).signalled
    ensures i <= n && Over(run(n)) && ProtocolInv(run(n))
    decreases Stage(run(i)), Rest(run(i))
  {
    if Over(run(i)) {
      n := i;
    } else {
      var p := SomeoneHelps(run(i));
      assert ServedAfter(run, taken, p, i);
      var j: nat :| i <= j && Served(run, taken, p, j);
      var k := HelpArrives(math, faults, run, taken, p, i, j);
      n := FairRunsEnd(math, faults, run, taken, k);
    }
  }

  lemma OverIsFinal(math: MathLibrary, s: System, step: Step)
    requires ProtocolInv(s) && Over(s) && Enabled(s, step) && !step.Boot?
    ensures step.SignalNotify? && Next(math, s, step).main == s.main
  {
  }

  lemma {:induction false} OverStays(
    math: MathLibrary, faults: Faults, run: nat -> System, taken: nat -> Option<Step>, n: nat, m: nat)
    requires Behaviour(math, faults, run, taken) && n <= m && Over(run(n)) && ProtocolInv(run(n))
    ensures Over(run(m)) && ProtocolInv(run(m))
    decreases m
  {
    if n < m {
      OverStays(math, faults, run, taken, n, m - 1);
      assert Follows(math, faults, run(m - 1), taken(m - 1), run(m - 1 + 1));
      if taken(m - 1).Some? {
        ProtocolKept(math, run(m - 1), taken(m - 1).value);
        OverIsFinal(math, run(m - 1), taken(m - 1).value);
      }
    }
  }

  /**
   * Shutdown always completes: every endless run from a reachable state after the signal in which
   * each thread gets its turn ends `run` for good, with all threads gone, the queue drained and every
   * accepted call executed and answered, whatever requests, spurious wakeups and failed saves come in
   * between.
   */
  lemma FairShutdown(math: MathLibrary, faults: Faults, run: nat -> System, taken: nat -> Option<Step>) returns (n: nat)
    requires Reachable(math, faults, run(0)) && run(0).signalled
    requires Behaviour(math, faults, run, taken) && WeaklyFair(run, taken)
    ensures forall m: nat | n <= m :: Over(run(m)) && Quiet(run(m))
  {
    ReachableProtocol(math, faults, run(0));
    n := FairRunsEnd(math, faults, run, taken, 0);
    forall m: nat | n <= m ensures Over(run(m)) && Quiet(run(m)) {
      OverStays(math, faults, run, taken, n, m);
    }
  }

  // There are such runs, from every state after the signal.

  lemma {:induction false} PrefixRuns(math: MathLibrary, faults: Faults, s: System, steps: seq<Step>, i: nat)
    requires Run(math, faults, s, steps).Some? && i <= |steps|
    ensures Run(math, faults, s, steps[..i]).Some?
    decreases |steps|
  {
    if i < |steps| {
      var front := steps[..|steps| - 1];
      PrefixRuns(math, faults, s, front, i);
      assert front[..i] == steps[..i];
    } else {
      assert steps[..i] == steps;
    }
  }

  lemma SilentWhenOver(math: MathLibrary, s: System)
    requires ProtocolInv(s) && Over(s) && !s.signal.SignalNotifying?
    ensures forall p :: !CanStep(s, p)
  {
    forall step | Enabled(s, step) && !step.Boot? ensures false {
      OverIsFinal(math, s, step);
    }
  }

  /** A schedule that ends with all threads done. */
  lemma SilentEnd(math: MathLibrary, faults: Faults, s: System) returns (steps: seq<Step>)
    requires ProtocolInv(s) && s.signalled
    ensures Run(math, faults, s, steps).Some? && NoBoot(steps)
    ensures forall p :: !CanStep(Run(math, faults, s, steps).value, p)
  {
    steps := ShutdownFrom(math, faults, s);
    RunKeepsProtocol(math, faults, s, steps);
    var end := Run(math, faults, s, steps).value;
    if end.signal.SignalNotifying? {
      var front := steps;
      steps := front + [SignalNotify];
      assert steps[..|steps| - 1] == front;
      ProtocolKept(math, end, SignalNotify);
      OverIsFinal(math, end, SignalNotify);
      end := Next(math, end, SignalNotify);
    }
    SilentWhenOver(math, end);
  }

  /** The state after the first `i` steps of a schedule, and its last state from then on. */
  ghost function StateAt(math: MathLibrary, faults: Faults, s: System, steps: seq<Step>, i: nat): System
    requires Run(math, faults, s, steps).Some?
  {
    var n := if i < |steps| then i else |steps|;
    PrefixRuns(math, faults, s, steps, n);
    Run(math, faults, s, steps[..n]).value
  }

  function TakenAt(steps: seq<Step>, i: nat): Option<Step> {
    if i < |steps| then Some(steps[i]) else None
  }

  lemma ScheduleFollows(math: MathLibrary, faults: Faults, s: System, steps: seq<Step>, i: nat)
    requires Run(math, faults, s, steps).Some? && NoBoot(steps)
    ensures Follows(math, faults, StateAt(math, faults, s, steps, i), TakenAt(steps, i), StateAt(math, faults, s, steps, i + 1))
  {
    if i < |steps| {
      assert steps[..i + 1][..i] == steps[..i];
      PrefixRuns(math, faults, s, steps, i + 1);
    }
  }

  /** The schedule, step by step, and silence afterwards. */
  lemma FairRunExists(math: MathLibrary, faults: Faults, s: System) returns (run: nat -> System, taken: nat -> Option<Step>)
    requires ProtocolInv(s) && s.signalled
    ensures run(0) == s && Behaviour(math, faults, run, taken) && WeaklyFair(run, taken)
  {
    var steps := SilentEnd(math, faults, s);
    run, taken := (i: nat) => StateAt(math, faults, s, steps, i), (i: nat) => TakenAt(steps, i);
    assert steps[..0] == [] && steps[..|steps|] == steps;
    forall i: nat ensures Follows(math, faults, run(i), taken(i), run(i + 1)) {
      ScheduleFollows(math, faults, s, steps, i);
    }
    forall p, i: nat ensures ServedAfter(run, taken, p, i) {
      var j := i + |steps|;
      assert run(j) == Run(math, faults, s, steps).value;
      assert Served(run, taken, p, j);
    }
  }
}
