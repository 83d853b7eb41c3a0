/** Runs of the service, exactly-once execution, and why shutdown always completes. */
module Shutdown {
  import opened Wrappers
  import opened Calculator
  import opened Storage
  import opened Queue
  import opened Protocol
  import opened RequestHandler
  import opened Soundness
  import opened Service
  import opened QueueProtocol

  lemma {:induction false} RunKeepsProtocol(math: MathLibrary, faults: Faults, s: System, steps: seq<Step>)
    requires ProtocolInv(s) && Run(math, faults, s, steps).Some?
    ensures ProtocolInv(Run(math, faults, s, steps).value)
  {
    if steps != [] {
      var front := steps[..|steps| - 1];
      RunKeepsProtocol(math, faults, s, front);
      ProtocolKept(math, Run(math, faults, s, front).value, steps[|steps| - 1]);
    }
  }

  lemma ReachableProtocol(math: MathLibrary, faults: Faults, s: System)
    requires Reachable(math, faults, s)
    ensures ProtocolInv(s)
  {
    var table, steps :| TableGood(math, faults, table) && Run(math, faults, Off(table), steps) == Some(s);
    RunKeepsProtocol(math, faults, Off(table), steps);
  }

  /** A worker with work to do, or told to stop, is never left asleep with nobody about to wake it. */
  lemma NoLostWakeup(math: MathLibrary, faults: Faults, s: System)
    requires Reachable(math, faults, s)
    requires s.worker.Asleep? && (s.jobs != [] || s.stopping)
    ensures s.main.NotifyStorage? || exists t :: 0 <= t < |s.net| && s.net[t].Notifying?
  {
    ReachableProtocol(math, faults, s);
  }

  function EntryCalls(log: seq<Entry>): (cs: seq<StorageCall>)
    ensures |cs| == |log|
  {
    seq(|log|, i requires 0 <= i < |log| => log[i].call)
  }

  function JobCalls(jobs: seq<Job>): (cs: seq<StorageCall>)
    ensures |cs| == |jobs|
  {
    seq(|jobs|, i requires 0 <= i < |jobs| => jobs[i].call)
  }

  /**
   * Accepted calls are executed once each, in order of acceptance: at any time they are the executed
   * ones, then the running one, then the queued ones. Exactly the executed ones have their promise
   * fulfilled, and a worker that has left, left nothing behind.
   */
  lemma ExactlyOnceInOrder(math: MathLibrary, faults: Faults, s: System)
    requires Reachable(math, faults, s)
    ensures s.accepted == EntryCalls(s.log) + (if s.worker.Running? then [s.worker.job.call] else []) + JobCalls(s.jobs)
    ensures forall t: nat :: t in s.promises <==> t < |s.log|
    ensures forall t: nat | t < |s.log| :: s.promises[t] == s.log[t].reply
    ensures s.worker.Exited? ==> s.jobs == [] && s.accepted == EntryCalls(s.log)
  {
    ReachableProtocol(math, faults, s);
    var running := if s.worker.Running? then [s.worker.job.call] else [];
    assert s.accepted == EntryCalls(s.log) + running + JobCalls(s.jobs);
  }

  // Progress.

  /** Steps the environment takes: a request, a signal, a spurious wakeup. */
  predicate IsEnvironment(step: Step) {
    step.NetBegin? || step.SignalArrives? || step.MainSpurious? || step.WorkerSpurious?
  }

  function NetCost(n: Net): nat {
    match n
    case Idle => 1
    case Submitting(task) => 7 * Calls(task.frame) + 1
    case Notifying(task, _) => 7 * Calls(task.frame) - 3
    case Awaiting(task, _) => 7 * Calls(task.frame) - 5
    case Left => 0
  }

  function NetCosts(net: seq<Net>): nat {
    if net == [] then 0 else NetCosts(net[..|net| - 1]) + NetCost(net[|net| - 1])
  }

  function WorkerCost(w: Worker): nat {
    match w
    case Initialising => 2
    case Checking => 1
    case Running(_) => 3
    case Asleep => 0
    case Exited => 0
  }

  function MainCost(s: System): nat {
    match s.main
    case Booting => 10 + s.threads
    case Starting => 9 + s.threads
    case CheckSignal => 8
    case AwaitSignal => 7
    case StopNetwork => 7
    case JoinNetwork => 6
    case StopStorage => 5
    case NotifyStorage => 4
    case JoinStorage => 2
    case JoinSignal => 1
    case Finished => 0
    case Aborted => 0
  }

  function SignalCost(g: Signal): nat {
    match g
    case SignalWaiting => 3
    case SignalNotifying => 2
    case SignalDone => 0
  }

  /** How far the service is from having nothing left to do. */
  function Work(s: System): nat {
    MainCost(s) + SignalCost(s.signal) + WorkerCost(s.worker) + 3 * |s.jobs| + NetCosts(s.net)
  }

  lemma {:induction false} NetCostsUpdate(net: seq<Net>, t: nat, n: Net)
    requires t < |net|
    ensures NetCosts(net[t := n]) == NetCosts(net) - NetCost(net[t]) + NetCost(n)
  {
    var net' := net[t := n];
    var front, front' := net[..|net| - 1], net'[..|net| - 1];
    if t < |net| - 1 {
      assert front' == front[t := n];
      NetCostsUpdate(front, t, n);
    } else {
      assert front' == front;
    }
  }

  lemma {:induction false} IdleCosts(n: nat)
    ensures NetCosts(seq(n, _ => Idle)) == n
  {
    if n > 0 {
      var net := seq(n, _ => Idle);
      assert net[..n - 1] == seq(n - 1, _ => Idle);
      IdleCosts(n - 1);
    }
  }

  /** The work left when a handler runs on from where thread `t` is. */
  lemma SettleCost(s: System, t: nat, request: Request, born: nat, p: Progress)
    requires t < |s.net|
    ensures var after := if p.Ask? then 7 * Calls(p.frame) + 1 else 1;
            Work(Settle(s, t, request, born, p)) == Work(s) - NetCost(s.net[t]) + after
  {
    NetCostsUpdate(s.net, t, Settle(s, t, request, born, p).net[t]);
  }

  lemma SubmitCost(math: MathLibrary, s: System, t: nat)
    requires ProtocolInv(s) && t < |s.net| && s.net[t].Submitting?
    ensures Work(Submit(math, s, t)) < Work(s)
  {
    NeverRefused(s, t);
    NetCostsUpdate(s.net, t, Notifying(s.net[t].task, |s.accepted|));
  }

  lemma NotifyCost(s: System, t: nat)
    requires t < |s.net| && s.net[t].Notifying?
    ensures var n := Awaiting(s.net[t].task, s.net[t].ticket);
            Work(s.(net := s.net[t := n], worker := Wake(s.worker))) < Work(s)
  {
    NetCostsUpdate(s.net, t, Awaiting(s.net[t].task, s.net[t].ticket));
  }

  lemma DecideCost(s: System)
    requires s.worker.Checking?
    ensures Work(DecideStep(s)) < Work(s)
  {
  }

  lemma ResumeCost(math: MathLibrary, s: System, t: nat)
    requires Enabled(s, NetResume(t))
    ensures Work(Next(math, s, NetResume(t))) < Work(s)
  {
    var task, reply := s.net[t].task, s.promises[s.net[t].ticket];
    ResumeMakesProgress(math, task.frame, reply);
    SettleCost(s, t, task.request, task.born, Resume(math, task.frame, reply));
  }

  lemma BeginCost(math: MathLibrary, s: System, t: nat, request: Request)
    requires Enabled(s, NetBegin(t, request))
    ensures Work(Next(math, s, NetBegin(t, request))) <= Work(s) + 21
  {
    SettleCost(s, t, request, |s.answered|, Begin(request));
  }

  lemma NetStepCost(math: MathLibrary, s: System, step: Step)
    requires ProtocolInv(s) && Enabled(s, step)
    requires step.NetSubmit? || step.NetNotify? || step.NetResume? || step.NetLeave?
    ensures Work(Next(math, s, step)) < Work(s)
  {
    match step {
      case NetSubmit(t) => SubmitCost(math, s, t);
      case NetResume(t) => ResumeCost(math, s, t);
      case NetNotify(t) => NotifyCost(s, t);
      case NetLeave(t) => NetCostsUpdate(s.net, t, Left);
    }
  }

  lemma MainStepCost(math: MathLibrary, s: System, step: Step)
    requires Enabled(s, step)
    requires step.MainServe? || step.MainCheck? || step.MainStopNetwork? || step.MainJoinNetwork?
             || step.MainStopStorage? || step.MainNotifyStorage? || step.MainJoinStorage? || step.MainJoinSignal?
    ensures Work(Next(math, s, step)) < Work(s)
  {
    if step.MainServe? {
      IdleCosts(s.threads);
    }
  }

  /** A step of the program itself leaves less work; a step of the environment adds at most 21. */
  lemma StepCost(math: MathLibrary, s: System, step: Step)
    requires ProtocolInv(s) && Enabled(s, step) && !step.Boot?
    ensures !IsEnvironment(step) ==> Work(Next(math, s, step)) < Work(s)
    ensures IsEnvironment(step) ==> Work(Next(math, s, step)) <= Work(s) + 21
  {
    match step {
      case NetBegin(t, request) => BeginCost(math, s, t, request);
      case NetSubmit(_) => NetStepCost(math, s, step);
      case NetNotify(_) => NetStepCost(math, s, step);
      case NetResume(_) => NetStepCost(math, s, step);
      case NetLeave(_) => NetStepCost(math, s, step);
      case WorkerDecide => DecideCost(s);
      case WorkerRun(_) =>
      case WorkerSpurious =>
      case InitOk =>
      case InitFail =>
      case SignalArrives =>
      case SignalNotify =>
      case MainSpurious =>
      case _ => MainStepCost(math, s, step);
    }
  }

  function EnvironmentSteps(steps: seq<Step>): nat {
    if steps == [] then 0
    else EnvironmentSteps(steps[..|steps| - 1]) + if IsEnvironment(steps[|steps| - 1]) then 1 else 0
  }

  predicate NoBoot(steps: seq<Step>) {
    forall i | 0 <= i < |steps| :: !steps[i].Boot?
  }

  /**
   * Within one process, the program takes no more steps of its own than the work it starts with plus
   * a fixed amount per step of the environment.
   */
  lemma {:induction false} RunsAreBounded(math: MathLibrary, faults: Faults, s: System, steps: seq<Step>)
    requires ProtocolInv(s) && Run(math, faults, s, steps).Some? && NoBoot(steps)
    ensures |steps| + Work(Run(math, faults, s, steps).value) <= Work(s) + 22 * EnvironmentSteps(steps)
  {
    if steps != [] {
      var front := steps[..|steps| - 1];
      assert steps[|steps| - 1] in steps;
      RunsAreBounded(math, faults, s, front);
      RunKeepsProtocol(math, faults, s, front);
      StepCost(math, Run(math, faults, s, front).value, steps[|steps| - 1]);
    }
  }

  datatype Thread = MainThread | SignalThread | WorkerThread | NetworkThread(tid: nat)

  /** The step is one the program takes, and the thread takes it. */
  predicate Of(p: Thread, step: Step) {
    match step
    case InitOk => p.WorkerThread?
    case InitFail => p.WorkerThread?
    case WorkerDecide => p.WorkerThread?
    case WorkerRun(_) => p.WorkerThread?
    case SignalNotify => p.SignalThread?
    case NetSubmit(t) => p == NetworkThread(t)
    case NetNotify(t) => p == NetworkThread(t)
    case NetResume(t) => p == NetworkThread(t)
    case NetLeave(t) => p == NetworkThread(t)
    case _ => p.MainThread? && !IsEnvironment(step) && !step.Boot?
  }

  /** The threads that can bring a signalled service closer to its end. */
  predicate Helpful(s: System, p: Thread) {
    match s.main
    case Booting => p.WorkerThread?
    case AwaitSignal => p.SignalThread?
    case JoinNetwork => (
      match p
      case NetworkThread(t) =>
        t < |s.net| && !s.net[t].Left? && (s.net[t].Awaiting? ==> s.net[t].ticket in s.promises)
      case WorkerThread => s.worker.Running? || (s.worker.Checking? && s.jobs != [])
      case MainThread => AllLeft(s.net)
      case SignalThread => false)
    case JoinStorage => if s.worker.Exited? then p.MainThread? else p.WorkerThread?
    case JoinSignal => if s.signal.SignalDone? then p.MainThread? else p.SignalThread?
    case Finished => false
    case Aborted => false
    case _ => p.MainThread?
  }

  /** A thread that waits for a reply is helped by the worker, or by whoever is about to wake it. */
  lemma WaiterIsHelped(s: System, t: nat) returns (p: Thread)
    requires ProtocolInv(s) && s.main.JoinNetwork? && t < |s.net| && s.net[t].Awaiting? && s.net[t].ticket !in s.promises
    ensures Helpful(s, p)
  {
    NeverRefused(s, t);
    if s.worker.Asleep? {
      assert s.jobs != [];
      var u :| 0 <= u < |s.net| && s.net[u].Notifying?;
      p := NetworkThread(u);
    } else {
      p := WorkerThread;
    }
  }

  lemma SomeoneHelps(s: System) returns (p: Thread)
    requires ProtocolInv(s) && !s.main.Finished? && !s.main.Aborted?
    ensures Helpful(s, p)
  {
    match s.main {
      case Booting => p := WorkerThread;
      case AwaitSignal => p := SignalThread;
      case JoinNetwork =>
        if AllLeft(s.net) {
          p := MainThread;
        } else {
          var t :| 0 <= t < |s.net| && !s.net[t].Left?;
          if s.net[t].Awaiting? && s.net[t].ticket !in s.promises {
            p := WaiterIsHelped(s, t);
          } else {
            p := NetworkThread(t);
          }
        }
      case JoinStorage => p := if s.worker.Exited? then MainThread else WorkerThread;
      case JoinSignal => p := if s.signal.SignalDone? then MainThread else SignalThread;
      case _ => p := MainThread;
    }
  }

  lemma NetworkCanStep(s: System, t: nat) returns (step: Step)
    requires s.main.JoinNetwork? && Helpful(s, NetworkThread(t))
    ensures Enabled(s, step) && Of(NetworkThread(t), step)
  {
    match s.net[t] {
      case Idle => step := NetLeave(t);
      case Submitting(_) => step := NetSubmit(t);
      case Notifying(_, _) => step := NetNotify(t);
      case Awaiting(_, _) => step := NetResume(t);
    }
  }

  lemma MainCanStep(s: System) returns (step: Step)
    requires ProtocolInv(s) && Helpful(s, MainThread)
    ensures Enabled(s, step) && Of(MainThread, step)
  {
    match s.main {
      case Starting => step := MainServe;
      case CheckSignal => step := MainCheck;
      case StopNetwork => step := MainStopNetwork;
      case JoinNetwork => step := MainJoinNetwork;
      case StopStorage => step := MainStopStorage;
      case NotifyStorage => step := MainNotifyStorage;
      case JoinStorage => step := MainJoinStorage;
      case JoinSignal => step := MainJoinSignal;
    }
  }

  /** A helpful thread can step, without any database fault. */
  lemma HelpfulCanStep(s: System, p: Thread) returns (step: Step)
    requires ProtocolInv(s) && s.signalled && Helpful(s, p)
    ensures Enabled(s, step) && Of(p, step) && (step.WorkerRun? ==> step.outcome.Committed?)
  {
    match p {
      case MainThread => step := MainCanStep(s);
      case SignalThread => step := SignalNotify;
      case NetworkThread(t) => step := NetworkCanStep(s, t);
      case WorkerThread =>
        step := if s.main.Booting? then InitOk else if s.worker.Running? then WorkerRun(Committed) else WorkerDecide;
    }
  }

  /** After the signal some thread of the program can always step until shutdown is complete. */
  lemma ShutdownCanProceed(s: System) returns (step: Step)
    requires ProtocolInv(s) && s.signalled && !s.main.Finished? && !s.main.Aborted?
    ensures Enabled(s, step) && !IsEnvironment(step) && !step.Boot? && (step.WorkerRun? ==> step.outcome.Committed?)
  {
    var p := SomeoneHelps(s);
    step := HelpfulCanStep(s, p);
  }

  /** Everything is over: threads gone, queue drained, every accepted call executed and answered. */
  ghost predicate Quiet(s: System) {
    && AllLeft(s.net) && s.worker.Exited? && s.jobs == []
    && |s.log| == |s.accepted|
    && forall t: nat | t < |s.accepted| :: t in s.promises
  }

  lemma {:induction false} ShutdownFrom(math: MathLibrary, faults: Faults, s: System) returns (steps: seq<Step>)
    requires ProtocolInv(s) && s.signalled
    ensures Run(math, faults, s, steps).Some? && NoBoot(steps) && EnvironmentSteps(steps) == 0
    ensures |steps| <= Work(s)
    ensures var end := Run(math, faults, s, steps).value; (end.main.Finished? || end.main.Aborted?) && Quiet(end)
    decreases Work(s)
  {
    if s.main.Finished? || s.main.Aborted? {
      steps := [];
    } else {
      var step := ShutdownCanProceed(s);
      StepCost(math, s, step);
      ProtocolKept(math, s, step);
      var rest := ShutdownFrom(math, faults, Next(math, s, step));
      steps := [step] + rest;
      RunCons(math, faults, s, step, rest);
    }
  }

  /**
   * From every reachable state after the signal there is a schedule of program steps alone, no longer
   * than the work that is left, that ends `run` with nothing lost and nobody blocked.
   */
  lemma ShutdownCompletes(math: MathLibrary, faults: Faults, s: System) returns (steps: seq<Step>)
    requires Reachable(math, faults, s) && s.signalled
    ensures Run(math, faults, s, steps).Some? && NoBoot(steps) && EnvironmentSteps(steps) == 0 && |steps| <= Work(s)
    ensures var end := Run(math, faults, s, steps).value; (end.main.Finished? || end.main.Aborted?) && Quiet(end)
  {
    ReachableProtocol(math, faults, s);
    steps := ShutdownFrom(math, faults, s);
  }

  /** After the signal, a state in which only the environment could still step is a finished one. */
  lemma StuckMeansFinished(math: MathLibrary, faults: Faults, s: System)
    requires Reachable(math, faults, s) && s.signalled
    requires forall step :: Enabled(s, step) ==> IsEnvironment(step) || step.Boot?
    ensures (s.main.Finished? || s.main.Aborted?) && Quiet(s)
  {
    ReachableProtocol(math, faults, s);
    if !s.main.Finished? && !s.main.Aborted? {
      var step := ShutdownCanProceed(s);
    }
  }

  lemma {:induction false} RunCons(math: MathLibrary, faults: Faults, s: System, step: Step, rest: seq<Step>)
    requires Enabled(s, step) && Permitted(faults, s, step) && !IsEnvironment(step)
    ensures Run(math, faults, s, [step] + rest) == Run(math, faults, Next(math, s, step), rest)
    ensures EnvironmentSteps([step] + rest) == EnvironmentSteps(rest)
  {
    var steps := [step] + rest;
    if rest == [] {
      assert steps[..0] == [];
      assert Run(math, faults, s, steps[..0]) == Some(s);
    } else {
      assert steps[..|steps| - 1] == [step] + rest[..|rest| - 1];
      RunCons(math, faults, s, step, rest[..|rest| - 1]);
    }
  }
}
