/** What every step keeps of the queue, the condition variables and the order of shutdown. */
module QueueProtocol {
  import opened Calculator
  import opened Storage
  import opened Queue
  import opened Protocol
  import opened RequestHandler
  import opened Service

  /** Jobs that have left the queue: executed ones and the running one. */
  function Taken(s: System): nat {
    |s.log| + if s.worker.Running? then 1 else 0
  }

  /**
   * Every accepted call is, in order of acceptance, executed, running or queued; a promise is
   * fulfilled exactly when its call is executed, with the reply of that execution.
   */
  ghost predicate Tickets(s: System) {
    && Taken(s) + |s.jobs| == |s.accepted|
    && (s.worker.Running? ==> s.worker.job == Job(|s.log|, s.accepted[|s.log|]))
    && (forall i | 0 <= i < |s.jobs| :: s.jobs[i] == Job(Taken(s) + i, s.accepted[Taken(s) + i]))
    && (forall i | 0 <= i < |s.log| :: s.log[i].call == s.accepted[i])
    && (forall t: nat :: t in s.promises <==> t < |s.log|)
    && (forall t: nat | t < |s.log| :: s.promises[t] == s.log[t].reply)
  }

  predicate HasTicket(n: Net) {
    n.Notifying? || n.Awaiting?
  }

  /** A thread that waits, waits for its own call. */
  ghost predicate Owners(s: System) {
    forall t | 0 <= t < |s.net| && HasTicket(s.net[t]) ::
      s.net[t].ticket < |s.accepted| && s.accepted[s.net[t].ticket] == s.net[t].task.call
  }

  /** No wakeup is lost, neither the worker's nor the main thread's. */
  ghost predicate Wakeups(s: System) {
    && (s.worker.Asleep? && (s.jobs != [] || s.stopping) ==>
          s.main.NotifyStorage? || exists t :: 0 <= t < |s.net| && s.net[t].Notifying?)
    && (s.main.AwaitSignal? && s.signalled ==> s.signal.SignalNotifying?)
  }

  /** The order in which the main thread starts and stops the rest. */
  ghost predicate Phases(s: System) {
    && (s.main in {Booting, Starting, Aborted} ==> s.net == [] && s.accepted == [])
    && (forall t | 0 <= t < |s.net| && s.net[t].Left? :: IoStopped(s.main))
    && (IoStopped(s.main) && !s.main.JoinNetwork? ==> AllLeft(s.net))
    && (s.stopping <==> s.main in {NotifyStorage, JoinStorage, JoinSignal, Finished})
    && (s.worker.Initialising? <==> s.main.Booting?)
    && (s.worker.Exited? ==> s.main.Aborted? || (s.stopping && s.jobs == []))
    && (s.main in {JoinSignal, Finished, Aborted} ==> s.worker.Exited?)
    && (s.main.Finished? ==> s.signal.SignalDone?)
    && (s.main.StopNetwork? || IoStopped(s.main) ==> s.signalled)
    && (s.signalled <==> !s.signal.SignalWaiting?)
    && s.threads >= 1
  }

  ghost predicate ProtocolInv(s: System) {
    Tickets(s) && Owners(s) && Wakeups(s) && Phases(s)
  }

  lemma SettleKeeps(s: System, t: nat, request: Request, born: nat, p: Progress)
    requires ProtocolInv(s) && t < |s.net| && !s.net[t].Left?
    requires !s.net[t].Notifying?
    ensures ProtocolInv(Settle(s, t, request, born, p))
  {
    var s' := Settle(s, t, request, born, p);
    assert forall u | 0 <= u < |s.net| && u != t :: s'.net[u] == s.net[u];
  }

  lemma AcceptKeeps(s: System, t: nat)
    requires ProtocolInv(s) && t < |s.net| && s.net[t].Submitting? && !s.stopping
    ensures ProtocolInv(s.(jobs := s.jobs + [Job(|s.accepted|, s.net[t].task.call)],
                        accepted := s.accepted + [s.net[t].task.call],
                        net := s.net[t := Notifying(s.net[t].task, |s.accepted|)]))
  {
    var s' := s.(jobs := s.jobs + [Job(|s.accepted|, s.net[t].task.call)],
    accepted := s.accepted + [s.net[t].task.call],
    net := s.net[t := Notifying(s.net[t].task, |s.accepted|)]);
    assert s'.net[t].Notifying?;
    assert forall u | 0 <= u < |s.net| && u != t :: s'.net[u] == s.net[u];
  }

  /** A network thread never finds the worker stopping: the network is joined before storage stops. */
  lemma NeverRefused(s: System, t: nat)
    requires ProtocolInv(s) && t < |s.net| && !s.net[t].Left?
    ensures !s.stopping && !s.worker.Exited?
  {
  }

  lemma NotifyKeeps(math: MathLibrary, s: System, t: nat)
    requires ProtocolInv(s) && Enabled(s, NetNotify(t))
    ensures ProtocolInv(Next(math, s, NetNotify(t)))
  {
    var s' := Next(math, s, NetNotify(t));
    assert forall u | 0 <= u < |s.net| && u != t :: s'.net[u] == s.net[u];
  }

  lemma LeaveKeeps(math: MathLibrary, s: System, t: nat)
    requires ProtocolInv(s) && Enabled(s, NetLeave(t))
    ensures ProtocolInv(Next(math, s, NetLeave(t)))
  {
    var s' := Next(math, s, NetLeave(t));
    assert forall u | 0 <= u < |s.net| && u != t :: s'.net[u] == s.net[u];
  }

  lemma TakeKeepsTickets(s: System)
    requires Tickets(s) && s.worker.Checking? && s.jobs != []
    ensures Tickets(s.(worker := Running(s.jobs[0]), jobs := s.jobs[1..]))
  {
  }

  lemma DecideKeeps(s: System)
    requires ProtocolInv(s) && s.worker.Checking?
    ensures ProtocolInv(DecideStep(s))
  {
    if s.jobs != [] {
      TakeKeepsTickets(s);
    }
  }

  lemma RunJobKeeps(s: System, outcome: DbOutcome)
    requires ProtocolInv(s) && s.worker.Running?
    ensures ProtocolInv(RunJob(s, outcome))
  {
  }

  /** The part of the state that only initialisation and the worker's jobs change. */
  predicate SameStore(s: System, s': System) {
    && s'.store == s.store && s'.log == s.log && s'.warm == s.warm
    && s'.origin == s.origin && s'.past == s.past
    && s.accepted <= s'.accepted
    && (s.main in {Booting, Aborted} <==> s'.main in {Booting, Aborted})
  }

  lemma SettleLeavesTheStore(s: System, t: nat, request: Request, born: nat, p: Progress)
    requires t < |s.net|
    ensures SameStore(s, Settle(s, t, request, born, p))
  {
  }

  lemma NetworkLeavesTheStore(math: MathLibrary, s: System, step: Step)
    requires Enabled(s, step)
    requires step.NetBegin? || step.NetSubmit? || step.NetNotify? || step.NetResume? || step.NetLeave?
    ensures SameStore(s, Next(math, s, step))
  {
    match step {
      case NetBegin(t, request) => SettleLeavesTheStore(s, t, request, |s.answered|, Begin(request));
      case NetSubmit(t) =>
        var task := s.net[t].task;
        SettleLeavesTheStore(s, t, task.request, task.born, Resume(math, task.frame, Threw(RuntimeError)));
      case NetNotify(t) =>
      case NetResume(t) =>
        var task := s.net[t].task;
        SettleLeavesTheStore(s, t, task.request, task.born, Resume(math, task.frame, s.promises[s.net[t].ticket]));
      case NetLeave(t) =>
    }
  }

  /** Network threads, signal and main thread never touch the store: the worker owns it. */
  lemma OnlyTheWorkerTouchesTheStore(math: MathLibrary, s: System, step: Step)
    requires Enabled(s, step) && !step.Boot? && !step.InitOk? && !step.WorkerRun?
    ensures SameStore(s, Next(math, s, step))
  {
    if step.NetBegin? || step.NetSubmit? || step.NetNotify? || step.NetResume? || step.NetLeave? {
      NetworkLeavesTheStore(math, s, step);
    }
  }

  lemma StartStepKeeps(math: MathLibrary, s: System, step: Step)
    requires ProtocolInv(s) && Enabled(s, step)
    requires step.Boot? || step.InitOk? || step.InitFail? || step.MainServe?
    ensures ProtocolInv(Next(math, s, step))
  {
  }

  lemma SignalStepKeeps(math: MathLibrary, s: System, step: Step)
    requires ProtocolInv(s) && Enabled(s, step)
    requires step.SignalArrives? || step.SignalNotify?
    ensures ProtocolInv(Next(math, s, step))
  {
  }

  lemma MainWaitKeeps(math: MathLibrary, s: System, step: Step)
    requires ProtocolInv(s) && Enabled(s, step) && (step.MainCheck? || step.MainSpurious?)
    ensures ProtocolInv(Next(math, s, step))
  {
  }

  lemma WorkerSpuriousKeeps(math: MathLibrary, s: System)
    requires ProtocolInv(s) && Enabled(s, WorkerSpurious)
    ensures ProtocolInv(Next(math, s, WorkerSpurious))
  {
  }

  lemma StopStepKeeps(math: MathLibrary, s: System, step: Step)
    requires ProtocolInv(s) && Enabled(s, step)
    requires step.MainStopNetwork? || step.MainJoinNetwork? || step.MainStopStorage? || step.MainNotifyStorage? || step.MainJoinStorage? || step.MainJoinSignal?
    ensures ProtocolInv(Next(math, s, step))
  {
  }

  lemma ProtocolKept(math: MathLibrary, s: System, step: Step)
    requires ProtocolInv(s) && Enabled(s, step)
    ensures ProtocolInv(Next(math, s, step))
  {
    match step {
      case NetBegin(t, request) => SettleKeeps(s, t, request, |s.answered|, Begin(request));
      case NetSubmit(t) => NeverRefused(s, t); AcceptKeeps(s, t);
      case NetNotify(t) => NotifyKeeps(math, s, t);
      case NetResume(t) =>
        var task := s.net[t].task;
        SettleKeeps(s, t, task.request, task.born, Resume(math, task.frame, s.promises[s.net[t].ticket]));
      case NetLeave(t) => LeaveKeeps(math, s, t);
      case WorkerDecide => DecideKeeps(s);
      case WorkerRun(outcome) => RunJobKeeps(s, outcome);
      case Boot(_) => StartStepKeeps(math, s, step);
      case InitOk => StartStepKeeps(math, s, step);
      case InitFail => StartStepKeeps(math, s, step);
      case MainServe => StartStepKeeps(math, s, step);
      case SignalArrives => SignalStepKeeps(math, s, step);
      case SignalNotify => SignalStepKeeps(math, s, step);
      case MainCheck => MainWaitKeeps(math, s, step);
      case MainSpurious => MainWaitKeeps(math, s, step);
      case WorkerSpurious => WorkerSpuriousKeeps(math, s);
      case _ => StopStepKeeps(math, s, step);
    }
  }
}
