/** How many threads there are, and how much can really go on at once. */
module Concurrency {
  import opened Wrappers
  import opened Calculator
  import opened Storage
  import opened Queue
  import opened Protocol
  import opened RequestHandler
  import opened Soundness
  import opened Service
  import opened Transparency
  import opened Answers

  /** A started service has as many idle network threads as configured, and at least one. */
  lemma ThreadsStarted(math: MathLibrary, s: System, workerThreads: int)
    ensures var booted := Next(math, s, Boot(workerThreads));
            && Enabled(booted, InitOk)
            && var initialised := Next(math, booted, InitOk);
               && Enabled(initialised, MainServe)
               && var serving := Next(math, initialised, MainServe);
                  && |serving.net| == (if workerThreads >= 1 then workerThreads else 1)
                  && forall t | 0 <= t < |serving.net| :: serving.net[t].Idle?
  {
  }

  /**
   * What the environment may do in any state: kill and restart the process, fail the initialisation,
   * signal a process that has not been signalled, wake sleepers for nothing, and send any request to
   * any idle thread until the network is stopped.
   */
  lemma EnvironmentIsFree(s: System, n: int, t: nat, request: Request)
    ensures Enabled(s, Boot(n))
    ensures s.main.Booting? ==> Enabled(s, InitFail)
    ensures s.signal.SignalWaiting? && !s.main.Finished? && !s.main.Aborted? ==> Enabled(s, SignalArrives)
    ensures s.main.AwaitSignal? ==> Enabled(s, MainSpurious)
    ensures s.worker.Asleep? ==> Enabled(s, WorkerSpurious)
    ensures t < |s.net| && s.net[t].Idle? && s.main in {CheckSignal, AwaitSignal, StopNetwork} ==> Enabled(s, NetBegin(t, request))
  {
  }

  /** Thread `t` has handed the lookup of its request to the worker and waits for the reply. */
  predicate Waits(s: System, t: nat, request: Request) {
    && t < |s.net| && s.net[t].Awaiting? && s.net[t].task.request == request
    && s.net[t].ticket == t && t !in s.promises
  }

  /** The service is up, the first `k` threads wait, the others are idle, and the worker has not moved yet. */
  predicate FirstWait(s: System, requests: seq<Request>, k: nat) {
    && k <= |requests| == |s.net| && s.main.CheckSignal? && s.signal.SignalWaiting? && s.worker.Checking?
    && !s.stopping && s.promises == map[] && |s.accepted| == k && |s.jobs| == k
    && (forall t: nat | t < k :: Waits(s, t, requests[t]))
    && (forall t: nat | k <= t < |requests| :: s.net[t].Idle?)
  }

  lemma NoneWaits(math: MathLibrary, faults: Faults, requests: seq<Request>) returns (s: System)
    requires requests != []
    ensures Reachable(math, faults, s) && FirstWait(s, requests, 0)
  {
    assert TableGood(math, faults, []) && Run(math, faults, Off([]), []) == Some(Off([]));
    var s1 := ReachStep(math, faults, Off([]), Boot(|requests|));
    var s2 := ReachStep(math, faults, s1, InitOk);
    s := ReachStep(math, faults, s2, MainServe);
  }

  lemma OneMoreWaits(math: MathLibrary, faults: Faults, s: System, requests: seq<Request>, k: nat) returns (s': System)
    requires Reachable(math, faults, s) && FirstWait(s, requests, k) && k < |requests|
    requires ToCalculatorData(requests[k]).Ok?
    ensures Reachable(math, faults, s') && FirstWait(s', requests, k + 1)
  {
    BeginIsOk(math, faults, requests[k]);
    NameMatchesCode(requests[k]);
    var s1 := ReachStep(math, faults, s, NetBegin(k, requests[k]));
    var task := s1.net[k].task;
    var s2 := ReachStep(math, faults, s1, NetSubmit(k));
    assert s2.net == s.net[k := Notifying(task, k)];
    s' := ReachStep(math, faults, s2, NetNotify(k));
    assert s' == s.(net := s.net[k := Awaiting(task, k)], jobs := s.jobs + [Job(k, task.call)],
                  accepted := s.accepted + [task.call]);
    LastWaits(s, requests, k, task);
  }

  lemma LastWaits(s: System, requests: seq<Request>, k: nat, task: Task)
    requires FirstWait(s, requests, k) && k < |requests| && task.request == requests[k]
    ensures FirstWait(s.(net := s.net[k := Awaiting(task, k)], jobs := s.jobs + [Job(k, task.call)],
                      accepted := s.accepted + [task.call]), requests, k + 1)
  {
    var net := s.net[k := Awaiting(task, k)];
    forall t: nat | t < k ensures net[t] == s.net[t] {
      assert Waits(s, t, requests[t]);
    }
  }

  lemma {:induction false} SomeWait(math: MathLibrary, faults: Faults, requests: seq<Request>, k: nat) returns (s: System)
    requires requests != [] && k <= |requests| && forall t: nat | t < |requests| :: ToCalculatorData(requests[t]).Ok?
    ensures Reachable(math, faults, s) && FirstWait(s, requests, k)
  {
    if k == 0 {
      s := NoneWaits(math, faults, requests);
    } else {
      var before := SomeWait(math, faults, requests, k - 1);
      s := OneMoreWaits(math, faults, before, requests, k - 1);
    }
  }

  /** Any number of requests that reach their lookup can be in flight at once, each with a storage call out. */
  lemma ManyAtOnce(math: MathLibrary, faults: Faults, requests: seq<Request>) returns (s: System)
    requires requests != [] && forall t: nat | t < |requests| :: ToCalculatorData(requests[t]).Ok?
    ensures Reachable(math, faults, s) && |s.net| == |requests|
    ensures forall t: nat | t < |requests| :: Waits(s, t, requests[t])
  {
    s := SomeWait(math, faults, requests, |requests|);
  }

  /** And shutdown can begin while they all are. */
  lemma BusyAtShutdown(math: MathLibrary, faults: Faults, requests: seq<Request>) returns (s: System)
    requires requests != [] && forall t: nat | t < |requests| :: ToCalculatorData(requests[t]).Ok?
    ensures Reachable(math, faults, s) && s.signalled && s.main.JoinNetwork? && |s.net| == |requests|
    ensures forall t: nat | t < |requests| :: Waits(s, t, requests[t])
  {
    var s0 := SomeWait(math, faults, requests, |requests|);
    var s1 := ReachStep(math, faults, s0, SignalArrives);
    var s2 := ReachStep(math, faults, s1, MainCheck);
    s := ReachStep(math, faults, s2, MainStopNetwork);
    assert s.net == s0.net && s.promises == s0.promises;
  }
}
