/**
 * The running service as a transition system: network threads that handle requests, the storage
 * worker with its queue and condition variable, the signal thread, and the main thread that starts
 * and stops them. Sections under a mutex are single steps; each notify is a step of its own.
 */
module Service {
  import opened Wrappers
  import opened Calculator
  import opened Storage
  import opened Queue
  import opened Protocol
  import opened RequestHandler
  import opened Soundness

  /** The main thread, by the statement of `ServiceApplication::run` it is about to execute. */
  datatype Main =
    | Booting        // storage->start(): waits for the worker's initialisation
    | Starting       // server.start()
    | CheckSignal    // condition.wait: holds the lock, about to test the flag
    | AwaitSignal    // condition.wait: asleep
    | StopNetwork    // server.stop(): about to stop the io context
    | JoinNetwork    // server.stop(): joins the network threads
    | StopStorage    // storage->stop(): about to set the flag under the lock
    | NotifyStorage  // storage->stop(): unlocked, about to notify
    | JoinStorage    // storage->stop(): joins the worker
    | JoinSignal     // signal_handler.stop(): joins the signal thread
    | Finished
    | Aborted        // initialisation failed and start() threw, or no process has been started

  datatype Signal = SignalWaiting | SignalNotifying | SignalDone

  datatype Worker = Initialising | Checking | Asleep | Running(job: Job) | Exited

  /** A request being handled; `born` is how many answers had been given when it began. */
  datatype Task = Task(request: Request, born: nat, frame: Frame, call: StorageCall)

  datatype Net =
    | Idle
    | Submitting(task: Task)                 // about to enter enqueue's locked section
    | Notifying(task: Task, ticket: nat)     // job queued, about to notify
    | Awaiting(task: Task, ticket: nat)      // blocked on the future
    | Left

  datatype Answered = Answered(request: Request, response: Response, born: nat)

  datatype System = System(
    main: Main, signal: Signal, signalled: bool,
    worker: Worker, stopping: bool, jobs: seq<Job>, promises: map<nat, Reply>,
    threads: nat, net: seq<Net>, store: Store,
    // history of this process: accepted calls, executed jobs, the cache after warm-up
    accepted: seq<StorageCall>, log: seq<Entry>, warm: Cache,
    // history over all processes: the first table, earlier executed jobs and all answers
    origin: seq<Record>, past: seq<Entry>, answered: seq<Answered>)

  datatype Step =
    | Boot(workerThreads: int)
    | InitOk | InitFail
    | SignalArrives | SignalNotify
    | MainServe | MainCheck | MainSpurious | MainStopNetwork | MainJoinNetwork
    | MainStopStorage | MainNotifyStorage | MainJoinStorage | MainJoinSignal
    | NetBegin(tid: nat, request: Request) | NetSubmit(tid: nat) | NetNotify(tid: nat)
    | NetResume(tid: nat) | NetLeave(tid: nat)
    | WorkerDecide | WorkerSpurious | WorkerRun(outcome: DbOutcome)

  /** A process about to initialise its storage, over the table earlier processes left. */
  function Booted(s: System, workerThreads: int): System {
    System(
      Booting, SignalWaiting, false,
      Initialising, false, [], map[],
      if workerThreads < 1 then 1 else workerThreads, [], Store(map[], s.store.table),
      [], [], map[],
      s.origin, s.past + s.log, s.answered)
  }

  /** Before the first start: nothing runs, and the database holds a table. */
  function Off(table: seq<Record>): System {
    System(
      Aborted, SignalDone, true, Exited, false, [], map[], 1, [], Store(map[], table), [], [], map[],
      table, [], [])
  }

  predicate IoStopped(m: Main) {
    m in {JoinNetwork, StopStorage, NotifyStorage, JoinStorage, JoinSignal, Finished}
  }

  predicate AllLeft(net: seq<Net>) {
    forall t | 0 <= t < |net| :: net[t].Left?
  }

  function Wake(w: Worker): Worker {
    if w.Asleep? then Checking else w
  }

  predicate Enabled(s: System, step: Step) {
    match step
    case Boot(_) => true
    case InitOk => s.main.Booting?
    case InitFail => s.main.Booting?
    case SignalArrives => s.signal.SignalWaiting? && !s.main.Finished? && !s.main.Aborted?
    case SignalNotify => s.signal.SignalNotifying?
    case MainServe => s.main.Starting?
    case MainCheck => s.main.CheckSignal?
    case MainSpurious => s.main.AwaitSignal?
    case MainStopNetwork => s.main.StopNetwork?
    case MainJoinNetwork => s.main.JoinNetwork? && AllLeft(s.net)
    case MainStopStorage => s.main.StopStorage?
    case MainNotifyStorage => s.main.NotifyStorage?
    case MainJoinStorage => s.main.JoinStorage? && s.worker.Exited?
    case MainJoinSignal => s.main.JoinSignal? && s.signal.SignalDone?
    case NetBegin(t, _) => t < |s.net| && s.net[t].Idle? && !IoStopped(s.main)
    case NetSubmit(t) => t < |s.net| && s.net[t].Submitting?
    case NetNotify(t) => t < |s.net| && s.net[t].Notifying?
    case NetResume(t) => t < |s.net| && s.net[t].Awaiting? && s.net[t].ticket in s.promises
    case NetLeave(t) => t < |s.net| && s.net[t].Idle? && IoStopped(s.main)
    case WorkerDecide => s.worker.Checking?
    case WorkerSpurious => s.worker.Asleep?
    case WorkerRun(_) => s.worker.Running?
  }

  /** A handler that has run on: it asks the storage again, or its answer goes out. */
  function Settle(s: System, t: nat, request: Request, born: nat, p: Progress): System
    requires t < |s.net|
  {
    match p
    case Ask(frame, call) => s.(net := s.net[t := Submitting(Task(request, born, frame, call))])
    case Answer(response) => s.(net := s.net[t := Idle], answered := s.answered + [Answered(request, response, born)])
  }

  function Submit(math: MathLibrary, s: System, t: nat): System
    requires t < |s.net| && s.net[t].Submitting?
  {
    var task := s.net[t].task;
    var ticket := |s.accepted|;
    match Enqueue(s.stopping, s.jobs, Job(ticket, task.call))
    case None => Settle(s, t, task.request, task.born, Resume(math, task.frame, Threw(RuntimeError)))
    case Some(jobs) =>
      s.(jobs := jobs, accepted := s.accepted + [task.call], net := s.net[t := Notifying(task, ticket)])
  }

  function DecideStep(s: System): System {
    match Decide(s.stopping, s.jobs)
    case Take(job, rest) => s.(worker := Running(job), jobs := rest)
    case Leave => s.(worker := Exited)
    case Sleep => s.(worker := Asleep)
  }

  /** The worker runs one job to its end and fulfils its promise. */
  function RunJob(s: System, outcome: DbOutcome): System
    requires s.worker.Running?
  {
    var job := s.worker.job;
    var (store, reply) := Execute(s.store, job.call, outcome);
    s.(worker := Checking, store := store, promises := s.promises[job.ticket := reply],
    log := s.log + [Entry(job.call, outcome, reply)])
  }

  function Next(math: MathLibrary, s: System, step: Step): System
    requires Enabled(s, step)
  {
    match step
    case Boot(n) => Booted(s, n)
    case InitOk =>
      var store := Initialise(s.store.table);
      s.(main := Starting, worker := Checking, store := store, warm := store.cache)
    case InitFail => s.(main := Aborted, worker := Exited)
    case SignalArrives => s.(signal := SignalNotifying, signalled := true)
    case SignalNotify => s.(signal := SignalDone, main := if s.main.AwaitSignal? then CheckSignal else s.main)
    case MainServe => s.(main := CheckSignal, net := seq(s.threads, _ => Idle))
    case MainCheck => s.(main := if s.signalled then StopNetwork else AwaitSignal)
    case MainSpurious => s.(main := CheckSignal)
    case MainStopNetwork => s.(main := JoinNetwork)
    case MainJoinNetwork => s.(main := StopStorage)
    case MainStopStorage => s.(main := NotifyStorage, stopping := true)
    case MainNotifyStorage => s.(main := JoinStorage, worker := Wake(s.worker))
    case MainJoinStorage => s.(main := JoinSignal)
    case MainJoinSignal => s.(main := Finished)
    case NetBegin(t, request) => Settle(s, t, request, |s.answered|, Begin(request))
    case NetSubmit(t) => Submit(math, s, t)
    case NetNotify(t) =>
      s.(net := s.net[t := Awaiting(s.net[t].task, s.net[t].ticket)], worker := Wake(s.worker))
    case NetResume(t) =>
      var task := s.net[t].task;
      Settle(s, t, task.request, task.born, Resume(math, task.frame, s.promises[s.net[t].ticket]))
    case NetLeave(t) => s.(net := s.net[t := Left])
    case WorkerDecide => DecideStep(s)
    case WorkerSpurious => s.(worker := Checking)
    case WorkerRun(outcome) => RunJob(s, outcome)
  }

  /** Database saves fail only under the given keys. */
  ghost predicate Permitted(faults: Faults, s: System, step: Step) {
    step.WorkerRun? && s.worker.Running? ==> OutcomeAllowed(faults, s.worker.job.call, step.outcome)
  }

  /** The state a schedule leads to, or nothing when one of its steps cannot be taken. */
  ghost function Run(math: MathLibrary, faults: Faults, s: System, steps: seq<Step>): Option<System> {
    if steps == [] then Some(s)
    else
      match Run(math, faults, s, steps[..|steps| - 1])
      case None => None
      case Some(t) =>
        var last := steps[|steps| - 1];
        if Enabled(t, last) && Permitted(faults, t, last) then Some(Next(math, t, last)) else None
  }

  /**
   * States the service can be in, after any number of starts over a truthful table, when database
   * saves fail only under the given keys.
   */
  ghost predicate Reachable(math: MathLibrary, faults: Faults, s: System) {
    exists table, steps :: TableGood(math, faults, table) && Run(math, faults, Off(table), steps) == Some(s)
  }
}
