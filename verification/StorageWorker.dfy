/** `StorageWorker` as an object: its locked sections and the draining loop of its thread. */
module StorageWorker {
  import opened Storage
  import opened Queue
  import opened Repositories

  /** The store and the fulfilled promises after a queue of jobs, run front to back. */
  function RunAll(store: Store, promises: map<nat, Reply>, jobs: seq<Job>, outcomes: nat -> DbOutcome): (Store, map<nat, Reply>)
    decreases |jobs|
  {
    if jobs == [] then (store, promises)
    else
      var (store', reply) := Execute(store, jobs[0].call, outcomes(jobs[0].ticket));
      RunAll(store', promises[jobs[0].ticket := reply], jobs[1..], outcomes)
  }

  /** What happens to a worker: another thread submits a job or tells it to stop, or it takes a turn. */
  datatype Event = Submit(job: Job) | Stop | Turn

  ghost predicate Stopped(events: seq<Event>) {
    exists i :: 0 <= i < |events| && events[i].Stop?
  }

  /** The jobs submitted before the worker was told to stop, in order. */
  ghost function Submitted(events: seq<Event>): seq<Job> {
    if events == [] then []
    else
      var front, last := events[..|events| - 1], events[|events| - 1];
      if last.Submit? && !Stopped(front) then Submitted(front) + [last.job] else Submitted(front)
  }

  lemma {:induction false} RunAllAppend(
    store: Store, promises: map<nat, Reply>, jobs: seq<Job>, job: Job, outcomes: nat -> DbOutcome)
    ensures var (store', promises') := RunAll(store, promises, jobs, outcomes);
            RunAll(store, promises, jobs + [job], outcomes) == RunAll(store', promises', [job], outcomes)
    decreases |jobs|
  {
    if jobs == [] {
      assert jobs + [job] == [job];
    } else {
      var (store', reply) := Execute(store, jobs[0].call, outcomes(jobs[0].ticket));
      assert (jobs + [job])[1..] == jobs[1..] + [job];
      RunAllAppend(store', promises[jobs[0].ticket := reply], jobs[1..], job, outcomes);
    }
  }

  class StorageWorker {
    const storage: StorageService
    var jobs: seq<Job>
    var stopping: bool
    var promises: map<nat, Reply>

    ghost predicate Valid()
      reads this, storage, storage.postgresRepository
    {
      storage.Valid()
    }

    constructor (storage: StorageService)
      requires storage.Valid()
      ensures this.storage == storage && Valid() && jobs == [] && !stopping && promises == map[]
    {
      this.storage := storage;
      jobs, stopping, promises := [], false, map[];
    }

    /** The locked section of `enqueue`. */
    method EnqueueSection(job: Job) returns (accepted: bool)
      modifies this`jobs
      ensures match Enqueue(stopping, old(jobs), job)
              case Some(after) => accepted && jobs == after
              case None => !accepted && jobs == old(jobs)
    {
      if stopping {
        return false;
      }
      jobs := jobs + [job];
      return true;
    }

    /** The locked section of `stop`. */
    method StopSection()
      modifies this`stopping
      ensures stopping
    {
      stopping := true;
    }

    /** The locked section of `thread_main`, once the wait is over. */
    method TakeSection() returns (decision: Decision)
      modifies this`jobs
      ensures decision == Decide(stopping, old(jobs))
      ensures jobs == if decision.Take? then decision.rest else old(jobs)
    {
      if jobs == [] {
        return if stopping then Leave else Sleep;
      }
      decision := Take(jobs[0], jobs[1..]);
      jobs := jobs[1..];
    }

    /** `job(storage_service)`: the storage call, then its promise. */
    method RunJob(job: Job, outcome: DbOutcome)
      requires Valid()
      modifies this`promises, storage.cacheRepository, storage.postgresRepository
      ensures Valid()
      ensures var (store, reply) := Execute(old(storage.Value()), job.call, outcome);
              storage.Value() == store && promises == old(promises)[job.ticket := reply]
    {
      var reply: Reply;
      match job.call {
        case FindCall(q) => reply := storage.Find(q);
        case SaveCall(r) => reply := storage.Save(r, outcome);
      }
      promises := promises[job.ticket := reply];
    }

    /** The loop of `thread_main` after stop: every queued job runs, in order, before the thread leaves. */
    method DrainAfterStop(outcomes: nat -> DbOutcome)
      requires Valid() && stopping
      modifies this`jobs, this`promises, storage.cacheRepository, storage.postgresRepository
      ensures Valid() && jobs == []
      ensures (storage.Value(), promises) == RunAll(old(storage.Value()), old(promises), old(jobs), outcomes)
    {
      while true
        invariant Valid()
        invariant RunAll(storage.Value(), promises, jobs, outcomes)
               == RunAll(old(storage.Value()), old(promises), old(jobs), outcomes)
        decreases |jobs|
      {
        var decision := TakeSection();
        if decision.Leave? {
          break;
        }
        RunJob(decision.job, outcomes(decision.job.ticket));
      }
    }

    /** One turn of the loop: what the queue still comes to stays the same. */
    method TakeTurn(outcomes: nat -> DbOutcome)
      requires Valid()
      modifies this`jobs, this`promises, storage.cacheRepository, storage.postgresRepository
      ensures Valid() && jobs == if old(jobs) == [] then [] else old(jobs)[1..]
      ensures RunAll(storage.Value(), promises, jobs, outcomes) == old(RunAll(storage.Value(), promises, jobs, outcomes))
    {
      var decision := TakeSection();
      if decision.Take? {
        RunJob(decision.job, outcomes(decision.job.ticket));
      }
    }

    /**
     * A whole life of the worker thread: jobs are submitted and the flag is set between its turns,
     * in any order; at the latest after the last event it is told to stop and drains. A turn that
     * finds no job waits, so it changes nothing.
     */
    method ThreadMain(events: seq<Event>, outcomes: nat -> DbOutcome)
      requires Valid() && jobs == [] && !stopping
      modifies this, storage.cacheRepository, storage.postgresRepository
      ensures Valid() && jobs == [] && stopping
      ensures (storage.Value(), promises) == RunAll(old(storage.Value()), old(promises), Submitted(events), outcomes)
    {
      var i := 0;
      while i < |events|
        invariant i <= |events| && Valid()
        invariant stopping <==> Stopped(events[..i])
        invariant RunAll(storage.Value(), promises, jobs, outcomes)
               == RunAll(old(storage.Value()), old(promises), Submitted(events[..i]), outcomes)
      {
        assert events[..i + 1][..i] == events[..i];
        match events[i] {
          case Submit(job) =>
            RunAllAppend(storage.Value(), promises, jobs, job, outcomes);
            RunAllAppend(old(storage.Value()), old(promises), Submitted(events[..i]), job, outcomes);
            var accepted := EnqueueSection(job);
          case Stop => StopSection();
          case Turn => TakeTurn(outcomes);
        }
        i := i + 1;
      }
      assert events[..i] == events;
      StopSection();
      DrainAfterStop(outcomes);
    }
  }

  ghost predicate Queued(jobs: seq<Job>, ticket: nat) {
    exists i :: 0 <= i < |jobs| && jobs[i].ticket == ticket
  }

  /** Draining fulfils exactly the promises of the queued jobs, besides those fulfilled already. */
  lemma {:induction false} DrainFulfilsAll(
    store: Store, promises: map<nat, Reply>, jobs: seq<Job>, outcomes: nat -> DbOutcome, ticket: nat)
    ensures ticket in RunAll(store, promises, jobs, outcomes).1 <==> ticket in promises || Queued(jobs, ticket)
    decreases |jobs|
  {
    if jobs != [] {
      var (store', reply) := Execute(store, jobs[0].call, outcomes(jobs[0].ticket));
      DrainFulfilsAll(store', promises[jobs[0].ticket := reply], jobs[1..], outcomes, ticket);
      if i :| 0 < i < |jobs| && jobs[i].ticket == ticket {
        assert jobs[1..][i - 1].ticket == ticket;
      }
    }
  }
}
