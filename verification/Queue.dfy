/** The locked sections of `StorageWorker` (server/src/storage-worker.cpp). */
module Queue {
  import opened Wrappers
  import opened Storage

  /** A job carries the promise its caller waits on, here its ticket. */
  datatype Job = Job(ticket: nat, call: StorageCall)

  /** The locked section of `enqueue`: refused once the worker is stopping. */
  function Enqueue(stopping: bool, jobs: seq<Job>, job: Job): Option<seq<Job>> {
    if stopping then None else Some(jobs + [job])
  }

  datatype Decision = Take(job: Job, rest: seq<Job>) | Leave | Sleep

  /** The locked section of `thread_main`: wait for work or for the flag, drain before leaving. */
  function Decide(stopping: bool, jobs: seq<Job>): Decision {
    if jobs == [] then (if stopping then Leave else Sleep) else Take(jobs[0], jobs[1..])
  }
}
