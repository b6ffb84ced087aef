/** The job queue, by the contract the code relies on: among jobs still to do a queueing lock is
    unique, and a job is only started while nobody else runs under its execution lock. */
module JobQueue {
  import opened Records

  /** What a job is about; `conv` is the lock argument of an investigation job. */
  datatype Task = EventTask(event: nat) | RunTask(run: nat, conv: nat) | OutputTask(output: nat)
  datatype JobStatus = Todo | Doing | Finished
  datatype Job = Job(task: Task, status: JobStatus)

  datatype QueueingLock = EventLock(event: nat) | RunLock(run: nat) | OutputLock(output: nat)
  datatype ExecutionLock = Unlocked | ConversationLock(conv: nat) | DeliveryLock(output: nat)

  function QueueingLockOf(task: Task): QueueingLock {
    match task
    case EventTask(e) => EventLock(e)
    case RunTask(r, _) => RunLock(r)
    case OutputTask(o) => OutputLock(o)
  }

  function ExecutionLockOf(task: Task): ExecutionLock {
    match task
    case EventTask(_) => Unlocked
    case RunTask(_, c) => ConversationLock(c)
    case OutputTask(o) => DeliveryLock(o)
  }

  predicate AlreadyEnqueued(jobs: seq<Job>, task: Task) {
    exists j | 0 <= j < |jobs| ::
      jobs[j].status == Todo && QueueingLockOf(jobs[j].task) == QueueingLockOf(task)
  }

  function Enqueue(jobs: seq<Job>, task: Task): seq<Job> {
    if AlreadyEnqueued(jobs, task) then jobs else jobs + [Job(task, Todo)]
  }

  function EnqueueAll(jobs: seq<Job>, tasks: seq<Task>): seq<Job>
    decreases |tasks|
  {
    if tasks == [] then jobs else EnqueueAll(Enqueue(jobs, tasks[0]), tasks[1..])
  }

  predicate LockFree(jobs: seq<Job>, lock: ExecutionLock) {
    lock == Unlocked
    || forall j | 0 <= j < |jobs| :: jobs[j].status == Doing ==> ExecutionLockOf(jobs[j].task) != lock
  }

  /** Only a running job is finished; finishing any other one changes nothing. */
  function Finish(jobs: seq<Job>, j: nat): seq<Job> {
    if j < |jobs| && jobs[j].status == Doing then jobs[j := jobs[j].(status := Finished)] else jobs
  }

  /** At most one job to do per queueing lock, and at most one running job per execution lock. */
  ghost predicate Locked(jobs: seq<Job>) {
    && (forall i, j | 0 <= i < j < |jobs| && jobs[i].status == Todo && jobs[j].status == Todo ::
          QueueingLockOf(jobs[i].task) != QueueingLockOf(jobs[j].task))
    && (forall i, j | 0 <= i < j < |jobs| && jobs[i].status == Doing && jobs[j].status == Doing
                      && ExecutionLockOf(jobs[i].task) != Unlocked ::
          ExecutionLockOf(jobs[i].task) != ExecutionLockOf(jobs[j].task))
  }

  class Queue {
    var jobs: seq<Job>

    constructor ()
      ensures jobs == []
    {
      jobs := [];
    }

    /** Defers a job unless one with the same queueing lock is still to do. */
    method Defer(task: Task) returns (added: bool)
      modifies this
      ensures jobs == Enqueue(old(jobs), task)
      ensures added <==> !AlreadyEnqueued(old(jobs), task)
    {
      if AlreadyEnqueued(jobs, task) {
        return false;
      }
      jobs := jobs + [Job(task, Todo)];
      return true;
    }

    method EnqueueSlackEvent(event: nat) returns (added: bool)
      requires Locked(jobs)
      modifies this
      ensures jobs == Enqueue(old(jobs), EventTask(event))
      ensures Locked(jobs) && AlreadyEnqueued(jobs, EventTask(event))
      ensures added <==> |jobs| == |old(jobs)| + 1
    {
      EnqueueKeepsLocks(jobs, EventTask(event));
      added := Defer(EventTask(event));
    }

    method EnqueueAgentRun(run: nat, conv: nat) returns (added: bool)
      requires Locked(jobs)
      modifies this
      ensures jobs == Enqueue(old(jobs), RunTask(run, conv))
      ensures Locked(jobs) && AlreadyEnqueued(jobs, RunTask(run, conv))
      ensures added <==> |jobs| == |old(jobs)| + 1
    {
      EnqueueKeepsLocks(jobs, RunTask(run, conv));
      added := Defer(RunTask(run, conv));
    }

    method EnqueueSlackOutput(output: nat) returns (added: bool)
      requires Locked(jobs)
      modifies this
      ensures jobs == Enqueue(old(jobs), OutputTask(output))
      ensures Locked(jobs) && AlreadyEnqueued(jobs, OutputTask(output))
      ensures added <==> |jobs| == |old(jobs)| + 1
    {
      EnqueueKeepsLocks(jobs, OutputTask(output));
      added := Defer(OutputTask(output));
    }

    method FinishJob(j: nat)
      requires Locked(jobs)
      modifies this
      ensures jobs == Finish(old(jobs), j) && Locked(jobs)
    {
      if j < |jobs| && jobs[j].status == Doing {
        jobs := jobs[j := jobs[j].(status := Finished)];
      }
    }
  }

  /** Enqueueing keeps both locks, adds at most one job, and leaves the task with a job to do. */
  lemma EnqueueKeepsLocks(jobs: seq<Job>, task: Task)
    requires Locked(jobs)
    ensures Locked(Enqueue(jobs, task))
    ensures AlreadyEnqueued(Enqueue(jobs, task), task)
  {
    if !AlreadyEnqueued(jobs, task) {
      assert Enqueue(jobs, task)[|jobs|] == Job(task, Todo);
    }
  }

  /** A job may start exactly when its execution lock is free, and then both locks still hold. */
  lemma FetchKeepsLocks(jobs: seq<Job>, j: nat)
    requires Locked(jobs) && j < |jobs| && jobs[j].status == Todo
    ensures LockFree(jobs, ExecutionLockOf(jobs[j].task)) <==> Locked(jobs[j := jobs[j].(status := Doing)])
  {
    var started := jobs[j := jobs[j].(status := Doing)];
    var lock := ExecutionLockOf(jobs[j].task);
    if Locked(started) && lock != Unlocked {
      forall i | 0 <= i < |jobs| && jobs[i].status == Doing
        ensures ExecutionLockOf(jobs[i].task) != lock
      {
        assert started[i] == jobs[i] && started[j].status == Doing;
      }
    }
  }
}
