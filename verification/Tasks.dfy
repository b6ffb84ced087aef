/** The recovery job: release what dead workers left behind, then submit everything still pending. */
module Tasks {
  import opened Records
  import opened JobQueue
  import Pipeline

  predicate EventPending(event: Event) {
    event.disposition == Received || event.disposition == Queued
  }

  function PendingEvents(events: seq<Event>): seq<Task> {
    if events == [] then []
    else
      var n := |events| - 1;
      PendingEvents(events[..n]) + if EventPending(events[n]) then [EventTask(n)] else []
  }

  function PendingRuns(runs: seq<Run>): seq<Task> {
    if runs == [] then []
    else
      var n := |runs| - 1;
      PendingRuns(runs[..n]) + if runs[n].status == RunQueued then [RunTask(n, runs[n].conv)] else []
  }

  function PendingOutputs(outputs: seq<Output>): seq<Task> {
    if outputs == [] then []
    else
      var n := |outputs| - 1;
      PendingOutputs(outputs[..n]) + if outputs[n].status == Pending then [OutputTask(n)] else []
  }

  /** The three selects of `recover_pending_work`, in the order their rows are submitted. */
  function PendingTasks(db: Db): seq<Task> {
    PendingEvents(db.events) + PendingRuns(db.runs) + PendingOutputs(db.outputs)
  }

  /** The task is about a row that still waits for a worker. */
  predicate Waits(db: Db, task: Task) {
    match task
    case EventTask(e) => e < |db.events| && EventPending(db.events[e])
    case RunTask(r, c) => r < |db.runs| && db.runs[r].status == RunQueued && db.runs[r].conv == c
    case OutputTask(o) => o < |db.outputs| && db.outputs[o].status == Pending
  }

  lemma {:induction false} PendingEventsExact(events: seq<Event>, task: Task)
    ensures task in PendingEvents(events)
            <==> task.EventTask? && task.event < |events| && EventPending(events[task.event])
  {
    if events != [] {
      PendingEventsExact(events[..|events| - 1], task);
    }
  }

  lemma {:induction false} PendingRunsExact(runs: seq<Run>, task: Task)
    ensures task in PendingRuns(runs)
            <==> task.RunTask? && task.run < |runs| && runs[task.run].status == RunQueued
                 && task.conv == runs[task.run].conv
  {
    if runs != [] {
      PendingRunsExact(runs[..|runs| - 1], task);
    }
  }

  lemma {:induction false} PendingOutputsExact(outputs: seq<Output>, task: Task)
    ensures task in PendingOutputs(outputs)
            <==> task.OutputTask? && task.output < |outputs| && outputs[task.output].status == Pending
  {
    if outputs != [] {
      PendingOutputsExact(outputs[..|outputs| - 1], task);
    }
  }

  /** The recovery job submits a task exactly when its row still waits. */
  lemma PendingTasksExact(db: Db, task: Task)
    ensures task in PendingTasks(db) <==> Waits(db, task)
  {
    PendingEventsExact(db.events, task);
    PendingRunsExact(db.runs, task);
    PendingOutputsExact(db.outputs, task);
  }

  /** After submitting a list, each of its tasks has a job to do, and running jobs are untouched. */
  lemma {:induction false} EnqueueAllCovers(jobs: seq<Job>, tasks: seq<Task>)
    requires Locked(jobs)
    ensures Locked(EnqueueAll(jobs, tasks)) && jobs <= EnqueueAll(jobs, tasks)
    ensures forall task | task in tasks :: AlreadyEnqueued(EnqueueAll(jobs, tasks), task)
    decreases |tasks|
  {
    if tasks != [] {
      var next := Enqueue(jobs, tasks[0]);
      EnqueueKeepsLocks(jobs, tasks[0]);
      EnqueueAllCovers(next, tasks[1..]);
      var j :| 0 <= j < |next| && next[j].status == Todo
               && QueueingLockOf(next[j].task) == QueueingLockOf(tasks[0]);
      assert EnqueueAll(next, tasks[1..])[j] == next[j];
    }
  }

  /** `recover_pending_work` after the interrupted jobs: one pass over the pending rows leaves every
      one of them with a job to do. */
  method RecoverPendingWork(store: Store, queue: Queue)
    requires Locked(queue.jobs)
    modifies queue
    ensures queue.jobs == EnqueueAll(old(queue.jobs), PendingTasks(store.Rows()))
    ensures Locked(queue.jobs)
    ensures forall task | Waits(store.Rows(), task) :: AlreadyEnqueued(queue.jobs, task)
  {
    var tasks := PendingTasks(store.Rows());
    EnqueueAllCovers(queue.jobs, tasks);
    var i := 0;
    while i < |tasks|
      invariant 0 <= i <= |tasks|
      invariant Locked(queue.jobs)
      invariant EnqueueAll(queue.jobs, tasks[i..]) == EnqueueAll(old(queue.jobs), tasks)
    {
      assert tasks[i..][1..] == tasks[i + 1..];
      Submit(queue, tasks[i]);
      i := i + 1;
    }
    forall task | Waits(store.Rows(), task)
      ensures task in tasks
    {
      PendingTasksExact(store.Rows(), task);
    }
  }

  method Submit(queue: Queue, task: Task)
    requires Locked(queue.jobs)
    modifies queue
    ensures queue.jobs == Enqueue(old(queue.jobs), task) && Locked(queue.jobs)
  {
    var added;
    match task {
      case EventTask(e) => added := queue.EnqueueSlackEvent(e);
      case RunTask(r, c) => added := queue.EnqueueAgentRun(r, c);
      case OutputTask(o) => added := queue.EnqueueSlackOutput(o);
    }
  }

  /** The domain half of releasing a job: a run it left running fails, with its notice. */
  function FailHeldRun(db: Db, jobs: seq<Job>, j: nat, mode: Mode): Db {
    if j < |jobs| && jobs[j].task.RunTask? then Pipeline.FailRun(db, jobs[j].task.run, mode).0 else db
  }

  /** The effect of releasing one job after another: fail its run if that still runs, then finish it. */
  function ReleaseAll(db: Db, jobs: seq<Job>, stalled: seq<nat>, mode: Mode): (Db, seq<Job>)
    decreases |stalled|
  {
    if stalled == [] then (db, jobs)
    else
      ReleaseAll(FailHeldRun(db, jobs, stalled[0], mode), Finish(jobs, stalled[0]), stalled[1..], mode)
  }

  method ReleaseJob(store: Store, queue: Queue, j: nat, mode: Mode)
    requires Locked(queue.jobs)
    modifies store, queue
    ensures store.Rows() == FailHeldRun(old(store.Rows()), old(queue.jobs), j, mode)
    ensures queue.jobs == Finish(old(queue.jobs), j) && Locked(queue.jobs)
  {
    if j < |queue.jobs| && queue.jobs[j].task.RunTask? {
      var _ := Pipeline.AbandonRun(store, queue.jobs[j].task.run, mode);
    }
    queue.FinishJob(j);
  }

  /** `recover_interrupted_jobs`: the failure is committed before the job gives its lock back. */
  method RecoverInterruptedJobs(store: Store, queue: Queue, stalled: seq<nat>, mode: Mode)
    requires Locked(queue.jobs)
    modifies store, queue
    ensures (store.Rows(), queue.jobs)
            == ReleaseAll(old(store.Rows()), old(queue.jobs), stalled, mode)
    ensures Locked(queue.jobs)
  {
    var i := 0;
    while i < |stalled|
      invariant 0 <= i <= |stalled|
      invariant Locked(queue.jobs)
      invariant ReleaseAll(store.Rows(), queue.jobs, stalled[i..], mode)
                == ReleaseAll(old(store.Rows()), old(queue.jobs), stalled, mode)
    {
      assert stalled[i..][1..] == stalled[i + 1..];
      ReleaseJob(store, queue, stalled[i], mode);
      i := i + 1;
    }
  }

  /** Every job of the list is released, and no run they held is left running. */
  lemma {:induction false} ReleaseAllFrees(db: Db, jobs: seq<Job>, stalled: seq<nat>, mode: Mode)
    ensures var (db', jobs') := ReleaseAll(db, jobs, stalled, mode);
            && |jobs'| == |jobs|
            && |db'.runs| == |db.runs|
            && (forall j | 0 <= j < |jobs| ::
                  jobs'[j] == if j in stalled && jobs[j].status == Doing
                              then jobs[j].(status := Finished) else jobs[j])
            && (forall r | 0 <= r < |db.runs| ::
                  db'.runs[r].status == if db.runs[r].status == Running && Holds(jobs, stalled, r)
                                        then RunFailed else db.runs[r].status)
    decreases |stalled|
  {
    if stalled != [] {
      var j := stalled[0];
      var failed := FailHeldRun(db, jobs, j, mode);
      var finished := Finish(jobs, j);
      ReleaseAllFrees(failed, finished, stalled[1..], mode);
      forall r: nat
        ensures Holds(jobs, stalled, r)
                <==> Holds(finished, stalled[1..], r)
                     || (j < |jobs| && jobs[j].task.RunTask? && jobs[j].task.run == r)
      {
        assert forall k | 0 <= k < |jobs| :: finished[k].task == jobs[k].task;
        assert stalled == [j] + stalled[1..];
      }
    }
  }

  predicate Holds(jobs: seq<Job>, stalled: seq<nat>, r: nat) {
    exists j | j in stalled :: j < |jobs| && jobs[j].task.RunTask? && jobs[j].task.run == r
  }
}
