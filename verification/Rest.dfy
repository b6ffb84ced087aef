/** Coming to rest: a recovery tick leaves no pending row without somebody to work on it, so once everybody
    it left to work is through, the weight is lower or nothing is left to do at all. Further ticks and
    recoveries may fall anywhere meanwhile. */
module Rest {
  import opened Records
  import opened JobQueue
  import opened Service
  import opened Pipeline
  import opened Tasks
  import opened Integrity
  import opened Protocol
  import opened Deliveries
  import opened FailStop
  import opened Draining
  import Mentions
  import Questions

  /** A step of a live process that needs neither a new event nor a tick, and kills nobody. */
  predicate Steady(s: State, l: Label) {
    FailStopStep(s, l) && Internal(l) && !l.Crash?
  }

  /** A step that needs no new event and kills nobody: a live process goes on, a tick starts a sweep, or
      the job of a dead worker is released. */
  predicate Going(s: State, l: Label) {
    FailStopStep(s, l) && !l.Receive? && !l.Crash?
  }

  // ---------- no running job is left without its worker ----------

  predicate Attended(s: State) {
    forall j | 0 <= j < |s.jobs| && s.jobs[j].status == Doing :: !Dead(s, j)
  }

  lemma StaysAtWork(s: State, l: Label)
    requires Going(s, l) && Moves(l) && !l.FinishJob? && l.p < |s.procs| && s.procs[l.p].Worker?
    ensures l.p < |Apply(s, l).procs| && Apply(s, l).procs[l.p].Worker?
  {
  }

  lemma StartsNoJob(s: State, l: Label, j: nat)
    requires Going(s, l) && Moves(l) && j < |Apply(s, l).jobs| && Apply(s, l).jobs[j].status == Doing
    ensures j < |s.jobs| && s.jobs[j].status == Doing
    ensures l.FinishJob? ==> l.p < |s.procs| && s.procs[l.p].Worker? && s.procs[l.p].job != j
  {
  }

  lemma AttendedMove(s: State, l: Label, j: nat)
    requires Attended(s) && Going(s, l) && Moves(l)
    requires j < |Apply(s, l).jobs| && Apply(s, l).jobs[j].status == Doing
    ensures !Dead(Apply(s, l), j)
  {
    StartsNoJob(s, l, j);
    StepMoves(s, l);
    var q :| 0 <= q < |s.procs| && s.procs[q].Worker? && s.procs[q].job == j;
    if q == l.p && !l.FinishJob? { StaysAtWork(s, l); }
    var s' := Apply(s, l);
    hide Apply, Going, FailStopStep;
    assert s'.procs[q].Worker? && s'.procs[q].job == j;
  }

  lemma AttendedFetch(s: State, j: nat)
    requires Attended(s) && QueueEnabled(s, Fetch(j))
    ensures Attended(ApplyQueue(s, Fetch(j)))
  {
    var s' := ApplyQueue(s, Fetch(j));
    forall k | 0 <= k < |s'.jobs| && s'.jobs[k].status == Doing
      ensures !Dead(s', k)
    {
      if k == j {
        assert s'.procs[|s.procs|].job == k;
      } else {
        var q :| 0 <= q < |s.procs| && s.procs[q].Worker? && s.procs[q].job == k;
        assert s'.procs[q] == s.procs[q];
      }
    }
  }

  lemma AttendedStep(s: State, l: Label)
    requires Attended(s) && Going(s, l)
    ensures Attended(Apply(s, l))
  {
    if Moves(l) {
      var s' := Apply(s, l);
      forall j | 0 <= j < |s'.jobs| && s'.jobs[j].status == Doing
        ensures !Dead(s', j)
      {
        AttendedMove(s, l, j);
      }
    } else if l.Fetch? {
      AttendedFetch(s, l.job);
    } else {
      AttendedSpawn(s, l);
    }
  }

  /** Ticks and releases take no worker away. */
  lemma AttendedSpawn(s: State, l: Label)
    requires Attended(s) && Going(s, l) && (l.Recover? || l.StartSweep?)
    ensures Attended(Apply(s, l))
  {
    var s' := Apply(s, l);
    forall j | 0 <= j < |s'.jobs| && s'.jobs[j].status == Doing
      ensures !Dead(s', j)
    {
      var q :| 0 <= q < |s.procs| && s.procs[q].Worker? && s.procs[q].job == j;
      assert s'.procs[q] == s.procs[q];
    }
  }

  // ---------- every waiting row has somebody to work on it ----------

  /** The worker is about to take the task up, or is posting an output that has no attempt left; or a
      recovery sweep is going to submit the task. */
  predicate TakesUp(s: State, proc: Proc, task: Task) {
    || (&& proc.Worker? && proc.job < |s.jobs| && QueueingLockOf(s.jobs[proc.job].task) == QueueingLockOf(task)
        && (proc.pos == Start
            || (task.OutputTask? && Delivering(proc.pos) && Attempts(s.db, task.output) >= s.maxAttempts)))
    || (proc.Sweep? && task in proc.tasks)
  }

  /** One of the first `n` jobs is to do for the task. */
  predicate EnqueuedBelow(jobs: seq<Job>, task: Task, n: nat) {
    exists j | 0 <= j < |jobs| ::
      j < n && jobs[j].status == Todo && QueueingLockOf(jobs[j].task) == QueueingLockOf(task)
  }

  /** The process takes the task up: a worker on one of the first `n` jobs, or a sweep among the first `k`
      processes. */
  predicate Serves(s: State, p: nat, task: Task, n: nat, k: nat) {
    p < |s.procs| && TakesUp(s, s.procs[p], task) && if s.procs[p].Worker? then s.procs[p].job < n else p < k
  }

  ghost predicate Covered(s: State, task: Task, n: nat, k: nat) {
    EnqueuedBelow(s.jobs, task, n) || exists p: nat :: Serves(s, p, task, n, k)
  }

  /** Everything that waits is covered by the first `n` jobs and the sweeps among the first `k` processes. */
  ghost predicate AllCovered(s: State, n: nat, k: nat) {
    forall task | Waits(s.db, task) :: Covered(s, task, n, k)
  }

  /** Right after a tick everything that waits is covered, by the new sweep at least. */
  lemma TickCovers(s: State)
    ensures var s' := Apply(s, StartSweep);
            AllCovered(s', |s'.jobs|, |s'.procs|) && Weight(s') == Weight(s)
  {
    var s' := Apply(s, StartSweep);
    forall task | Waits(s'.db, task)
      ensures Covered(s', task, |s'.jobs|, |s'.procs|)
    {
      PendingTasksExact(s.db, task);
      assert Serves(s', |s.procs|, task, |s'.jobs|, |s'.procs|);
    }
    SumAdded(s.procs, ProcWeigher(s.maxAttempts), Sweep(PendingTasks(s.db)));
  }

  lemma WorkerWeight(s: State, db: Db, p: nat, pos: Position)
    requires WorkerIn(s, p)
    ensures Weight(Move(s.(db := db), p, pos)) + DbWeight(s.db, s.maxAttempts)
            == Weight(s) + DbWeight(db, s.maxAttempts)
  {
    hide DbWeight, Sum;
    Moved(s, db, s.jobs, p, Worker(s.procs[p].job, pos));
  }

  lemma IntakeWaits(s: State, l: Label, task: Task)
    requires Consistent(s) && Going(s, l) && IntakeLabel(l)
    requires Waits(ApplyIntake(s, l).db, task) && Weight(ApplyIntake(s, l)) >= Weight(s)
    ensures Waits(s.db, task)
  {
    PlacedAt(s, l.p);
    hide Consistent, Weight, Waits;
    if l.ProcessEvent? {
      var e := TaskOf(s, l.p).event;
      var (db, next) := ProcessStoredEvent(s.db, e, l.mode, l.now);
      ProcessEventWeight(s.db, e, l.mode, l.now, s.maxAttempts);
      WorkerWeight(s, db, l.p, Next(next));
    } else if l.ReceiverWrite? {
      WriteCloser(s, l.p);
    }
  }

  lemma RunWaits(s: State, l: Label, task: Task)
    requires RunLabel(l) && RunEnabled(s, l)
    requires Waits(ApplyRun(s, l).db, task) && Weight(ApplyRun(s, l)) >= Weight(s)
    ensures Waits(s.db, task)
  {
    hide Weight, Sum, DbWeight;
    if l.CommitRun? {
      FinalizeWeight(s.db, TaskOf(s, l.p).run, s.procs[l.p].pos.kind, ModeOn, s.maxAttempts);
      var (db, o) := CompleteRun(s.db, TaskOf(s, l.p).run, s.procs[l.p].pos.kind);
      WorkerWeight(s, db, l.p, NextOutput(o));
    } else if l.CommitFailure? {
      FinalizeWeight(s.db, TaskOf(s, l.p).run, Investigation, ModeOn, s.maxAttempts);
      var (db, o) := FailRun(s.db, TaskOf(s, l.p).run, ModeOn);
      WorkerWeight(s, db, l.p, NextOutput(o));
    }
  }

  lemma DeliveryWaits(s: State, l: Label, task: Task)
    requires DeliveryLabel(l) && DeliveryEnabled(s, l) && Waits(ApplyDelivery(s, l).db, task)
    ensures Waits(s.db, task)
  {
  }

  /** Releasing a job leaves the rows, or fails its run and with that lowers the weight. */
  lemma ReleaseKeeps(s: State, l: Label)
    requires Enabled(s, l) && (l.Recover? || l.ReleaseJob?)
    ensures Weight(Apply(s, l)) < Weight(s) || (Weight(Apply(s, l)) == Weight(s) && Apply(s, l).db == s.db)
  {
    hide DbWeight, Sum, FailRun;
    if l.Recover? {
      SumAdded(s.procs, ProcWeigher(s.maxAttempts), Release(l.job));
      if s.jobs[l.job].task.RunTask? {
        FinalizeWeight(s.db, s.jobs[l.job].task.run, Investigation, l.mode, s.maxAttempts);
      }
    } else {
      Moved(s, s.db, Apply(s, l).jobs, l.p, Gone);
    }
  }

  /** A row that starts waiting has cost weight: nothing begins to wait for free. */
  lemma NothingWaitsAnew(s: State, l: Label, task: Task)
    requires Consistent(s) && Going(s, l)
    requires Waits(Apply(s, l).db, task) && Weight(Apply(s, l)) >= Weight(s)
    ensures Waits(s.db, task)
  {
    hide Consistent, Weight, Waits;
    if IntakeLabel(l) { IntakeWaits(s, l, task); }
    else if RunLabel(l) { RunWaits(s, l, task); }
    else if DeliveryLabel(l) { DeliveryWaits(s, l, task); }
    else if l.Recover? { ReleaseKeeps(s, l); }
  }

  /** A job to do stays one, until a worker fetches it. */
  lemma EnqueuedStays(s: State, l: Label, task: Task, n: nat, k: nat)
    requires Going(s, l) && EnqueuedBelow(s.jobs, task, n)
    ensures Covered(Apply(s, l), task, n, k)
  {
    var s' := Apply(s, l);
    var j :| 0 <= j < |s.jobs| && j < n && s.jobs[j].status == Todo
             && QueueingLockOf(s.jobs[j].task) == QueueingLockOf(task);
    if l.Fetch? && l.job == j {
      assert Serves(s', |s.procs|, task, n, k);
    } else {
      TodoStays(s, l, j);
    }
  }

  lemma TodoStays(s: State, l: Label, j: nat)
    requires Enabled(s, l) && j < |s.jobs| && s.jobs[j].status == Todo && l != Fetch(j)
    ensures j < |Apply(s, l).jobs| && Apply(s, l).jobs[j] == s.jobs[j]
  {
  }

  lemma SweepStays(s: State, l: Label, p: nat, task: Task, n: nat, k: nat)
    requires Going(s, l) && p < |s.procs| && s.procs[p].Sweep? && task in s.procs[p].tasks
    requires Locked(s.jobs) && p < k && |Apply(s, l).jobs| <= n
    ensures Covered(Apply(s, l), task, n, k)
  {
    var s' := Apply(s, l);
    if l == SweepNext(p) {
      var tasks := s.procs[p].tasks;
      EnqueueKeepsLocks(s.jobs, tasks[0]);
      if task != tasks[0] { assert Serves(s', p, task, n, k); }
    } else {
      if Moves(l) && l.p == p { SweepStepsOnly(s, l); }
      OthersStay(s, l, p);
      hide Apply;
      assert Serves(s', p, task, n, k);
    }
  }

  lemma SweepStepsOnly(s: State, l: Label)
    requires Going(s, l) && Moves(l) && l.p < |s.procs| && s.procs[l.p].Sweep?
    ensures l == SweepNext(l.p)
  {
  }

  lemma OthersStay(s: State, l: Label, p: nat)
    requires Enabled(s, l) && p < |s.procs| && (Moves(l) ==> l.p != p)
    ensures p < |Apply(s, l).procs| && Apply(s, l).procs[p] == s.procs[p]
  {
    if Moves(l) { StepMoves(s, l); } else { StepSpawns(s, l); }
    hide Apply, Enabled;
  }

  lemma DeliveryStartStays(s: State, p: nat, mode: Mode, task: Task)
    requires DeliveryEnabled(s, StartDelivery(p, mode))
    requires QueueingLockOf(TaskOf(s, p)) == QueueingLockOf(task)
    requires var s' := ApplyDelivery(s, StartDelivery(p, mode)); Waits(s'.db, task) && Weight(s') >= Weight(s)
    ensures var s' := ApplyDelivery(s, StartDelivery(p, mode)); p < |s'.procs| && TakesUp(s', s'.procs[p], task)
    ensures ApplyDelivery(s, StartDelivery(p, mode)).procs[p].Worker?
  {
    var o := TaskOf(s, p).output;
    var (db, post) := ClaimOutput(s.db, o, mode);
    ClaimOutputWeight(s.db, o, mode, s.maxAttempts);
    WorkerWeight(s, db, p, if post then Posting else Done);
    hide Weight, DbWeight;
  }

  lemma EventStartDecides(s: State, p: nat, mode: Mode, now: int, task: Task)
    requires IntakeEnabled(s, ProcessEvent(p, mode, now))
    requires QueueingLockOf(TaskOf(s, p)) == QueueingLockOf(task) && Waits(s.db, task)
    ensures Weight(ApplyIntake(s, ProcessEvent(p, mode, now))) < Weight(s)
  {
    hide Weight;
    var e := TaskOf(s, p).event;
    var (db, next) := ProcessStoredEvent(s.db, e, mode, now);
    ProcessEventWeight(s.db, e, mode, now, s.maxAttempts);
    WorkerWeight(s, db, p, Next(next));
  }

  lemma RunStartDecides(s: State, p: nat, mode: Mode, task: Task)
    requires RunEnabled(s, StartRun(p, mode)) && QueueingLockOf(TaskOf(s, p)) == QueueingLockOf(task)
    ensures !Waits(ApplyRun(s, StartRun(p, mode)).db, task)
  {
  }

  lemma DeliveringStays(s: State, l: Label, task: Task)
    requires DeliveryLabel(l) && DeliveryEnabled(s, l) && !l.StartDelivery?
    requires TakesUp(s, s.procs[l.p], task) && Waits(ApplyDelivery(s, l).db, task)
    ensures l.p < |ApplyDelivery(s, l).procs| && ApplyDelivery(s, l).procs[l.p].Worker?
    ensures TakesUp(ApplyDelivery(s, l), ApplyDelivery(s, l).procs[l.p], task)
  {
  }

  lemma TakerSteps(s: State, l: Label, task: Task)
    requires Going(s, l) && Moves(l) && l.p < |s.procs| && s.procs[l.p].Worker? && TakesUp(s, s.procs[l.p], task)
    ensures WorkerIn(s, l.p) && QueueingLockOf(TaskOf(s, l.p)) == QueueingLockOf(task)
    ensures l.ProcessEvent? || l.StartRun? || DeliveryLabel(l)
  {
  }

  /** A worker that takes up a task either keeps at it or decides the row. */
  lemma WorkStays(s: State, l: Label, task: Task)
    requires Consistent(s) && Crew(s.jobs, s.procs) && Going(s, l) && Moves(l)
    requires l.p < |s.procs| && s.procs[l.p].Worker? && TakesUp(s, s.procs[l.p], task)
    requires Waits(s.db, task) && Waits(Apply(s, l).db, task) && Weight(Apply(s, l)) >= Weight(s)
    ensures l.p < |Apply(s, l).procs| && Apply(s, l).procs[l.p].Worker?
    ensures TakesUp(Apply(s, l), Apply(s, l).procs[l.p], task)
  {
    TakerSteps(s, l, task);
    hide Consistent, Crew, Weight, TakesUp, Waits;
    if l.StartDelivery? {
      DeliveryStartStays(s, l.p, l.mode, task);
    } else if l.ProcessEvent? {
      EventStartDecides(s, l.p, l.mode, l.now, task);
    } else if l.StartRun? {
      RunStartDecides(s, l.p, l.mode, task);
    } else {
      DeliveringStays(s, l, task);
    }
  }

  lemma OtherWorkStays(s: State, l: Label, p: nat, task: Task)
    requires Consistent(s) && Going(s, l) && p < |s.procs| && s.procs[p].Worker? && TakesUp(s, s.procs[p], task)
    requires Moves(l) ==> l.p != p
    ensures p < |Apply(s, l).procs| && Apply(s, l).procs[p] == s.procs[p]
    ensures TakesUp(Apply(s, l), s.procs[p], task)
  {
    var s' := Apply(s, l);
    assert Enabled(s, l);
    hide Consistent, Apply, Enabled, Going, FailStopStep, Attempts;
    OthersStay(s, l, p);
    StepAttempts(s, l, if task.OutputTask? then task.output else 0);
    if Moves(l) { StepMoves(s, l); } else { StepSpawns(s, l); }
    MaximumKept(s, l);
  }

  /** As long as the weight stays, so does the cover of everything that waits; only a sweep needs new jobs. */
  lemma CoverStep(s: State, l: Label, n: nat, n': nat, k: nat)
    requires Consistent(s) && Crew(s.jobs, s.procs) && Going(s, l)
    requires n <= n' && (k > 0 ==> |Apply(s, l).jobs| <= n')
    requires AllCovered(s, n, k) && Weight(Apply(s, l)) >= Weight(s)
    ensures AllCovered(Apply(s, l), n', k)
  {
    assert Enabled(s, l);
    hide Crew, Apply, Enabled, Going, Serves, EnqueuedBelow, Weight, Waits;
    forall task | Waits(Apply(s, l).db, task)
      ensures Covered(Apply(s, l), task, n', k)
    {
      NothingWaitsAnew(s, l, task);
      if EnqueuedBelow(s.jobs, task, n) {
        EnqueuedMore(s.jobs, task, n, n');
        EnqueuedStays(s, l, task, n', k);
      } else {
        var p: nat :| Serves(s, p, task, n, k);
        ServedStays(s, l, p, task, n, n', k);
      }
    }
  }

  lemma EnqueuedMore(jobs: seq<Job>, task: Task, n: nat, n': nat)
    requires EnqueuedBelow(jobs, task, n) && n <= n'
    ensures EnqueuedBelow(jobs, task, n')
  {
  }

  lemma ServedStays(s: State, l: Label, p: nat, task: Task, n: nat, n': nat, k: nat)
    requires Consistent(s) && Crew(s.jobs, s.procs) && Going(s, l)
    requires n <= n' && (k > 0 ==> |Apply(s, l).jobs| <= n') && Serves(s, p, task, n, k)
    requires Waits(s.db, task) && Waits(Apply(s, l).db, task) && Weight(Apply(s, l)) >= Weight(s)
    ensures Covered(Apply(s, l), task, n', k)
  {
    if s.procs[p].Sweep? {
      hide Apply, Weight, Waits, Crew, Going;
      SweepStays(s, l, p, task, n', k);
    } else {
      if Moves(l) && l.p == p {
        StepMoves(s, l);
        WorkStays(s, l, task);
      } else {
        OtherWorkStays(s, l, p, task);
      }
      hide Apply, Going, TakesUp, Weight, Waits, Crew, Consistent;
      assert Serves(Apply(s, l), p, task, n', k);
    }
  }

  // ---------- whoever is alive can take a step ----------

  function Above(outputs: seq<Output>): (ts: Ts)
    ensures forall i | 0 <= i < |outputs| && outputs[i].slackTs.Some? :: outputs[i].slackTs.value < ts
  {
    if outputs == [] then 0
    else
      var rest := Above(outputs[..|outputs| - 1]);
      var last := outputs[|outputs| - 1].slackTs;
      if last.Some? && rest <= last.value then last.value + 1 else rest
  }

  lemma DeliveryCanStep(s: State, p: nat) returns (l: Label)
    requires Consistent(s) && p < |s.procs| && s.procs[p].Worker? && Delivering(s.procs[p].pos)
    ensures Steady(s, l) && Questions.LabelEnabled(l)
  {
    PlacedAt(s, p);
    match s.procs[p].pos
    case Posting => l := PostAccepted(p);
    case Posted => l := CommitSent(p, Above(s.db.outputs), 0);
    case PostFailed => l := CommitDeliveryError(p);
  }

  lemma InvestigationCanStep(s: State, p: nat) returns (l: Label)
    requires Consistent(s) && p < |s.procs| && s.procs[p].Worker? && Active(s.procs[p].pos)
    ensures Steady(s, l) && Questions.LabelEnabled(l)
  {
    PlacedAt(s, p);
    match s.procs[p].pos
    case Gate => l := CheckStale(p, ModeOn);
    case FinalGate(_) => l := CheckStale(p, ModeOn);
    case Investigating => l := Investigated(p, Investigation);
    case Committing(_) => l := CommitRun(p);
    case RunFailing => l := CommitFailure(p);
  }

  lemma StarterCanStep(s: State, p: nat) returns (l: Label)
    requires WorkerAt(s, p, Start)
    ensures Steady(s, l) && Questions.LabelEnabled(l)
  {
    match TaskOf(s, p)
    case EventTask(_) => l := ProcessEvent(p, ModeOn, 0);
    case RunTask(_, _) => l := StartRun(p, ModeOn);
    case OutputTask(_) => l := StartDelivery(p, ModeOn);
  }

  lemma WorkerCanStep(s: State, p: nat) returns (l: Label)
    requires Consistent(s) && Crew(s.jobs, s.procs) && p < |s.procs| && s.procs[p].Worker?
    ensures Steady(s, l) && Questions.LabelEnabled(l)
  {
    PlacedAt(s, p);
    var pos := s.procs[p].pos;
    assert WorkerIn(s, p) && pos != EventFailing;
    hide Crew;
    if Active(pos) {
      l := InvestigationCanStep(s, p);
    } else if Delivering(pos) {
      l := DeliveryCanStep(s, p);
    } else if pos == Start {
      l := StarterCanStep(s, p);
    } else {
      hide Consistent;
      l := if pos.ToEnqueue? then EnqueueNext(p) else FinishJob(p);
    }
  }

  lemma CanStep(s: State, p: nat) returns (l: Label)
    requires Consistent(s) && Crew(s.jobs, s.procs) && p < |s.procs| && s.procs[p] != Gone
    ensures Steady(s, l) && Questions.LabelEnabled(l)
  {
    PlacedAt(s, p);
    match s.procs[p]
    case Receiver(_, stage) =>
      l := if stage == ToDefer then ReceiverDefer(p) else if stage == ToRead then ReceiverRead(p)
           else ReceiverWrite(p);
    case Worker(_, _) => l := WorkerCanStep(s, p);
    case Release(_) => l := ReleaseJob(p);
    case Sweep(_) => l := SweepNext(p);
  }

  ghost predicate Stuck(s: State) {
    forall l :: !Steady(s, l)
  }

  /** Nobody is at work and no job is open. */
  predicate Idle(s: State) {
    && (forall p | 0 <= p < |s.procs| :: s.procs[p] == Gone)
    && (forall j | 0 <= j < |s.jobs| :: s.jobs[j].status == Finished)
  }

  /** Without dead workers' jobs, the protocol only stops when nobody is at work and no job is open. */
  lemma StuckIsIdle(s: State)
    requires Orderly(s) && Attended(s) && Stuck(s)
    ensures Idle(s)
  {
    forall p | 0 <= p < |s.procs|
      ensures s.procs[p] == Gone
    {
      if s.procs[p] != Gone { var l := CanStep(s, p); }
    }
    forall j | 0 <= j < |s.jobs|
      ensures s.jobs[j].status == Finished
    {
      if s.jobs[j].status == Todo { assert Steady(s, Fetch(j)); }
    }
  }

  // ---------- runs without new events ----------

  /** Any fail-stop run without new events: crashes, releases and ticks may fall anywhere. */
  predicate OnwardRun(s: State, ls: seq<Label>): (r: bool)
    ensures r ==> FailStopRun(s, ls)
    decreases |ls|
  {
    ls == [] || (Onward(s, ls[0]) && OnwardRun(Apply(s, ls[0]), ls[1..]))
  }

  predicate Onward(s: State, l: Label) {
    FailStopStep(s, l) && !l.Receive?
  }

  lemma OnwardStep(s: State, l: Label)
    requires Orderly(s) && FailStopStep(s, l) && !l.Receive?
    ensures Orderly(Apply(s, l)) && Weight(Apply(s, l)) <= Weight(s)
  {
    assert Consistent(s) && Enabled(s, l);
    hide Orderly, Weight, Rank, Apply, Enabled, Consistent, AllCovered;
    OrderlyStep(s, l);
    if l.StartSweep? { TickCovers(s); }
    else if l.Recover? { ReleaseKeeps(s, l); }
    else { StepCloser(s, l); }
  }

  /** No run without new events adds to what is pending. */
  lemma {:induction false} OnwardRuns(s: State, ls: seq<Label>)
    requires Orderly(s) && OnwardRun(s, ls)
    ensures Valid(s, ls) && Orderly(After(s, ls)) && Weight(After(s, ls)) <= Weight(s)
    decreases |ls|
  {
    if ls != [] {
      OnwardStep(s, ls[0]);
      hide Orderly, Weight, Apply, FailStopStep;
      OnwardRuns(Apply(s, ls[0]), ls[1..]);
    }
  }

  // ---------- ticks do not keep the workers busy for ever ----------

  lemma {:induction false} PendingCounted(db: Db, max: nat)
    ensures |PendingEvents(db.events)| <= Sum(db.events, EventWeigher(max))
    ensures |PendingRuns(db.runs)| <= Sum(db.runs, RunWeigher(max))
    ensures |PendingOutputs(db.outputs)| <= Sum(db.outputs, OutputWeigher(max))
    decreases |db.events| + |db.runs| + |db.outputs|
  {
    if db.events != [] { PendingCounted(db.(events := db.events[..|db.events| - 1]), max); }
    if db.runs != [] { PendingCounted(db.(runs := db.runs[..|db.runs| - 1]), max); }
    if db.outputs != [] { PendingCounted(db.(outputs := db.outputs[..|db.outputs| - 1]), max); }
  }

  lemma SweepRank(s: State)
    ensures Rank(Apply(s, StartSweep)) <= Rank(s) + 1 + 10 * Weight(s)
  {
    hide AllCovered, Sum, Apply;
    TickCovers(s);
    PendingCounted(s.db, s.maxAttempts);
    SumAdded(s.procs, ProcLoader(), Sweep(PendingTasks(s.db)));
    SweepShape(s);
  }

  lemma SweepShape(s: State)
    ensures Apply(s, StartSweep) == s.(procs := s.procs + [Sweep(PendingTasks(s.db))])
  {
  }

  lemma ReleaseRank(s: State, j: nat, mode: Mode)
    requires Enabled(s, Recover(j, mode))
    ensures Rank(Apply(s, Recover(j, mode))) <= Rank(s) + 1
  {
    hide Weight, FailHeldRun, Sum;
    ReleaseKeeps(s, Recover(j, mode));
    SumAdded(s.procs, ProcLoader(), Release(j));
  }

  /** A tick adds a sweep over what is pending, a release one process. */
  lemma TickRank(s: State, l: Label)
    requires Enabled(s, l) && !l.Receive? && !Internal(l)
    ensures Rank(Apply(s, l)) <= Rank(s) + 1 + 10 * Weight(s)
  {
    hide Rank, Weight, Apply;
    if l.StartSweep? { SweepRank(s); } else { ReleaseRank(s, l.job, l.mode); }
  }

  function Ticks(ls: seq<Label>): nat {
    if ls == [] then 0 else (if Internal(ls[0]) then 0 else 1) + Ticks(ls[1..])
  }

  /** What a number of ticks and releases can add, as long as no more is pending than in `s`. */
  function Allowance(ticks: nat, s: State): nat {
    ticks * (2 + 10 * Weight(s))
  }

  lemma AllowanceGrows(ticks: nat, s: State, s': State)
    requires Weight(s') <= Weight(s)
    ensures Allowance(ticks, s') <= Allowance(ticks, s)
    ensures Allowance(1 + ticks, s) == Allowance(ticks, s) + 2 + 10 * Weight(s)
  {
    hide Weight;
    var a, b := 2 + 10 * Weight(s'), 2 + 10 * Weight(s);
    assert ticks * a <= ticks * b;
    assert (1 + ticks) * b == b + ticks * b;
  }

  lemma OnwardRank(s: State, l: Label)
    requires Orderly(s) && Onward(s, l)
    ensures Rank(Apply(s, l)) + 1 <= Rank(s) + if Internal(l) then 0 else 2 + 10 * Weight(s)
  {
    assert Consistent(s);
    hide Orderly, Consistent, Weight, Rank, Apply;
    if Internal(l) { StepCloser(s, l); } else { TickRank(s, l); }
  }

  lemma AllowedStep(s: State, l: Label, ticks: nat)
    requires Orderly(s) && Onward(s, l)
    ensures Orderly(Apply(s, l))
    ensures Rank(Apply(s, l)) + 1 + Allowance(ticks, Apply(s, l))
            <= Rank(s) + Allowance(ticks + if Internal(l) then 0 else 1, s)
  {
    hide Orderly, Weight, Rank, Apply, Allowance;
    OnwardStep(s, l);
    OnwardRank(s, l);
    AllowanceGrows(ticks, s, Apply(s, l));
  }

  /** However often the recovery job ticks, the steps of a run without new events are bounded by its ticks
      and releases: each can only add work for what is pending. */
  lemma {:induction false} OnwardRunsEnd(s: State, ls: seq<Label>)
    requires Orderly(s) && OnwardRun(s, ls)
    ensures Valid(s, ls) && |ls| + Rank(After(s, ls)) <= Rank(s) + Allowance(Ticks(ls), s)
    decreases |ls|
  {
    hide Orderly, Rank, Apply, Onward, FailStopStep, Internal, Allowance;
    if ls != [] {
      AllowedStep(s, ls[0], Ticks(ls[1..]));
      OnwardRunsEnd(Apply(s, ls[0]), ls[1..]);
    }
  }

  // ---------- what a crash-free run without new events keeps ----------

  predicate GoingRun(s: State, ls: seq<Label>): (r: bool)
    ensures r ==> OnwardRun(s, ls)
  {
    OnwardRun(s, ls) && CrashFree(ls)
  }

  lemma GoingOn(s: State, ls: seq<Label>)
    requires GoingRun(s, ls) && ls != []
    ensures Going(s, ls[0]) && GoingRun(Apply(s, ls[0]), ls[1..])
    ensures After(s, ls) == After(Apply(s, ls[0]), ls[1..])
  {
  }

  /** The first step of a run that keeps the weight keeps it, and so does the rest. */
  lemma WeightKept(s: State, ls: seq<Label>)
    requires Orderly(s) && GoingRun(s, ls) && ls != [] && Weight(After(s, ls)) >= Weight(s)
    ensures var s' := Apply(s, ls[0]);
            Orderly(s') && Weight(s') == Weight(s) && Weight(After(s', ls[1..])) >= Weight(s')
  {
    GoingOn(s, ls);
    OnwardStep(s, ls[0]);
    hide Orderly, Weight, Apply, GoingRun;
    OnwardRuns(Apply(s, ls[0]), ls[1..]);
  }

  lemma {:induction false} CoverRun(s: State, ls: seq<Label>, n: nat, k: nat)
    requires Orderly(s) && GoingRun(s, ls) && Weight(After(s, ls)) >= Weight(s)
    requires AllCovered(s, n, k) && (k > 0 ==> n == |s.jobs|)
    ensures AllCovered(After(s, ls), if k > 0 then |After(s, ls).jobs| else n, k)
    decreases |ls|
  {
    if ls != [] {
      var s' := Apply(s, ls[0]);
      GoingOn(s, ls);
      WeightKept(s, ls);
      var n' := if k > 0 then |s'.jobs| else n;
      CoverAfter(s, ls[0], n, k);
      hide Orderly, Weight, Apply, GoingRun, AllCovered;
      CoverRun(s', ls[1..], n', k);
    }
  }

  lemma CoverAfter(s: State, l: Label, n: nat, k: nat)
    requires Orderly(s) && Going(s, l) && AllCovered(s, n, k) && (k > 0 ==> n == |s.jobs|)
    requires Weight(Apply(s, l)) >= Weight(s)
    ensures AllCovered(Apply(s, l), if k > 0 then |Apply(s, l).jobs| else n, k)
  {
    assert Enabled(s, l) && Consistent(s) && Crew(s.jobs, s.procs);
    hide Orderly, Weight, Apply, AllCovered, Enabled, Consistent, Crew, Going;
    JobsOnlyGrow(s, l);
    CoverStep(s, l, n, if k > 0 then |Apply(s, l).jobs| else n, k);
  }

  lemma JobsOnlyGrow(s: State, l: Label)
    requires Enabled(s, l)
    ensures |s.jobs| <= |Apply(s, l).jobs| && |s.procs| <= |Apply(s, l).procs|
  {
    hide Apply, Enabled;
    if Moves(l) { StepMoves(s, l); } else { StepSpawns(s, l); }
  }

  ghost predicate NothingWaits(db: Db) {
    forall task :: !Waits(db, task)
  }

  /** Every running investigation is held by one of the first `n` jobs. */
  ghost predicate HeldBelow(s: State, n: nat) {
    forall r: nat | RunIs(s.db, r, Running) :: exists j: nat :: j < n && HoldsRun(s.jobs, s.procs, j, r)
  }

  lemma ClaimedWaited(s: State, l: Label, r: nat)
    requires Enabled(s, l) && l.StartRun? && TaskOf(s, l.p).run == r
    requires RunIs(Apply(s, l).db, r, Running) && !RunIs(s.db, r, Running)
    ensures Waits(s.db, RunTask(r, s.db.runs[r].conv))
  {
  }

  /** While nothing waits no investigation starts, and those that run stay with their jobs. */
  lemma HeldStep(s: State, l: Label, n: nat)
    requires Orderly(s) && Going(s, l) && NothingWaits(s.db) && HeldBelow(s, n)
    requires Weight(Apply(s, l)) >= Weight(s)
    ensures NothingWaits(Apply(s, l).db) && HeldBelow(Apply(s, l), n)
  {
    var s' := Apply(s, l);
    assert Consistent(s) && FailStopStep(s, l);
    hide Orderly, Consistent, Apply, Going, HoldsRun, Enabled, FailStopStep, Weight, Waits;
    forall task
      ensures !Waits(s'.db, task)
    {
      if Waits(s'.db, task) { NothingWaitsAnew(s, l, task); }
    }
    forall r: nat | RunIs(s'.db, r, Running)
      ensures exists j: nat :: j < n && HoldsRun(s'.jobs, s'.procs, j, r)
    {
      if RunIs(s.db, r, Running) {
        var j: nat :| j < n && HoldsRun(s.jobs, s.procs, j, r);
        HolderStays(s, l, j, r);
      } else {
        OnlyClaimsStart(s, l, r);
        ClaimedWaited(s, l, r);
      }
    }
  }

  lemma {:induction false} QuietRun(s: State, ls: seq<Label>, n: nat)
    requires Orderly(s) && GoingRun(s, ls) && NothingWaits(s.db) && HeldBelow(s, n)
    requires Weight(After(s, ls)) >= Weight(s)
    ensures NothingWaits(After(s, ls).db) && HeldBelow(After(s, ls), n)
    decreases |ls|
  {
    if ls != [] {
      GoingOn(s, ls);
      WeightKept(s, ls);
      HeldStep(s, ls[0], n);
      hide Orderly, Weight, Apply, GoingRun, NothingWaits, HeldBelow;
      QuietRun(Apply(s, ls[0]), ls[1..], n);
    }
  }

  /** Listeners are among the first `k` processes. */
  predicate ListenersBelow(procs: seq<Proc>, k: nat) {
    forall p | 0 <= p < |procs| && procs[p].Receiver? :: p < k
  }

  lemma ListenersStep(s: State, l: Label, k: nat)
    requires Going(s, l) && ListenersBelow(s.procs, k)
    ensures ListenersBelow(Apply(s, l).procs, k)
  {
    if Moves(l) {
      StepMoves(s, l);
      NoNewListener(s, l);
    } else {
      SpawnsNoListener(s, l);
    }
    hide Apply, Going, Enabled;
  }

  lemma NoNewListener(s: State, l: Label)
    requires Enabled(s, l) && Moves(l) && l.p < |s.procs| && l.p < |Apply(s, l).procs|
    ensures Apply(s, l).procs[l.p].Receiver? ==> s.procs[l.p].Receiver?
  {
  }

  lemma SpawnsNoListener(s: State, l: Label)
    requires Going(s, l) && !Moves(l)
    ensures exists proc :: Apply(s, l).procs == s.procs + [proc] && !proc.Receiver?
  {
  }

  lemma {:induction false} ListenersRun(s: State, ls: seq<Label>, k: nat)
    requires GoingRun(s, ls) && ListenersBelow(s.procs, k)
    ensures ListenersBelow(After(s, ls).procs, k)
    decreases |ls|
  {
    if ls != [] {
      GoingOn(s, ls);
      ListenersStep(s, ls[0], k);
      hide Apply, GoingRun, ListenersBelow;
      ListenersRun(Apply(s, ls[0]), ls[1..], k);
    }
  }

  // ---------- nothing is left to do ----------

  /** Nothing is left to do: no row waits or runs, and no listener is about to set its event back. Idle
      sweeps may still come and go. */
  ghost predicate AtRest(s: State) {
    && Questions.Quiescent(s.db)
    && (forall e | 0 <= e < |s.db.events| :: !EventPending(s.db.events[e]))
    && ListenersBelow(s.procs, 0)
  }

  lemma {:induction false} SumZero<T>(rows: seq<T>, weight: T -> nat)
    ensures Sum(rows, weight) == 0 <==> forall i | 0 <= i < |rows| :: weight(rows[i]) == 0
  {
    if rows != [] { SumZero(rows[..|rows| - 1], weight); }
  }

  /** The protocol is at rest exactly when it has no weight, unless an exception gave an event up. */
  lemma WeightlessRests(s: State)
    requires Mentions.NoneFailed(s.db)
    ensures Weight(s) == 0 <==> AtRest(s)
  {
    SumZero(s.db.events, EventWeigher(s.maxAttempts));
    SumZero(s.db.runs, RunWeigher(s.maxAttempts));
    SumZero(s.db.outputs, OutputWeigher(s.maxAttempts));
    SumZero(s.procs, ProcWeigher(s.maxAttempts));
    hide Sum;
    if Weight(s) == 0 {
      forall e | 0 <= e < |s.db.events|
        ensures !EventPending(s.db.events[e])
      {
        assert EventWeigher(s.maxAttempts)(s.db.events[e]) == 0;
      }
      forall r | 0 <= r < |s.db.runs|
        ensures Terminal(s.db.runs[r].status)
      {
        assert RunWeigher(s.maxAttempts)(s.db.runs[r]) == 0;
      }
      forall o | 0 <= o < |s.db.outputs|
        ensures s.db.outputs[o].status != Pending
      {
        assert OutputWeigher(s.maxAttempts)(s.db.outputs[o]) == 0;
      }
      forall p | 0 <= p < |s.procs|
        ensures !s.procs[p].Receiver?
      {
        assert ProcWeigher(s.maxAttempts)(s.procs[p]) == 0;
      }
    }
  }

  // ---------- rounds ----------

  /** Everybody who was at work in `s` is through in `t`, and every job that was open is finished. What
      started meanwhile may still go on. */
  predicate Through(s: State, t: State) {
    && |s.procs| <= |t.procs| && |s.jobs| <= |t.jobs|
    && (forall p | 0 <= p < |s.procs| :: t.procs[p] == Gone)
    && (forall j | 0 <= j < |s.jobs| :: t.jobs[j].status == Finished)
  }

  /** Anything at all but new events; then a tick; then three stretches without a crash, in which the sweep
      submits what waits, the submitted jobs are worked off, and the investigations they started end.
      Other ticks, sweeps and releases may overlap with all of it. */
  datatype Round = Round(before: seq<Label>, submit: seq<Label>, decide: seq<Label>, finish: seq<Label>)

  ghost predicate Stretch(s: State, ls: seq<Label>) {
    GoingRun(s, ls) && Through(s, After(s, ls))
  }

  ghost predicate RoundFrom(s: State, round: Round) {
    && OnwardRun(s, round.before)
    && var ticked := Apply(After(s, round.before), StartSweep);
       && Stretch(ticked, round.submit)
       && var submitted := After(ticked, round.submit);
          && Stretch(submitted, round.decide)
          && Stretch(After(submitted, round.decide), round.finish)
  }

  ghost function RoundEnd(s: State, round: Round): State
    requires RoundFrom(s, round)
  {
    After(After(After(Apply(After(s, round.before), StartSweep), round.submit), round.decide), round.finish)
  }

  lemma SweepsOver(s: State, n: nat, k: nat)
    requires AllCovered(s, n, k) && k <= |s.procs| && forall p | 0 <= p < k :: s.procs[p] == Gone
    requires ListenersBelow(s.procs, k)
    ensures AllCovered(s, n, 0) && ListenersBelow(s.procs, 0)
  {
    hide Waits, EnqueuedBelow;
    forall task | Waits(s.db, task)
      ensures Covered(s, task, n, 0)
    {
      assert Covered(s, task, n, k);
      if !EnqueuedBelow(s.jobs, task, n) {
        var p: nat :| Serves(s, p, task, n, k);
        assert Serves(s, p, task, n, 0);
      }
    }
  }

  /** Once the sweep is through, jobs and workers alone cover everything that waits. */
  lemma SubmitPhase(s: State, ls: seq<Label>)
    requires Orderly(s) && Stretch(s, ls) && Weight(After(s, ls)) >= Weight(s)
    requires AllCovered(s, |s.jobs|, |s.procs|) && s.procs != []
    ensures AllCovered(After(s, ls), |After(s, ls).jobs|, 0) && ListenersBelow(After(s, ls).procs, 0)
  {
    hide Orderly, Weight, AllCovered, GoingRun;
    CoverRun(s, ls, |s.jobs|, |s.procs|);
    ListenersRun(s, ls, |s.procs|);
    SweepsOver(After(s, ls), |After(s, ls).jobs|, |s.procs|);
  }

  lemma FinishedCoversNothing(s: State, n: nat)
    requires Orderly(s) && AllCovered(s, n, 0) && n <= |s.jobs|
    requires forall j | 0 <= j < n :: s.jobs[j].status == Finished
    ensures NothingWaits(s.db)
  {
    assert Crew(s.jobs, s.procs);
    hide Orderly, Waits;
    forall task
      ensures !Waits(s.db, task)
    {
      assert !EnqueuedBelow(s.jobs, task, n);
    }
  }

  /** Once their jobs are worked off, nothing waits. */
  lemma DecidePhase(s: State, ls: seq<Label>)
    requires Orderly(s) && Stretch(s, ls) && Weight(After(s, ls)) >= Weight(s) && AllCovered(s, |s.jobs|, 0)
    ensures NothingWaits(After(s, ls).db)
  {
    hide Orderly, Weight, AllCovered, GoingRun, NothingWaits;
    CoverRun(s, ls, |s.jobs|, 0);
    OnwardRuns(s, ls);
    FinishedCoversNothing(After(s, ls), |s.jobs|);
  }

  /** Once the jobs of the investigations are worked off, none runs. */
  lemma FinishPhase(s: State, ls: seq<Label>)
    requires Orderly(s) && Stretch(s, ls) && Weight(After(s, ls)) >= Weight(s) && NothingWaits(s.db)
    ensures NothingWaits(After(s, ls).db) && forall r: nat :: !RunIs(After(s, ls).db, r, Running)
  {
    HoldersInside(s);
    hide Orderly, Weight, GoingRun, NothingWaits, RunIs;
    QuietRun(s, ls, |s.jobs|);
    NobodyHolds(After(s, ls), |s.jobs|);
  }

  lemma NobodyHolds(s: State, n: nat)
    requires HeldBelow(s, n) && n <= |s.jobs| && forall j | 0 <= j < n :: s.jobs[j].status == Finished
    ensures forall r: nat :: !RunIs(s.db, r, Running)
  {
    hide RunIs;
  }

  lemma HoldersInside(s: State)
    requires Orderly(s)
    ensures HeldBelow(s, |s.jobs|)
  {
    hide Consistent, Crew, Exclusively;
  }

  lemma NothingLeft(s: State)
    requires Orderly(s) && NothingWaits(s.db) && (forall r: nat :: !RunIs(s.db, r, Running))
    requires ListenersBelow(s.procs, 0)
    ensures AtRest(s)
  {
    forall r | 0 <= r < |s.db.runs|
      ensures Terminal(s.db.runs[r].status)
    {
      assert !RunIs(s.db, r, Running);
      assert !Waits(s.db, RunTask(r, s.db.runs[r].conv));
    }
    forall o | 0 <= o < |s.db.outputs|
      ensures s.db.outputs[o].status != Pending
    {
      assert !Waits(s.db, OutputTask(o));
    }
    forall e | 0 <= e < |s.db.events|
      ensures !EventPending(s.db.events[e])
    {
      assert !Waits(s.db, EventTask(e));
    }
  }

  /** The three stretches after a tick lower the weight, or leave nothing to do. */
  lemma StretchesDrain(s: State, submit: seq<Label>, decide: seq<Label>, finish: seq<Label>)
    requires Orderly(s) && AllCovered(s, |s.jobs|, |s.procs|) && s.procs != []
    requires Stretch(s, submit) && Stretch(After(s, submit), decide)
    requires Stretch(After(After(s, submit), decide), finish)
    ensures var end := After(After(After(s, submit), decide), finish);
            Orderly(end) && Weight(end) <= Weight(s) && (Weight(end) < Weight(s) || AtRest(end))
  {
    var t := After(s, submit);
    var u := After(t, decide);
    var end := After(u, finish);
    hide Orderly, Weight, AllCovered, NothingWaits, RunIs, ListenersBelow, AtRest, Through;
    OnwardRuns(s, submit);
    OnwardRuns(t, decide);
    OnwardRuns(u, finish);
    if Weight(end) == Weight(s) {
      SubmitPhase(s, submit);
      DecidePhase(t, decide);
      FinishPhase(u, finish);
      ListenersRun(t, decide, 0);
      ListenersRun(u, finish, 0);
      NothingLeft(end);
    }
  }

  /** A round lowers the weight, or leaves nothing to do. */
  lemma RoundDrains(s: State, round: Round)
    requires Orderly(s) && RoundFrom(s, round)
    ensures Orderly(RoundEnd(s, round)) && Weight(RoundEnd(s, round)) <= Weight(s)
    ensures Weight(RoundEnd(s, round)) < Weight(s) || AtRest(RoundEnd(s, round))
  {
    hide Orderly, Weight, AllCovered, Stretch, AtRest;
    OnwardRuns(s, round.before);
    var t := After(s, round.before);
    TickCovers(t);
    OnwardStep(t, StartSweep);
    StretchesDrain(Apply(t, StartSweep), round.submit, round.decide, round.finish);
  }

  ghost predicate RoundsFrom(s: State, rounds: seq<Round>)
    decreases |rounds|
  {
    rounds == [] || (RoundFrom(s, rounds[0]) && RoundsFrom(RoundEnd(s, rounds[0]), rounds[1..]))
  }

  ghost function RoundsEnd(s: State, rounds: seq<Round>): State
    requires RoundsFrom(s, rounds)
    decreases |rounds|
  {
    if rounds == [] then s else RoundsEnd(RoundEnd(s, rounds[0]), rounds[1..])
  }

  /** Draining: in any run without new events, as many rounds as the weight at its start leave nothing to
      do, wherever crashes, releases and ticks fall in between. */
  lemma {:induction false} RoundsDrain(s: State, rounds: seq<Round>)
    requires Orderly(s) && Mentions.NoneFailed(s.db) && RoundsFrom(s, rounds) && |rounds| >= Weight(s)
    ensures Orderly(RoundsEnd(s, rounds)) && Weight(RoundsEnd(s, rounds)) == 0
    decreases |rounds|
  {
    hide Orderly, AtRest, RoundFrom, RoundEnd, Weight, Mentions.NoneFailed;
    if rounds != [] {
      var end := RoundEnd(s, rounds[0]);
      RoundDrains(s, rounds[0]);
      RoundIsRun(s, rounds[0]);
      Mentions.NoneFailedRun(s, Labels(rounds[0]));
      WeightlessRests(end);
      if Weight(end) == 0 { WeightlessForever(end, rounds[1..]); } else { RoundsDrain(end, rounds[1..]); }
    }
  }

  lemma WeightlessForever(s: State, rounds: seq<Round>)
    requires Orderly(s) && RoundsFrom(s, rounds) && Weight(s) == 0
    ensures Orderly(RoundsEnd(s, rounds)) && Weight(RoundsEnd(s, rounds)) == 0
  {
    hide Orderly, Weight, RoundsFrom, RoundsEnd;
    RoundsAreRun(s, rounds);
    OnwardRuns(s, AllLabels(rounds));
  }

  // ---------- rounds are runs ----------

  function Labels(round: Round): seq<Label> {
    round.before + ([StartSweep] + (round.submit + (round.decide + round.finish)))
  }

  function AllLabels(rounds: seq<Round>): seq<Label> {
    if rounds == [] then [] else Labels(rounds[0]) + AllLabels(rounds[1..])
  }

  lemma {:induction false} Joined(s: State, a: seq<Label>, b: seq<Label>)
    requires OnwardRun(s, a) && OnwardRun(After(s, a), b)
    ensures OnwardRun(s, a + b) && After(s, a + b) == After(After(s, a), b)
    decreases |a|
  {
    hide Apply, Onward, Enabled;
    if a == [] {
      assert a + b == b;
    } else {
      Joined(Apply(s, a[0]), a[1..], b);
      Prefixed(s, a[0], a[1..] + b);
      assert a + b == [a[0]] + (a[1..] + b);
    }
  }

  lemma Prefixed(s: State, l: Label, ls: seq<Label>)
    requires Onward(s, l) && OnwardRun(Apply(s, l), ls)
    ensures OnwardRun(s, [l] + ls) && After(s, [l] + ls) == After(Apply(s, l), ls)
  {
    hide Apply, Enabled;
    assert ([l] + ls)[0] == l && ([l] + ls)[1..] == ls;
  }

  lemma RoundIsRun(s: State, round: Round)
    requires RoundFrom(s, round)
    ensures OnwardRun(s, Labels(round)) && After(s, Labels(round)) == RoundEnd(s, round)
  {
    var t := After(s, round.before);
    var u := Apply(t, StartSweep);
    var v := After(u, round.submit);
    Joined(v, round.decide, round.finish);
    Joined(u, round.submit, round.decide + round.finish);
    TickIsRun(t);
    hide Through, Apply, FailStopStep;
    Joined(t, [StartSweep], round.submit + (round.decide + round.finish));
    Joined(s, round.before, [StartSweep] + (round.submit + (round.decide + round.finish)));
  }

  lemma TickIsRun(s: State)
    ensures OnwardRun(s, [StartSweep]) && After(s, [StartSweep]) == Apply(s, StartSweep)
  {
    assert OnwardRun(Apply(s, StartSweep), []);
  }

  lemma {:induction false} RoundsAreRun(s: State, rounds: seq<Round>)
    requires RoundsFrom(s, rounds)
    ensures OnwardRun(s, AllLabels(rounds)) && After(s, AllLabels(rounds)) == RoundsEnd(s, rounds)
    decreases |rounds|
  {
    hide RoundFrom, RoundEnd, Labels, Apply, FailStopStep;
    if rounds != [] {
      RoundIsRun(s, rounds[0]);
      RoundsAreRun(RoundEnd(s, rounds[0]), rounds[1..]);
      Joined(s, Labels(rounds[0]), AllLabels(rounds[1..]));
    }
  }

  // ---------- every question is answered ----------

  lemma RestAnswers(s: State)
    requires Orderly(s) && Questions.Kept(s.db) && AtRest(s)
    ensures forall m: nat | Questions.Newest(s.db, m) :: Questions.Answered(s.db, m)
  {
    assert Consistent(s) && Sound(s.db) && Questions.Quiescent(s.db);
    hide Orderly, Consistent, Sound, AtRest, Questions.Kept, Questions.Quiescent, Questions.Newest, Questions.Answered;
    forall m: nat | Questions.Newest(s.db, m)
      ensures Questions.Answered(s.db, m)
    {
      Questions.NewestAnswered(s.db, m);
    }
  }

  /** The delivered message is stored; and if it is a question and not a post of Cerebro itself, it has its
      answer, or a newer question of its conversation took its place. */
  ghost predicate Settles(db: Db, p: Payload) {
    && p.MessagePayload?
    && exists m: nat ::
         && m < |db.messages| && db.messages[m].channel == p.channel && db.messages[m].ts == p.messageTs
         && (db.messages[m].inbound ==>
               Questions.Answered(db, m) || NewerInbound(db.messages, db.messages[m].conv, db.messages[m].at))
  }

  lemma StoredSettles(db: Db, p: Payload)
    requires Mentions.Stored(db, p)
    requires forall m: nat | Questions.Newest(db, m) :: Questions.Answered(db, m)
    ensures Settles(db, p)
  {
    hide Questions.Answered, NewerInbound;
    var m: nat :| m < |db.messages| && db.messages[m].channel == p.channel && db.messages[m].ts == p.messageTs;
    if db.messages[m].inbound && !NewerInbound(db.messages, db.messages[m].conv, db.messages[m].at) {
      assert Questions.Newest(db, m);
    }
  }

  /** A delivered message that was not dropped is settled once nothing is left to do. */
  lemma DeliveredSettles(s: State, ls: seq<Label>, e: nat)
    requires Orderly(s) && Mentions.Heard(s.db) && Mentions.NoneFailed(s.db) && Mentions.Accepted(s.db, e)
    requires OnwardRun(s, ls) && Questions.AllEnabled(ls) && AtRest(After(s, ls))
    requires forall m: nat | Questions.Newest(After(s, ls).db, m) :: Questions.Answered(After(s, ls).db, m)
    ensures e < |s.db.events| && Settles(After(s, ls).db, s.db.events[e].payload)
  {
    var end := After(s, ls);
    assert Consistent(s);
    hide Orderly, Consistent, Mentions.Heard, Mentions.Accepted, Questions.Newest, Questions.Answered, Settles,
         Mentions.Stored;
    Mentions.DeliveredExactly(s, ls, e);
    Mentions.NoneFailedRun(s, ls);
    hide Mentions.GivenUp;
    assert !EventPending(end.db.events[e]) && end.db.events[e].disposition != EventFailed;
    assert end.db.events[e].disposition == Processed;
    StoredSettles(end.db, s.db.events[e].payload);
  }

  lemma InitialHeard(s: State)
    requires Initial(s)
    ensures Orderly(s) && Questions.Kept(s.db) && Mentions.Heard(s.db) && Mentions.NoneFailed(s.db)
  {
    InitialOrderly(s);
  }

  lemma {:induction false} EnabledJoined(a: seq<Label>, b: seq<Label>)
    requires Questions.AllEnabled(a) && Questions.AllEnabled(b)
    ensures Questions.AllEnabled(a + b)
  {
  }

  /** From any orderly state onward: while the mode stays enabled, rounds enough for the weight leave nothing
      to do, every newest question answered, and every delivered message settled. */
  lemma OnwardAnswered(s: State, ls: seq<Label>)
    requires Orderly(s) && Questions.Kept(s.db) && Mentions.Heard(s.db) && Mentions.NoneFailed(s.db)
    requires OnwardRun(s, ls) && Questions.AllEnabled(ls) && Weight(After(s, ls)) == 0
    ensures var db := After(s, ls).db;
            && AtRest(After(s, ls))
            && (forall m: nat | Questions.Newest(db, m) :: Questions.Answered(db, m))
            && forall e | 0 <= e < |s.db.events| && Mentions.Accepted(s.db, e) :: Settles(db, s.db.events[e].payload)
  {
    assert Consistent(s);
    hide Orderly, Consistent, Weight, AtRest, Settles, Mentions.Heard, Mentions.NoneFailed, Mentions.Accepted,
         Questions.Kept, Questions.Newest, Questions.Answered, Questions.AllEnabled;
    var end := After(s, ls);
    OnwardRuns(s, ls);
    Mentions.NoneFailedRun(s, ls);
    WeightlessRests(end);
    Questions.RunsKept(s, ls);
    RestAnswers(end);
    forall e | 0 <= e < |s.db.events| && Mentions.Accepted(s.db, e)
      ensures Settles(end.db, s.db.events[e].payload)
    {
      DeliveredSettles(s, ls, e);
    }
  }

  /** What a run can start from: the fail-stop invariant, and what is kept while the mode stays enabled. */
  ghost predicate Healthy(s: State) {
    Orderly(s) && Questions.Kept(s.db) && Mentions.Heard(s.db) && Mentions.NoneFailed(s.db)
  }

  lemma HealthyRun(s: State, ls: seq<Label>)
    requires Initial(s) && FailStopRun(s, ls) && Questions.AllEnabled(ls)
    ensures Healthy(After(s, ls))
  {
    InitialHeard(s);
    assert Consistent(s);
    hide Orderly, Consistent, Mentions.Heard, Mentions.NoneFailed, Questions.Kept, Questions.AllEnabled;
    RunsOrderly(s, ls);
    Questions.RunsKept(s, ls);
    Mentions.RunsHeard(s, ls);
    Mentions.NoneFailedRun(s, ls);
  }

  lemma RoundsAnswer(s: State, rounds: seq<Round>, tail: seq<Label>)
    requires Healthy(s) && RoundsFrom(s, rounds) && |rounds| >= Weight(s) && OnwardRun(RoundsEnd(s, rounds), tail)
    requires Questions.AllEnabled(AllLabels(rounds)) && Questions.AllEnabled(tail)
    ensures var db := After(RoundsEnd(s, rounds), tail).db;
            && AtRest(After(RoundsEnd(s, rounds), tail))
            && (forall m: nat | Questions.Newest(db, m) :: Questions.Answered(db, m))
            && forall e | 0 <= e < |s.db.events| && Mentions.Accepted(s.db, e) :: Settles(db, s.db.events[e].payload)
  {
    hide Orderly, Weight, RoundsFrom, AtRest, Settles, Mentions.Heard, Mentions.NoneFailed, Mentions.Accepted,
         Questions.Kept, Questions.Newest, Questions.Answered, Questions.AllEnabled, RoundsEnd, OnwardRun, AllLabels;
    RoundsDrain(s, rounds);
    RoundsAreRun(s, rounds);
    OnwardRuns(RoundsEnd(s, rounds), tail);
    Joined(s, AllLabels(rounds), tail);
    EnabledJoined(AllLabels(rounds), tail);
    OnwardAnswered(s, AllLabels(rounds) + tail);
  }

  /** Every question is answered in the end, whatever the workers, the crashes and Slack did before, and
      however ticks, releases and later crashes interleave with the work: while the mode stays enabled, once
      as many rounds have gone by as the weight counts, nothing is left to do and never will be without a new
      event; the newest question of every conversation has its answer; and every message that Slack had
      delivered for Cerebro is stored, and answered or replaced by a newer question. */
  lemma EveryQuestionAnswered(s: State, ls: seq<Label>, rounds: seq<Round>, tail: seq<Label>)
    requires Initial(s) && FailStopRun(s, ls) && Questions.AllEnabled(ls)
    requires RoundsFrom(After(s, ls), rounds) && |rounds| >= Weight(After(s, ls))
    requires OnwardRun(RoundsEnd(After(s, ls), rounds), tail)
    requires Questions.AllEnabled(AllLabels(rounds)) && Questions.AllEnabled(tail)
    ensures var heard, end := After(s, ls).db, After(RoundsEnd(After(s, ls), rounds), tail);
            && AtRest(end)
            && (forall m: nat | Questions.Newest(end.db, m) :: Questions.Answered(end.db, m))
            && forall e | 0 <= e < |heard.events| && Mentions.Accepted(heard, e) ::
                 Settles(end.db, heard.events[e].payload)
  {
    hide Healthy, AllLabels, OnwardRun, Weight, AtRest, Settles, Mentions.Accepted, Questions.AllEnabled,
         Questions.Newest, Questions.Answered;
    HealthyRun(s, ls);
    RoundsAnswer(After(s, ls), rounds, tail);
  }

  // ---------- rounds exist ----------

  lemma {:induction false} AttendedRun(s: State, ls: seq<Label>)
    requires GoingRun(s, ls) && Attended(s)
    ensures Attended(After(s, ls))
    decreases |ls|
  {
    if ls != [] {
      GoingOn(s, ls);
      AttendedStep(s, ls[0]);
      hide Apply, GoingRun, Attended, Going;
      AttendedRun(Apply(s, ls[0]), ls[1..]);
    }
  }

  lemma {:induction false} OnlyGrows(s: State, ls: seq<Label>)
    requires OnwardRun(s, ls)
    ensures |s.procs| <= |After(s, ls).procs| && |s.jobs| <= |After(s, ls).jobs|
    decreases |ls|
  {
    if ls != [] {
      JobsOnlyGrow(s, ls[0]);
      hide Apply;
      OnlyGrows(Apply(s, ls[0]), ls[1..]);
    }
  }

  lemma IdleThrough(s: State, ls: seq<Label>)
    requires OnwardRun(s, ls) && Idle(After(s, ls))
    ensures Through(s, After(s, ls))
    ensures Stretch(After(s, ls), []) && After(After(s, ls), []) == After(s, ls)
  {
    OnlyGrows(s, ls);
    hide Apply, Onward;
  }

  lemma TickGoes(s: State)
    requires Orderly(s) && Attended(s)
    ensures Orderly(Apply(s, StartSweep)) && Attended(Apply(s, StartSweep))
  {
    hide Orderly, Attended, Apply;
    OnwardStep(s, StartSweep);
    AttendedStep(s, StartSweep);
  }

  lemma StuckStretch(s: State, work: seq<Label>)
    requires Orderly(s) && Attended(s) && GoingRun(s, work) && Stuck(After(s, work))
    ensures Stretch(s, work) && Stretch(After(s, work), [])
    ensures After(After(s, work), []) == After(s, work)
  {
    hide Orderly, Attended, Idle, Through, Stuck;
    AttendedRun(s, work);
    OnwardRuns(s, work);
    StuckIsIdle(After(s, work));
    IdleThrough(s, work);
    hide Apply, Onward;
  }

  /** When the jobs of dead workers are released before a tick, the work after it that goes on until nobody
      can take a step makes a round, whatever else overlaps with it. */
  lemma StuckMakesRound(s: State, before: seq<Label>, work: seq<Label>)
    requires Orderly(s) && OnwardRun(s, before) && Attended(After(s, before))
    requires GoingRun(Apply(After(s, before), StartSweep), work)
    requires Stuck(After(Apply(After(s, before), StartSweep), work))
    ensures RoundFrom(s, Round(before, work, [], []))
  {
    hide Orderly, Attended, Stretch, GoingRun, Stuck;
    OnwardRuns(s, before);
    TickGoes(After(s, before));
    StuckStretch(Apply(After(s, before), StartSweep), work);
  }

  lemma OnwardPair(s: State, a: Label, b: Label, ls: seq<Label>)
    requires Onward(s, a) && Onward(Apply(s, a), b) && OnwardRun(Apply(Apply(s, a), b), ls)
    requires Questions.LabelEnabled(a) && Questions.LabelEnabled(b) && Questions.AllEnabled(ls)
    ensures OnwardRun(s, [a] + ([b] + ls)) && Questions.AllEnabled([a] + ([b] + ls))
    ensures After(s, [a] + ([b] + ls)) == After(Apply(Apply(s, a), b), ls)
  {
    assert Enabled(s, a);
    hide Apply, Onward, Enabled;
    Prefixed(Apply(s, a), b, ls);
    Prefixed(s, a, [b] + ls);
  }

  /** Releasing the jobs of dead workers one by one leaves no running job without its worker. */
  lemma ReleaseDead(s: State, n: nat) returns (ls: seq<Label>)
    requires Orderly(s) && n <= |s.jobs|
    requires forall j | n <= j < |s.jobs| && s.jobs[j].status == Doing :: !Dead(s, j)
    ensures OnwardRun(s, ls) && Questions.AllEnabled(ls) && Attended(After(s, ls))
    decreases n
  {
    if n == 0 {
      ls := [];
    } else {
      var j := n - 1;
      if s.jobs[j].status == Doing && Dead(s, j) {
        var t, u := ReleaseOne(s, j);
        hide Orderly, Attended, Apply, Onward, OnwardRun, Questions.AllEnabled, Dead;
        var rest := ReleaseDead(u, j);
        OnwardPair(s, Recover(j, ModeOn), ReleaseJob(|s.procs|), rest);
        ls := [Recover(j, ModeOn)] + ([ReleaseJob(|s.procs|)] + rest);
      } else {
        hide Orderly, Attended, Apply, Onward, OnwardRun, Questions.AllEnabled, Dead;
        ls := ReleaseDead(s, j);
      }
    }
  }

  lemma ReleaseShape(s: State, j: nat)
    requires j < |s.jobs| && s.jobs[j].status == Doing && Dead(s, j)
    ensures Onward(s, Recover(j, ModeOn))
    ensures var t := Apply(s, Recover(j, ModeOn));
            && t.jobs == s.jobs && t.procs == s.procs + [Release(j)]
            && Onward(t, ReleaseJob(|s.procs|))
            && Apply(t, ReleaseJob(|s.procs|)).jobs == s.jobs[j := s.jobs[j].(status := Finished)]
            && Apply(t, ReleaseJob(|s.procs|)).procs == s.procs + [Gone]
  {
  }

  lemma ReleaseOne(s: State, j: nat) returns (t: State, u: State)
    requires Orderly(s) && j < |s.jobs| && s.jobs[j].status == Doing && Dead(s, j)
    requires forall k | j < k < |s.jobs| && s.jobs[k].status == Doing :: !Dead(s, k)
    ensures Onward(s, Recover(j, ModeOn)) && t == Apply(s, Recover(j, ModeOn))
    ensures Onward(t, ReleaseJob(|s.procs|)) && u == Apply(t, ReleaseJob(|s.procs|))
    ensures Orderly(u) && |u.jobs| == |s.jobs|
    ensures forall k | j <= k < |u.jobs| && u.jobs[k].status == Doing :: !Dead(u, k)
  {
    ReleaseShape(s, j);
    hide Orderly, Apply, Enabled;
    t := Apply(s, Recover(j, ModeOn));
    OrderlyStep(s, Recover(j, ModeOn));
    u := Apply(t, ReleaseJob(|s.procs|));
    OrderlyStep(t, ReleaseJob(|s.procs|));
    forall k | j <= k < |u.jobs| && u.jobs[k].status == Doing
      ensures !Dead(u, k)
    {
      var q :| 0 <= q < |s.procs| && s.procs[q].Worker? && s.procs[q].job == k;
      assert u.procs[q] == s.procs[q];
    }
  }

  lemma SteadyCloser(s: State, l: Label)
    requires Orderly(s) && Attended(s) && Steady(s, l)
    ensures Orderly(Apply(s, l)) && Attended(Apply(s, l)) && Rank(Apply(s, l)) < Rank(s) && Onward(s, l)
  {
    assert Consistent(s);
    hide Orderly, Attended, Rank, Weight, Apply;
    StepCloser(s, l);
    OrderlyStep(s, l);
    AttendedStep(s, l);
  }

  /** While somebody is at work or a job is open, somebody can take a step. */
  lemma SomebodyCan(s: State) returns (l: Label)
    requires Orderly(s) && Attended(s) && !Idle(s)
    ensures Steady(s, l) && Questions.LabelEnabled(l)
  {
    if p: nat :| p < |s.procs| && s.procs[p] != Gone {
      l := CanStep(s, p);
    } else {
      var j: nat :| j < |s.jobs| && s.jobs[j].status != Finished;
      l := Fetch(j);
    }
  }

  lemma SteadyGoes(s: State, l: Label, ls: seq<Label>)
    requires Steady(s, l) && Questions.LabelEnabled(l) && GoingRun(Apply(s, l), ls) && Questions.AllEnabled(ls)
    ensures GoingRun(s, [l] + ls) && Questions.AllEnabled([l] + ls)
    ensures After(s, [l] + ls) == After(Apply(s, l), ls)
  {
    assert Onward(s, l);
    hide Apply, Onward, Enabled, FailStopStep;
    Prefixed(s, l, ls);
  }

  lemma WorkUntilIdle(s: State) returns (ls: seq<Label>)
    requires Orderly(s) && Attended(s)
    ensures GoingRun(s, ls) && Questions.AllEnabled(ls) && Idle(After(s, ls))
    decreases Rank(s)
  {
    hide Orderly, Attended, Rank, Apply, Steady, Onward, Idle, Enabled;
    if Idle(s) {
      ls := [];
    } else {
      var l := SomebodyCan(s);
      SteadyCloser(s, l);
      var rest := WorkUntilIdle(Step(s, l));
      ls := [l] + rest;
      SteadyGoes(s, l, rest);
    }
  }

  function Step(s: State, l: Label): State
    requires Steady(s, l)
  {
    Apply(s, l)
  }

  /** From every fail-stop state a round is possible, and the mode may stay enabled. */
  lemma RoundPossible(s: State) returns (round: Round)
    requires Orderly(s)
    ensures RoundFrom(s, round) && Questions.AllEnabled(Labels(round))
  {
    hide Orderly, Attended, Apply, Onward, Idle, Stretch, Questions.AllEnabled;
    var release := ReleaseDead(s, |s.jobs|);
    var t := After(s, release);
    OnwardRuns(s, release);
    TickGoes(t);
    var work := WorkUntilIdle(Apply(t, StartSweep));
    IdleStretch(Apply(t, StartSweep), work);
    round := Round(release, work, [], []);
    TickEnabled(release, work);
  }

  lemma IdleStretch(s: State, ls: seq<Label>)
    requires GoingRun(s, ls) && Idle(After(s, ls))
    ensures Stretch(s, ls) && Stretch(After(s, ls), [])
    ensures After(After(s, ls), []) == After(s, ls)
  {
    IdleThrough(s, ls);
  }

  lemma TickEnabled(release: seq<Label>, work: seq<Label>)
    requires Questions.AllEnabled(release) && Questions.AllEnabled(work)
    ensures Questions.AllEnabled(Labels(Round(release, work, [], [])))
  {
    assert work + ([] + []) == work;
    assert Questions.AllEnabled([StartSweep]);
    EnabledJoined([StartSweep], work);
    EnabledJoined(release, [StartSweep] + work);
  }

  /** So are as many rounds as one likes. */
  lemma RoundsPossible(s: State, n: nat) returns (rounds: seq<Round>)
    requires Orderly(s)
    ensures |rounds| == n && RoundsFrom(s, rounds) && Questions.AllEnabled(AllLabels(rounds))
    decreases n
  {
    if n == 0 {
      rounds := [];
    } else {
      var first := RoundPossible(s);
      hide Orderly, RoundFrom, RoundEnd, Weight, Labels, Questions.AllEnabled, AtRest;
      RoundDrains(s, first);
      var rest := RoundsPossible(RoundEnd(s, first), n - 1);
      rounds := [first] + rest;
      assert rounds[1..] == rest;
      EnabledJoined(Labels(first), AllLabels(rest));
    }
  }
}
