/** The whole question-to-reply protocol as a transition system. A step is one committed transaction
    or one external call; a label carries everything the step does not decide itself: the mode the
    process runs in, the clock, what Slack or the investigation returned, and who acts next.

    The system allows workers that outlive their job: the recovery job may release any job that has
    started, and the released worker goes on from where it is. */
module Protocol {
  import opened Records
  import opened JobQueue
  import opened Service
  import opened Pipeline
  import opened Tasks
  import opened Integrity

  datatype ReceiverStage = ToDefer | ToRead | ToWrite

  /** Where a worker stands between two steps of its handler. */
  datatype Position =
    | Start
    | EventFailing
    | Gate
    | Investigating
    | FinalGate(kind: OutputKind)
    | Committing(kind: OutputKind)
    | RunFailing
    | Posting
    | Posted
    | PostFailed
    | ToEnqueue(task: Task)
    | Done

  datatype Proc =
    | Receiver(event: nat, stage: ReceiverStage)
    | Worker(job: nat, pos: Position)
    | Release(released: nat)
    | Sweep(tasks: seq<Task>)
    | Gone

  datatype State = State(db: Db, jobs: seq<Job>, procs: seq<Proc>, maxAttempts: nat)

  datatype Label =
    // the Slack listener: insert, defer, look at the row again, write
    | Receive(slackId: string, payload: Payload, ignored: bool)
    | ReceiverDefer(p: nat)
    | ReceiverRead(p: nat)
    | ReceiverWrite(p: nat)
    // the queue hands out a job
    | Fetch(job: nat)
    // process_stored_event
    | ProcessEvent(p: nat, mode: Mode, now: int)
    | EventRaises(p: nat)
    | MarkEventFailed(p: nat)
    // execute_run
    | StartRun(p: nat, mode: Mode)
    | CheckStale(p: nat, mode: Mode)
    | Investigated(p: nat, kind: OutputKind)
    | RunRaises(p: nat)
    | CommitRun(p: nat)
    | CommitFailure(p: nat)
    // deliver_output
    | StartDelivery(p: nat, mode: Mode)
    | PostAccepted(p: nat)
    | PostRejected(p: nat)
    | CommitSent(p: nat, ts: Ts, now: int)
    | CommitDeliveryError(p: nat)
    // the end of a handler
    | EnqueueNext(p: nat)
    | EnqueueDeferred(p: nat)
    | FinishJob(p: nat)
    // a process dies, or a handler ends by an exception
    | Crash(p: nat)
    | Escape(p: nat)
    // the recovery job
    | Recover(job: nat, mode: Mode)
    | ReleaseJob(p: nat)
    | StartSweep
    | SweepNext(p: nat)

  predicate InGate(pos: Position) {
    pos == Gate || pos.FinalGate?
  }

  /** Between the claim and the final transaction of an investigation. */
  predicate Active(pos: Position) {
    InGate(pos) || pos == Investigating || pos.Committing? || pos == RunFailing
  }

  /** Between a delivery claim and its completion. */
  predicate Delivering(pos: Position) {
    pos == Posting || pos == Posted || pos == PostFailed
  }

  predicate WorkerIn(s: State, p: nat) {
    p < |s.procs| && s.procs[p].Worker? && s.procs[p].job < |s.jobs|
  }

  predicate WorkerAt(s: State, p: nat, pos: Position) {
    WorkerIn(s, p) && s.procs[p].pos == pos
  }

  predicate ReceiverAt(s: State, p: nat, stage: ReceiverStage) {
    p < |s.procs| && s.procs[p].Receiver? && s.procs[p].stage == stage
  }

  function TaskOf(s: State, p: nat): Task
    requires WorkerIn(s, p)
  {
    s.jobs[s.procs[p].job].task
  }

  predicate IntakeLabel(l: Label) {
    l.Receive? || l.ReceiverDefer? || l.ReceiverRead? || l.ReceiverWrite?
    || l.ProcessEvent? || l.EventRaises? || l.MarkEventFailed?
  }

  predicate RunLabel(l: Label) {
    l.StartRun? || l.CheckStale? || l.Investigated? || l.RunRaises? || l.CommitRun? || l.CommitFailure?
  }

  predicate DeliveryLabel(l: Label) {
    l.StartDelivery? || l.PostAccepted? || l.PostRejected? || l.CommitSent? || l.CommitDeliveryError?
  }

  predicate QueueLabel(l: Label) {
    !IntakeLabel(l) && !RunLabel(l) && !DeliveryLabel(l)
  }

  predicate IntakeEnabled(s: State, l: Label)
    requires IntakeLabel(l)
  {
    match l
    case Receive(_, _, _) => true
    case ReceiverDefer(p) => ReceiverAt(s, p, ToDefer)
    case ReceiverRead(p) => ReceiverAt(s, p, ToRead) && s.procs[p].event < |s.db.events|
    case ReceiverWrite(p) => ReceiverAt(s, p, ToWrite)
    case ProcessEvent(p, _, _) => WorkerAt(s, p, Start) && TaskOf(s, p).EventTask?
    case EventRaises(p) => WorkerAt(s, p, Start) && TaskOf(s, p).EventTask?
    case MarkEventFailed(p) => WorkerAt(s, p, EventFailing) && TaskOf(s, p).EventTask?
  }

  predicate RunEnabled(s: State, l: Label)
    requires RunLabel(l)
  {
    match l
    case StartRun(p, _) => WorkerAt(s, p, Start) && TaskOf(s, p).RunTask?
    case CheckStale(p, _) => WorkerIn(s, p) && InGate(s.procs[p].pos) && TaskOf(s, p).RunTask?
    case Investigated(p, kind) => WorkerAt(s, p, Investigating) && IsReply(kind)
    case RunRaises(p) => WorkerIn(s, p) && Active(s.procs[p].pos) && s.procs[p].pos != RunFailing
    case CommitRun(p) => WorkerIn(s, p) && s.procs[p].pos.Committing? && TaskOf(s, p).RunTask?
    case CommitFailure(p) => WorkerAt(s, p, RunFailing) && TaskOf(s, p).RunTask?
  }

  predicate DeliveryEnabled(s: State, l: Label)
    requires DeliveryLabel(l)
  {
    match l
    case StartDelivery(p, _) => WorkerAt(s, p, Start) && TaskOf(s, p).OutputTask?
    case PostAccepted(p) => WorkerAt(s, p, Posting)
    case PostRejected(p) => WorkerAt(s, p, Posting)
    case CommitSent(p, ts, _) =>
      WorkerAt(s, p, Posted) && TaskOf(s, p).OutputTask? && TsFree(s.db.outputs, TaskOf(s, p).output, ts)
    case CommitDeliveryError(p) => WorkerAt(s, p, PostFailed) && TaskOf(s, p).OutputTask?
  }

  predicate QueueEnabled(s: State, l: Label)
    requires QueueLabel(l)
  {
    match l
    case Fetch(j) => j < |s.jobs| && s.jobs[j].status == Todo && LockFree(s.jobs, ExecutionLockOf(s.jobs[j].task))
    case EnqueueNext(p) => WorkerIn(s, p) && s.procs[p].pos.ToEnqueue?
    case EnqueueDeferred(p) => WorkerIn(s, p) && s.procs[p].pos.ToEnqueue?
    case FinishJob(p) => WorkerAt(s, p, Done)
    case Crash(p) => p < |s.procs| && s.procs[p] != Gone
    case Escape(p) => WorkerIn(s, p)
    case Recover(j, _) => j < |s.jobs| && s.jobs[j].status != Todo
    case ReleaseJob(p) => p < |s.procs| && s.procs[p].Release?
    case StartSweep => true
    case SweepNext(p) => p < |s.procs| && s.procs[p].Sweep?
  }

  predicate Enabled(s: State, l: Label) {
    if IntakeLabel(l) then IntakeEnabled(s, l)
    else if RunLabel(l) then RunEnabled(s, l)
    else if DeliveryLabel(l) then DeliveryEnabled(s, l)
    else QueueEnabled(s, l)
  }

  function Move(s: State, p: nat, pos: Position): State
    requires WorkerIn(s, p)
  {
    s.(procs := s.procs[p := Worker(s.procs[p].job, pos)])
  }

  function Leave(s: State, p: nat): State
    requires p < |s.procs|
  {
    s.(procs := s.procs[p := Gone])
  }

  function Next(task: Option<Task>): Position {
    if task.Some? then ToEnqueue(task.value) else Done
  }

  function NextOutput(o: Option<nat>): Position {
    if o.Some? then ToEnqueue(OutputTask(o.value)) else Done
  }

  function Listen(s: State, slackId: string, payload: Payload, ignored: bool): State {
    var (db, e) := InsertEvent(s.db, slackId, payload, ignored);
    if e.None? || ignored then s.(db := db)
    else s.(db := db, procs := s.procs + [Receiver(e.value, ToDefer)])
  }

  function ApplyIntake(s: State, l: Label): State
    requires IntakeLabel(l) && IntakeEnabled(s, l)
  {
    match l
    case Receive(slackId, payload, ignored) => Listen(s, slackId, payload, ignored)
    case ReceiverDefer(p) =>
      var e := s.procs[p].event;
      if AlreadyEnqueued(s.jobs, EventTask(e)) then Leave(s, p)
      else s.(jobs := Enqueue(s.jobs, EventTask(e)), procs := s.procs[p := Receiver(e, ToRead)])
    case ReceiverRead(p) =>
      var e := s.procs[p].event;
      if s.db.events[e].disposition == Received
      then s.(procs := s.procs[p := Receiver(e, ToWrite)])
      else Leave(s, p)
    case ReceiverWrite(p) => Leave(s.(db := SetDisposition(s.db, s.procs[p].event, Queued)), p)
    case ProcessEvent(p, mode, now) =>
      var (db, task) := ProcessStoredEvent(s.db, TaskOf(s, p).event, mode, now);
      Move(s.(db := db), p, Next(task))
    case EventRaises(p) => Move(s, p, EventFailing)
    case MarkEventFailed(p) =>
      Move(s.(db := SetDisposition(s.db, TaskOf(s, p).event, EventFailed)), p, Done)
  }

  function ApplyRun(s: State, l: Label): State
    requires RunLabel(l) && RunEnabled(s, l)
  {
    match l
    case StartRun(p, mode) =>
      var (db, started) := ClaimRun(s.db, TaskOf(s, p).run, mode);
      Move(s.(db := db), p, if started then Gate else Done)
    case CheckStale(p, mode) =>
      var (db, stop) := CancelIfStale(s.db, TaskOf(s, p).run, mode);
      Move(s.(db := db), p,
           if stop then Done
           else if s.procs[p].pos == Gate then Investigating
           else Committing(s.procs[p].pos.kind))
    case Investigated(p, kind) => Move(s, p, FinalGate(kind))
    case RunRaises(p) => Move(s, p, RunFailing)
    case CommitRun(p) =>
      var (db, o) := CompleteRun(s.db, TaskOf(s, p).run, s.procs[p].pos.kind);
      Move(s.(db := db), p, NextOutput(o))
    case CommitFailure(p) =>
      var (db, o) := FailRun(s.db, TaskOf(s, p).run, ModeOn);
      Move(s.(db := db), p, NextOutput(o))
  }

  function ApplyDelivery(s: State, l: Label): State
    requires DeliveryLabel(l) && DeliveryEnabled(s, l)
  {
    match l
    case StartDelivery(p, mode) =>
      var (db, post) := ClaimOutput(s.db, TaskOf(s, p).output, mode);
      Move(s.(db := db), p, if post then Posting else Done)
    case PostAccepted(p) => Move(s, p, Posted)
    case PostRejected(p) => Move(s, p, PostFailed)
    case CommitSent(p, ts, now) =>
      Move(s.(db := DeliverySent(s.db, TaskOf(s, p).output, ts, now)), p, Done)
    case CommitDeliveryError(p) =>
      Move(s.(db := DeliveryError(s.db, TaskOf(s, p).output, s.maxAttempts)), p, Done)
  }

  function ApplyQueue(s: State, l: Label): State
    requires QueueLabel(l) && QueueEnabled(s, l)
  {
    match l
    case Fetch(j) =>
      s.(jobs := s.jobs[j := s.jobs[j].(status := Doing)], procs := s.procs + [Worker(j, Start)])
    case EnqueueNext(p) => Move(s.(jobs := Enqueue(s.jobs, s.procs[p].pos.task)), p, Done)
    case EnqueueDeferred(p) => Move(s, p, Done)
    case FinishJob(p) => Leave(s.(jobs := Finish(s.jobs, s.procs[p].job)), p)
    case Crash(p) => Leave(s, p)
    case Escape(p) => Leave(s.(jobs := Finish(s.jobs, s.procs[p].job)), p)
    case Recover(j, mode) =>
      s.(db := FailHeldRun(s.db, s.jobs, j, mode), procs := s.procs + [Release(j)])
    case ReleaseJob(p) => Leave(s.(jobs := Finish(s.jobs, s.procs[p].released)), p)
    case StartSweep => s.(procs := s.procs + [Sweep(PendingTasks(s.db))])
    case SweepNext(p) =>
      var tasks := s.procs[p].tasks;
      if tasks == [] then Leave(s, p)
      else s.(jobs := Enqueue(s.jobs, tasks[0]), procs := s.procs[p := Sweep(tasks[1..])])
  }

  function Apply(s: State, l: Label): State
    requires Enabled(s, l)
  {
    if IntakeLabel(l) then ApplyIntake(s, l)
    else if RunLabel(l) then ApplyRun(s, l)
    else if DeliveryLabel(l) then ApplyDelivery(s, l)
    else ApplyQueue(s, l)
  }

  predicate Valid(s: State, ls: seq<Label>)
    decreases |ls|
  {
    ls == [] || (Enabled(s, ls[0]) && Valid(Apply(s, ls[0]), ls[1..]))
  }

  function After(s: State, ls: seq<Label>): State
    requires Valid(s, ls)
    decreases |ls|
  {
    if ls == [] then s else After(Apply(s, ls[0]), ls[1..])
  }

  predicate Initial(s: State) {
    s.db == EMPTY_DB && s.jobs == [] && s.procs == [] && 1 <= s.maxAttempts
  }

  // ---------- what every step keeps ----------

  predicate PositionFits(task: Task, pos: Position) {
    match pos
    case Start => true
    case Done => true
    case EventFailing => task.EventTask?
    case Posting => task.OutputTask?
    case Posted => task.OutputTask?
    case PostFailed => task.OutputTask?
    case ToEnqueue(_) => !task.OutputTask?
    case FinalGate(kind) => task.RunTask? && IsReply(kind)
    case Committing(kind) => task.RunTask? && IsReply(kind)
    case _ => task.RunTask?
  }

  predicate ProcPlaced(s: State, proc: Proc) {
    match proc
    case Receiver(e, _) => e < |s.db.events|
    case Worker(j, pos) =>
      && j < |s.jobs| && s.jobs[j].status != Todo
      && PositionFits(s.jobs[j].task, pos)
      && (pos.ToEnqueue? ==> Placed(s.db, pos.task))
    case Release(j) => j < |s.jobs| && s.jobs[j].status != Todo
    case Sweep(tasks) => forall i | 0 <= i < |tasks| :: Placed(s.db, tasks[i])
    case Gone => true
  }

  ghost predicate Consistent(s: State) {
    && Sound(s.db)
    && Locked(s.jobs)
    && (forall j | 0 <= j < |s.jobs| :: Placed(s.db, s.jobs[j].task))
    && (forall p | 0 <= p < |s.procs| :: ProcPlaced(s, s.procs[p]))
  }

  lemma PlacedForever(before: Db, after: Db, task: Task)
    requires Extends(before, after) && Placed(before, task)
    ensures Placed(after, task)
  {
  }

  lemma IntakeExtends(s: State, l: Label)
    requires Consistent(s) && IntakeLabel(l) && IntakeEnabled(s, l)
    ensures Sound(ApplyIntake(s, l).db) && Extends(s.db, ApplyIntake(s, l).db)
  {
    hide Sound, Extends;
    match l
    case Receive(slackId, payload, ignored) => InsertEventSound(s.db, slackId, payload, ignored);
    case ReceiverWrite(p) => SetDispositionSound(s.db, s.procs[p].event, Queued);
    case ProcessEvent(p, mode, now) => ProcessStoredEventSound(s.db, TaskOf(s, p).event, mode, now);
    case MarkEventFailed(p) => SetDispositionSound(s.db, TaskOf(s, p).event, EventFailed);
    case _ => ExtendsSelf(s.db);
  }

  lemma ExtendsSelf(db: Db)
    ensures Extends(db, db)
  {
  }

  lemma RunExtends(s: State, l: Label)
    requires Consistent(s) && RunLabel(l) && RunEnabled(s, l)
    ensures Sound(ApplyRun(s, l).db) && Extends(s.db, ApplyRun(s, l).db)
  {
    hide Sound, Extends;
    match l
    case StartRun(p, mode) => ClaimRunSound(s.db, TaskOf(s, p).run, mode);
    case CheckStale(p, mode) => CancelIfStaleSound(s.db, TaskOf(s, p).run, mode);
    case CommitRun(p) =>
      assert ProcPlaced(s, s.procs[p]);
      CompleteRunSound(s.db, TaskOf(s, p).run, s.procs[p].pos.kind);
    case CommitFailure(p) => FailRunSound(s.db, TaskOf(s, p).run, ModeOn);
    case _ => ExtendsSelf(s.db);
  }

  lemma DeliveryExtends(s: State, l: Label)
    requires Consistent(s) && DeliveryLabel(l) && DeliveryEnabled(s, l)
    ensures Sound(ApplyDelivery(s, l).db) && Extends(s.db, ApplyDelivery(s, l).db)
  {
    hide Sound, Extends;
    match l
    case StartDelivery(p, mode) => ClaimOutputSound(s.db, TaskOf(s, p).output, mode);
    case CommitSent(p, ts, now) => DeliverySentSound(s.db, TaskOf(s, p).output, ts, now);
    case CommitDeliveryError(p) => DeliveryErrorSound(s.db, TaskOf(s, p).output, s.maxAttempts);
    case _ => ExtendsSelf(s.db);
  }

  lemma QueueExtends(s: State, l: Label)
    requires Consistent(s) && QueueLabel(l) && QueueEnabled(s, l)
    ensures Sound(ApplyQueue(s, l).db) && Extends(s.db, ApplyQueue(s, l).db)
  {
    hide Sound, Extends;
    ExtendsSelf(s.db);
    if l.Recover? && s.jobs[l.job].task.RunTask? {
      FailRunSound(s.db, s.jobs[l.job].task.run, l.mode);
    }
  }

  /** Every step is one transaction of the catalogue, so it keeps the database sound and extends it. */
  lemma StepExtends(s: State, l: Label)
    requires Consistent(s) && Enabled(s, l)
    ensures Sound(Apply(s, l).db) && Extends(s.db, Apply(s, l).db)
  {
    hide Sound, Extends;
    if IntakeLabel(l) { IntakeExtends(s, l); }
    else if RunLabel(l) { RunExtends(s, l); }
    else if DeliveryLabel(l) { DeliveryExtends(s, l); }
    else { QueueExtends(s, l); }
  }

  /** Jobs are only added, to do; a started job never goes back. */
  ghost predicate JobsGrow(before: seq<Job>, after: seq<Job>) {
    && |before| <= |after|
    && (forall j | 0 <= j < |before| ::
          after[j].task == before[j].task && (before[j].status != Todo ==> after[j].status != Todo))
    && (forall j | |before| <= j < |after| :: after[j].status == Todo)
  }

  lemma ProcStays(s: State, s': State, proc: Proc)
    requires ProcPlaced(s, proc) && Extends(s.db, s'.db) && JobsGrow(s.jobs, s'.jobs)
    ensures ProcPlaced(s', proc)
  {
    if proc.Sweep? {
      forall i | 0 <= i < |proc.tasks|
        ensures Placed(s'.db, proc.tasks[i])
      {
        PlacedForever(s.db, s'.db, proc.tasks[i]);
      }
    }
  }

  /** The jobs of `after` are those of `before`, grown, locked and about existing rows. */
  ghost predicate JobsFollow(s: State, s': State) {
    && Locked(s'.jobs) && JobsGrow(s.jobs, s'.jobs)
    && (forall j | |s.jobs| <= j < |s'.jobs| :: Placed(s'.db, s'.jobs[j].task))
  }

  /** One process moves or one is added; the others keep their places in the grown state. */
  lemma ConsistentAfter(s: State, s': State, p: nat, proc: Proc)
    requires Consistent(s) && Sound(s'.db) && Extends(s.db, s'.db) && JobsFollow(s, s')
    requires ProcPlaced(s', proc)
    requires s'.procs == s.procs + [proc] || (p < |s.procs| && s'.procs == s.procs[p := proc])
    ensures Consistent(s')
  {
    hide Sound, Extends, Locked, Placed;
    forall j | 0 <= j < |s'.jobs|
      ensures Placed(s'.db, s'.jobs[j].task)
    {
      if j < |s.jobs| { PlacedForever(s.db, s'.db, s.jobs[j].task); }
    }
    forall q | 0 <= q < |s'.procs|
      ensures ProcPlaced(s', s'.procs[q])
    {
      if q < |s.procs| && s'.procs[q] == s.procs[q] { ProcStays(s, s', s.procs[q]); }
    }
  }

  /** A worker only moves: its database step decides the rest. */
  lemma ConsistentMove(s: State, db: Db, p: nat, pos: Position)
    requires Consistent(s) && WorkerIn(s, p) && Sound(db) && Extends(s.db, db)
    requires PositionFits(TaskOf(s, p), pos) && (pos.ToEnqueue? ==> Placed(db, pos.task))
    ensures Consistent(Move(s.(db := db), p, pos))
  {
    hide Sound, Extends, Locked, Placed;
    assert ProcPlaced(s, s.procs[p]);
    ConsistentAfter(s, Move(s.(db := db), p, pos), p, Worker(s.procs[p].job, pos));
  }

  lemma PlacedAt(s: State, p: nat)
    requires Consistent(s) && p < |s.procs|
    ensures ProcPlaced(s, s.procs[p]) && Sound(s.db)
  {
  }

  lemma SameJobs(s: State, s': State)
    requires Consistent(s) && s'.jobs == s.jobs
    ensures JobsFollow(s, s')
  {
  }

  lemma EnqueueFollows(s: State, s': State, task: Task)
    requires Consistent(s) && Placed(s'.db, task) && s'.jobs == Enqueue(s.jobs, task)
    ensures JobsFollow(s, s')
  {
    EnqueueKeepsLocks(s.jobs, task);
  }

  lemma FinishFollows(s: State, s': State, j: nat)
    requires Consistent(s) && s'.jobs == Finish(s.jobs, j)
    ensures JobsFollow(s, s')
  {
  }

  lemma FetchFollows(s: State, s': State, j: nat)
    requires Consistent(s) && QueueEnabled(s, Fetch(j)) && s'.jobs == s.jobs[j := s.jobs[j].(status := Doing)]
    ensures JobsFollow(s, s')
  {
    FetchKeepsLocks(s.jobs, j);
  }

  lemma ReceiveConsistent(s: State, l: Label)
    requires Consistent(s) && l.Receive?
    ensures Consistent(Listen(s, l.slackId, l.payload, l.ignored))
  {
    hide Consistent, Sound, Extends, JobsFollow;
    var s' := Listen(s, l.slackId, l.payload, l.ignored);
    IntakeExtends(s, l);
    SameJobs(s, s');
    if |s'.procs| == |s.procs| {
      ConsistentSameProcs(s, s');
    } else {
      ConsistentAfter(s, s', 0, s'.procs[|s.procs|]);
    }
  }

  lemma ConsistentSameProcs(s: State, s': State)
    requires Consistent(s) && Sound(s'.db) && Extends(s.db, s'.db) && JobsFollow(s, s')
    requires s'.procs == s.procs
    ensures Consistent(s')
  {
    hide Sound, Extends, Locked, Placed;
    forall j | 0 <= j < |s'.jobs|
      ensures Placed(s'.db, s'.jobs[j].task)
    {
      if j < |s.jobs| { PlacedForever(s.db, s'.db, s.jobs[j].task); }
    }
    forall q | 0 <= q < |s'.procs|
      ensures ProcPlaced(s', s'.procs[q])
    {
      ProcStays(s, s', s.procs[q]);
    }
  }

  lemma ReceiverConsistent(s: State, l: Label)
    requires Consistent(s) && (l.ReceiverDefer? || l.ReceiverRead? || l.ReceiverWrite?) && IntakeEnabled(s, l)
    ensures Consistent(ApplyIntake(s, l))
  {
    hide Consistent, Sound, Extends, JobsFollow;
    var s' := ApplyIntake(s, l);
    var e := s.procs[l.p].event;
    IntakeExtends(s, l);
    PlacedAt(s, l.p);
    if l.ReceiverDefer? && !AlreadyEnqueued(s.jobs, EventTask(e)) {
      EnqueueFollows(s, s', EventTask(e));
      ConsistentAfter(s, s', l.p, Receiver(e, ToRead));
    } else {
      SameJobs(s, s');
      if l.ReceiverRead? && s.db.events[e].disposition == Received {
        ConsistentAfter(s, s', l.p, Receiver(e, ToWrite));
      } else {
        ConsistentAfter(s, s', l.p, Gone);
      }
    }
  }

  lemma IntakeConsistent(s: State, l: Label)
    requires Consistent(s) && IntakeLabel(l) && IntakeEnabled(s, l)
    ensures Consistent(ApplyIntake(s, l))
  {
    hide Consistent, Sound, Extends;
    if l.Receive? {
      ReceiveConsistent(s, l);
    } else if l.ReceiverDefer? || l.ReceiverRead? || l.ReceiverWrite? {
      ReceiverConsistent(s, l);
    } else {
      IntakeExtends(s, l);
      PlacedAt(s, l.p);
      match l
      case ProcessEvent(p, mode, now) =>
        var (db, task) := ProcessStoredEvent(s.db, TaskOf(s, p).event, mode, now);
        ProcessStoredEventSound(s.db, TaskOf(s, p).event, mode, now);
        ConsistentMove(s, db, p, Next(task));
      case MarkEventFailed(p) =>
        ConsistentMove(s, SetDisposition(s.db, TaskOf(s, p).event, EventFailed), p, Done);
      case EventRaises(p) => ConsistentMove(s, s.db, p, EventFailing);
    }
  }

  lemma RunConsistent(s: State, l: Label)
    requires Consistent(s) && RunLabel(l) && RunEnabled(s, l)
    ensures Consistent(ApplyRun(s, l))
  {
    hide Consistent, Sound, Extends;
    var s' := ApplyRun(s, l);
    RunExtends(s, l);
    PlacedAt(s, l.p);
    if l.CommitRun? {
      CompleteRunSound(s.db, TaskOf(s, l.p).run, s.procs[l.p].pos.kind);
    } else if l.CommitFailure? {
      FailRunSound(s.db, TaskOf(s, l.p).run, ModeOn);
    }
    ConsistentMove(s, s'.db, l.p, s'.procs[l.p].pos);
  }

  lemma DeliveryConsistent(s: State, l: Label)
    requires Consistent(s) && DeliveryLabel(l) && DeliveryEnabled(s, l)
    ensures Consistent(ApplyDelivery(s, l))
  {
    hide Consistent, Sound, Extends;
    DeliveryExtends(s, l);
    PlacedAt(s, l.p);
    ConsistentMove(s, ApplyDelivery(s, l).db, l.p, ApplyDelivery(s, l).procs[l.p].pos);
  }

  lemma SweepPlaced(s: State)
    ensures ProcPlaced(s, Sweep(PendingTasks(s.db)))
  {
    forall i | 0 <= i < |PendingTasks(s.db)|
      ensures Placed(s.db, PendingTasks(s.db)[i])
    {
      PendingTasksExact(s.db, PendingTasks(s.db)[i]);
    }
  }

  lemma HandlerEndConsistent(s: State, l: Label)
    requires Consistent(s) && QueueLabel(l) && QueueEnabled(s, l)
    requires l.EnqueueNext? || l.EnqueueDeferred? || l.FinishJob? || l.Crash? || l.Escape?
    ensures Consistent(ApplyQueue(s, l))
  {
    hide Consistent, Sound, Extends, JobsFollow;
    var s' := ApplyQueue(s, l);
    QueueExtends(s, l);
    PlacedAt(s, l.p);
    var p := l.p;
    if l.EnqueueNext? {
      EnqueueFollows(s, s', s.procs[p].pos.task);
      ConsistentAfter(s, s', p, Worker(s.procs[p].job, Done));
    } else if l.EnqueueDeferred? {
      ConsistentMove(s, s.db, p, Done);
    } else {
      if l.Crash? { SameJobs(s, s'); } else { FinishFollows(s, s', s.procs[p].job); }
      ConsistentAfter(s, s', p, Gone);
    }
  }

  lemma QueueConsistent(s: State, l: Label)
    requires Consistent(s) && QueueLabel(l) && QueueEnabled(s, l)
    ensures Consistent(ApplyQueue(s, l))
  {
    hide Consistent, Sound, Extends, JobsFollow;
    var s' := ApplyQueue(s, l);
    QueueExtends(s, l);
    match l
    case Fetch(j) =>
      FetchFollows(s, s', j);
      ConsistentAfter(s, s', 0, Worker(j, Start));
    case Recover(j, _) =>
      SameJobs(s, s');
      ConsistentAfter(s, s', 0, Release(j));
    case StartSweep =>
      SweepPlaced(s);
      SameJobs(s, s');
      ConsistentAfter(s, s', 0, Sweep(PendingTasks(s.db)));
    case ReleaseJob(p) =>
      FinishFollows(s, s', s.procs[p].released);
      ConsistentAfter(s, s', p, Gone);
    case SweepNext(p) =>
      PlacedAt(s, p);
      var tasks := s.procs[p].tasks;
      if tasks == [] {
        SameJobs(s, s');
        ConsistentAfter(s, s', p, Gone);
      } else {
        EnqueueFollows(s, s', tasks[0]);
        ConsistentAfter(s, s', p, Sweep(tasks[1..]));
      }
    case _ => HandlerEndConsistent(s, l);
  }

  lemma StepConsistent(s: State, l: Label)
    requires Consistent(s) && Enabled(s, l)
    ensures Consistent(Apply(s, l)) && Extends(s.db, Apply(s, l).db)
  {
    hide Consistent, Extends;
    StepExtends(s, l);
    if IntakeLabel(l) { IntakeConsistent(s, l); }
    else if RunLabel(l) { RunConsistent(s, l); }
    else if DeliveryLabel(l) { DeliveryConsistent(s, l); }
    else { QueueConsistent(s, l); }
  }

  lemma InitialConsistent(s: State)
    requires Initial(s)
    ensures Consistent(s)
  {
  }

  /** Every reachable state is consistent, over every interleaving, crash and late worker. */
  lemma {:induction false} RunsConsistent(s: State, ls: seq<Label>)
    requires Consistent(s) && Valid(s, ls)
    ensures Consistent(After(s, ls)) && After(s, ls).maxAttempts == s.maxAttempts
    decreases |ls|
  {
    hide Consistent;
    if ls != [] {
      StepConsistent(s, ls[0]);
      RunsConsistent(Apply(s, ls[0]), ls[1..]);
    }
  }

  // ---------- the run automaton over whole runs ----------

  predicate RunReaches(before: RunStatus, after: RunStatus) {
    RunMoves(before, after) || (before == RunQueued && Terminal(after))
  }

  lemma RunStep(s: State, l: Label, r: nat)
    requires Consistent(s) && Enabled(s, l) && r < |s.db.runs|
    ensures var runs := Apply(s, l).db.runs;
            && r < |runs|
            && RunMoves(s.db.runs[r].status, runs[r].status)
            && runs[r].trigger == s.db.runs[r].trigger && runs[r].conv == s.db.runs[r].conv
  {
    hide Consistent;
    StepConsistent(s, l);
  }

  /** Over any number of steps a run goes from queued to running to one terminal status, or from
      queued to cancelled, and stays where it ended; its message and conversation never change. */
  lemma {:induction false} RunAutomaton(s: State, ls: seq<Label>, r: nat)
    requires Consistent(s) && Valid(s, ls) && r < |s.db.runs|
    ensures var runs := After(s, ls).db.runs;
            && r < |runs|
            && RunReaches(s.db.runs[r].status, runs[r].status)
            && (Terminal(s.db.runs[r].status) ==> runs[r].status == s.db.runs[r].status)
            && runs[r].trigger == s.db.runs[r].trigger && runs[r].conv == s.db.runs[r].conv
    decreases |ls|
  {
    hide Consistent, Extends, Apply, Enabled;
    if ls != [] {
      StepConsistent(s, ls[0]);
      RunStep(s, ls[0], r);
      RunAutomaton(Apply(s, ls[0]), ls[1..], r);
    }
  }
}
