/** The protocol when an expired heartbeat means a dead worker and a failing database means a dying one:
    only jobs without a live worker are released, and no handler ends by an exception. */
module FailStop {
  import opened Records
  import opened JobQueue
  import opened Service
  import opened Pipeline
  import opened Tasks
  import opened Integrity
  import opened Protocol
  import opened Deliveries
  import Questions

  predicate Dead(s: State, j: nat) {
    forall p | 0 <= p < |s.procs| && s.procs[p].Worker? :: s.procs[p].job != j
  }

  predicate FailStopStep(s: State, l: Label) {
    && Enabled(s, l)
    && !l.Escape? && !l.EventRaises? && !l.MarkEventFailed?
    && (l.Recover? ==> Dead(s, l.job))
  }

  predicate FailStopRun(s: State, ls: seq<Label>): (r: bool)
    ensures r ==> Valid(s, ls)
    decreases |ls|
  {
    ls == [] || (FailStopStep(s, ls[0]) && FailStopRun(Apply(s, ls[0]), ls[1..]))
  }

  // ---------- the crew: who works on which job ----------

  /** Live workers hold running jobs, each its own; a job under release has no worker. */
  ghost predicate Crew(jobs: seq<Job>, procs: seq<Proc>) {
    && (forall p | 0 <= p < |procs| && procs[p].Worker? ::
          procs[p].job < |jobs| && jobs[procs[p].job].status == Doing && procs[p].pos != EventFailing)
    && (forall p, q | 0 <= p < q < |procs| && procs[p].Worker? && procs[q].Worker? ::
          procs[p].job != procs[q].job)
    && (forall p, q | 0 <= p < |procs| && 0 <= q < |procs| && procs[p].Release? && procs[q].Worker? ::
          procs[q].job != procs[p].released)
  }

  lemma CrewMoved(jobs: seq<Job>, procs: seq<Proc>, p: nat, proc: Proc, jobs': seq<Job>)
    requires Crew(jobs, procs) && p < |procs| && !proc.Release?
    requires proc.Worker? ==> procs[p].Worker? && proc.job == procs[p].job && proc.pos != EventFailing
    requires JobsGrow(jobs, jobs')
    requires forall q | 0 <= q < |procs| && q != p && procs[q].Worker? :: jobs'[procs[q].job].status == Doing
    requires proc.Worker? ==> jobs'[proc.job].status == Doing
    ensures Crew(jobs', procs[p := proc])
  {
  }

  lemma CrewStep(s: State, l: Label)
    requires Consistent(s) && Crew(s.jobs, s.procs) && FailStopStep(s, l)
    ensures Crew(Apply(s, l).jobs, Apply(s, l).procs)
  {
    var s' := Apply(s, l);
    if Moves(l) {
      StepMoves(s, l);
      MoveKeepsDoing(s, l);
      MovesPlainly(s, l);
      hide Consistent, Enabled, Apply;
      CrewMoved(s.jobs, s.procs, l.p, s'.procs[l.p], s'.jobs);
    } else if l.Receive? {
      StepSpawns(s, l);
    } else if l.Fetch? {
      CrewFetched(s, l.job);
    } else if l.Recover? {
      CrewReleased(s, l.job);
    }
  }

  lemma CrewFetched(s: State, j: nat)
    requires Consistent(s) && Crew(s.jobs, s.procs) && QueueEnabled(s, Fetch(j))
    ensures Crew(s.jobs[j := s.jobs[j].(status := Doing)], s.procs + [Worker(j, Start)])
  {
  }

  lemma CrewReleased(s: State, j: nat)
    requires Crew(s.jobs, s.procs) && Dead(s, j)
    ensures Crew(s.jobs, s.procs + [Release(j)])
  {
  }

  /** Only the end of a handler and a release finish a job. */
  lemma JobsKept(s: State, l: Label)
    requires Enabled(s, l) && Moves(l) && !l.FinishJob? && !l.Escape? && !l.ReleaseJob?
    ensures s.jobs <= Apply(s, l).jobs
  {
  }

  /** A moving step never ends up releasing, nor in the handler of a failed event. */
  lemma MovesPlainly(s: State, l: Label)
    requires FailStopStep(s, l) && Moves(l)
    requires s.procs[l.p].Worker? ==> s.procs[l.p].pos != EventFailing
    ensures l.p < |Apply(s, l).procs| && !Apply(s, l).procs[l.p].Release?
    ensures Apply(s, l).procs[l.p].Worker? ==> Apply(s, l).procs[l.p].pos != EventFailing
  {
  }

  /** A moving step finishes no job that another live worker holds. */
  lemma MoveKeepsDoing(s: State, l: Label)
    requires Crew(s.jobs, s.procs) && FailStopStep(s, l) && Moves(l) && |s.jobs| <= |Apply(s, l).jobs|
    requires l.p < |s.procs| && l.p < |Apply(s, l).procs|
    ensures forall q | 0 <= q < |s.procs| && q != l.p && s.procs[q].Worker? ::
              Apply(s, l).jobs[s.procs[q].job].status == Doing
    ensures Apply(s, l).procs[l.p].Worker? && s.procs[l.p].Worker? ==>
              Apply(s, l).jobs[s.procs[l.p].job].status == Doing
  {
    if l.FinishJob? {
    } else if l.ReleaseJob? {
    } else {
      JobsKept(s, l);
      hide Apply, Enabled;
    }
  }

  // ---------- deliveries ----------

  function OutputStatus(db: Db, o: nat): DeliveryStatus {
    if o < |db.outputs| then db.outputs[o].status else Pending
  }

  predicate DeliversPending(db: Db, jobs: seq<Job>, proc: Proc) {
    proc.Worker? && Delivering(proc.pos) ==>
      && proc.job < |jobs| && jobs[proc.job].task.OutputTask?
      && jobs[proc.job].task.output < |db.outputs|
      && OutputStatus(db, jobs[proc.job].task.output) == Pending
  }

  /** Whoever delivers an output finds it pending: nobody else completes it meanwhile. */
  ghost predicate Exclusively(s: State) {
    forall p | 0 <= p < |s.procs| :: DeliversPending(s.db, s.jobs, s.procs[p])
  }

  lemma CrewApart(jobs: seq<Job>, procs: seq<Proc>, p: nat, q: nat)
    requires Crew(jobs, procs)
    requires p < |procs| && q < |procs| && p != q && procs[p].Worker? && procs[q].Worker?
    ensures procs[p].job != procs[q].job
  {
    if q < p { assert procs[q].job != procs[p].job; }
  }

  /** Two live workers never stand in the same delivery or in the same conversation. */
  lemma LocksSeparate(s: State, p: nat, q: nat)
    requires Consistent(s) && Crew(s.jobs, s.procs)
    requires p < |s.procs| && q < |s.procs| && p != q && s.procs[p].Worker? && s.procs[q].Worker?
    ensures var t, u := s.jobs[s.procs[p].job].task, s.jobs[s.procs[q].job].task;
            ExecutionLockOf(t) != Unlocked ==> ExecutionLockOf(t) != ExecutionLockOf(u)
  {
    CrewApart(s.jobs, s.procs, p, q);
  }

  /** The status of an output changes only in a delivery step of a worker on that output. */
  lemma OnlyDeliveriesDecide(s: State, l: Label, o: nat)
    requires Enabled(s, l) && o < |s.db.outputs|
    ensures |s.db.outputs| <= |Apply(s, l).db.outputs|
    ensures OutputStatus(Apply(s, l).db, o) != OutputStatus(s.db, o) ==>
              DeliveryLabel(l) && TaskOf(s, l.p) == OutputTask(o)
  {
    if DeliveryLabel(l) {
      DeliveryDecides(s, l, o);
    } else if IntakeLabel(l) {
      Questions.IntakeKeepsStatuses(s, l);
    } else {
      RunKeepsOutputs(s, l);
      hide Apply;
    }
  }

  lemma DeliveryDecides(s: State, l: Label, o: nat)
    requires DeliveryLabel(l) && DeliveryEnabled(s, l) && o < |s.db.outputs|
    ensures |s.db.outputs| == |ApplyDelivery(s, l).db.outputs|
    ensures TaskOf(s, l.p) == OutputTask(o)
            || OutputStatus(ApplyDelivery(s, l).db, o) == OutputStatus(s.db, o)
  {
  }

  lemma OwnDelivery(s: State, l: Label)
    requires Consistent(s) && Exclusively(s) && DeliveryLabel(l) && DeliveryEnabled(s, l)
    ensures l.p < |ApplyDelivery(s, l).procs|
    ensures DeliversPending(ApplyDelivery(s, l).db, s.jobs, ApplyDelivery(s, l).procs[l.p])
  {
    PlacedAt(s, l.p);
    assert DeliversPending(s.db, s.jobs, s.procs[l.p]);
  }

  lemma RunsDoNotDeliver(s: State, l: Label)
    requires RunLabel(l) && RunEnabled(s, l)
    ensures l.p < |ApplyRun(s, l).procs|
    ensures !(ApplyRun(s, l).procs[l.p].Worker? && Delivering(ApplyRun(s, l).procs[l.p].pos))
  {
  }

  lemma OthersDoNotDeliver(s: State, l: Label)
    requires Enabled(s, l) && Moves(l) && !DeliveryLabel(l)
    ensures l.p < |Apply(s, l).procs|
    ensures !(Apply(s, l).procs[l.p].Worker? && Delivering(Apply(s, l).procs[l.p].pos))
  {
    if RunLabel(l) { RunsDoNotDeliver(s, l); hide ApplyRun; }
  }

  /** After its own step a worker that still delivers has a pending output. */
  lemma OwnDeliveryPending(s: State, l: Label, s': State)
    requires Consistent(s) && Exclusively(s) && Enabled(s, l) && Moves(l) && s' == Apply(s, l)
    ensures l.p < |s'.procs| && DeliversPending(s'.db, s'.jobs, s'.procs[l.p])
  {
    if DeliveryLabel(l) { OwnDelivery(s, l); } else { OthersDoNotDeliver(s, l); }
  }

  lemma OtherDeliveryPending(s: State, l: Label, q: nat)
    requires Consistent(s) && Crew(s.jobs, s.procs) && Exclusively(s) && FailStopStep(s, l)
    requires q < |s.procs| && (Moves(l) ==> l.p != q) && JobsGrow(s.jobs, Apply(s, l).jobs)
    ensures DeliversPending(Apply(s, l).db, Apply(s, l).jobs, s.procs[q])
  {
    assert Enabled(s, l) && DeliversPending(s.db, s.jobs, s.procs[q]);
    hide Consistent, Crew, Exclusively, Apply, Enabled, FailStopStep;
    if s.procs[q].Worker? && Delivering(s.procs[q].pos) {
      var o := s.jobs[s.procs[q].job].task.output;
      OnlyDeliveriesDecide(s, l, o);
      if DeliveryLabel(l) { DeliverersApart(s, l, q); }
    }
  }

  /** Two workers never deliver the same output. */
  lemma DeliverersApart(s: State, l: Label, q: nat)
    requires Consistent(s) && Crew(s.jobs, s.procs) && DeliveryLabel(l) && DeliveryEnabled(s, l)
    requires q < |s.procs| && l.p != q && s.procs[q].Worker? && s.procs[q].job < |s.jobs|
    requires s.jobs[s.procs[q].job].task.OutputTask?
    ensures TaskOf(s, l.p) != s.jobs[s.procs[q].job].task
  {
    LocksSeparate(s, l.p, q);
  }

  lemma ExclusivelyStep(s: State, l: Label)
    requires Consistent(s) && Crew(s.jobs, s.procs) && Exclusively(s) && FailStopStep(s, l)
    ensures Exclusively(Apply(s, l))
  {
    var s' := Apply(s, l);
    if Moves(l) {
      StepMoves(s, l);
      OwnDeliveryPending(s, l, s');
    } else {
      StepSpawns(s, l);
    }
    hide Consistent, Crew, Apply, FailStopStep, DeliversPending, Enabled;
    forall q | 0 <= q < |s'.procs|
      ensures DeliversPending(s'.db, s'.jobs, s'.procs[q])
    {
      if Moves(l) && l.p == q {
      } else if q < |s.procs| {
        OtherDeliveryPending(s, l, q);
      } else {
        NewProcsDoNotDeliver(s, s', q);
      }
    }
  }

  lemma NewProcsDoNotDeliver(s: State, s': State, q: nat)
    requires |s.procs| <= q < |s'.procs|
    requires exists proc :: s'.procs == s.procs + [proc] && (proc.Worker? ==> proc.pos == Start)
    ensures DeliversPending(s'.db, s'.jobs, s'.procs[q])
  {
  }

  /** Finality: under the per-output lock, what was sent, failed or cancelled stays so. */
  lemma DeliveryFinal(s: State, l: Label, o: nat)
    requires Consistent(s) && Exclusively(s) && FailStopStep(s, l)
    requires OutputStatus(s.db, o) != Pending
    ensures OutputStatus(Apply(s, l).db, o) == OutputStatus(s.db, o)
  {
    OnlyDeliveriesDecide(s, l, o);
    if DeliveryLabel(l) {
      assert DeliversPending(s.db, s.jobs, s.procs[l.p]);
    } else {
      hide Apply;
    }
  }

  // ---------- one running investigation per conversation ----------

  /** The job runs the investigation: its worker, if it still lives, is in the middle of it, and nobody
      is about to release it. */
  predicate HoldsRun(jobs: seq<Job>, procs: seq<Proc>, j: nat, r: nat) {
    && j < |jobs| && jobs[j].status == Doing && jobs[j].task.RunTask? && jobs[j].task.run == r
    && (forall p | 0 <= p < |procs| && procs[p].Worker? && procs[p].job == j :: Active(procs[p].pos))
    && (forall p | 0 <= p < |procs| && procs[p].Release? :: procs[p].released != j)
  }

  /** Every running investigation has a running job that holds its conversation's lock. */
  ghost predicate RunsHeld(s: State) {
    forall r: nat | RunIs(s.db, r, Running) :: exists j: nat :: HoldsRun(s.jobs, s.procs, j, r)
  }

  lemma IntakeStartsNothing(s: State, l: Label, r: nat)
    requires Consistent(s) && IntakeLabel(l) && IntakeEnabled(s, l) && RunIs(ApplyIntake(s, l).db, r, Running)
    ensures RunIs(s.db, r, Running)
  {
    IntakeExtends(s, l);
    Questions.IntakeKeepsStatuses(s, l);
    hide Consistent;
  }

  lemma RunStepStarts(s: State, l: Label, r: nat)
    requires RunLabel(l) && RunEnabled(s, l) && RunIs(ApplyRun(s, l).db, r, Running) && !RunIs(s.db, r, Running)
    ensures l.StartRun? && TaskOf(s, l.p).run == r
  {
  }

  lemma OthersStartNothing(s: State, l: Label, r: nat)
    requires Enabled(s, l) && (DeliveryLabel(l) || QueueLabel(l)) && RunIs(Apply(s, l).db, r, Running)
    ensures RunIs(s.db, r, Running)
  {
  }

  /** A run starts running only by the claim of a worker on it. */
  lemma OnlyClaimsStart(s: State, l: Label, r: nat)
    requires Consistent(s) && Enabled(s, l) && RunIs(Apply(s, l).db, r, Running) && !RunIs(s.db, r, Running)
    ensures l.StartRun? && TaskOf(s, l.p).run == r
  {
    hide Consistent, RunIs;
    if IntakeLabel(l) { IntakeStartsNothing(s, l, r); }
    else if RunLabel(l) { RunStepStarts(s, l, r); }
    else { OthersStartNothing(s, l, r); }
  }

  lemma ClaimStands(s: State, l: Label, r: nat)
    requires Enabled(s, l) && l.StartRun? && TaskOf(s, l.p).run == r
    requires RunIs(Apply(s, l).db, r, Running) && !RunIs(s.db, r, Running)
    ensures l.p < |s.procs| && Apply(s, l).jobs == s.jobs
    ensures Apply(s, l).procs == s.procs[l.p := Worker(s.procs[l.p].job, Gate)]
  {
  }

  lemma RunLeavesStopped(s: State, l: Label, r: nat)
    requires RunLabel(l) && RunEnabled(s, l) && TaskOf(s, l.p).RunTask? && TaskOf(s, l.p).run == r
    requires Active(s.procs[l.p].pos) && r < |s.db.runs|
    ensures l.p < |ApplyRun(s, l).procs| && ApplyRun(s, l).procs[l.p].Worker?
    ensures !Active(ApplyRun(s, l).procs[l.p].pos) ==> !RunIs(ApplyRun(s, l).db, r, Running)
  {
  }

  lemma OthersLeaveAlone(s: State, l: Label)
    requires Enabled(s, l) && Moves(l) && !RunLabel(l) && l.p < |s.procs|
    requires s.procs[l.p].Worker? && Active(s.procs[l.p].pos)
    ensures l.p < |Apply(s, l).procs| && Apply(s, l).procs[l.p] == Gone
  {
  }

  /** A worker leaves the middle of an investigation only after the run stopped running. */
  lemma LeavesStopped(s: State, l: Label, r: nat)
    requires Enabled(s, l) && Moves(l) && l.p < |s.procs|
    requires WorkerIn(s, l.p) && Active(s.procs[l.p].pos)
    requires TaskOf(s, l.p).RunTask? && TaskOf(s, l.p).run == r && r < |s.db.runs|
    ensures l.p < |Apply(s, l).procs|
    ensures var proc := Apply(s, l).procs[l.p];
            proc.Worker? && !Active(proc.pos) ==> !RunIs(Apply(s, l).db, r, Running)
  {
    if RunLabel(l) { RunLeavesStopped(s, l, r); } else { OthersLeaveAlone(s, l); }
    hide ApplyRun, ApplyIntake, ApplyDelivery, ApplyQueue;
  }

  lemma RecoveryStops(db: Db, jobs: seq<Job>, j: nat, mode: Mode, r: nat)
    requires j < |jobs| && jobs[j].task.RunTask? && jobs[j].task.run == r
    ensures !RunIs(FailHeldRun(db, jobs, j, mode), r, Running)
  {
  }

  /** Nobody but its own worker or its release finishes a running job. */
  lemma JobStays(s: State, l: Label, j: nat, r: nat)
    requires FailStopStep(s, l) && HoldsRun(s.jobs, s.procs, j, r)
    ensures j < |Apply(s, l).jobs| && Apply(s, l).jobs[j] == s.jobs[j]
  {
  }

  lemma HolderMoved(jobs: seq<Job>, procs: seq<Proc>, j: nat, r: nat, jobs': seq<Job>, p: nat, proc: Proc)
    requires HoldsRun(jobs, procs, j, r) && j < |jobs'| && jobs'[j] == jobs[j]
    requires p < |procs| && !proc.Release?
    requires proc.Worker? && proc.job == j ==> Active(proc.pos)
    ensures HoldsRun(jobs', procs[p := proc], j, r)
  {
    hide Active;
  }

  lemma HolderStaysOnMove(s: State, l: Label, j: nat, r: nat)
    requires FailStopStep(s, l) && Moves(l) && HoldsRun(s.jobs, s.procs, j, r)
    requires RunIs(s.db, r, Running) && RunIs(Apply(s, l).db, r, Running)
    ensures HoldsRun(Apply(s, l).jobs, Apply(s, l).procs, j, r)
  {
    assert Enabled(s, l);
    HolderBasics(s.jobs, s.procs, j, r);
    hide Apply, Enabled, FailStopStep, HoldsRun, Active, JobsGrow;
    JobStays(s, l, j, r);
    StepMoves(s, l);
    MovesNoRelease(s, l);
    if s.procs[l.p].Worker? && s.procs[l.p].job == j {
      HolderActive(s.jobs, s.procs, j, r, l.p);
      LeavesStopped(s, l, r);
    }
    HolderMoved(s.jobs, s.procs, j, r, Apply(s, l).jobs, l.p, Apply(s, l).procs[l.p]);
  }

  lemma HolderBasics(jobs: seq<Job>, procs: seq<Proc>, j: nat, r: nat)
    requires HoldsRun(jobs, procs, j, r)
    ensures j < |jobs| && jobs[j].task.RunTask? && jobs[j].task.run == r
  {
  }

  lemma HolderActive(jobs: seq<Job>, procs: seq<Proc>, j: nat, r: nat, p: nat)
    requires HoldsRun(jobs, procs, j, r) && p < |procs| && procs[p].Worker? && procs[p].job == j
    ensures Active(procs[p].pos)
  {
  }

  lemma HolderStaysOnFetch(s: State, j: nat, r: nat, k: nat)
    requires QueueEnabled(s, Fetch(k)) && HoldsRun(s.jobs, s.procs, j, r)
    ensures HoldsRun(s.jobs[k := s.jobs[k].(status := Doing)], s.procs + [Worker(k, Start)], j, r)
  {
  }

  /** While its run goes on running, the job that holds it goes on holding it. */
  lemma HolderStays(s: State, l: Label, j: nat, r: nat)
    requires FailStopStep(s, l) && HoldsRun(s.jobs, s.procs, j, r)
    requires RunIs(s.db, r, Running) && RunIs(Apply(s, l).db, r, Running)
    ensures HoldsRun(Apply(s, l).jobs, Apply(s, l).procs, j, r)
  {
    if Moves(l) {
      HolderStaysOnMove(s, l, j, r);
    } else if l.Recover? {
      if l.job == j { RecoveryStops(s.db, s.jobs, j, l.mode, r); }
    } else if l.Fetch? {
      HolderStaysOnFetch(s, j, r, l.job);
    } else {
      SpawnsNoWork(s, l);
      hide Apply, Enabled;
    }
  }

  lemma MovesNoRelease(s: State, l: Label)
    requires Enabled(s, l) && Moves(l)
    ensures l.p < |Apply(s, l).procs| && !Apply(s, l).procs[l.p].Release?
  {
  }

  lemma SpawnsNoWork(s: State, l: Label)
    requires Enabled(s, l) && (l.Receive? || l.StartSweep?)
    ensures Apply(s, l).jobs == s.jobs
    ensures Apply(s, l).procs == s.procs
            || exists proc :: Apply(s, l).procs == s.procs + [proc] && !proc.Worker? && !proc.Release?
  {
  }

  lemma RunsHeldStep(s: State, l: Label)
    requires Consistent(s) && Crew(s.jobs, s.procs) && RunsHeld(s) && FailStopStep(s, l)
    ensures RunsHeld(Apply(s, l))
  {
    var s' := Apply(s, l);
    hide Consistent, Crew, Apply, FailStopStep, HoldsRun, Enabled;
    forall r: nat | RunIs(s'.db, r, Running)
      ensures exists j: nat :: HoldsRun(s'.jobs, s'.procs, j, r)
    {
      if RunIs(s.db, r, Running) {
        var j: nat :| HoldsRun(s.jobs, s.procs, j, r);
        HolderStays(s, l, j, r);
      } else {
        ClaimHolds(s, l, r);
      }
    }
  }

  lemma ClaimHolds(s: State, l: Label, r: nat)
    requires Consistent(s) && Crew(s.jobs, s.procs) && FailStopStep(s, l)
    requires RunIs(Apply(s, l).db, r, Running) && !RunIs(s.db, r, Running)
    ensures exists j: nat :: HoldsRun(Apply(s, l).jobs, Apply(s, l).procs, j, r)
  {
    OnlyClaimsStart(s, l, r);
    ClaimStands(s, l, r);
    ClaimerHolds(s.jobs, s.procs, l.p, r);
    hide Consistent, Crew, Apply, HoldsRun;
  }

  lemma ClaimerHolds(jobs: seq<Job>, procs: seq<Proc>, p: nat, r: nat)
    requires Crew(jobs, procs) && p < |procs| && procs[p].Worker?
    requires jobs[procs[p].job].task.RunTask? && jobs[procs[p].job].task.run == r
    ensures HoldsRun(jobs, procs[p := Worker(procs[p].job, Gate)], procs[p].job, r)
  {
  }

  /** The whole fail-stop invariant. */
  ghost predicate Orderly(s: State) {
    Consistent(s) && Crew(s.jobs, s.procs) && Exclusively(s) && RunsHeld(s)
  }

  lemma OrderlyStep(s: State, l: Label)
    requires Orderly(s) && FailStopStep(s, l)
    ensures Orderly(Apply(s, l))
  {
    hide Consistent, Crew, Exclusively, RunsHeld, Apply;
    assert Enabled(s, l);
    hide Enabled;
    StepConsistent(s, l);
    CrewStep(s, l);
    ExclusivelyStep(s, l);
    RunsHeldStep(s, l);
  }

  lemma {:induction false} RunsOrderly(s: State, ls: seq<Label>)
    requires Orderly(s) && FailStopRun(s, ls)
    ensures Valid(s, ls) && Orderly(After(s, ls))
    decreases |ls|
  {
    hide Orderly, Apply, Enabled;
    if ls != [] {
      OrderlyStep(s, ls[0]);
      RunsOrderly(Apply(s, ls[0]), ls[1..]);
    }
  }

  lemma InitialOrderly(s: State)
    requires Initial(s)
    ensures Orderly(s)
  {
  }

  lemma HoldersLocked(s: State, r: nat, r': nat)
    requires Orderly(s) && RunIs(s.db, r, Running) && RunIs(s.db, r', Running)
    requires s.db.runs[r].conv == s.db.runs[r'].conv
    ensures r == r'
  {
  }

  /** One running investigation per conversation: in every fail-stop run, a running investigation has a
      running job with its conversation's lock, so no two of one conversation run at once. */
  lemma OneRunPerConversation(s: State, ls: seq<Label>, r: nat, r': nat)
    requires Initial(s) && FailStopRun(s, ls) && Valid(s, ls)
    requires RunIs(After(s, ls).db, r, Running) && RunIs(After(s, ls).db, r', Running)
    requires After(s, ls).db.runs[r].conv == After(s, ls).db.runs[r'].conv
    ensures r == r'
    ensures exists j: nat ::
              && HoldsRun(After(s, ls).jobs, After(s, ls).procs, j, r)
              && ExecutionLockOf(After(s, ls).jobs[j].task) == ConversationLock(After(s, ls).db.runs[r].conv)
  {
    InitialOrderly(s);
    RunsOrderly(s, ls);
    var t := After(s, ls);
    HoldersLocked(t, r, r');
    var j: nat :| HoldsRun(t.jobs, t.procs, j, r);
    assert Placed(t.db, t.jobs[j].task);
  }

  /** What was sent, failed or cancelled stays so over every fail-stop run. */
  lemma {:induction false} DeliveriesFinal(s: State, ls: seq<Label>, o: nat)
    requires Orderly(s) && FailStopRun(s, ls) && Valid(s, ls) && OutputStatus(s.db, o) != Pending
    ensures OutputStatus(After(s, ls).db, o) == OutputStatus(s.db, o)
    decreases |ls|
  {
    if ls != [] {
      OrderlyStep(s, ls[0]);
      DeliveryFinal(s, ls[0], o);
      hide Orderly, Apply, Enabled, OutputStatus;
      DeliveriesFinal(Apply(s, ls[0]), ls[1..], o);
    }
  }

  // ---------- the bound on posts ----------

  predicate CrashFree(ls: seq<Label>) {
    forall i | 0 <= i < |ls| :: !ls[i].Crash?
  }

  /** Without crashes an output is claimed at most the maximum number of times. */
  ghost predicate Bounded(s: State, o: nat) {
    Accounted(s, o, 0) && Attempts(s.db, o) <= s.maxAttempts
  }

  /** At a claim no other claim of the same output is in flight. */
  lemma {:induction false} NoOtherClaim(s: State, procs: seq<Proc>, p: nat, o: nat)
    requires Consistent(s) && Crew(s.jobs, s.procs) && WorkerIn(s, p) && TaskOf(s, p) == OutputTask(o)
    requires procs <= s.procs && !Delivering(s.procs[p].pos)
    ensures InFlight(procs, s.jobs, o) == 0
  {
    if procs != [] {
      var n := |procs| - 1;
      NoOtherClaim(s, procs[..n], p, o);
      if HoldsClaim(procs[n], s.jobs, o) { LocksSeparate(s, p, n); }
    }
  }

  lemma BoundedStep(s: State, l: Label, o: nat)
    requires Orderly(s) && FailStopStep(s, l) && !l.Crash? && 1 <= s.maxAttempts && Bounded(s, o)
    ensures Bounded(Apply(s, l), o) && Apply(s, l).maxAttempts == s.maxAttempts
  {
    StepAccounted(s, l, o, 0);
    StepAttempts(s, l, o);
    if Claims(s, l, o) { NoOtherClaim(s, s.procs, l.p, o); }
    RunsConsistent(s, [l]);
  }

  lemma {:induction false} RunsBounded(s: State, ls: seq<Label>, o: nat)
    requires Orderly(s) && FailStopRun(s, ls) && Valid(s, ls) && CrashFree(ls) && 1 <= s.maxAttempts && Bounded(s, o)
    ensures Bounded(After(s, ls), o)
    ensures After(s, ls).maxAttempts == s.maxAttempts
    decreases |ls|
  {
    if ls != [] {
      OrderlyStep(s, ls[0]);
      BoundedStep(s, ls[0], o);
      hide Orderly, Apply, Enabled, Bounded;
      RunsBounded(Apply(s, ls[0]), ls[1..], o);
    }
  }

  /** The step is a call to Slack that posts output `o`. */
  predicate Posts(s: State, l: Label, o: nat)
    requires Enabled(s, l)
  {
    (l.PostAccepted? || l.PostRejected?) && TaskOf(s, l.p) == OutputTask(o)
  }

  function PostCount(s: State, ls: seq<Label>, o: nat): nat
    requires Valid(s, ls)
    decreases |ls|
  {
    if ls == [] then 0
    else (if Posts(s, ls[0], o) then 1 else 0) + PostCount(Apply(s, ls[0]), ls[1..], o)
  }

  /** The worker claimed output `o` and has not called Slack yet. */
  predicate ToPost(proc: Proc, jobs: seq<Job>, o: nat) {
    HoldsClaim(proc, jobs, o) && proc.pos == Posting
  }

  function Posters(jobs: seq<Job>, o: nat): Proc -> bool {
    proc => ToPost(proc, jobs, o)
  }

  lemma PostMoves(s: State, l: Label, o: nat)
    requires Consistent(s) && Enabled(s, l) && Moves(l) && l.p < |s.procs| && l.p < |Apply(s, l).procs|
    ensures (if ToPost(Apply(s, l).procs[l.p], s.jobs, o) then 1 else 0) + (if Posts(s, l, o) then 1 else 0)
            <= (if ToPost(s.procs[l.p], s.jobs, o) then 1 else 0) + if Claims(s, l, o) then 1 else 0
  {
    PlacedAt(s, l.p);
    hide Consistent;
    if DeliveryLabel(l) {
    } else {
      OnlyDeliveriesPost(s, l);
    }
  }

  lemma OnlyDeliveriesPost(s: State, l: Label)
    requires Enabled(s, l) && Moves(l) && !DeliveryLabel(l)
    requires l.p < |s.procs| && l.p < |Apply(s, l).procs|
    ensures !(Apply(s, l).procs[l.p].Worker? && Apply(s, l).procs[l.p].pos == Posting)
  {
  }

  lemma PostsSameJobs(s: State, s': State, o: nat)
    requires Consistent(s) && JobsGrow(s.jobs, s'.jobs)
    ensures forall p | 0 <= p < |s.procs| :: ToPost(s.procs[p], s.jobs, o) == ToPost(s.procs[p], s'.jobs, o)
    ensures Count(s.procs, Posters(s.jobs, o)) == Count(s.procs, Posters(s'.jobs, o))
  {
    WorkersHaveJobs(s);
    CountSame(s.procs, Posters(s.jobs, o), Posters(s'.jobs, o));
  }

  lemma PostMoved(s: State, l: Label, o: nat)
    requires Consistent(s) && Enabled(s, l) && Moves(l)
    ensures var s' := Apply(s, l);
            Count(s'.procs, Posters(s'.jobs, o)) + (if Posts(s, l, o) then 1 else 0)
            <= Count(s.procs, Posters(s.jobs, o)) + if Claims(s, l, o) then 1 else 0
  {
    var s' := Apply(s, l);
    StepMoves(s, l);
    PostMoves(s, l, o);
    WorkersHaveJobs(s);
    PostsSameJobs(s, s', o);
    hide Consistent, Enabled, Apply, Posts, Claims;
    PostsExchanged(s.procs, s.jobs, s'.jobs, o, l.p, s'.procs[l.p]);
  }

  lemma PostsExchanged(procs: seq<Proc>, jobs: seq<Job>, jobs': seq<Job>, o: nat, p: nat, proc: Proc)
    requires JobsGrow(jobs, jobs') && p < |procs| && Count(procs, Posters(jobs, o)) == Count(procs, Posters(jobs', o))
    requires proc.Worker? ==> procs[p].Worker? && proc.job == procs[p].job
    requires procs[p].Worker? ==> procs[p].job < |jobs|
    ensures Count(procs[p := proc], Posters(jobs', o)) + (if ToPost(procs[p], jobs, o) then 1 else 0)
            == Count(procs, Posters(jobs, o)) + if ToPost(proc, jobs, o) then 1 else 0
  {
    CountUpdated(procs, Posters(jobs', o), p, proc);
  }

  lemma SpawnsPostNothing(s: State, l: Label, o: nat)
    requires Consistent(s) && Enabled(s, l) && !Moves(l)
    ensures Count(Apply(s, l).procs, Posters(Apply(s, l).jobs, o)) == Count(s.procs, Posters(s.jobs, o))
    ensures !Posts(s, l, o) && !Claims(s, l, o)
  {
    SpawnsClaimNothing(s, l, o);
    hide Consistent, JobsGrow, Enabled, Apply, Claims;
    var s' := Apply(s, l);
    StepSpawns(s, l);
    PostsSameJobs(s, s', o);
    if s'.procs != s.procs {
      var proc :| s'.procs == s.procs + [proc] && (proc.Worker? ==> proc.pos == Start);
      CountAdded(s.procs, Posters(s'.jobs, o), proc);
    }
  }

  /** A post uses up a claim. */
  lemma PostStep(s: State, l: Label, o: nat)
    requires Consistent(s) && Enabled(s, l)
    ensures var s' := Apply(s, l);
            Count(s'.procs, Posters(s'.jobs, o)) + (if Posts(s, l, o) then 1 else 0)
            <= Count(s.procs, Posters(s.jobs, o)) + if Claims(s, l, o) then 1 else 0
  {
    hide Consistent, Enabled, Apply, Posts, Claims;
    if Moves(l) { PostMoved(s, l, o); } else { SpawnsPostNothing(s, l, o); }
  }

  lemma {:induction false} PostsNeedClaims(s: State, ls: seq<Label>, o: nat)
    requires Consistent(s) && Valid(s, ls)
    ensures PostCount(s, ls, o) <= ClaimCount(s, ls, o) + Count(s.procs, Posters(s.jobs, o))
    decreases |ls|
  {
    if ls != [] {
      StepConsistent(s, ls[0]);
      PostStep(s, ls[0], o);
      hide Consistent, Apply, Enabled, Posts, Claims;
      PostsNeedClaims(Apply(s, ls[0]), ls[1..], o);
    }
  }

  /** Executions without crashes call Slack for an output at most as often as it was claimed, and claim
      it at most `slack_delivery_max_attempts` times. */
  lemma PostsBounded(s: State, ls: seq<Label>, o: nat)
    requires Initial(s) && FailStopRun(s, ls) && Valid(s, ls) && CrashFree(ls)
    ensures PostCount(s, ls, o) <= Attempts(After(s, ls).db, o) <= s.maxAttempts
  {
    InitialOrderly(s);
    NothingAtFirst(s, o);
    hide Consistent, Crew, Exclusively, RunsHeld, Initial, FailStopRun, CrashFree, PostCount, ClaimCount;
    PostsNeedClaims(s, ls, o);
    AttemptsCountClaims(s, ls, o);
    RunsBounded(s, ls, o);
  }

  lemma NothingAtFirst(s: State, o: nat)
    requires Initial(s)
    ensures Bounded(s, o) && Attempts(s.db, o) == 0 && Count(s.procs, Posters(s.jobs, o)) == 0 && 1 <= s.maxAttempts
  {
  }
}
