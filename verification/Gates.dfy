/** What may start and what may be posted, over every interleaving: an investigation starts only for the
    newest question of its conversation, and a process that is switched off starts and posts nothing. */
module Gates {
  import opened Records
  import opened JobQueue
  import opened Service
  import opened Pipeline
  import opened Integrity
  import opened Protocol
  import opened Deliveries
  import opened Effects
  import FailStop
  import Questions

  // ---------- starting investigations ----------

  /** The step starts an investigation of run `r`. */
  predicate Starts(s: State, l: Label, r: nat)
    requires Enabled(s, l)
  {
    RunIs(Apply(s, l).db, r, Running) && !RunIs(s.db, r, Running)
  }

  /** An investigation starts only by the claim of an enabled worker on its queued run, and no inbound
      message of its conversation was sent strictly after its question. */
  lemma StartsOnlyWanted(s: State, l: Label, r: nat)
    requires Consistent(s) && Enabled(s, l) && Starts(s, l, r)
    ensures l.StartRun? && l.mode == ModeOn && TaskOf(s, l.p).run == r && RunIs(s.db, r, RunQueued)
    ensures s.db.runs[r].trigger < |s.db.messages|
    ensures forall m | 0 <= m < |s.db.messages|
                       && s.db.messages[m].inbound && s.db.messages[m].conv == s.db.runs[r].conv ::
              s.db.messages[m].at <= s.db.messages[s.db.runs[r].trigger].at
  {
    FailStop.OnlyClaimsStart(s, l, r);
    StartDecides(s, l.p, l.mode);
    if r < |s.db.runs| { TriggerKnown(s, r); }
    hide Consistent;
  }

  /** The conversation of the investigation that the step starts, if it starts one in `c`. */
  predicate StartsIn(s: State, l: Label, c: nat)
    requires Enabled(s, l)
  {
    l.StartRun? && var r := TaskOf(s, l.p).run; Starts(s, l, r) && r < |s.db.runs| && s.db.runs[r].conv == c
  }

  ghost function StartedAt(s: State, l: Label, c: nat): int
    requires Consistent(s) && Enabled(s, l) && StartsIn(s, l, c)
  {
    s.db.messages[s.db.runs[TaskOf(s, l.p).run].trigger].at
  }

  /** The times of the questions whose investigations start in conversation `c`, in the order they start. */
  ghost function StartTimes(s: State, ls: seq<Label>, c: nat): seq<int>
    requires Consistent(s) && Valid(s, ls)
    decreases |ls|
  {
    if ls == [] then []
    else
      StepConsistent(s, ls[0]);
      (if StartsIn(s, ls[0], c) then [StartedAt(s, ls[0], c)] else [])
      + StartTimes(Apply(s, ls[0]), ls[1..], c)
  }

  lemma StartIsNewest(s: State, l: Label, c: nat, at: int)
    requires Consistent(s) && Enabled(s, l) && StartsIn(s, l, c)
    ensures AskedIn(s.db, c, at) ==> at <= StartedAt(s, l, c)
    ensures AskedIn(s.db, c, StartedAt(s, l, c))
  {
    var r := TaskOf(s, l.p).run;
    StartsOnlyWanted(s, l, r);
    hide Apply, Starts;
    assert s.db.messages[s.db.runs[r].trigger].conv == c && s.db.messages[s.db.runs[r].trigger].inbound;
  }

  lemma {:induction false} StartsNotBefore(s: State, ls: seq<Label>, c: nat, at: int)
    requires Consistent(s) && Valid(s, ls) && AskedIn(s.db, c, at)
    ensures forall i | 0 <= i < |StartTimes(s, ls, c)| :: at <= StartTimes(s, ls, c)[i]
    decreases |ls|
  {
    hide Consistent, Extends, Enabled, Apply, AskedIn, StartsIn;
    if ls != [] {
      StepConsistent(s, ls[0]);
      AskedForever(s.db, Apply(s, ls[0]).db, c, at);
      StartsNotBefore(Apply(s, ls[0]), ls[1..], c, at);
      if StartsIn(s, ls[0], c) { StartIsNewest(s, ls[0], c, at); }
    }
  }

  /** Start order: in each conversation the questions whose investigations start were asked in nondecreasing
      order, for every interleaving, crash and late worker. */
  lemma {:induction false} StartOrder(s: State, ls: seq<Label>, c: nat)
    requires Consistent(s) && Valid(s, ls)
    ensures forall i, j | 0 <= i < j < |StartTimes(s, ls, c)| ::
              StartTimes(s, ls, c)[i] <= StartTimes(s, ls, c)[j]
    decreases |ls|
  {
    hide Consistent, Extends, Enabled, Apply, AskedIn, StartsIn;
    if ls != [] {
      StepConsistent(s, ls[0]);
      var rest := StartTimes(Apply(s, ls[0]), ls[1..], c);
      StartOrder(Apply(s, ls[0]), ls[1..], c);
      if StartsIn(s, ls[0], c) {
        var at := StartedAt(s, ls[0], c);
        StartIsNewest(s, ls[0], c, at);
        AskedForever(s.db, Apply(s, ls[0]).db, c, at);
        StartsNotBefore(Apply(s, ls[0]), ls[1..], c, at);
        assert StartTimes(s, ls, c) == [at] + rest;
      } else {
        assert StartTimes(s, ls, c) == rest;
      }
    }
  }

  // ---------- posting ----------

  predicate AtPosting(proc: Proc) {
    proc.Worker? && proc.pos == Posting
  }

  function PostingWorkers(): Proc -> bool {
    proc => AtPosting(proc)
  }

  /** A worker comes to post only by the claim of an enabled process on a pending output that no newer
      question made obsolete. */
  lemma PostsOnlyDeliverable(s: State, l: Label, p: nat)
    requires Consistent(s) && Enabled(s, l) && p < |Apply(s, l).procs| && AtPosting(Apply(s, l).procs[p])
    requires p < |s.procs| ==> !AtPosting(s.procs[p])
    ensures l.StartDelivery? && l.p == p && l.mode == ModeOn && WorkerIn(s, p) && TaskOf(s, p).OutputTask?
    ensures OutputIs(s.db, TaskOf(s, p).output, Pending) && Deliverable(s.db, TaskOf(s, p).output, ModeOn)
  {
    if Moves(l) {
      StepMoves(s, l);
      if !DeliveryLabel(l) { FailStop.OnlyDeliveriesPost(s, l); }
      hide Apply, Consistent;
      if l.StartDelivery? { DeliveryDecides(s, l.p, l.mode); } else { OthersGoOn(s, l); }
    } else {
      StepSpawns(s, l);
      hide Apply, Consistent;
    }
  }

  lemma OthersGoOn(s: State, l: Label)
    requires DeliveryLabel(l) && DeliveryEnabled(s, l) && !l.StartDelivery?
    ensures l.p < |ApplyDelivery(s, l).procs| && !AtPosting(ApplyDelivery(s, l).procs[l.p])
    ensures Apply(s, l) == ApplyDelivery(s, l)
  {
  }

  predicate PostLabel(l: Label) {
    l.PostAccepted? || l.PostRejected?
  }

  /** The calls to Slack that post something. */
  function Posted(ls: seq<Label>): nat {
    if ls == [] then 0 else (if PostLabel(ls[0]) then 1 else 0) + Posted(ls[1..])
  }

  /** Whoever reads the mode finds Cerebro switched off. */
  predicate LabelDisabled(l: Label) {
    match l
    case ProcessEvent(_, mode, _) => mode == ModeOff
    case StartRun(_, mode) => mode == ModeOff
    case CheckStale(_, mode) => mode == ModeOff
    case StartDelivery(_, mode) => mode == ModeOff
    case Recover(_, mode) => mode == ModeOff
    case _ => true
  }

  predicate AllDisabled(ls: seq<Label>) {
    forall i | 0 <= i < |ls| :: LabelDisabled(ls[i])
  }

  lemma PosterLeaves(s: State, l: Label)
    requires Enabled(s, l) && PostLabel(l)
    ensures l.p < |s.procs| && AtPosting(s.procs[l.p])
    ensures l.p < |Apply(s, l).procs| && !AtPosting(Apply(s, l).procs[l.p])
  {
  }

  lemma DisabledMove(s: State, l: Label)
    requires Consistent(s) && Enabled(s, l) && LabelDisabled(l) && Moves(l)
    ensures Count(Apply(s, l).procs, PostingWorkers()) + (if PostLabel(l) then 1 else 0)
            <= Count(s.procs, PostingWorkers())
  {
    var s' := Apply(s, l);
    hide Apply, Consistent, Enabled;
    StepMoves(s, l);
    if PostLabel(l) { PosterLeaves(s, l); }
    if AtPosting(s'.procs[l.p]) && !AtPosting(s.procs[l.p]) { PostsOnlyDeliverable(s, l, l.p); }
    CountUpdated(s.procs, PostingWorkers(), l.p, s'.procs[l.p]);
  }

  /** While disabled a step adds no worker that is about to post, and a post uses one up. */
  lemma DisabledPostStep(s: State, l: Label)
    requires Consistent(s) && Enabled(s, l) && LabelDisabled(l)
    ensures Count(Apply(s, l).procs, PostingWorkers()) + (if PostLabel(l) then 1 else 0)
            <= Count(s.procs, PostingWorkers())
  {
    hide Apply, Consistent, Enabled;
    if Moves(l) {
      DisabledMove(s, l);
    } else {
      StepSpawns(s, l);
      var s' := Apply(s, l);
      if s'.procs != s.procs {
        var proc :| s'.procs == s.procs + [proc] && (proc.Worker? ==> proc.pos == Start);
        CountAdded(s.procs, PostingWorkers(), proc);
      }
    }
  }

  /** A process that is switched off posts nothing: while every process reads that Cerebro is disabled, no
      more messages are posted than workers had already claimed an output when that began. */
  lemma {:induction false} DisabledPostsNothing(s: State, ls: seq<Label>)
    requires Consistent(s) && Valid(s, ls) && AllDisabled(ls)
    ensures Posted(ls) + Count(After(s, ls).procs, PostingWorkers()) <= Count(s.procs, PostingWorkers())
    decreases |ls|
  {
    if ls != [] {
      StepConsistent(s, ls[0]);
      DisabledPostStep(s, ls[0]);
      hide Consistent, Apply, Enabled, PostingWorkers, LabelDisabled, PostLabel;
      DisabledPostsNothing(Apply(s, ls[0]), ls[1..]);
    }
  }

  // ---------- switched off ----------

  /** Nothing new was taken on: no question stored, no investigation started, and what still waited has only
      been cancelled. */
  ghost predicate NothingTakenOn(before: Db, after: Db) {
    && |after.runs| == |before.runs|
    && (forall r | 0 <= r < |before.runs| && after.runs[r].status == Running :: before.runs[r].status == Running)
    && (forall r | 0 <= r < |before.runs| && before.runs[r].status == RunQueued ::
          after.runs[r].status == RunQueued || after.runs[r].status == RunCancelled)
    && (forall r | 0 <= r < |before.runs| && before.runs[r].status == RunCancelled ::
          after.runs[r].status == RunCancelled)
    && before.messages <= after.messages
    && (forall m | |before.messages| <= m < |after.messages| :: !after.messages[m].inbound)
    && |before.outputs| <= |after.outputs|
    && (forall o | 0 <= o < |before.outputs| :: after.outputs[o].kind == before.outputs[o].kind)
    && (forall o | |before.outputs| <= o < |after.outputs| :: after.outputs[o].kind != FeedbackFlavor)
    && after.feedback == before.feedback && after.convs == before.convs
  }

  lemma TakenOnJoined(a: Db, b: Db, c: Db)
    requires NothingTakenOn(a, b) && NothingTakenOn(b, c)
    ensures NothingTakenOn(a, c)
  {
  }

  lemma EndingTakesNothingOn(db: Db, r: nat, kind: OutputKind, mode: Mode)
    requires IsReply(kind)
    ensures NothingTakenOn(db, CompleteRun(db, r, kind).0) && NothingTakenOn(db, FailRun(db, r, mode).0)
  {
    hide HasKey;
  }

  lemma CancellingTakesNothingOn(db: Db, r: nat)
    requires r < |db.runs| && !Terminal(db.runs[r].status)
    ensures NothingTakenOn(db, WithRun(db, r, RunCancelled))
  {
  }

  lemma DisabledClaim(s: State, l: Label)
    requires Consistent(s) && (l.StartRun? || l.CheckStale?) && RunEnabled(s, l) && l.mode == ModeOff
    ensures NothingTakenOn(s.db, ApplyRun(s, l).db)
  {
    var r := TaskOf(s, l.p).run;
    NothingAtAll(s.db);
    if l.StartRun? { StartDecides(s, l.p, ModeOff); } else { CheckDecides(s, l.p, ModeOff); }
    hide ApplyRun, Consistent, NothingTakenOn, Outdated;
    if Open(s.db, r) { CancellingTakesNothingOn(s.db, r); }
  }

  lemma DisabledEnding(s: State, l: Label)
    requires Consistent(s) && RunLabel(l) && RunEnabled(s, l) && !l.StartRun? && !l.CheckStale?
    ensures NothingTakenOn(s.db, ApplyRun(s, l).db)
  {
    PlacedAt(s, l.p);
    hide Consistent, NothingTakenOn, CompleteRun, FailRun;
    if l.CommitRun? {
      EndingTakesNothingOn(s.db, TaskOf(s, l.p).run, s.procs[l.p].pos.kind, ModeOn);
    } else if l.CommitFailure? {
      EndingTakesNothingOn(s.db, TaskOf(s, l.p).run, Investigation, ModeOn);
    } else {
      NothingAtAll(s.db);
    }
  }

  lemma DisabledRunStep(s: State, l: Label)
    requires Consistent(s) && RunLabel(l) && RunEnabled(s, l) && LabelDisabled(l)
    ensures NothingTakenOn(s.db, ApplyRun(s, l).db)
  {
    hide Consistent, NothingTakenOn, ApplyRun, RunEnabled;
    if l.StartRun? || l.CheckStale? { DisabledClaim(s, l); } else { DisabledEnding(s, l); }
  }

  lemma DisabledIntakeStep(s: State, l: Label)
    requires IntakeLabel(l) && IntakeEnabled(s, l) && LabelDisabled(l)
    ensures NothingTakenOn(s.db, ApplyIntake(s, l).db)
  {
  }

  lemma DisabledDeliveryStep(s: State, l: Label)
    requires DeliveryLabel(l) && DeliveryEnabled(s, l)
    ensures NothingTakenOn(s.db, ApplyDelivery(s, l).db)
  {
    hide TsFree, HasMessage, StaleOutput;
  }

  lemma DisabledQueueStep(s: State, l: Label)
    requires QueueLabel(l) && QueueEnabled(s, l) && LabelDisabled(l)
    ensures NothingTakenOn(s.db, ApplyQueue(s, l).db)
  {
  }

  lemma DisabledStep(s: State, l: Label)
    requires Consistent(s) && Enabled(s, l) && LabelDisabled(l)
    ensures NothingTakenOn(s.db, Apply(s, l).db)
  {
    hide Consistent, NothingTakenOn;
    if IntakeLabel(l) { DisabledIntakeStep(s, l); }
    else if RunLabel(l) { DisabledRunStep(s, l); }
    else if DeliveryLabel(l) { DisabledDeliveryStep(s, l); }
    else { DisabledQueueStep(s, l); }
  }

  lemma NothingAtAll(db: Db)
    ensures NothingTakenOn(db, db)
  {
  }

  /** A system that is switched off takes nothing on, whatever Slack sends and whoever still works. */
  lemma {:induction false} DisabledTakesNothingOn(s: State, ls: seq<Label>)
    requires Consistent(s) && Valid(s, ls) && AllDisabled(ls)
    ensures NothingTakenOn(s.db, After(s, ls).db)
    decreases |ls|
  {
    if ls == [] {
      NothingAtAll(s.db);
    } else {
      StepConsistent(s, ls[0]);
      DisabledStep(s, ls[0]);
      hide Consistent, Apply, Enabled, NothingTakenOn, LabelDisabled;
      var next := Apply(s, ls[0]);
      DisabledTakesNothingOn(next, ls[1..]);
      TakenOnJoined(s.db, next.db, After(next, ls[1..]).db);
    }
  }
}
