/** Delivery order and delivery accounting, over every interleaving. */
module Deliveries {
  import opened Records
  import opened JobQueue
  import opened Service
  import opened Pipeline
  import opened Integrity
  import opened Protocol
  import Questions

  // ---------- reply order ----------

  /** The step claims a delivery of output `o`, and the claim passes its staleness check. */
  predicate Claims(s: State, l: Label, o: nat)
    requires Enabled(s, l)
  {
    l.StartDelivery? && TaskOf(s, l.p) == OutputTask(o) && ClaimOutput(s.db, o, l.mode).1
  }

  /** The step claims the answer to a question of conversation `c`. */
  predicate ClaimsAnswer(s: State, l: Label, c: nat)
    requires Enabled(s, l)
  {
    && l.StartDelivery?
    && Claims(s, l, TaskOf(s, l.p).output)
    && s.db.outputs[TaskOf(s, l.p).output].kind != FeedbackFlavor
    && s.db.outputs[TaskOf(s, l.p).output].conv == c
  }

  /** When the question was asked whose answer the step claims. */
  ghost function AskedAt(s: State, l: Label, c: nat): int
    requires Consistent(s) && Enabled(s, l) && ClaimsAnswer(s, l, c)
  {
    s.db.messages[s.db.runs[s.db.outputs[TaskOf(s, l.p).output].run].trigger].at
  }

  /** The times of the questions whose answers are claimed in conversation `c`, in claim order. */
  ghost function ClaimTimes(s: State, ls: seq<Label>, c: nat): seq<int>
    requires Consistent(s) && Valid(s, ls)
    decreases |ls|
  {
    if ls == [] then []
    else
      StepConsistent(s, ls[0]);
      (if ClaimsAnswer(s, ls[0], c) then [AskedAt(s, ls[0], c)] else [])
      + ClaimTimes(Apply(s, ls[0]), ls[1..], c)
  }

  ghost predicate AskedIn(db: Db, c: nat, at: int) {
    exists m | 0 <= m < |db.messages| ::
      db.messages[m].conv == c && db.messages[m].inbound && db.messages[m].at == at
  }

  lemma AskedForever(before: Db, after: Db, c: nat, at: int)
    requires Extends(before, after) && AskedIn(before, c, at)
    ensures AskedIn(after, c, at)
  {
  }

  /** A passing claim answers the newest question there is; nothing asked before it is newer. */
  lemma ClaimIsNewest(s: State, l: Label, c: nat, at: int)
    requires Consistent(s) && Enabled(s, l) && ClaimsAnswer(s, l, c)
    ensures AskedIn(s.db, c, at) ==> at <= AskedAt(s, l, c)
    ensures AskedIn(s.db, c, AskedAt(s, l, c))
  {
  }

  lemma {:induction false} ClaimsNotBefore(s: State, ls: seq<Label>, c: nat, at: int)
    requires Consistent(s) && Valid(s, ls) && AskedIn(s.db, c, at)
    ensures forall i | 0 <= i < |ClaimTimes(s, ls, c)| :: at <= ClaimTimes(s, ls, c)[i]
    decreases |ls|
  {
    hide Consistent, Extends, Enabled, Apply, AskedIn, ClaimsAnswer;
    if ls != [] {
      StepConsistent(s, ls[0]);
      AskedForever(s.db, Apply(s, ls[0]).db, c, at);
      ClaimsNotBefore(Apply(s, ls[0]), ls[1..], c, at);
      if ClaimsAnswer(s, ls[0], c) { ClaimIsNewest(s, ls[0], c, at); }
    }
  }

  /** Reply order: in each conversation the claims that pass occur in nondecreasing order of the time
      their question was asked, whatever the interleaving, the retries and the modes. */
  lemma {:induction false} ReplyOrder(s: State, ls: seq<Label>, c: nat)
    requires Consistent(s) && Valid(s, ls)
    ensures forall i, j | 0 <= i < j < |ClaimTimes(s, ls, c)| ::
              ClaimTimes(s, ls, c)[i] <= ClaimTimes(s, ls, c)[j]
    decreases |ls|
  {
    hide Consistent, Extends, Enabled, Apply, AskedIn, ClaimsAnswer;
    if ls != [] {
      StepConsistent(s, ls[0]);
      var rest := ClaimTimes(Apply(s, ls[0]), ls[1..], c);
      ReplyOrder(Apply(s, ls[0]), ls[1..], c);
      if ClaimsAnswer(s, ls[0], c) {
        var at := AskedAt(s, ls[0], c);
        ClaimIsNewest(s, ls[0], c, at);
        AskedForever(s.db, Apply(s, ls[0]).db, c, at);
        ClaimsNotBefore(Apply(s, ls[0]), ls[1..], c, at);
        assert ClaimTimes(s, ls, c) == [at] + rest;
      } else {
        assert ClaimTimes(s, ls, c) == rest;
      }
    }
  }

  // ---------- accounting ----------

  function Attempts(db: Db, o: nat): nat {
    if o < |db.outputs| then db.outputs[o].attempts else 0
  }

  function ClaimCount(s: State, ls: seq<Label>, o: nat): nat
    requires Valid(s, ls)
    decreases |ls|
  {
    if ls == [] then 0
    else (if Claims(s, ls[0], o) then 1 else 0) + ClaimCount(Apply(s, ls[0]), ls[1..], o)
  }

  lemma RunKeepsOutputs(s: State, l: Label)
    requires Enabled(s, l) && (RunLabel(l) || QueueLabel(l))
    ensures s.db.outputs <= Apply(s, l).db.outputs
  {
  }

  lemma DeliveryAttempts(s: State, l: Label, o: nat)
    requires DeliveryLabel(l) && DeliveryEnabled(s, l)
    ensures Attempts(ApplyDelivery(s, l).db, o) == Attempts(s.db, o) + if Claims(s, l, o) then 1 else 0
  {
  }

  lemma StepAttempts(s: State, l: Label, o: nat)
    requires Consistent(s) && Enabled(s, l)
    ensures Attempts(Apply(s, l).db, o) == Attempts(s.db, o) + if Claims(s, l, o) then 1 else 0
  {
    hide Consistent;
    NewAttemptsZero(s, l);
    if DeliveryLabel(l) {
      DeliveryAttempts(s, l, o);
    } else {
      if IntakeLabel(l) { Questions.IntakeKeepsStatuses(s, l); } else { RunKeepsOutputs(s, l); }
      hide Enabled, Apply;
    }
  }

  lemma NewAttemptsZero(s: State, l: Label)
    requires Consistent(s) && Enabled(s, l)
    ensures forall k | |s.db.outputs| <= k < |Apply(s, l).db.outputs| :: Apply(s, l).db.outputs[k].attempts == 0
  {
    hide Consistent;
    StepConsistent(s, l);
  }

  /** `attempts` is the number of claims, whoever made them. */
  lemma {:induction false} AttemptsCountClaims(s: State, ls: seq<Label>, o: nat)
    requires Consistent(s) && Valid(s, ls)
    ensures Attempts(After(s, ls).db, o) == Attempts(s.db, o) + ClaimCount(s, ls, o)
    decreases |ls|
  {
    hide Consistent, Enabled, Apply, Claims, Attempts;
    if ls != [] {
      StepConsistent(s, ls[0]);
      StepAttempts(s, ls[0], o);
      AttemptsCountClaims(Apply(s, ls[0]), ls[1..], o);
    }
  }

  /** The process holds a claim of output `o` that is not completed yet. */
  predicate HoldsClaim(proc: Proc, jobs: seq<Job>, o: nat) {
    proc.Worker? && Delivering(proc.pos) && proc.job < |jobs| && jobs[proc.job].task == OutputTask(o)
  }

  function Count(procs: seq<Proc>, holds: Proc -> bool): nat {
    if procs == [] then 0
    else Count(procs[..|procs| - 1], holds) + if holds(procs[|procs| - 1]) then 1 else 0
  }

  /** Replacing one process changes the count by that process alone. */
  lemma {:induction false} CountUpdated(procs: seq<Proc>, holds: Proc -> bool, p: nat, proc: Proc)
    requires p < |procs|
    ensures Count(procs[p := proc], holds) + (if holds(procs[p]) then 1 else 0)
            == Count(procs, holds) + if holds(proc) then 1 else 0
  {
    var n := |procs| - 1;
    var after := procs[p := proc];
    if p < n {
      CountUpdated(procs[..n], holds, p, proc);
      assert after[..n] == procs[..n][p := proc];
    } else {
      assert after[..n] == procs[..n];
    }
  }

  lemma CountAdded(procs: seq<Proc>, holds: Proc -> bool, proc: Proc)
    ensures Count(procs + [proc], holds) == Count(procs, holds) + if holds(proc) then 1 else 0
  {
    assert (procs + [proc])[..|procs|] == procs;
  }

  lemma {:induction false} CountSame(procs: seq<Proc>, holds: Proc -> bool, holds': Proc -> bool)
    requires forall p | 0 <= p < |procs| :: holds(procs[p]) == holds'(procs[p])
    ensures Count(procs, holds) == Count(procs, holds')
  {
    if procs != [] { CountSame(procs[..|procs| - 1], holds, holds'); }
  }

  function Holding(jobs: seq<Job>, o: nat): Proc -> bool {
    proc => HoldsClaim(proc, jobs, o)
  }

  /** How many claims of output `o` are not completed yet. */
  function InFlight(procs: seq<Proc>, jobs: seq<Job>, o: nat): nat {
    Count(procs, Holding(jobs, o))
  }

  lemma InFlightUpdated(procs: seq<Proc>, jobs: seq<Job>, o: nat, p: nat, proc: Proc)
    requires p < |procs|
    ensures InFlight(procs[p := proc], jobs, o) + (if HoldsClaim(procs[p], jobs, o) then 1 else 0)
            == InFlight(procs, jobs, o) + if HoldsClaim(proc, jobs, o) then 1 else 0
  {
    CountUpdated(procs, Holding(jobs, o), p, proc);
  }

  lemma InFlightAdded(procs: seq<Proc>, jobs: seq<Job>, o: nat, proc: Proc)
    ensures InFlight(procs + [proc], jobs, o)
            == InFlight(procs, jobs, o) + if HoldsClaim(proc, jobs, o) then 1 else 0
  {
    CountAdded(procs, Holding(jobs, o), proc);
  }

  /** Jobs never change what they are about, so the count does not depend on their progress. */
  lemma InFlightSameJobs(procs: seq<Proc>, before: seq<Job>, after: seq<Job>, o: nat)
    requires JobsGrow(before, after)
    requires forall p | 0 <= p < |procs| && procs[p].Worker? :: procs[p].job < |before|
    ensures InFlight(procs, after, o) == InFlight(procs, before, o)
  {
    CountSame(procs, Holding(after, o), Holding(before, o));
  }

  /** The step kills a process, or throws one out of its handler, while it holds a claim of `o`. */
  predicate Loses(s: State, l: Label, o: nat)
    requires Enabled(s, l)
  {
    (l.Crash? || l.Escape?) && HoldsClaim(s.procs[l.p], s.jobs, o)
  }

  function LostCount(s: State, ls: seq<Label>, o: nat): nat
    requires Valid(s, ls)
    decreases |ls|
  {
    if ls == [] then 0
    else (if Loses(s, ls[0], o) then 1 else 0) + LostCount(Apply(s, ls[0]), ls[1..], o)
  }

  /** A pending output was claimed fewer than the maximum number of times, not counting claims still in
      flight and claims that died. */
  predicate Accounted(s: State, o: nat, lost: nat) {
    o < |s.db.outputs| && s.db.outputs[o].status == Pending ==>
      s.db.outputs[o].attempts + 1 <= s.maxAttempts + InFlight(s.procs, s.jobs, o) + lost
  }

  /** The step is taken by a process that exists already. */
  predicate Moves(l: Label) {
    !l.Receive? && !l.Fetch? && !l.Recover? && !l.StartSweep?
  }

  /** Process `p` moves, keeping its job if it is a worker, and jobs only grow. */
  ghost predicate MovedOne(s: State, s': State, p: nat) {
    && JobsGrow(s.jobs, s'.jobs)
    && p < |s.procs| && |s'.procs| == |s.procs|
    && s'.procs == s.procs[p := s'.procs[p]]
    && (s'.procs[p].Worker? ==> s.procs[p].Worker? && s'.procs[p].job == s.procs[p].job)
  }

  lemma IntakeMoves(s: State, l: Label)
    requires IntakeLabel(l) && IntakeEnabled(s, l) && Moves(l)
    ensures MovedOne(s, ApplyIntake(s, l), l.p)
  {
  }

  lemma RunMovesOne(s: State, l: Label)
    requires RunLabel(l) && RunEnabled(s, l)
    ensures MovedOne(s, ApplyRun(s, l), l.p)
  {
  }

  lemma DeliveryMoves(s: State, l: Label)
    requires DeliveryLabel(l) && DeliveryEnabled(s, l)
    ensures MovedOne(s, ApplyDelivery(s, l), l.p)
  {
  }

  lemma QueueMoves(s: State, l: Label)
    requires QueueLabel(l) && QueueEnabled(s, l) && Moves(l)
    ensures MovedOne(s, ApplyQueue(s, l), l.p)
  {
  }

  /** A moving step changes its own process only, a worker keeps its job, and jobs only grow. */
  lemma StepMoves(s: State, l: Label)
    requires Enabled(s, l) && Moves(l)
    ensures MovedOne(s, Apply(s, l), l.p)
  {
    hide MovedOne;
    if IntakeLabel(l) { IntakeMoves(s, l); }
    else if RunLabel(l) { RunMovesOne(s, l); }
    else if DeliveryLabel(l) { DeliveryMoves(s, l); }
    else { QueueMoves(s, l); }
  }

  /** Any other step adds at most one process, and a new worker stands at the start of its handler. */
  lemma StepSpawns(s: State, l: Label)
    requires Enabled(s, l) && !Moves(l)
    ensures JobsGrow(s.jobs, Apply(s, l).jobs)
    ensures Apply(s, l).procs == s.procs
            || exists proc :: Apply(s, l).procs == s.procs + [proc] && (proc.Worker? ==> proc.pos == Start)
  {
  }

  /** The step completes a delivery of output `o`. */
  predicate Completes(s: State, l: Label, o: nat)
    requires Enabled(s, l)
  {
    (l.CommitSent? || l.CommitDeliveryError?) && TaskOf(s, l.p) == OutputTask(o)
  }

  /** A moving process enters the set of claims in flight by claiming, and leaves it by completing its
      delivery or by dying. */
  ghost predicate HoldMoves(s: State, l: Label, o: nat)
    requires Enabled(s, l) && Moves(l) && l.p < |s.procs| && l.p < |Apply(s, l).procs|
  {
    (if HoldsClaim(Apply(s, l).procs[l.p], s.jobs, o) then 1 else 0)
    + (if Completes(s, l, o) || Loses(s, l, o) then 1 else 0)
    == (if HoldsClaim(s.procs[l.p], s.jobs, o) then 1 else 0) + if Claims(s, l, o) then 1 else 0
  }

  lemma ClaimHeldAtStart(s: State, p: nat, mode: Mode, o: nat)
    requires DeliveryEnabled(s, StartDelivery(p, mode))
    ensures HoldMoves(s, StartDelivery(p, mode), o)
  {
    hide ClaimOutput;
  }

  lemma ClaimHeldAtPost(s: State, l: Label, o: nat)
    requires DeliveryLabel(l) && DeliveryEnabled(s, l) && !l.StartDelivery?
    ensures HoldMoves(s, l, o)
  {
    hide DeliverySent, DeliveryError, TsFree;
  }

  lemma ClaimHeldInDelivery(s: State, l: Label, o: nat)
    requires DeliveryLabel(l) && DeliveryEnabled(s, l)
    ensures HoldMoves(s, l, o)
  {
    hide HoldMoves;
    if l.StartDelivery? { ClaimHeldAtStart(s, l.p, l.mode, o); } else { ClaimHeldAtPost(s, l, o); }
  }

  lemma ClaimHeldInRun(s: State, l: Label, o: nat)
    requires Consistent(s) && RunLabel(l) && RunEnabled(s, l)
    ensures HoldMoves(s, l, o)
  {
    PlacedAt(s, l.p);
  }

  lemma ClaimHeldElsewhere(s: State, l: Label, o: nat)
    requires Consistent(s) && Enabled(s, l) && Moves(l) && (IntakeLabel(l) || QueueLabel(l))
    requires l.p < |s.procs| && l.p < |Apply(s, l).procs|
    ensures HoldMoves(s, l, o)
  {
    PlacedAt(s, l.p);
  }

  lemma ClaimHeld(s: State, l: Label, o: nat)
    requires Consistent(s) && Enabled(s, l) && Moves(l)
    requires l.p < |s.procs| && l.p < |Apply(s, l).procs|
    ensures HoldMoves(s, l, o)
  {
    hide HoldMoves;
    if DeliveryLabel(l) { ClaimHeldInDelivery(s, l, o); }
    else if RunLabel(l) { ClaimHeldInRun(s, l, o); }
    else { ClaimHeldElsewhere(s, l, o); }
  }

  lemma InFlightMoved(s: State, l: Label, o: nat)
    requires Consistent(s) && Enabled(s, l) && Moves(l)
    ensures var s' := Apply(s, l);
            InFlight(s'.procs, s'.jobs, o) + (if Completes(s, l, o) || Loses(s, l, o) then 1 else 0)
            == InFlight(s.procs, s.jobs, o) + if Claims(s, l, o) then 1 else 0
  {
    var s' := Apply(s, l);
    StepMoves(s, l);
    WorkersHaveJobs(s);
    InFlightSameJobs(s.procs, s.jobs, s'.jobs, o);
    ClaimHeld(s, l, o);
    SameHold(s, s', l, o);
    InFlightUpdated(s.procs, s'.jobs, o, l.p, s'.procs[l.p]);
    hide Consistent, JobsGrow, Enabled, Apply, Completes, Loses, Claims, HoldsClaim;
  }

  lemma SpawnsClaimNothing(s: State, l: Label, o: nat)
    requires Enabled(s, l) && !Moves(l)
    ensures !Completes(s, l, o) && !Loses(s, l, o) && !Claims(s, l, o)
  {
    hide Enabled;
  }

  lemma InFlightSpawned(s: State, l: Label, o: nat)
    requires Consistent(s) && Enabled(s, l) && !Moves(l)
    ensures InFlight(Apply(s, l).procs, Apply(s, l).jobs, o) == InFlight(s.procs, s.jobs, o)
  {
    hide Consistent, JobsGrow, Enabled, Apply, InFlight;
    var s' := Apply(s, l);
    StepSpawns(s, l);
    WorkersHaveJobs(s);
    InFlightSameJobs(s.procs, s.jobs, s'.jobs, o);
    if s'.procs != s.procs {
      var proc :| s'.procs == s.procs + [proc] && (proc.Worker? ==> proc.pos == Start);
      InFlightAdded(s.procs, s'.jobs, o, proc);
    }
  }

  lemma InFlightStep(s: State, l: Label, o: nat)
    requires Consistent(s) && Enabled(s, l)
    ensures var s' := Apply(s, l);
            InFlight(s'.procs, s'.jobs, o) + (if Completes(s, l, o) || Loses(s, l, o) then 1 else 0)
            == InFlight(s.procs, s.jobs, o) + if Claims(s, l, o) then 1 else 0
  {
    hide Consistent, Apply, InFlight, Completes, Loses, Claims;
    if Moves(l) {
      InFlightMoved(s, l, o);
    } else {
      InFlightSpawned(s, l, o);
      SpawnsClaimNothing(s, l, o);
    }
  }

  lemma WorkersHaveJobs(s: State)
    requires Consistent(s)
    ensures forall p | 0 <= p < |s.procs| && s.procs[p].Worker? :: s.procs[p].job < |s.jobs|
  {
  }

  lemma SameHold(s: State, s': State, l: Label, o: nat)
    requires Consistent(s) && Enabled(s, l) && Moves(l) && s' == Apply(s, l)
    requires l.p < |s.procs| && l.p < |s'.procs|
    ensures HoldsClaim(s.procs[l.p], s.jobs, o) == HoldsClaim(s.procs[l.p], s'.jobs, o)
    ensures HoldsClaim(s'.procs[l.p], s.jobs, o) == HoldsClaim(s'.procs[l.p], s'.jobs, o)
  {
    StepMoves(s, l);
    WorkersHaveJobs(s);
    hide Consistent, Enabled, Apply;
  }

  lemma CompletionAccounted(s: State, l: Label, o: nat, lost: nat)
    requires Consistent(s) && Enabled(s, l) && Completes(s, l, o)
    ensures Accounted(Apply(s, l), o, lost)
  {
  }

  /** The output is pending as before, and it was there, or it is new and unclaimed. */
  lemma PendingBefore(s: State, l: Label, o: nat)
    requires Consistent(s) && Enabled(s, l)
    requires o < |Apply(s, l).db.outputs| && Apply(s, l).db.outputs[o].status == Pending
    ensures if o < |s.db.outputs| then s.db.outputs[o].status == Pending
            else Apply(s, l).db.outputs[o].attempts == 0
  {
    hide Consistent, Apply;
    StepConsistent(s, l);
    NewAttemptsZero(s, l);
  }

  lemma MaximumKept(s: State, l: Label)
    requires Enabled(s, l)
    ensures Apply(s, l).maxAttempts == s.maxAttempts
  {
  }

  lemma StepAccounted(s: State, l: Label, o: nat, lost: nat)
    requires Consistent(s) && Enabled(s, l) && 1 <= s.maxAttempts && Accounted(s, o, lost)
    ensures Accounted(Apply(s, l), o, lost + if Loses(s, l, o) then 1 else 0)
  {
    if Completes(s, l, o) {
      CompletionAccounted(s, l, o, lost);
    } else {
      hide Consistent, Enabled, Apply, Claims, Loses, Completes, InFlight;
      InFlightStep(s, l, o);
      StepAttempts(s, l, o);
      MaximumKept(s, l);
      var outputs := Apply(s, l).db.outputs;
      if o < |outputs| && outputs[o].status == Pending { PendingBefore(s, l, o); }
    }
  }

  /** Delivery accounting: a pending output has fewer attempts than the maximum plus the claims in
      flight and the claims lost to crashes. */
  lemma {:induction false} PendingAccounted(s: State, ls: seq<Label>, o: nat, lost: nat)
    requires Consistent(s) && Valid(s, ls) && 1 <= s.maxAttempts && Accounted(s, o, lost)
    ensures Accounted(After(s, ls), o, lost + LostCount(s, ls, o))
    decreases |ls|
  {
    hide Consistent, Enabled, Apply, Accounted, Loses;
    if ls != [] {
      StepConsistent(s, ls[0]);
      StepAccounted(s, ls[0], o, lost);
      assert Apply(s, ls[0]).maxAttempts == s.maxAttempts by { RunsConsistent(s, [ls[0]]); }
      PendingAccounted(Apply(s, ls[0]), ls[1..], o, lost + if Loses(s, ls[0], o) then 1 else 0);
    }
  }
}
