/** Draining: every step of a worker brings the protocol closer to rest, and a recovery tick leaves no
    pending row without somebody to work on it. */
module Draining {
  import opened Records
  import opened JobQueue
  import opened Service
  import opened Pipeline
  import opened Tasks
  import opened Integrity
  import opened Protocol
  import opened Deliveries
  import opened FailStop
  import Questions

  // ---------- the weight of what is pending ----------

  function OutputWeight(output: Output, max: nat): nat {
    if output.status != Pending then 0
    else if output.attempts < max then 1 + (max - output.attempts) else 1
  }

  function RunWeight(run: Run, max: nat): nat {
    if Terminal(run.status) then 0 else 2 + max
  }

  function EventWeight(event: Event, max: nat): nat {
    if Settled(event.disposition) then 0 else 3 + max
  }

  /** A listener that is not done yet may still set its event back once. */
  function ProcWeight(proc: Proc, max: nat): nat {
    if proc.Receiver? then 4 + max else 0
  }

  function Sum<T>(rows: seq<T>, weight: T -> nat): nat {
    if rows == [] then 0 else Sum(rows[..|rows| - 1], weight) + weight(rows[|rows| - 1])
  }

  lemma {:induction false} SumUpdated<T>(rows: seq<T>, weight: T -> nat, i: nat, row: T)
    requires i < |rows|
    ensures Sum(rows[i := row], weight) + weight(rows[i]) == Sum(rows, weight) + weight(row)
  {
    var n := |rows| - 1;
    if i < n {
      SumUpdated(rows[..n], weight, i, row);
      assert rows[i := row][..n] == rows[..n][i := row];
    } else {
      assert rows[i := row][..n] == rows[..n];
    }
  }

  lemma SumAdded<T>(rows: seq<T>, weight: T -> nat, row: T)
    ensures Sum(rows + [row], weight) == Sum(rows, weight) + weight(row)
  {
    assert (rows + [row])[..|rows|] == rows;
  }

  function EventWeigher(max: nat): Event -> nat { event => EventWeight(event, max) }
  function RunWeigher(max: nat): Run -> nat { run => RunWeight(run, max) }
  function OutputWeigher(max: nat): Output -> nat { output => OutputWeight(output, max) }
  function ProcWeigher(max: nat): Proc -> nat { proc => ProcWeight(proc, max) }

  function DbWeight(db: Db, max: nat): nat {
    Sum(db.events, EventWeigher(max)) + Sum(db.runs, RunWeigher(max)) + Sum(db.outputs, OutputWeigher(max))
  }

  /** An event outweighs a run, a run outweighs an output with all its attempts left. */
  function Weight(s: State): nat {
    DbWeight(s.db, s.maxAttempts) + Sum(s.procs, ProcWeigher(s.maxAttempts))
  }

  // ---------- what each transaction does to the weight ----------

  lemma SetDispositionWeight(db: Db, e: nat, d: Disposition, max: nat)
    requires e < |db.events|
    ensures DbWeight(SetDisposition(db, e, d), max) + EventWeight(db.events[e], max)
            == DbWeight(db, max) + EventWeight(db.events[e].(disposition := d), max)
  {
    SumUpdated(db.events, EventWeigher(max), e, db.events[e].(disposition := d));
  }

  lemma UpsertWeight(db: Db, channel: Channel, threadTs: Ts, create: bool, max: nat)
    ensures var upserted := UpsertConversation(db, channel, threadTs, create).0;
            upserted.events == db.events && DbWeight(upserted, max) == DbWeight(db, max)
  {
  }

  lemma StoreTriggerWeight(db: Db, conv: nat, channel: Channel, ts: Ts, at: int, max: nat)
    ensures var stored := StoreTrigger(db, conv, channel, ts, at).0;
            stored.events == db.events && DbWeight(stored, max) <= DbWeight(db, max) + 2 + max
  {
    SumAdded(db.runs, RunWeigher(max), Run(conv, |db.messages|, RunQueued));
  }

  lemma ProcessMessageWeight(db: Db, e: nat, now: int, max: nat)
    requires e < |db.events| && db.events[e].payload.MessagePayload? && !Settled(db.events[e].disposition)
    ensures DbWeight(ProcessMessage(db, e, now).0, max) < DbWeight(db, max)
  {
    hide DbWeight, SetDisposition, UpsertConversation, StoreTrigger;
    var p := db.events[e].payload;
    var (upserted, conv) := UpsertConversation(db, p.channel, p.threadTs, p.mention);
    UpsertWeight(db, p.channel, p.threadTs, p.mention, max);
    SetDispositionWeight(upserted, e, Ignored, max);
    if conv.Some? {
      var at := if p.at.Some? then p.at.value else now;
      var stored := StoreTrigger(upserted, conv.value, p.channel, p.messageTs, at).0;
      StoreTriggerWeight(upserted, conv.value, p.channel, p.messageTs, at, max);
      SetDispositionWeight(stored, e, Processed, max);
    }
  }

  lemma RecordFeedbackWeight(db: Db, reply: Output, p: Payload, max: nat)
    requires p.ReactionPayload?
    ensures RecordFeedback(db, reply, p) == db.(feedback := RecordFeedback(db, reply, p).feedback)
    ensures DbWeight(RecordFeedback(db, reply, p), max) == DbWeight(db, max)
  {
  }

  lemma NewOutputWeight(db: Db, flavor: Output, max: nat)
    requires flavor.status == Pending && flavor.attempts == 0
    ensures InsertOutput(db, flavor).0.events == db.events
    ensures DbWeight(InsertOutput(db, flavor).0, max) <= DbWeight(db, max) + 1 + max
  {
    SumAdded(db.outputs, OutputWeigher(max), flavor);
  }

  lemma ProcessReactionWeight(db: Db, e: nat, mode: Mode, max: nat)
    requires e < |db.events| && db.events[e].payload.ReactionPayload? && !Settled(db.events[e].disposition)
    ensures DbWeight(ProcessReaction(db, e, mode).0, max) < DbWeight(db, max)
  {
    hide DbWeight, RecordFeedback, InsertOutput, SetDisposition, WantsFlavor;
    var p := db.events[e].payload;
    SetDispositionWeight(db, e, Ignored, max);
    match FindReply(db.outputs, p.channel, p.messageTs)
    case None =>
    case Some(o) =>
      var recorded := RecordFeedback(db, db.outputs[o], p);
      var flavor := FlavorOutput(db.outputs[o], p);
      var flavored := if WantsFlavor(p, mode) then InsertOutput(recorded, flavor).0 else recorded;
      RecordFeedbackWeight(db, db.outputs[o], p, max);
      NewOutputWeight(recorded, flavor, max);
      SetDispositionWeight(flavored, e, Processed, max);
  }

  lemma ProcessEventWeight(db: Db, e: nat, mode: Mode, now: int, max: nat)
    ensures var after := ProcessStoredEvent(db, e, mode, now).0;
            if e < |db.events| && !Settled(db.events[e].disposition)
            then DbWeight(after, max) < DbWeight(db, max)
            else after == db && ProcessStoredEvent(db, e, mode, now).1 == None
  {
    hide ProcessMessage, ProcessReaction, DbWeight;
    if e < |db.events| && !Settled(db.events[e].disposition) {
      SetDispositionWeight(db, e, Ignored, max);
      if mode == ModeOn {
        match db.events[e].payload
        case MessagePayload(_, _, _, _, _) => ProcessMessageWeight(db, e, now, max);
        case ReactionPayload(_, _, _, _, _) => ProcessReactionWeight(db, e, mode, max);
        case OtherPayload =>
      }
    }
  }

  lemma SetStatusWeight(db: Db, r: nat, status: RunStatus, max: nat)
    requires r < |db.runs|
    ensures DbWeight(SetStatus(db, r, status), max) + RunWeight(db.runs[r], max)
            == DbWeight(db, max) + RunWeight(db.runs[r].(status := status), max)
  {
    SumUpdated(db.runs, RunWeigher(max), r, db.runs[r].(status := status));
  }

  lemma ClaimRunWeight(db: Db, r: nat, mode: Mode, max: nat)
    ensures var (after, started) := ClaimRun(db, r, mode);
            if r < |db.runs| && db.runs[r].status == RunQueued && !started
            then DbWeight(after, max) < DbWeight(db, max) else DbWeight(after, max) == DbWeight(db, max)
    ensures DbWeight(CancelIfStale(db, r, mode).0, max) <= DbWeight(db, max)
  {
    hide DbWeight;
    if r < |db.runs| {
      SetStatusWeight(db, r, RunCancelled, max);
      SetStatusWeight(db, r, Running, max);
    }
  }

  lemma FinalizeWeight(db: Db, r: nat, kind: OutputKind, mode: Mode, max: nat)
    ensures if r < |db.runs| && db.runs[r].status == Running
            then DbWeight(CompleteRun(db, r, kind).0, max) < DbWeight(db, max)
                 && DbWeight(FailRun(db, r, mode).0, max) < DbWeight(db, max)
            else CompleteRun(db, r, kind) == (db, None) && FailRun(db, r, mode) == (db, None)
  {
    hide DbWeight;
    if r < |db.runs| && db.runs[r].status == Running {
      SetStatusWeight(db, r, Succeeded, max);
      SetStatusWeight(db, r, RunFailed, max);
      NewOutputWeight(SetStatus(db, r, Succeeded), RunOutput(db, r, ReplyKey(r, kind), kind), max);
      NewOutputWeight(SetStatus(db, r, RunFailed), RunOutput(db, r, ErrorKey(r), ErrorNotice), max);
    }
  }

  /** A passing claim that spends no remaining attempt leaves the weight; any other claim lowers it. */
  lemma ClaimOutputWeight(db: Db, o: nat, mode: Mode, max: nat)
    ensures var (after, post) := ClaimOutput(db, o, mode);
            if o < |db.outputs| && db.outputs[o].status == Pending && (!post || db.outputs[o].attempts < max)
            then DbWeight(after, max) < DbWeight(db, max) else DbWeight(after, max) == DbWeight(db, max)
  {
    var after := ClaimOutput(db, o, mode).0;
    if after != db {
      SumUpdated(db.outputs, OutputWeigher(max), o, after.outputs[o]);
    }
  }

  lemma DeliverySentWeight(db: Db, o: nat, ts: Ts, now: int, max: nat)
    ensures if o < |db.outputs| && db.outputs[o].status == Pending
            then DbWeight(DeliverySent(db, o, ts, now), max) < DbWeight(db, max)
            else DbWeight(DeliverySent(db, o, ts, now), max) == DbWeight(db, max)
  {
    var after := DeliverySent(db, o, ts, now);
    if after != db {
      SumUpdated(db.outputs, OutputWeigher(max), o, after.outputs[o]);
    }
  }

  lemma DeliveryErrorWeight(db: Db, o: nat, max: nat)
    ensures if o < |db.outputs| && db.outputs[o].status == Pending && db.outputs[o].attempts >= max
            then DbWeight(DeliveryError(db, o, max), max) < DbWeight(db, max)
            else DbWeight(DeliveryError(db, o, max), max) == DbWeight(db, max)
  {
    var after := DeliveryError(db, o, max);
    if after != db {
      SumUpdated(db.outputs, OutputWeigher(max), o, after.outputs[o]);
    }
  }

  // ---------- every worker step comes closer to rest ----------

  function JobLoad(job: Job): nat {
    if job.status == Todo then 9 else 0
  }

  function PositionLoad(pos: Position): nat {
    match pos
    case Start => 8
    case Gate => 6
    case Investigating => 5
    case FinalGate(_) => 4
    case Committing(_) => 3
    case Posting => 3
    case ToEnqueue(_) => 11
    case Done => 1
    case _ => 2
  }

  function ProcLoad(proc: Proc): nat {
    match proc
    case Receiver(_, stage) => if stage == ToDefer then 14 else if stage == ToRead then 3 else 2
    case Worker(_, pos) => PositionLoad(pos)
    case Release(_) => 1
    case Sweep(tasks) => 1 + 10 * |tasks|
    case Gone => 0
  }

  function JobLoader(): Job -> nat { job => JobLoad(job) }
  function ProcLoader(): Proc -> nat { proc => ProcLoad(proc) }

  function Load(s: State): nat {
    Sum(s.jobs, JobLoader()) + Sum(s.procs, ProcLoader())
  }

  /** What is pending counts ten times the steps that are under way. */
  function Rank(s: State): nat {
    10 * Weight(s) + Load(s)
  }

  /** The step needs no new event and no tick of the recovery job. */
  predicate Internal(l: Label) {
    !l.Receive? && !l.Recover? && !l.StartSweep?
  }

  predicate Closer(s: State, s': State) {
    (Weight(s') < Weight(s) && Load(s') <= Load(s) + 9) || (Weight(s') <= Weight(s) && Load(s') < Load(s))
  }

  /** One process moves: the sums change by its own row. */
  lemma Moved(s: State, db: Db, jobs: seq<Job>, p: nat, proc: Proc)
    requires p < |s.procs|
    ensures var s' := s.(db := db, jobs := jobs, procs := s.procs[p := proc]);
            && Weight(s') + ProcWeight(s.procs[p], s.maxAttempts) + DbWeight(s.db, s.maxAttempts)
               == Weight(s) + ProcWeight(proc, s.maxAttempts) + DbWeight(db, s.maxAttempts)
            && Load(s') + ProcLoad(s.procs[p]) + Sum(s.jobs, JobLoader())
               == Load(s) + ProcLoad(proc) + Sum(jobs, JobLoader())
  {
    SumUpdated(s.procs, ProcWeigher(s.maxAttempts), p, proc);
    SumUpdated(s.procs, ProcLoader(), p, proc);
  }

  lemma EnqueueLoad(jobs: seq<Job>, task: Task)
    ensures Sum(Enqueue(jobs, task), JobLoader()) <= Sum(jobs, JobLoader()) + 9
  {
    SumAdded(jobs, JobLoader(), Job(task, Todo));
  }

  lemma FinishLoad(jobs: seq<Job>, j: nat)
    ensures Sum(Finish(jobs, j), JobLoader()) == Sum(jobs, JobLoader())
  {
    if j < |jobs| {
      SumUpdated(jobs, JobLoader(), j, jobs[j].(status := Finished));
    }
  }

  /** A worker that moves and takes the database along comes closer when the two weights say so. */
  lemma WorkerCloser(s: State, db: Db, p: nat, pos: Position)
    requires WorkerIn(s, p)
    requires (DbWeight(db, s.maxAttempts) < DbWeight(s.db, s.maxAttempts)
              && PositionLoad(pos) <= PositionLoad(s.procs[p].pos) + 9)
             || (DbWeight(db, s.maxAttempts) <= DbWeight(s.db, s.maxAttempts)
                 && PositionLoad(pos) < PositionLoad(s.procs[p].pos))
    ensures Closer(s, Move(s.(db := db), p, pos))
  {
    hide DbWeight, Sum;
    Moved(s, db, s.jobs, p, Worker(s.procs[p].job, pos));
  }

  lemma DeferCloser(s: State, p: nat)
    requires ReceiverAt(s, p, ToDefer)
    ensures Closer(s, ApplyIntake(s, ReceiverDefer(p)))
  {
    hide DbWeight, Enqueue, Sum, Weight, Load;
    var e := s.procs[p].event;
    EnqueueLoad(s.jobs, EventTask(e));
    Moved(s, s.db, s.jobs, p, Gone);
    Moved(s, s.db, Enqueue(s.jobs, EventTask(e)), p, Receiver(e, ToRead));
  }

  lemma WriteCloser(s: State, p: nat)
    requires ReceiverAt(s, p, ToWrite) && s.procs[p].event < |s.db.events|
    ensures var s' := ApplyIntake(s, ReceiverWrite(p));
            Weight(s') < Weight(s) && Load(s') <= Load(s)
  {
    hide DbWeight, SetDisposition, Sum, Weight, Load;
    var e := s.procs[p].event;
    SetDispositionWeight(s.db, e, Queued, s.maxAttempts);
    Moved(s, SetDisposition(s.db, e, Queued), s.jobs, p, Gone);
  }

  lemma ReadCloser(s: State, p: nat)
    requires ReceiverAt(s, p, ToRead) && s.procs[p].event < |s.db.events|
    ensures Closer(s, ApplyIntake(s, ReceiverRead(p)))
  {
    hide DbWeight, Sum, Weight, Load;
    Moved(s, s.db, s.jobs, p, Gone);
    Moved(s, s.db, s.jobs, p, Receiver(s.procs[p].event, ToWrite));
  }

  lemma ReceiverCloser(s: State, l: Label)
    requires Consistent(s) && (l.ReceiverDefer? || l.ReceiverRead? || l.ReceiverWrite?) && IntakeEnabled(s, l)
    ensures Closer(s, ApplyIntake(s, l))
  {
    PlacedAt(s, l.p);
    hide Consistent, Weight, Load;
    if l.ReceiverDefer? {
      DeferCloser(s, l.p);
    } else if l.ReceiverWrite? {
      WriteCloser(s, l.p);
    } else {
      ReadCloser(s, l.p);
    }
  }

  lemma IntakeCloser(s: State, l: Label)
    requires Consistent(s) && IntakeLabel(l) && IntakeEnabled(s, l) && FailStopStep(s, l) && Internal(l)
    ensures Closer(s, ApplyIntake(s, l))
  {
    hide Consistent, Closer, DbWeight, ProcessStoredEvent;
    if l.ProcessEvent? {
      var e := TaskOf(s, l.p).event;
      var (db, task) := ProcessStoredEvent(s.db, e, l.mode, l.now);
      ProcessEventWeight(s.db, e, l.mode, l.now, s.maxAttempts);
      WorkerCloser(s, db, l.p, Next(task));
    } else {
      ReceiverCloser(s, l);
    }
  }

  lemma RunCloser(s: State, l: Label)
    requires RunLabel(l) && RunEnabled(s, l)
    ensures Closer(s, ApplyRun(s, l))
  {
    hide Closer, DbWeight, ClaimRun, CancelIfStale, CompleteRun, FailRun;
    match l
    case StartRun(p, mode) =>
      ClaimRunWeight(s.db, TaskOf(s, p).run, mode, s.maxAttempts);
      var (db, started) := ClaimRun(s.db, TaskOf(s, p).run, mode);
      WorkerCloser(s, db, p, if started then Gate else Done);
    case CheckStale(p, mode) =>
      ClaimRunWeight(s.db, TaskOf(s, p).run, mode, s.maxAttempts);
      WorkerCloser(s, CancelIfStale(s.db, TaskOf(s, p).run, mode).0, p, ApplyRun(s, l).procs[p].pos);
    case Investigated(p, kind) => WorkerCloser(s, s.db, p, FinalGate(kind));
    case RunRaises(p) => WorkerCloser(s, s.db, p, RunFailing);
    case CommitRun(p) =>
      FinalizeWeight(s.db, TaskOf(s, p).run, s.procs[p].pos.kind, ModeOn, s.maxAttempts);
      var (db, o) := CompleteRun(s.db, TaskOf(s, p).run, s.procs[p].pos.kind);
      WorkerCloser(s, db, p, NextOutput(o));
    case CommitFailure(p) =>
      FinalizeWeight(s.db, TaskOf(s, p).run, Investigation, ModeOn, s.maxAttempts);
      var (db, o) := FailRun(s.db, TaskOf(s, p).run, ModeOn);
      WorkerCloser(s, db, p, NextOutput(o));
  }

  lemma DeliveryCloser(s: State, l: Label)
    requires DeliveryLabel(l) && DeliveryEnabled(s, l)
    ensures Closer(s, ApplyDelivery(s, l))
  {
    hide DbWeight, ClaimOutput, DeliverySent, DeliveryError, Sum, Weight, Load, Closer, TsFree;
    match l
    case StartDelivery(p, mode) =>
      ClaimOutputWeight(s.db, TaskOf(s, p).output, mode, s.maxAttempts);
      var (db, post) := ClaimOutput(s.db, TaskOf(s, p).output, mode);
      WorkerCloser(s, db, p, if post then Posting else Done);
    case PostAccepted(p) => WorkerCloser(s, s.db, p, Posted);
    case PostRejected(p) => WorkerCloser(s, s.db, p, PostFailed);
    case CommitSent(p, ts, now) =>
      DeliverySentWeight(s.db, TaskOf(s, p).output, ts, now, s.maxAttempts);
      WorkerCloser(s, DeliverySent(s.db, TaskOf(s, p).output, ts, now), p, Done);
    case CommitDeliveryError(p) =>
      DeliveryErrorWeight(s.db, TaskOf(s, p).output, s.maxAttempts);
      WorkerCloser(s, DeliveryError(s.db, TaskOf(s, p).output, s.maxAttempts), p, Done);
  }

  lemma FetchCloser(s: State, j: nat)
    requires QueueEnabled(s, Fetch(j))
    ensures Closer(s, ApplyQueue(s, Fetch(j)))
  {
    hide Sum, DbWeight;
    SumUpdated(s.jobs, JobLoader(), j, s.jobs[j].(status := Doing));
    SumAdded(s.procs, ProcLoader(), Worker(j, Start));
    SumAdded(s.procs, ProcWeigher(s.maxAttempts), Worker(j, Start));
  }

  lemma QueueCloser(s: State, l: Label)
    requires QueueLabel(l) && QueueEnabled(s, l) && Internal(l)
    ensures Closer(s, ApplyQueue(s, l))
  {
    hide Sum, Enqueue, DbWeight, Weight, Load, Finish;
    if l.Fetch? {
      FetchCloser(s, l.job);
    } else {
      var s' := ApplyQueue(s, l);
      Moved(s, s.db, s'.jobs, l.p, s'.procs[l.p]);
      if l.EnqueueNext? {
        EnqueueLoad(s.jobs, s.procs[l.p].pos.task);
      } else if l.SweepNext? {
        if s.procs[l.p].tasks != [] { EnqueueLoad(s.jobs, s.procs[l.p].tasks[0]); }
      } else if l.FinishJob? || l.Escape? {
        FinishLoad(s.jobs, s.procs[l.p].job);
      } else if l.ReleaseJob? {
        FinishLoad(s.jobs, s.procs[l.p].released);
      }
    }
  }

  /** Every internal fail-stop step, a crash included, lowers the rank and never adds to the weight. */
  lemma StepCloser(s: State, l: Label)
    requires Consistent(s) && FailStopStep(s, l) && Internal(l)
    ensures Rank(Apply(s, l)) < Rank(s) && Weight(Apply(s, l)) <= Weight(s)
  {
    hide Consistent, Weight, Load;
    if IntakeLabel(l) { IntakeCloser(s, l); }
    else if RunLabel(l) { RunCloser(s, l); }
    else if DeliveryLabel(l) { DeliveryCloser(s, l); }
    else { QueueCloser(s, l); }
  }

  predicate InternalRun(s: State, ls: seq<Label>): (r: bool)
    ensures r ==> FailStopRun(s, ls)
    decreases |ls|
  {
    ls == [] || (FailStopStep(s, ls[0]) && Internal(ls[0]) && InternalRun(Apply(s, ls[0]), ls[1..]))
  }

  /** Without new events and without ticks the workers come to rest: no internal run is longer than the
      rank of the state it starts in. */
  lemma {:induction false} InternalRunsEnd(s: State, ls: seq<Label>)
    requires Orderly(s) && InternalRun(s, ls)
    ensures Valid(s, ls)
    ensures |ls| + Rank(After(s, ls)) <= Rank(s) && Weight(After(s, ls)) <= Weight(s)
    decreases |ls|
  {
    hide Rank, Weight, Enabled, Apply;
    if ls != [] {
      assert Consistent(s);
      StepCloser(s, ls[0]);
      OrderlyStep(s, ls[0]);
      hide Orderly;
      InternalRunsEnd(Apply(s, ls[0]), ls[1..]);
    }
  }
}
