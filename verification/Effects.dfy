/** What each step of a worker does to its rows, said of the state before and after it: when an
    investigation starts, stops and ends, and when a delivery is claimed and how it ends. */
module Effects {
  import opened Records
  import opened JobQueue
  import opened Service
  import opened Pipeline
  import opened Tasks
  import opened Integrity
  import opened Protocol
  import opened Addresses

  /** The worker stands at `pos` in the second state. */
  predicate GoesTo(s: State, s': State, p: nat, pos: Position) {
    WorkerIn(s, p) && s'.jobs == s.jobs && s'.procs == s.procs[p := Worker(s.procs[p].job, pos)]
  }

  function WithRun(db: Db, r: nat, status: RunStatus): Db
    requires r < |db.runs|
  {
    db.(runs := db.runs[r := Run(db.runs[r].conv, db.runs[r].trigger, status)])
  }

  predicate Open(db: Db, r: nat) {
    RunIs(db, r, RunQueued) || RunIs(db, r, Running)
  }

  lemma TriggerKnown(s: State, r: nat)
    requires Consistent(s) && r < |s.db.runs|
    ensures s.db.runs[r].trigger < |s.db.messages|
    ensures Superseded(s.db, r) <==> Outdated(s.db, s.db.runs[r].conv, s.db.runs[r].trigger)
  {
  }

  /** A queued run starts exactly if it is wanted, and is cancelled otherwise; any other run is left alone,
      and its worker is done. */
  lemma StartDecides(s: State, p: nat, mode: Mode)
    requires Consistent(s) && RunEnabled(s, StartRun(p, mode))
    ensures var r := TaskOf(s, p).run;
            var s' := ApplyRun(s, StartRun(p, mode));
            if !RunIs(s.db, r, RunQueued) then s'.db == s.db && GoesTo(s, s', p, Done)
            else if Wanted(s.db, r, mode) then s'.db == WithRun(s.db, r, Running) && GoesTo(s, s', p, Gate)
            else s'.db == WithRun(s.db, r, RunCancelled) && GoesTo(s, s', p, Done)
  {
    var r := TaskOf(s, p).run;
    if r < |s.db.runs| { TriggerKnown(s, r); }
    hide Consistent, Superseded, Outdated;
  }

  /** Before and after the investigation the worker goes on exactly if its run is open and still wanted; an
      open run that is not wanted any more is cancelled. */
  lemma CheckDecides(s: State, p: nat, mode: Mode)
    requires Consistent(s) && RunEnabled(s, CheckStale(p, mode))
    ensures var r := TaskOf(s, p).run;
            var s' := ApplyRun(s, CheckStale(p, mode));
            if !Open(s.db, r) then s'.db == s.db && GoesTo(s, s', p, Done)
            else if Wanted(s.db, r, mode)
            then s'.db == s.db && GoesTo(s, s', p, if s.procs[p].pos == Gate then Investigating
                                                   else Committing(s.procs[p].pos.kind))
            else s'.db == WithRun(s.db, r, RunCancelled) && GoesTo(s, s', p, Done)
  {
    var r := TaskOf(s, p).run;
    if r < |s.db.runs| { TriggerKnown(s, r); }
    hide Consistent, Superseded, Outdated;
  }

  function NewOutput(db: Db, r: nat, key: OutputKey, kind: OutputKind): Output
    requires r < |db.runs| && db.runs[r].conv < |db.convs|
  {
    Output(db.runs[r].conv, r, db.convs[db.runs[r].conv].channel, key, kind, Pending, 0, None)
  }

  lemma ConversationKnown(s: State, r: nat)
    requires Consistent(s) && Addressed(s.db) && r < |s.db.runs|
    ensures s.db.runs[r].conv < |s.db.convs|
  {
    assert s.db.messages[s.db.runs[r].trigger].conv == s.db.runs[r].conv;
  }

  /** A running run whose result is committed succeeds with its one reply, pending and submitted next; a run
      that somebody else ended is left alone. */
  lemma FinishDecides(s: State, p: nat)
    requires Consistent(s) && Addressed(s.db) && RunEnabled(s, CommitRun(p))
    ensures var r, kind := TaskOf(s, p).run, s.procs[p].pos.kind;
            var s' := ApplyRun(s, CommitRun(p));
            if !RunIs(s.db, r, Running) then s'.db == s.db && GoesTo(s, s', p, Done)
            else s.db.runs[r].conv < |s.db.convs|
                 && s'.db == WithRun(s.db, r, Succeeded)
                             .(outputs := s.db.outputs + [NewOutput(s.db, r, ReplyKey(r, kind), kind)])
                 && GoesTo(s, s', p, ToEnqueue(OutputTask(|s.db.outputs|)))
  {
    var r, kind := TaskOf(s, p).run, s.procs[p].pos.kind;
    PlacedAt(s, p);
    if RunIs(s.db, r, Running) {
      ConversationKnown(s, r);
      NoOutputYet(s.db, r);
      KeysFree(s.db, r, kind);
    }
    hide Consistent, Sound, HasKey, Addressed;
  }

  /** A running run whose investigation raised fails with its one notice; any other is left alone. */
  lemma FailureDecides(s: State, p: nat)
    requires Consistent(s) && Addressed(s.db) && RunEnabled(s, CommitFailure(p))
    ensures var r := TaskOf(s, p).run;
            var s' := ApplyRun(s, CommitFailure(p));
            if !RunIs(s.db, r, Running) then s'.db == s.db && GoesTo(s, s', p, Done)
            else s.db.runs[r].conv < |s.db.convs|
                 && s'.db == WithRun(s.db, r, RunFailed)
                             .(outputs := s.db.outputs + [NewOutput(s.db, r, ErrorKey(r), ErrorNotice)])
                 && GoesTo(s, s', p, ToEnqueue(OutputTask(|s.db.outputs|)))
  {
    var r := TaskOf(s, p).run;
    assert Sound(s.db);
    if RunIs(s.db, r, Running) {
      ConversationKnown(s, r);
      NoOutputYet(s.db, r);
      KeysFree(s.db, r, Investigation);
    }
    hide Consistent, Sound, HasKey, Addressed;
  }

  lemma KeysFree(db: Db, r: nat, kind: OutputKind)
    requires Sound(db) && RunIs(db, r, Running) && forall o | 0 <= o < |db.outputs| :: db.outputs[o].run != r
    ensures !HasKey(db.outputs, ReplyKey(r, kind)) && !HasKey(db.outputs, ErrorKey(r))
  {
    forall o | 0 <= o < |db.outputs|
      ensures KeyFits(db.outputs[o])
    {
    }
  }

  /** Releasing a job fails the run it left running, with a notice exactly if Cerebro is enabled. */
  lemma RecoverDecides(s: State, j: nat, mode: Mode)
    requires Consistent(s) && Addressed(s.db) && QueueEnabled(s, Recover(j, mode))
    ensures var task := s.jobs[j].task;
            var s' := ApplyQueue(s, Recover(j, mode));
            && s'.jobs == s.jobs && s'.procs == s.procs + [Release(j)]
            && if !(task.RunTask? && RunIs(s.db, task.run, Running)) then s'.db == s.db
               else s.db.runs[task.run].conv < |s.db.convs|
                    && s'.db == WithRun(s.db, task.run, RunFailed).(outputs := s.db.outputs
                         + if mode == ModeOn then [NewOutput(s.db, task.run, ErrorKey(task.run), ErrorNotice)] else [])
  {
    var task := s.jobs[j].task;
    assert Sound(s.db);
    if task.RunTask? && RunIs(s.db, task.run, Running) {
      ConversationKnown(s, task.run);
      NoOutputYet(s.db, task.run);
      KeysFree(s.db, task.run, Investigation);
    }
    hide Consistent, Sound, HasKey, Addressed;
    assert s.db.outputs + [] == s.db.outputs;
  }

  function WithOutput(db: Db, o: nat, status: DeliveryStatus, attempts: nat, slackTs: Option<Ts>): Db
    requires o < |db.outputs|
  {
    db.(outputs := db.outputs[o := db.outputs[o].(status := status, attempts := attempts, slackTs := slackTs)])
  }

  /** A pending output is claimed, with one more attempt, exactly if it may be posted; otherwise it is
      cancelled with its attempts as they were. Any other output is left alone. */
  lemma DeliveryDecides(s: State, p: nat, mode: Mode)
    requires Consistent(s) && DeliveryEnabled(s, StartDelivery(p, mode))
    ensures var o := TaskOf(s, p).output;
            var s' := ApplyDelivery(s, StartDelivery(p, mode));
            if !OutputIs(s.db, o, Pending) then s'.db == s.db && GoesTo(s, s', p, Done)
            else
              var output := s.db.outputs[o];
              if Deliverable(s.db, o, mode)
              then s'.db == WithOutput(s.db, o, Pending, output.attempts + 1, output.slackTs)
                   && GoesTo(s, s', p, Posting)
              else s'.db == WithOutput(s.db, o, DeliveryCancelled, output.attempts, output.slackTs)
                   && GoesTo(s, s', p, Done)
  {
    var o := TaskOf(s, p).output;
    if o < |s.db.outputs| {
      assert Sound(s.db);
      TriggerKnown(s, s.db.outputs[o].run);
    }
    hide Consistent, Superseded, Outdated;
  }

  /** A recorded post makes the output sent, under its timestamp, and stores the message unless its identity
      is known; a recorded failure ends the output exactly when its attempts are used up. */
  lemma RecordDecides(s: State, l: Label)
    requires DeliveryLabel(l) && DeliveryEnabled(s, l)
    requires (l.CommitSent? || l.CommitDeliveryError?) && TaskOf(s, l.p).output < |s.db.outputs|
    ensures var o := TaskOf(s, l.p).output;
            var output := s.db.outputs[o];
            var s' := ApplyDelivery(s, l);
            && GoesTo(s, s', l.p, Done)
            && (l.CommitDeliveryError? ==>
                  s'.db == if output.attempts < s.maxAttempts then s.db
                           else WithOutput(s.db, o, DeliveryFailed, output.attempts, output.slackTs))
            && (l.CommitSent? && output.status == Sent ==> s'.db == s.db)
            && (l.CommitSent? && output.status != Sent ==>
                  s'.db == WithOutput(s.db, o, Sent, output.attempts, Some(l.ts))
                           .(messages := if exists m | 0 <= m < |s.db.messages| ::
                                              s.db.messages[m].channel == output.channel && s.db.messages[m].ts == l.ts
                                         then s.db.messages
                                         else s.db.messages
                                              + [Message(output.conv, output.channel, l.ts, false, l.now)]))
  {
    hide TsFree;
  }

  /** What a delivery of an event does: a known identifier changes nothing. A new one is stored once, settled from
      the start if the intake ruled it out, else waiting with one process that goes on to submit it. */
  lemma ReceiveDecides(s: State, slackId: string, payload: Payload, ignored: bool)
    ensures var s' := ApplyIntake(s, Receive(slackId, payload, ignored));
            var e := |s.db.events|;
            if exists k | 0 <= k < e :: s.db.events[k].slackId == slackId then s' == s
            else
              && s'.db == s.db.(events := s.db.events + [Event(slackId, payload, s'.db.events[e].disposition)])
              && (ignored ==> s'.db.events[e].disposition == Ignored && s'.procs == s.procs)
              && (!ignored ==> s'.db.events[e].disposition == Received
                               && s'.procs == s.procs + [Receiver(e, ToDefer)])
              && s'.jobs == s.jobs
  {
  }

  /** The task has a job to do. */
  predicate JobWaits(jobs: seq<Job>, task: Task) {
    exists j | 0 <= j < |jobs| :: jobs[j].status == Todo && QueueingLockOf(jobs[j].task) == QueueingLockOf(task)
  }

  /** After its transaction the worker of an event goes on to submit what the event asks for, and is done if that
      is nothing. */
  lemma EventSubmits(s: State, p: nat, mode: Mode, now: int)
    requires IntakeEnabled(s, ProcessEvent(p, mode, now))
    ensures var (db, task) := ProcessStoredEvent(s.db, TaskOf(s, p).event, mode, now);
            var s' := ApplyIntake(s, ProcessEvent(p, mode, now));
            && s'.db == db
            && (task.Some? ==> GoesTo(s, s', p, ToEnqueue(task.value)))
            && (task.None? ==> GoesTo(s, s', p, Done))
  {
  }

  /** Whoever submits a task, the process that stored its event included, leaves it with a job to do, and adds at
      most that one job. */
  lemma SubmitDecides(s: State, l: Label)
    requires Enabled(s, l)
    requires l.ReceiverDefer? || l.EnqueueNext? || (l.SweepNext? && s.procs[l.p].tasks != [])
    ensures var task := if l.ReceiverDefer? then EventTask(s.procs[l.p].event)
                        else if l.EnqueueNext? then s.procs[l.p].pos.task else s.procs[l.p].tasks[0];
            var s' := Apply(s, l);
            && s'.db == s.db && JobWaits(s'.jobs, task)
            && (s'.jobs == s.jobs || s'.jobs == s.jobs + [Job(task, Todo)])
  {
    var s' := Apply(s, l);
    if s'.jobs != s.jobs { assert s'.jobs[|s.jobs|].status == Todo; }
  }

  /** A disabled process settles an event without any other effect. */
  lemma DisabledEventIgnored(s: State, p: nat, now: int)
    requires IntakeEnabled(s, ProcessEvent(p, ModeOff, now)) && TaskOf(s, p).event < |s.db.events|
    ensures var e := TaskOf(s, p).event;
            var s' := ApplyIntake(s, ProcessEvent(p, ModeOff, now));
            && GoesTo(s, s', p, Done)
            && s'.db == if s.db.events[e].disposition == Processed || s.db.events[e].disposition == Ignored then s.db
                        else s.db.(events := s.db.events[e := s.db.events[e].(disposition := Ignored)])
  {
  }

  /** An event that is neither a message nor a reaction is settled without any other effect. */
  lemma OtherEventIgnored(db: Db, e: nat, now: int)
    requires e < |db.events| && db.events[e].payload.OtherPayload?
    requires db.events[e].disposition != Processed && db.events[e].disposition != Ignored
    ensures ProcessStoredEvent(db, e, ModeOn, now)
            == (db.(events := db.events[e := db.events[e].(disposition := Ignored)]), None)
  {
  }

  /** What a reaction does: without a posted reply where it points it is ignored and changes nothing else.
      Otherwise it is processed, and a flavor output is added and submitted exactly if an electric plug was
      added and this user has none on this reply yet. */
  lemma ReactionTakesEffect(db: Db, e: nat, now: int)
    requires e < |db.events| && db.events[e].payload.ReactionPayload?
    requires db.events[e].disposition != Processed && db.events[e].disposition != Ignored
    ensures var p := db.events[e].payload;
            var (after, task) := ProcessStoredEvent(db, e, ModeOn, now);
            && after.messages == db.messages && after.runs == db.runs && after.convs == db.convs
            && if forall o | 0 <= o < |db.outputs| ::
                    !(db.outputs[o].channel == p.channel && db.outputs[o].slackTs == Some(p.messageTs)
                      && (db.outputs[o].kind == Investigation || db.outputs[o].kind == GeneralReply))
               then after == db.(events := db.events[e := db.events[e].(disposition := Ignored)]) && task.None?
               else
                 && after.events == db.events[e := db.events[e].(disposition := Processed)]
                 && var key := FlavorKey(p.channel, p.messageTs, p.user);
                    if && p.added && p.reaction == ElectricPlug
                       && forall o | 0 <= o < |db.outputs| :: db.outputs[o].key != key
                    then && |after.outputs| == |db.outputs| + 1 && db.outputs <= after.outputs
                         && task == Some(OutputTask(|db.outputs|))
                         && var flavor := after.outputs[|db.outputs|];
                            flavor.kind == FeedbackFlavor && flavor.key == key && flavor.status == Pending
                            && flavor.attempts == 0 && flavor.slackTs.None? && flavor.channel == p.channel
                    else after.outputs == db.outputs && task.None?
  {
    var p := db.events[e].payload;
    match FindReply(db.outputs, p.channel, p.messageTs)
    case None =>
      assert forall o | 0 <= o < |db.outputs| :: !IsReplyAt(db.outputs[o], p.channel, p.messageTs);
    case Some(o) =>
      assert IsReplyAt(db.outputs[o], p.channel, p.messageTs);
      FeedbackOnly(db, db.outputs[o], p);
      hide RecordFeedback;
  }

  lemma FeedbackOnly(db: Db, reply: Output, p: Payload)
    requires p.ReactionPayload?
    ensures RecordFeedback(db, reply, p) == db.(feedback := RecordFeedback(db, reply, p).feedback)
  {
  }
}
