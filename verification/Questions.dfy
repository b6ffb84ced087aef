/** What a user can rely on once a question is stored: one reply per answered question, no duplicates
    however often Slack repeats an event, and no stored question that disappears while Cerebro is enabled.
    Which delivered messages get as far as being stored is the subject of `Mentions`. */
module Questions {
  import opened Records
  import opened JobQueue
  import opened Service
  import opened Pipeline
  import opened Tasks
  import opened Integrity
  import opened Protocol

  // ---------- exclusive replies ----------

  predicate ReplyOf(db: Db, o: nat, r: nat) {
    o < |db.outputs| && db.outputs[o].run == r && IsReply(db.outputs[o].kind)
  }

  predicate NoticeOf(db: Db, o: nat, r: nat) {
    o < |db.outputs| && db.outputs[o].run == r && db.outputs[o].kind == ErrorNotice
  }

  lemma RepliesExclusive(db: Db, r: nat)
    requires Sound(db) && r < |db.runs|
    ensures (exists o :: ReplyOf(db, o, r)) <==> db.runs[r].status == Succeeded
    ensures forall o: nat, o': nat | ReplyOf(db, o, r) && ReplyOf(db, o', r) :: o == o'
  {
    if db.runs[r].status == Succeeded {
      assert HasReply(db.outputs, r);
      var o :| 0 <= o < |db.outputs| && db.outputs[o].run == r && IsReply(db.outputs[o].kind);
      assert ReplyOf(db, o, r);
    }
  }

  lemma NoticesExclusive(db: Db, r: nat)
    requires Sound(db) && r < |db.runs|
    ensures (exists o :: NoticeOf(db, o, r)) ==> db.runs[r].status == RunFailed
    ensures forall o: nat, o': nat | NoticeOf(db, o, r) && NoticeOf(db, o', r) :: o == o'
  {
  }

  /** In every reachable state, late workers included: a succeeded run has exactly one reply and no
      error notice, a failed run no reply and at most one error notice, any other run neither. */
  lemma ReplyExclusive(s: State, ls: seq<Label>, r: nat)
    requires Initial(s) && Valid(s, ls) && r < |After(s, ls).db.runs|
    ensures var db := After(s, ls).db;
            && ((exists o :: ReplyOf(db, o, r)) <==> db.runs[r].status == Succeeded)
            && (forall o: nat, o': nat | ReplyOf(db, o, r) && ReplyOf(db, o', r) :: o == o')
            && ((exists o :: NoticeOf(db, o, r)) ==> db.runs[r].status == RunFailed)
            && (forall o: nat, o': nat | NoticeOf(db, o, r) && NoticeOf(db, o', r) :: o == o')
  {
    hide Sound;
    InitialConsistent(s);
    RunsConsistent(s, ls);
    RepliesExclusive(After(s, ls).db, r);
    NoticesExclusive(After(s, ls).db, r);
  }

  // ---------- idempotent intake ----------

  /** In every reachable state a message identity is stored once, every inbound message has exactly
      one run, a (reply message, user) pair has at most one flavor output, and flavor outputs and
      feedback hang on replies of succeeded runs only. */
  lemma IntakeUnique(s: State, ls: seq<Label>)
    requires Initial(s) && Valid(s, ls)
    ensures var db := After(s, ls).db;
            && MessagesUnique(db.messages) && ConversationsUnique(db.convs) && EventsUnique(db.events)
            && (forall m | 0 <= m < |db.messages| && db.messages[m].inbound ::
                  exists r | 0 <= r < |db.runs| ::
                    && db.runs[r].trigger == m
                    && forall r' | 0 <= r' < |db.runs| && db.runs[r'].trigger == m :: r' == r)
            && (forall i, j | 0 <= i < j < |db.outputs| && db.outputs[i].key.FlavorKey? ::
                  db.outputs[j].key != db.outputs[i].key)
            && (forall o | 0 <= o < |db.outputs| && db.outputs[o].kind == FeedbackFlavor ::
                  db.outputs[o].key.FlavorKey?
                  && db.outputs[o].run < |db.runs| && db.runs[db.outputs[o].run].status == Succeeded)
            && (forall f | 0 <= f < |db.feedback| ::
                  db.feedback[f].run < |db.runs| && db.runs[db.feedback[f].run].status == Succeeded)
  {
    InitialConsistent(s);
    RunsConsistent(s, ls);
    var db := After(s, ls).db;
    forall m | 0 <= m < |db.messages| && db.messages[m].inbound
      ensures exists r | 0 <= r < |db.runs| ::
                && db.runs[r].trigger == m
                && forall r' | 0 <= r' < |db.runs| && db.runs[r'].trigger == m :: r' == r
    {
      assert HasRunFor(db.runs, m);
      var r :| 0 <= r < |db.runs| && db.runs[r].trigger == m;
      forall r' | 0 <= r' < |db.runs| && db.runs[r'].trigger == m
        ensures r' == r
      {
      }
    }
    forall o | 0 <= o < |db.outputs|
      ensures KeyFits(db.outputs[o])
    {
    }
  }

  lemma MessageStored(db: Db, e: nat, now: int)
    requires e < |db.events| && db.events[e].payload.MessagePayload?
    requires ProcessMessage(db, e, now).0.events[e].disposition == Processed
    ensures var p := db.events[e].payload;
            HasMessage(ProcessMessage(db, e, now).0.messages, p.channel, p.messageTs)
  {
    var p := db.events[e].payload;
    var once := ProcessMessage(db, e, now).0;
    if !HasMessage(db.messages, p.channel, p.messageTs) {
      assert once.messages[|db.messages|].channel == p.channel && once.messages[|db.messages|].ts == p.messageTs;
    }
  }

  lemma FlavorStored(db: Db, e: nat, mode: Mode)
    requires e < |db.events| && db.events[e].payload.ReactionPayload?
    requires ProcessReaction(db, e, mode).0.events[e].disposition == Processed
    ensures var p := db.events[e].payload;
            WantsFlavor(p, mode) ==>
              HasKey(ProcessReaction(db, e, mode).0.outputs, FlavorKey(p.channel, p.messageTs, p.user))
  {
    var p := db.events[e].payload;
    var key := FlavorKey(p.channel, p.messageTs, p.user);
    var once := ProcessReaction(db, e, mode).0;
    if WantsFlavor(p, mode) && FindReply(db.outputs, p.channel, p.messageTs).Some? && !HasKey(db.outputs, key) {
      assert once.outputs[|db.outputs|].key == key;
    }
  }

  lemma StoredForever(before: Db, after: Db, channel: Channel, ts: Ts, key: OutputKey)
    requires Extends(before, after)
    ensures HasMessage(before.messages, channel, ts) ==> HasMessage(after.messages, channel, ts)
    ensures HasKey(before.outputs, key) ==> HasKey(after.outputs, key)
  {
  }

  lemma ProcessedOnce(db: Db, e: nat, mode: Mode, now: int)
    requires e < |db.events| && !Settled(db.events[e].disposition)
    requires ProcessStoredEvent(db, e, mode, now).0.events[e].disposition == Processed
    ensures mode == ModeOn && !db.events[e].payload.OtherPayload?
    ensures ProcessStoredEvent(db, e, mode, now)
            == if db.events[e].payload.MessagePayload? then ProcessMessage(db, e, now) else ProcessReaction(db, e, mode)
  {
    hide ProcessMessage, ProcessReaction;
  }

  lemma SamePayload(before: Db, after: Db, e: nat)
    requires Extends(before, after) && e < |before.events|
    ensures e < |after.events| && after.events[e].payload == before.events[e].payload
  {
  }

  lemma EventsKept(db: Db, e: nat, mode: Mode, now: int)
    requires e < |db.events|
    ensures var once := ProcessStoredEvent(db, e, mode, now).0;
            |once.events| == |db.events| && once.events[e].payload == db.events[e].payload
  {
  }

  lemma RepeatedEvent(db: Db, e: nat, mode: Mode, now: int)
    requires e < |db.events|
    requires var p := db.events[e].payload;
             && (p.MessagePayload? ==> HasMessage(db.messages, p.channel, p.messageTs))
             && (WantsFlavor(p, mode) ==> HasKey(db.outputs, FlavorKey(p.channel, p.messageTs, p.user)))
    ensures var (again, task) := ProcessStoredEvent(db, e, mode, now);
            task.None? && again.messages == db.messages && again.runs == db.runs && again.outputs == db.outputs
  {
  }

  /** A message or reaction that took effect once has no second effect: whatever happened since, and
      whatever its disposition was set back to, processing it again stores no message, queues no run
      and no output. */
  lemma ReprocessingAddsNothing(db: Db, e: nat, mode: Mode, now: int, later: Db, mode': Mode, now': int)
    requires e < |db.events| && !Settled(db.events[e].disposition)
    requires ProcessStoredEvent(db, e, mode, now).0.events[e].disposition == Processed
    requires Extends(ProcessStoredEvent(db, e, mode, now).0, later)
    ensures var (again, task) := ProcessStoredEvent(later, e, mode', now');
            task.None? && again.messages == later.messages && again.runs == later.runs
            && again.outputs == later.outputs
  {
    hide Extends, ProcessMessage, ProcessReaction, ProcessStoredEvent;
    var once := ProcessStoredEvent(db, e, mode, now).0;
    var p := db.events[e].payload;
    ProcessedOnce(db, e, mode, now);
    EventsKept(db, e, mode, now);
    SamePayload(once, later, e);
    StoredForever(once, later, if p.OtherPayload? then "" else p.channel, if p.OtherPayload? then 0 else p.messageTs,
                  if p.ReactionPayload? then FlavorKey(p.channel, p.messageTs, p.user) else ErrorKey(0));
    if p.MessagePayload? { MessageStored(db, e, now); } else { FlavorStored(db, e, mode); }
    RepeatedEvent(later, e, mode', now');
  }

  /** Feedback follows the last reaction: a stored row of this reaction is active exactly if it was added
      last, an added one is stored, and no other row changes. */
  lemma FeedbackFollowsReaction(db: Db, reply: Output, p: Payload)
    requires p.ReactionPayload? && FeedbackUnique(db.feedback)
    ensures var rows := RecordFeedback(db, reply, p).feedback;
            && (forall f | 0 <= f < |rows| && SameFeedback(rows[f], p.channel, p.messageTs, p.user, p.reaction) ::
                  rows[f].active == p.added)
            && (p.added ==> exists f | 0 <= f < |rows| ::
                              SameFeedback(rows[f], p.channel, p.messageTs, p.user, p.reaction))
            && |db.feedback| <= |rows|
            && (forall f | 0 <= f < |db.feedback|
                           && !SameFeedback(db.feedback[f], p.channel, p.messageTs, p.user, p.reaction) ::
                  rows[f] == db.feedback[f])
  {
    var found := FindFeedback(db.feedback, p.channel, p.messageTs, p.user, p.reaction);
    var rows := RecordFeedback(db, reply, p).feedback;
    if found.Some? {
      assert SameFeedback(rows[found.value], p.channel, p.messageTs, p.user, p.reaction);
    } else if p.added {
      assert SameFeedback(rows[|db.feedback|], p.channel, p.messageTs, p.user, p.reaction);
    }
  }

  /** What a message event does: in an unknown thread without a mention it is ignored and stores nothing;
      otherwise it is processed, and a message seen for the first time is stored once, in the conversation
      of its thread and with its own time, and gets the one queued run that is submitted. */
  lemma MessageTakesEffect(db: Db, e: nat, now: int)
    requires Sound(db) && e < |db.events| && db.events[e].payload.MessagePayload?
    ensures var p := db.events[e].payload;
            var (after, task) := ProcessMessage(db, e, now);
            if !p.mention && FindConversation(db.convs, p.channel, p.threadTs).None?
            then after == SetDisposition(db, e, Ignored) && task.None?
            else
              && after.events[e].disposition == Processed
              && if HasMessage(db.messages, p.channel, p.messageTs)
                 then after.messages == db.messages && after.runs == db.runs && task.None?
                 else exists conv: nat ::
                        && conv < |after.convs| && after.convs[conv] == Conversation(p.channel, p.threadTs)
                        && after.messages == db.messages
                           + [Message(conv, p.channel, p.messageTs, true, if p.at.Some? then p.at.value else now)]
                        && after.runs == db.runs + [Run(conv, |db.messages|, RunQueued)]
                        && task == Some(RunTask(|db.runs|, conv))
  {
  }

  /** A reaction to a flavor or error message is ignored: the message's timestamp is no reply's. */
  lemma ReactionToOtherOutputIgnored(db: Db, e: nat, now: int, o: nat)
    requires Sound(db) && e < |db.events| && !Settled(db.events[e].disposition)
    requires db.events[e].payload.ReactionPayload? && o < |db.outputs|
    requires db.outputs[o].slackTs == Some(db.events[e].payload.messageTs)
    requires !IsReply(db.outputs[o].kind)
    ensures ProcessStoredEvent(db, e, ModeOn, now) == (SetDisposition(db, e, Ignored), None)
  {
    var p := db.events[e].payload;
    assert FindReply(db.outputs, p.channel, p.messageTs).None?;
  }

  // ---------- no question is lost ----------

  predicate LabelEnabled(l: Label) {
    match l
    case ProcessEvent(_, mode, _) => mode == ModeOn
    case StartRun(_, mode) => mode == ModeOn
    case CheckStale(_, mode) => mode == ModeOn
    case StartDelivery(_, mode) => mode == ModeOn
    case Recover(_, mode) => mode == ModeOn
    case _ => true
  }

  /** While the mode stays enabled: a cancelled run or output was superseded by a newer question of its
      conversation, a flavor output is never cancelled, and a failed run told its user. */
  ghost predicate Kept(db: Db) {
    && (forall r | 0 <= r < |db.runs| && db.runs[r].status == RunCancelled :: Superseded(db, r))
    && (forall r | 0 <= r < |db.runs| && db.runs[r].status == RunFailed :: HasErrorNotice(db.outputs, r))
    && (forall o | 0 <= o < |db.outputs| && db.outputs[o].status == DeliveryCancelled ::
          db.outputs[o].kind != FeedbackFlavor && Superseded(db, db.outputs[o].run))
  }

  lemma SupersededForever(before: Db, after: Db, r: nat)
    requires Extends(before, after) && Superseded(before, r)
    ensures Superseded(after, r)
  {
  }

  lemma NoticeForever(before: Db, after: Db, r: nat)
    requires Extends(before, after) && HasErrorNotice(before.outputs, r)
    ensures HasErrorNotice(after.outputs, r)
  {
  }

  /** Only what newly turned cancelled or failed has to be justified; the rest carries over. */
  lemma Carry(before: Db, after: Db)
    requires Kept(before) && Extends(before, after) && Justified(before, after)
    ensures Kept(after)
  {
  }

  /** A failing run gets its notice in the same transaction. */
  lemma FailRunKept(db: Db, r: nat)
    requires Sound(db) && Kept(db)
    ensures Kept(FailRun(db, r, ModeOn).0)
  {
    var after := FailRun(db, r, ModeOn).0;
    FailRunSound(db, r, ModeOn);
    if r < |db.runs| && db.runs[r].status == Running {
      NoOutputYet(db, r);
      assert after.outputs[|db.outputs|].kind == ErrorNotice && after.outputs[|db.outputs|].run == r;
      forall k | 0 <= k < |after.runs| && after.runs[k].status == RunFailed
        ensures HasErrorNotice(after.outputs, k)
      {
        if k != r { NoticeForever(db, after, k); }
      }
      forall k | 0 <= k < |after.runs| && after.runs[k].status == RunCancelled
        ensures Superseded(after, k)
      {
        SupersededForever(db, after, k);
      }
      forall o | 0 <= o < |after.outputs| && after.outputs[o].status == DeliveryCancelled
        ensures after.outputs[o].kind != FeedbackFlavor && Superseded(after, after.outputs[o].run)
      {
        assert after.outputs[o] == db.outputs[o];
        SupersededForever(db, after, db.outputs[o].run);
      }
    }
  }

  lemma StepKept(s: State, l: Label)
    requires Consistent(s) && Enabled(s, l) && LabelEnabled(l) && Kept(s.db)
    ensures Kept(Apply(s, l).db)
  {
    hide Kept, Sound, Extends, Consistent, Superseded;
    var s' := Apply(s, l);
    StepConsistent(s, l);
    ConsistentSound(s);
    if l.CommitFailure? {
      FailRunKept(s.db, TaskOf(s, l.p).run);
    } else if l.Recover? {
      if s.jobs[l.job].task.RunTask? { FailRunKept(s.db, s.jobs[l.job].task.run); }
    } else {
      StepJustified(s, l);
      Carry(s.db, s'.db);
    }
  }

  lemma ConsistentSound(s: State)
    requires Consistent(s)
    ensures Sound(s.db)
  {
  }

  /** What newly turned cancelled is superseded, and nothing newly turned failed. */
  ghost predicate Justified(before: Db, after: Db) {
    && |before.runs| <= |after.runs| && |before.outputs| <= |after.outputs|
    && (forall r | 0 <= r < |before.runs| && after.runs[r].status != before.runs[r].status ::
          && (after.runs[r].status == RunCancelled ==> Superseded(after, r))
          && after.runs[r].status != RunFailed)
    && (forall o | 0 <= o < |before.outputs| && after.outputs[o].status != before.outputs[o].status
                   && after.outputs[o].status == DeliveryCancelled ::
          after.outputs[o].kind != FeedbackFlavor && Superseded(after, after.outputs[o].run))
  }

  lemma ClaimRunJustified(db: Db, r: nat)
    ensures Justified(db, ClaimRun(db, r, ModeOn).0) && Justified(db, CancelIfStale(db, r, ModeOn).0)
  {
  }

  lemma CompleteRunJustified(db: Db, r: nat, kind: OutputKind)
    ensures Justified(db, CompleteRun(db, r, kind).0)
  {
  }

  lemma DeliveryJustified(db: Db, o: nat, ts: Ts, now: int, maxAttempts: nat)
    ensures Justified(db, ClaimOutput(db, o, ModeOn).0)
    ensures Justified(db, DeliverySent(db, o, ts, now))
    ensures Justified(db, DeliveryError(db, o, maxAttempts))
  {
    assert ClaimOutput(db, o, ModeOn).0.runs == db.runs && ClaimOutput(db, o, ModeOn).0.messages == db.messages;
  }

  lemma StepJustified(s: State, l: Label)
    requires Enabled(s, l) && LabelEnabled(l) && !l.CommitFailure? && !l.Recover?
    ensures Justified(s.db, Apply(s, l).db)
  {
    hide Justified;
    JustifiedSelf(s.db);
    if IntakeLabel(l) {
      IntakeKeepsStatuses(s, l);
      JustifiedPrefix(s.db, Apply(s, l).db);
    } else if l.StartRun? || l.CheckStale? {
      ClaimRunJustified(s.db, TaskOf(s, l.p).run);
    } else if l.CommitRun? {
      CompleteRunJustified(s.db, TaskOf(s, l.p).run, s.procs[l.p].pos.kind);
    } else if l.StartDelivery? {
      DeliveryJustified(s.db, TaskOf(s, l.p).output, 0, 0, s.maxAttempts);
    } else if l.CommitSent? {
      DeliveryJustified(s.db, TaskOf(s, l.p).output, l.ts, l.now, s.maxAttempts);
    } else if l.CommitDeliveryError? {
      DeliveryJustified(s.db, TaskOf(s, l.p).output, 0, 0, s.maxAttempts);
    }
  }

  lemma JustifiedSelf(db: Db)
    ensures Justified(db, db)
  {
  }

  lemma JustifiedPrefix(before: Db, after: Db)
    requires before.runs <= after.runs && before.outputs <= after.outputs
    ensures Justified(before, after)
  {
  }

  lemma MessageKeepsRows(db: Db, e: nat, now: int)
    requires e < |db.events| && db.events[e].payload.MessagePayload?
    ensures db.runs <= ProcessMessage(db, e, now).0.runs && db.outputs == ProcessMessage(db, e, now).0.outputs
  {
  }

  lemma ReactionKeepsRows(db: Db, e: nat, mode: Mode)
    requires e < |db.events| && db.events[e].payload.ReactionPayload?
    ensures db.runs == ProcessReaction(db, e, mode).0.runs && db.outputs <= ProcessReaction(db, e, mode).0.outputs
  {
  }

  lemma EventKeepsRows(db: Db, e: nat, mode: Mode, now: int)
    ensures var after := ProcessStoredEvent(db, e, mode, now).0;
            db.runs <= after.runs && db.outputs <= after.outputs
  {
    hide ProcessMessage, ProcessReaction;
    if e < |db.events| && !Settled(db.events[e].disposition) && mode == ModeOn {
      match db.events[e].payload
      case MessagePayload(_, _, _, _, _) => MessageKeepsRows(db, e, now);
      case ReactionPayload(_, _, _, _, _) => ReactionKeepsRows(db, e, mode);
      case OtherPayload =>
    }
  }

  lemma IntakeKeepsStatuses(s: State, l: Label)
    requires IntakeLabel(l) && IntakeEnabled(s, l)
    ensures s.db.runs <= ApplyIntake(s, l).db.runs
    ensures s.db.outputs <= ApplyIntake(s, l).db.outputs
  {
    hide ProcessStoredEvent;
    if l.ProcessEvent? { EventKeepsRows(s.db, TaskOf(s, l.p).event, l.mode, l.now); }
  }

  ghost predicate AllEnabled(ls: seq<Label>) {
    forall i | 0 <= i < |ls| :: LabelEnabled(ls[i])
  }

  lemma {:induction false} RunsKept(s: State, ls: seq<Label>)
    requires Consistent(s) && Kept(s.db) && Valid(s, ls) && AllEnabled(ls)
    ensures Consistent(After(s, ls)) && Kept(After(s, ls).db)
    decreases |ls|
  {
    hide Consistent, Kept, Enabled, Apply;
    if ls != [] {
      StepConsistent(s, ls[0]);
      StepKept(s, ls[0]);
      RunsKept(Apply(s, ls[0]), ls[1..]);
    }
  }

  /** While the mode stays enabled, a run is cancelled only because a strictly newer inbound message
      exists in its conversation, and so is the delivery of its answer. */
  lemma CancelledOnlyIfSuperseded(s: State, ls: seq<Label>)
    requires Initial(s) && Valid(s, ls) && AllEnabled(ls)
    ensures var db := After(s, ls).db;
            && (forall r | 0 <= r < |db.runs| && db.runs[r].status == RunCancelled :: Superseded(db, r))
            && (forall o | 0 <= o < |db.outputs| && db.outputs[o].status == DeliveryCancelled ::
                  db.outputs[o].kind != FeedbackFlavor && Superseded(db, db.outputs[o].run))
  {
    InitialConsistent(s);
    RunsKept(s, ls);
  }

  ghost predicate Quiescent(db: Db) {
    && (forall r | 0 <= r < |db.runs| :: Terminal(db.runs[r].status))
    && (forall o | 0 <= o < |db.outputs| :: db.outputs[o].status != Pending)
  }

  /** The message is an inbound one and no inbound message of its conversation is newer. */
  ghost predicate Newest(db: Db, m: nat) {
    m < |db.messages| && db.messages[m].inbound
    && !NewerInbound(db.messages, db.messages[m].conv, db.messages[m].at)
  }

  /** The message's run succeeded or failed, and its one answer was sent or given up on. */
  ghost predicate Answered(db: Db, m: nat) {
    exists r, o | 0 <= r < |db.runs| && 0 <= o < |db.outputs| ::
      && db.runs[r].trigger == m
      && (db.runs[r].status == Succeeded || db.runs[r].status == RunFailed)
      && db.outputs[o].run == r && db.outputs[o].kind != FeedbackFlavor
      && (db.outputs[o].status == Sent || db.outputs[o].status == DeliveryFailed)
      && forall o' | 0 <= o' < |db.outputs| && db.outputs[o'].run == r
                     && db.outputs[o'].kind != FeedbackFlavor :: o' == o
  }

  lemma NewestAnswered(db: Db, m: nat)
    requires Sound(db) && Kept(db) && Quiescent(db) && Newest(db, m)
    ensures Answered(db, m)
  {
  }

  /** No stored question is lost: while the mode stays enabled, whenever nothing is left to run or deliver,
      the newest inbound message of every conversation has its answer. */
  lemma NoQuestionLost(s: State, ls: seq<Label>, m: nat)
    requires Initial(s) && Valid(s, ls) && AllEnabled(ls)
    requires Quiescent(After(s, ls).db) && Newest(After(s, ls).db, m)
    ensures Answered(After(s, ls).db, m)
  {
    InitialConsistent(s);
    RunsKept(s, ls);
    NewestAnswered(After(s, ls).db, m);
  }
}
