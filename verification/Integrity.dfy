/** What every transaction keeps, whoever runs it and in whatever order: the unique keys, the rows
    that go with each other, and the exclusive replies of a run. Nothing here assumes that a worker
    is alive, that its job is still its own, or that events arrive once or in order. */
module Integrity {
  import opened Records
  import opened JobQueue
  import opened Service
  import opened Pipeline

  /** A run answers an inbound message of its own conversation. */
  ghost predicate RunsPlaced(runs: seq<Run>, messages: seq<Message>) {
    forall r | 0 <= r < |runs| ::
      && runs[r].trigger < |messages|
      && messages[runs[r].trigger].inbound
      && messages[runs[r].trigger].conv == runs[r].conv
  }

  ghost predicate OutputsPlaced(runs: seq<Run>, outputs: seq<Output>, rows: seq<Feedback>) {
    && (forall o | 0 <= o < |outputs| ::
          outputs[o].run < |runs| && outputs[o].conv == runs[outputs[o].run].conv)
    && (forall f | 0 <= f < |rows| :: rows[f].run < |runs|)
  }

  ghost predicate EventsUnique(events: seq<Event>) {
    forall i, j | 0 <= i < j < |events| :: events[i].slackId != events[j].slackId
  }

  ghost predicate ConversationsUnique(convs: seq<Conversation>) {
    forall i, j | 0 <= i < j < |convs| :: convs[i] != convs[j]
  }

  ghost predicate MessagesUnique(messages: seq<Message>) {
    forall i, j | 0 <= i < j < |messages| ::
      messages[i].channel != messages[j].channel || messages[i].ts != messages[j].ts
  }

  /** Exactly one run per inbound message. */
  ghost predicate RunsUnique(runs: seq<Run>, messages: seq<Message>) {
    && (forall i, j | 0 <= i < j < |runs| :: runs[i].trigger != runs[j].trigger)
    && (forall m | 0 <= m < |messages| && messages[m].inbound :: HasRunFor(runs, m))
  }

  ghost predicate OutputsUnique(outputs: seq<Output>) {
    && (forall i, j | 0 <= i < j < |outputs| :: outputs[i].key != outputs[j].key)
    && (forall i, j | 0 <= i < j < |outputs| && outputs[i].slackTs.Some? ::
          outputs[i].slackTs != outputs[j].slackTs)
  }

  ghost predicate FeedbackUnique(rows: seq<Feedback>) {
    forall i, j | 0 <= i < j < |rows| ::
      !SameFeedback(rows[j], rows[i].channel, rows[i].ts, rows[i].user, rows[i].reaction)
  }

  ghost predicate KeyFits(output: Output) {
    match output.kind
    case Investigation => output.key == ReplyKey(output.run, Investigation)
    case GeneralReply => output.key == ReplyKey(output.run, GeneralReply)
    case ErrorNotice => output.key == ErrorKey(output.run)
    case FeedbackFlavor => output.key.FlavorKey?
  }

  predicate HasReply(outputs: seq<Output>, r: nat) {
    exists o | 0 <= o < |outputs| :: outputs[o].run == r && IsReply(outputs[o].kind)
  }

  predicate HasErrorNotice(outputs: seq<Output>, r: nat) {
    exists o | 0 <= o < |outputs| :: outputs[o].run == r && outputs[o].kind == ErrorNotice
  }

  /** Reply outputs, flavor outputs and feedback belong to succeeded runs, error notices to failed
      ones, and a succeeded run has one reply and no second one under another key. */
  ghost predicate Exclusive(runs: seq<Run>, outputs: seq<Output>, rows: seq<Feedback>)
    requires OutputsPlaced(runs, outputs, rows)
  {
    && (forall o | 0 <= o < |outputs| ::
          && KeyFits(outputs[o])
          && runs[outputs[o].run].status
             == if outputs[o].kind == ErrorNotice then RunFailed else Succeeded)
    && (forall i, j | 0 <= i < j < |outputs| && outputs[i].run == outputs[j].run ::
          !(IsReply(outputs[i].kind) && IsReply(outputs[j].kind)))
    && (forall r | 0 <= r < |runs| && runs[r].status == Succeeded :: HasReply(outputs, r))
    && (forall f | 0 <= f < |rows| :: runs[rows[f].run].status == Succeeded)
  }

  ghost predicate Sound(db: Db) {
    && RunsPlaced(db.runs, db.messages)
    && OutputsPlaced(db.runs, db.outputs, db.feedback)
    && EventsUnique(db.events)
    && ConversationsUnique(db.convs)
    && MessagesUnique(db.messages)
    && RunsUnique(db.runs, db.messages)
    && OutputsUnique(db.outputs)
    && FeedbackUnique(db.feedback)
    && Exclusive(db.runs, db.outputs, db.feedback)
  }

  /** The run automaton: queued, running, one terminal status; or queued, cancelled. */
  predicate RunMoves(before: RunStatus, after: RunStatus) {
    || before == after
    || (before == RunQueued && (after == Running || after == RunCancelled))
    || (before == Running && Terminal(after))
  }

  /** Rows are only appended, their identities never change, runs follow their automaton, and a new
      row starts at the beginning of its own life. */
  ghost predicate Extends(before: Db, after: Db) {
    && |before.events| <= |after.events|
    && (forall e | 0 <= e < |before.events| ::
          && after.events[e].slackId == before.events[e].slackId
          && after.events[e].payload == before.events[e].payload)
    && before.convs <= after.convs
    && before.messages <= after.messages
    && |before.runs| <= |after.runs|
    && (forall r | 0 <= r < |before.runs| ::
          && after.runs[r].conv == before.runs[r].conv
          && after.runs[r].trigger == before.runs[r].trigger
          && RunMoves(before.runs[r].status, after.runs[r].status))
    && (forall r | |before.runs| <= r < |after.runs| :: after.runs[r].status == RunQueued)
    && |before.outputs| <= |after.outputs|
    && (forall o | 0 <= o < |before.outputs| ::
          && after.outputs[o].(status := Pending, attempts := 0, slackTs := None)
             == before.outputs[o].(status := Pending, attempts := 0, slackTs := None)
          && (after.outputs[o].status == Pending ==> before.outputs[o].status == Pending))
    && (forall o | |before.outputs| <= o < |after.outputs| ::
          after.outputs[o].status == Pending && after.outputs[o].attempts == 0 && after.outputs[o].slackTs.None?)
    && |before.feedback| <= |after.feedback|
    && (forall f | 0 <= f < |before.feedback| ::
          after.feedback[f].(active := true) == before.feedback[f].(active := true))
  }

  /** No output other than `o` carries this Slack timestamp: the column is unique. */
  predicate TsFree(outputs: seq<Output>, o: nat, ts: Ts) {
    forall i | 0 <= i < |outputs| && i != o :: outputs[i].slackTs != Some(ts)
  }

  // ---------- one lemma per transaction ----------

  lemma InsertEventSound(db: Db, slackId: string, payload: Payload, ignored: bool)
    requires Sound(db)
    ensures var after := InsertEvent(db, slackId, payload, ignored).0;
            Sound(after) && Extends(db, after)
  {
  }

  lemma SetDispositionSound(db: Db, e: nat, d: Disposition)
    requires Sound(db)
    ensures Sound(SetDisposition(db, e, d)) && Extends(db, SetDisposition(db, e, d))
  {
  }

  lemma UpsertSound(db: Db, channel: Channel, threadTs: Ts, create: bool)
    requires Sound(db)
    ensures var after := UpsertConversation(db, channel, threadTs, create).0;
            Sound(after) && Extends(db, after) && after.events == db.events
  {
  }

  lemma AddRunSound(runs: seq<Run>, messages: seq<Message>, conv: nat, channel: Channel, ts: Ts, at: int)
    requires RunsPlaced(runs, messages) && RunsUnique(runs, messages)
    ensures var messages' := messages + [Message(conv, channel, ts, true, at)];
            var runs' := runs + [Run(conv, |messages|, RunQueued)];
            !HasRunFor(runs, |messages|) && RunsPlaced(runs', messages') && RunsUnique(runs', messages')
  {
    var messages' := messages + [Message(conv, channel, ts, true, at)];
    var runs' := runs + [Run(conv, |messages|, RunQueued)];
    assert runs'[|runs|].trigger == |messages|;
    forall i | 0 <= i < |messages'| && messages'[i].inbound
      ensures HasRunFor(runs', i)
    {
      if i < |messages| {
        var r :| 0 <= r < |runs| && runs[r].trigger == i;
        assert runs'[r].trigger == i;
      }
    }
  }

  /** A queued run owns nothing yet. */
  lemma QueuedRunAppended(runs: seq<Run>, outputs: seq<Output>, rows: seq<Feedback>, run: Run)
    requires OutputsPlaced(runs, outputs, rows) && Exclusive(runs, outputs, rows) && run.status == RunQueued
    ensures OutputsPlaced(runs + [run], outputs, rows) && Exclusive(runs + [run], outputs, rows)
  {
  }

  lemma MessageAppended(messages: seq<Message>, message: Message)
    requires MessagesUnique(messages) && !HasMessage(messages, message.channel, message.ts)
    ensures MessagesUnique(messages + [message])
  {
  }

  lemma StoreTriggerExtends(db: Db, conv: nat, channel: Channel, ts: Ts, at: int)
    ensures Extends(db, StoreTrigger(db, conv, channel, ts, at).0)
  {
  }

  lemma StoreTriggerSound(db: Db, conv: nat, channel: Channel, ts: Ts, at: int)
    requires Sound(db)
    ensures var (after, run) := StoreTrigger(db, conv, channel, ts, at);
            && Sound(after) && Extends(db, after) && after.events == db.events
            && (run.Some? ==> run.value < |after.runs| && after.runs[run.value].conv == conv)
  {
    hide RunsPlaced, RunsUnique, OutputsPlaced, Exclusive, MessagesUnique, Extends, EventsUnique,
         ConversationsUnique, OutputsUnique, FeedbackUnique, HasMessage, HasRunFor;
    AddRunSound(db.runs, db.messages, conv, channel, ts, at);
    QueuedRunAppended(db.runs, db.outputs, db.feedback, Run(conv, |db.messages|, RunQueued));
    StoreTriggerExtends(db, conv, channel, ts, at);
    if !HasMessage(db.messages, channel, ts) { MessageAppended(db.messages, Message(conv, channel, ts, true, at)); }
  }

  /** Two transactions that touch runs or outputs one after the other compose when only one of them
      changes each table. */
  lemma ExtendsTransitive(a: Db, b: Db, c: Db)
    requires Extends(a, b) && Extends(b, c)
    requires a.runs == b.runs || b.runs == c.runs
    requires a.outputs == b.outputs || b.outputs == c.outputs
    ensures Extends(a, c)
  {
  }

  lemma ProcessMessageSound(db: Db, e: nat, now: int)
    requires Sound(db) && e < |db.events| && db.events[e].payload.MessagePayload?
    ensures var (after, task) := ProcessMessage(db, e, now);
            && Sound(after) && Extends(db, after) && (task.Some? ==> Placed(after, task.value))
  {
    var p := db.events[e].payload;
    var (upserted, conv) := UpsertConversation(db, p.channel, p.threadTs, p.mention);
    UpsertSound(db, p.channel, p.threadTs, p.mention);
    if conv.None? {
      SetDispositionSound(upserted, e, Ignored);
      ExtendsTransitive(db, upserted, SetDisposition(upserted, e, Ignored));
    } else {
      var at := if p.at.Some? then p.at.value else now;
      var stored := StoreTrigger(upserted, conv.value, p.channel, p.messageTs, at).0;
      StoreTriggerSound(upserted, conv.value, p.channel, p.messageTs, at);
      ExtendsTransitive(db, upserted, stored);
      SetDispositionSound(stored, e, Processed);
      ExtendsTransitive(db, stored, SetDisposition(stored, e, Processed));
    }
  }

  lemma FeedbackAdded(db: Db, row: Feedback)
    requires Sound(db) && row.run < |db.runs| && db.runs[row.run].status == Succeeded
    requires FindFeedback(db.feedback, row.channel, row.ts, row.user, row.reaction).None?
    ensures var after := db.(feedback := db.feedback + [row]);
            Sound(after) && Extends(db, after)
  {
  }

  lemma FeedbackToggled(db: Db, f: nat, active: bool)
    requires Sound(db) && f < |db.feedback|
    ensures var after := db.(feedback := db.feedback[f := db.feedback[f].(active := active)]);
            Sound(after) && Extends(db, after)
  {
  }

  lemma RecordFeedbackSound(db: Db, o: nat, p: Payload)
    requires Sound(db) && p.ReactionPayload?
    requires o < |db.outputs| && IsReply(db.outputs[o].kind)
    ensures var after := RecordFeedback(db, db.outputs[o], p);
            && Sound(after) && Extends(db, after)
            && after == db.(feedback := after.feedback)
  {
    var reply := db.outputs[o];
    match FindFeedback(db.feedback, p.channel, p.messageTs, p.user, p.reaction)
    case Some(f) => FeedbackToggled(db, f, p.added);
    case None =>
      FeedbackAdded(db, Feedback(reply.conv, reply.run, p.channel, p.messageTs, p.user, p.reaction, true));
  }

  lemma OutputsAppended(outputs: seq<Output>, output: Output)
    requires OutputsUnique(outputs) && !HasKey(outputs, output.key) && output.slackTs.None?
    ensures OutputsUnique(outputs + [output])
  {
  }

  lemma FlavorAppended(runs: seq<Run>, outputs: seq<Output>, rows: seq<Feedback>, flavor: Output)
    requires OutputsPlaced(runs, outputs, rows) && Exclusive(runs, outputs, rows)
    requires flavor.kind == FeedbackFlavor && KeyFits(flavor)
    requires flavor.run < |runs| && flavor.conv == runs[flavor.run].conv
    requires runs[flavor.run].status == Succeeded
    ensures OutputsPlaced(runs, outputs + [flavor], rows) && Exclusive(runs, outputs + [flavor], rows)
  {
    HasReplyAppended(outputs, flavor);
  }

  lemma InsertFlavorSound(db: Db, o: nat, p: Payload)
    requires Sound(db) && p.ReactionPayload?
    requires o < |db.outputs| && IsReply(db.outputs[o].kind)
    ensures var (after, id) := InsertOutput(db, FlavorOutput(db.outputs[o], p));
            && Sound(after) && Extends(db, after) && after == db.(outputs := after.outputs)
            && (id.Some? ==> id.value < |after.outputs|)
  {
    var flavor := FlavorOutput(db.outputs[o], p);
    FlavorAppended(db.runs, db.outputs, db.feedback, flavor);
    if !HasKey(db.outputs, flavor.key) {
      OutputsAppended(db.outputs, flavor);
    }
  }

  lemma HasReplyAppended(outputs: seq<Output>, output: Output)
    ensures forall r | HasReply(outputs, r) :: HasReply(outputs + [output], r)
    ensures forall r | HasErrorNotice(outputs, r) :: HasErrorNotice(outputs + [output], r)
  {
    var more := outputs + [output];
    assert forall o | 0 <= o < |outputs| :: more[o] == outputs[o];
  }

  lemma ProcessReactionSound(db: Db, e: nat, mode: Mode)
    requires Sound(db) && e < |db.events| && db.events[e].payload.ReactionPayload?
    ensures var (after, task) := ProcessReaction(db, e, mode);
            && Sound(after) && Extends(db, after) && (task.Some? ==> Placed(after, task.value))
  {
    var p := db.events[e].payload;
    match FindReply(db.outputs, p.channel, p.messageTs)
    case None => SetDispositionSound(db, e, Ignored);
    case Some(o) =>
      var recorded := RecordFeedback(db, db.outputs[o], p);
      RecordFeedbackSound(db, o, p);
      var flavored :=
        if WantsFlavor(p, mode) then InsertOutput(recorded, FlavorOutput(db.outputs[o], p)).0 else recorded;
      InsertFlavorSound(recorded, o, p);
      ExtendsTransitive(db, recorded, flavored);
      SetDispositionSound(flavored, e, Processed);
      ExtendsTransitive(db, flavored, SetDisposition(flavored, e, Processed));
  }

  /** The task names rows that exist, and an investigation carries the lock of its run's conversation. */
  predicate Placed(db: Db, task: Task) {
    match task
    case EventTask(e) => e < |db.events|
    case RunTask(r, c) => r < |db.runs| && db.runs[r].conv == c
    case OutputTask(o) => o < |db.outputs|
  }

  lemma ProcessStoredEventSound(db: Db, e: nat, mode: Mode, now: int)
    requires Sound(db)
    ensures var (after, task) := ProcessStoredEvent(db, e, mode, now);
            && Sound(after) && Extends(db, after) && (task.Some? ==> Placed(after, task.value))
  {
    if e < |db.events| && !Settled(db.events[e].disposition) {
      SetDispositionSound(db, e, Ignored);
      if mode != ModeOff {
        match db.events[e].payload
        case MessagePayload(_, _, _, _, _) => ProcessMessageSound(db, e, now);
        case ReactionPayload(_, _, _, _, _) => ProcessReactionSound(db, e, mode);
        case OtherPayload =>
      }
    }
  }

  lemma StatusKeepsRuns(runs: seq<Run>, messages: seq<Message>, r: nat, status: RunStatus)
    requires RunsPlaced(runs, messages) && RunsUnique(runs, messages) && r < |runs|
    ensures var after := runs[r := runs[r].(status := status)];
            RunsPlaced(after, messages) && RunsUnique(after, messages)
  {
    var after := runs[r := runs[r].(status := status)];
    forall m | 0 <= m < |messages| && messages[m].inbound
      ensures HasRunFor(after, m)
    {
      var k :| 0 <= k < |runs| && runs[k].trigger == m;
      assert after[k].trigger == m;
    }
  }

  lemma SetStatusSound(db: Db, r: nat, status: RunStatus)
    requires Sound(db) && r < |db.runs| && !Terminal(db.runs[r].status)
    requires status == Running || status == RunCancelled
    requires RunMoves(db.runs[r].status, status)
    ensures Sound(SetStatus(db, r, status)) && Extends(db, SetStatus(db, r, status))
  {
    StatusKeepsRuns(db.runs, db.messages, r, status);
  }

  lemma ClaimRunSound(db: Db, r: nat, mode: Mode)
    requires Sound(db)
    ensures Sound(ClaimRun(db, r, mode).0) && Extends(db, ClaimRun(db, r, mode).0)
  {
    if r < |db.runs| && db.runs[r].status == RunQueued {
      SetStatusSound(db, r, RunCancelled);
      SetStatusSound(db, r, Running);
    }
  }

  lemma CancelIfStaleSound(db: Db, r: nat, mode: Mode)
    requires Sound(db)
    ensures Sound(CancelIfStale(db, r, mode).0) && Extends(db, CancelIfStale(db, r, mode).0)
  {
    if r < |db.runs| && !Terminal(db.runs[r].status) {
      SetStatusSound(db, r, RunCancelled);
    }
  }

  /** A run that is not terminal owns no output, so its reply or error key is always free. */
  lemma NoOutputYet(db: Db, r: nat)
    requires Sound(db) && r < |db.runs| && !Terminal(db.runs[r].status)
    ensures forall o | 0 <= o < |db.outputs| :: db.outputs[o].run != r
    ensures forall kind :: !HasKey(db.outputs, ReplyKey(r, kind))
    ensures !HasKey(db.outputs, ErrorKey(r))
  {
    forall o | 0 <= o < |db.outputs|
      ensures db.outputs[o].run != r
    {
      assert Terminal(db.runs[db.outputs[o].run].status);
    }
  }

  lemma FinalizeExclusive(runs: seq<Run>, outputs: seq<Output>, rows: seq<Feedback>, output: Output)
    requires OutputsPlaced(runs, outputs, rows) && Exclusive(runs, outputs, rows)
    requires output.run < |runs| && output.conv == runs[output.run].conv
    requires !Terminal(runs[output.run].status)
    requires KeyFits(output) && output.kind != FeedbackFlavor
    ensures var status := if output.kind == ErrorNotice then RunFailed else Succeeded;
            var runs' := runs[output.run := runs[output.run].(status := status)];
            && OutputsPlaced(runs', outputs + [output], rows)
            && Exclusive(runs', outputs + [output], rows)
  {
    HasReplyAppended(outputs, output);
    assert (outputs + [output])[|outputs|] == output;
    assert forall o | 0 <= o < |outputs| :: Terminal(runs[outputs[o].run].status);
  }

  lemma FinalizeSound(db: Db, r: nat, output: Output)
    requires Sound(db) && r < |db.runs| && db.runs[r].status == Running
    requires output.run == r && output.conv == db.runs[r].conv && output.slackTs.None? && KeyFits(output)
    requires output.status == Pending && output.attempts == 0 && output.kind != FeedbackFlavor
    ensures var status := if output.kind == ErrorNotice then RunFailed else Succeeded;
            var after := InsertOutput(SetStatus(db, r, status), output).0;
            Sound(after) && Extends(db, after) && after.outputs == db.outputs + [output]
  {
    var status := if output.kind == ErrorNotice then RunFailed else Succeeded;
    NoOutputYet(db, r);
    StatusKeepsRuns(db.runs, db.messages, r, status);
    FinalizeExclusive(db.runs, db.outputs, db.feedback, output);
    OutputsAppended(db.outputs, output);
  }

  lemma CompleteRunSound(db: Db, r: nat, kind: OutputKind)
    requires Sound(db) && IsReply(kind)
    ensures var (after, id) := CompleteRun(db, r, kind);
            && Sound(after) && Extends(db, after)
            && (id.Some? <==> r < |db.runs| && db.runs[r].status == Running)
            && (id.Some? ==> id.value == |db.outputs| && |after.outputs| == id.value + 1)
  {
    if r < |db.runs| && db.runs[r].status == Running {
      FinalizeSound(db, r, RunOutput(db, r, ReplyKey(r, kind), kind));
    }
  }

  lemma FailRunSound(db: Db, r: nat, mode: Mode)
    requires Sound(db)
    ensures var (after, id) := FailRun(db, r, mode);
            && Sound(after) && Extends(db, after)
            && (id.Some? <==> r < |db.runs| && db.runs[r].status == Running && mode == ModeOn)
            && (id.Some? ==> id.value == |db.outputs| && |after.outputs| == id.value + 1)
  {
    if r < |db.runs| && db.runs[r].status == Running {
      FinalizeSound(db, r, RunOutput(db, r, ErrorKey(r), ErrorNotice));
      NoOutputYet(db, r);
      StatusKeepsRuns(db.runs, db.messages, r, RunFailed);
    }
  }

  /** Only the delivery columns of an output change, and its Slack timestamp only to a free one. */
  ghost predicate DeliveryUpdate(outputs: seq<Output>, o: nat, output: Output)
    requires o < |outputs|
  {
    && output == outputs[o].(status := output.status, attempts := output.attempts, slackTs := output.slackTs)
    && (output.slackTs == outputs[o].slackTs
        || (output.slackTs.Some? && TsFree(outputs, o, output.slackTs.value)))
  }

  lemma OutputUpdatedUnique(outputs: seq<Output>, o: nat, output: Output)
    requires OutputsUnique(outputs) && o < |outputs| && DeliveryUpdate(outputs, o, output)
    ensures OutputsUnique(outputs[o := output])
  {
  }

  lemma OutputUpdatedExclusive(runs: seq<Run>, outputs: seq<Output>, rows: seq<Feedback>, o: nat, output: Output)
    requires OutputsPlaced(runs, outputs, rows) && Exclusive(runs, outputs, rows)
    requires o < |outputs| && DeliveryUpdate(outputs, o, output)
    ensures OutputsPlaced(runs, outputs[o := output], rows) && Exclusive(runs, outputs[o := output], rows)
  {
    var after := outputs[o := output];
    forall r | 0 <= r < |runs| && runs[r].status == Succeeded
      ensures HasReply(after, r)
    {
      var k :| 0 <= k < |outputs| && outputs[k].run == r && IsReply(outputs[k].kind);
      assert after[k].run == r && IsReply(after[k].kind);
    }
  }

  lemma UpdateOutputSound(db: Db, o: nat, output: Output)
    requires Sound(db) && o < |db.outputs| && DeliveryUpdate(db.outputs, o, output)
    requires output.status == Pending ==> db.outputs[o].status == Pending
    ensures var after := db.(outputs := db.outputs[o := output]);
            Sound(after) && Extends(db, after)
  {
    OutputUpdatedUnique(db.outputs, o, output);
    OutputUpdatedExclusive(db.runs, db.outputs, db.feedback, o, output);
  }

  lemma ClaimOutputSound(db: Db, o: nat, mode: Mode)
    requires Sound(db)
    ensures Sound(ClaimOutput(db, o, mode).0) && Extends(db, ClaimOutput(db, o, mode).0)
  {
    var after := ClaimOutput(db, o, mode).0;
    if after != db {
      assert after == db.(outputs := db.outputs[o := after.outputs[o]]);
      UpdateOutputSound(db, o, after.outputs[o]);
    }
  }

  lemma DeliveryErrorSound(db: Db, o: nat, maxAttempts: nat)
    requires Sound(db)
    ensures Sound(DeliveryError(db, o, maxAttempts)) && Extends(db, DeliveryError(db, o, maxAttempts))
  {
    if o < |db.outputs| {
      UpdateOutputSound(db, o, db.outputs[o].(status := DeliveryFailed));
    }
  }

  lemma AddOutboundSound(db: Db, conv: nat, channel: Channel, ts: Ts, now: int)
    requires Sound(db) && !HasMessage(db.messages, channel, ts)
    ensures var after := db.(messages := db.messages + [Message(conv, channel, ts, false, now)]);
            Sound(after) && Extends(db, after)
  {
  }

  lemma DeliverySentSound(db: Db, o: nat, ts: Ts, now: int)
    requires Sound(db) && TsFree(db.outputs, o, ts)
    ensures Sound(DeliverySent(db, o, ts, now)) && Extends(db, DeliverySent(db, o, ts, now))
  {
    if o < |db.outputs| && db.outputs[o].status != Sent {
      var output := db.outputs[o];
      var sent := db.(outputs := db.outputs[o := output.(status := Sent, slackTs := Some(ts))]);
      UpdateOutputSound(db, o, output.(status := Sent, slackTs := Some(ts)));
      if !HasMessage(db.messages, output.channel, ts) {
        AddOutboundSound(sent, output.conv, output.channel, ts, now);
        ExtendsTransitive(db, sent, DeliverySent(db, o, ts, now));
      }
    }
  }
}
