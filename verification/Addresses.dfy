/** Where answers go and what is remembered of them: every output is addressed to the channel its question
    was asked in, and every sent one is stored as a message. */
module Addresses {
  import opened Records
  import opened JobQueue
  import opened Service
  import opened Pipeline
  import opened Tasks
  import opened Integrity
  import opened Protocol
  import Deliveries
  import Questions

  /** Messages and outputs carry the channel of their conversation. */
  ghost predicate Addressed(db: Db) {
    && (forall m | 0 <= m < |db.messages| ::
          db.messages[m].conv < |db.convs| && db.messages[m].channel == db.convs[db.messages[m].conv].channel)
    && (forall o | 0 <= o < |db.outputs| ::
          db.outputs[o].conv < |db.convs| && db.outputs[o].channel == db.convs[db.outputs[o].conv].channel)
  }

  /** A sent output knows its Slack timestamp, and that message is stored. */
  ghost predicate Remembered(db: Db) {
    forall o | 0 <= o < |db.outputs| ::
      && (db.outputs[o].status == Sent ==> db.outputs[o].slackTs.Some?)
      && (db.outputs[o].slackTs.Some? ==> HasMessage(db.messages, db.outputs[o].channel, db.outputs[o].slackTs.value))
  }

  lemma OutputAddressed(db: Db, output: Output)
    requires Addressed(db) && output.conv < |db.convs| && output.channel == db.convs[output.conv].channel
    ensures Addressed(InsertOutput(db, output).0)
  {
  }

  lemma MessageAddressed(db: Db, e: nat, now: int)
    requires Addressed(db) && e < |db.events| && db.events[e].payload.MessagePayload?
    ensures Addressed(ProcessMessage(db, e, now).0)
  {
  }

  lemma ReactionAddressed(db: Db, e: nat, mode: Mode)
    requires Addressed(db) && e < |db.events| && db.events[e].payload.ReactionPayload?
    ensures Addressed(ProcessReaction(db, e, mode).0)
  {
    var p := db.events[e].payload;
    match FindReply(db.outputs, p.channel, p.messageTs)
    case None =>
    case Some(o) =>
      var recorded := RecordFeedback(db, db.outputs[o], p);
      assert recorded == db.(feedback := recorded.feedback);
      OutputAddressed(recorded, FlavorOutput(db.outputs[o], p));
      hide InsertOutput, RecordFeedback;
  }

  lemma EventAddressed(db: Db, e: nat, mode: Mode, now: int)
    requires Addressed(db)
    ensures Addressed(ProcessStoredEvent(db, e, mode, now).0)
  {
    hide ProcessMessage, ProcessReaction;
    if e < |db.events| && !Settled(db.events[e].disposition) && mode == ModeOn {
      match db.events[e].payload
      case MessagePayload(_, _, _, _, _) => MessageAddressed(db, e, now);
      case ReactionPayload(_, _, _, _, _) => ReactionAddressed(db, e, mode);
      case OtherPayload =>
    }
  }

  /** A run's conversation is that of its question, which exists. */
  lemma RunOutputAddressed(db: Db, r: nat, key: OutputKey, kind: OutputKind)
    requires Sound(db) && Addressed(db) && r < |db.runs|
    ensures var output := RunOutput(db, r, key, kind);
            output.conv < |db.convs| && output.channel == db.convs[output.conv].channel
  {
    assert db.runs[r].trigger < |db.messages|;
    assert db.messages[db.runs[r].trigger].conv == db.runs[r].conv;
  }

  lemma FinalizeAddressed(db: Db, r: nat, kind: OutputKind, mode: Mode)
    requires Sound(db) && Addressed(db)
    ensures Addressed(CompleteRun(db, r, kind).0) && Addressed(FailRun(db, r, mode).0)
  {
    if r < |db.runs| {
      RunOutputAddressed(db, r, ReplyKey(r, kind), kind);
      RunOutputAddressed(db, r, ErrorKey(r), ErrorNotice);
      hide Sound, InsertOutput;
      OutputAddressed(SetStatus(db, r, Succeeded), RunOutput(db, r, ReplyKey(r, kind), kind));
      OutputAddressed(SetStatus(db, r, RunFailed), RunOutput(db, r, ErrorKey(r), ErrorNotice));
    }
  }

  lemma DeliveryAddressed(db: Db, o: nat, mode: Mode, ts: Ts, now: int, max: nat)
    requires Addressed(db)
    ensures Addressed(ClaimOutput(db, o, mode).0) && Addressed(DeliverySent(db, o, ts, now))
    ensures Addressed(DeliveryError(db, o, max))
  {
    hide HasMessage, StaleOutput;
  }

  lemma StepAddressed(s: State, l: Label)
    requires Consistent(s) && Enabled(s, l) && Addressed(s.db)
    ensures Addressed(Apply(s, l).db)
  {
    assert Sound(s.db);
    hide Consistent, Sound, Addressed;
    if IntakeLabel(l) {
      IntakeAddressed(s, l);
    } else if RunLabel(l) {
      RunAddressed(s, l);
    } else if DeliveryLabel(l) {
      var o := TaskOf(s, l.p).output;
      match l
      case StartDelivery(_, mode) => DeliveryAddressed(s.db, o, mode, 0, 0, 0);
      case CommitSent(_, ts, now) => DeliveryAddressed(s.db, o, ModeOn, ts, now, 0);
      case CommitDeliveryError(_) => DeliveryAddressed(s.db, o, ModeOn, 0, 0, s.maxAttempts);
      case PostAccepted(_) =>
      case PostRejected(_) =>
    } else if l.Recover? && s.jobs[l.job].task.RunTask? {
      FinalizeAddressed(s.db, s.jobs[l.job].task.run, Investigation, l.mode);
    }
  }

  lemma IntakeAddressed(s: State, l: Label)
    requires IntakeLabel(l) && IntakeEnabled(s, l) && Addressed(s.db)
    ensures Addressed(ApplyIntake(s, l).db)
  {
    hide ProcessStoredEvent;
    if l.ProcessEvent? { EventAddressed(s.db, TaskOf(s, l.p).event, l.mode, l.now); }
  }

  lemma RunAddressed(s: State, l: Label)
    requires Sound(s.db) && RunLabel(l) && RunEnabled(s, l) && Addressed(s.db)
    ensures Addressed(ApplyRun(s, l).db)
  {
    hide Sound, CompleteRun, FailRun;
    if l.CommitRun? {
      FinalizeAddressed(s.db, TaskOf(s, l.p).run, s.procs[l.p].pos.kind, ModeOn);
    } else if l.CommitFailure? {
      FinalizeAddressed(s.db, TaskOf(s, l.p).run, Investigation, ModeOn);
    }
  }

  // ---------- what was sent is stored ----------

  lemma StoredStays(before: seq<Message>, after: seq<Message>, channel: Channel, ts: Ts)
    requires before <= after && HasMessage(before, channel, ts)
    ensures HasMessage(after, channel, ts)
  {
    var i :| 0 <= i < |before| && before[i].channel == channel && before[i].ts == ts;
    assert after[i] == before[i];
  }

  /** Outputs that stay as they are, and new ones that were never posted, need nothing. */
  lemma RememberedOn(before: Db, after: Db)
    requires Remembered(before) && Extends(before, after) && before.outputs <= after.outputs
    ensures Remembered(after)
  {
  }

  lemma ClaimRemembered(db: Db, o: nat, mode: Mode, max: nat)
    requires Remembered(db)
    ensures Remembered(ClaimOutput(db, o, mode).0) && Remembered(DeliveryError(db, o, max))
  {
    hide HasMessage, StaleOutput;
  }

  lemma SentRemembered(db: Db, o: nat, ts: Ts, now: int)
    requires Remembered(db)
    ensures Remembered(DeliverySent(db, o, ts, now))
  {
    var after := DeliverySent(db, o, ts, now);
    if o < |db.outputs| && db.outputs[o].status != Sent {
      var channel := db.outputs[o].channel;
      assert HasMessage(after.messages, channel, ts) by {
        if !HasMessage(db.messages, channel, ts) { assert after.messages[|db.messages|].channel == channel; }
      }
      forall k | 0 <= k < |db.outputs| && k != o && db.outputs[k].slackTs.Some?
        ensures HasMessage(after.messages, db.outputs[k].channel, db.outputs[k].slackTs.value)
      {
        StoredStays(db.messages, after.messages, db.outputs[k].channel, db.outputs[k].slackTs.value);
      }
      hide HasMessage;
    }
  }

  lemma StepRemembered(s: State, l: Label)
    requires Consistent(s) && Enabled(s, l) && Remembered(s.db)
    ensures Remembered(Apply(s, l).db)
  {
    hide Consistent, Remembered, Extends;
    if DeliveryLabel(l) {
      DeliveryRemembered(s, l);
    } else {
      StepConsistent(s, l);
      if IntakeLabel(l) { Questions.IntakeKeepsStatuses(s, l); } else { Deliveries.RunKeepsOutputs(s, l); }
      hide Apply, Enabled;
      RememberedOn(s.db, Apply(s, l).db);
    }
  }

  lemma DeliveryRemembered(s: State, l: Label)
    requires DeliveryLabel(l) && DeliveryEnabled(s, l) && Remembered(s.db)
    ensures Remembered(ApplyDelivery(s, l).db)
  {
    hide Remembered, ClaimOutput, DeliverySent, DeliveryError, TsFree;
    match l
    case StartDelivery(p, mode) => ClaimRemembered(s.db, TaskOf(s, p).output, mode, 0);
    case CommitSent(p, ts, now) => SentRemembered(s.db, TaskOf(s, p).output, ts, now);
    case CommitDeliveryError(p) => ClaimRemembered(s.db, TaskOf(s, p).output, ModeOn, s.maxAttempts);
    case PostAccepted(_) =>
    case PostRejected(_) =>
  }

  lemma {:induction false} RunsAddressed(s: State, ls: seq<Label>)
    requires Consistent(s) && Valid(s, ls) && Addressed(s.db) && Remembered(s.db)
    ensures Consistent(After(s, ls)) && Addressed(After(s, ls).db) && Remembered(After(s, ls).db)
    decreases |ls|
  {
    hide Consistent, Addressed, Remembered, Apply, Enabled;
    if ls != [] {
      StepConsistent(s, ls[0]);
      StepAddressed(s, ls[0]);
      StepRemembered(s, ls[0]);
      RunsAddressed(Apply(s, ls[0]), ls[1..]);
    }
  }

  /** In every reachable state, late workers included: an answer, a notice or a flavor output goes to the
      channel and the conversation in which its question was asked, whose thread it is posted to, and whatever
      was sent is stored as a message of that channel under its Slack timestamp. */
  lemma AnswersGoHome(s: State, ls: seq<Label>, o: nat)
    requires Initial(s) && Valid(s, ls) && o < |After(s, ls).db.outputs|
    ensures var db := After(s, ls).db;
            var output := db.outputs[o];
            && output.run < |db.runs| && db.runs[output.run].trigger < |db.messages|
            && db.messages[db.runs[output.run].trigger].inbound
            && output.channel == db.messages[db.runs[output.run].trigger].channel
            && output.conv == db.messages[db.runs[output.run].trigger].conv
            && output.conv < |db.convs| && db.convs[output.conv].channel == output.channel
            && (output.status == Sent ==>
                  output.slackTs.Some? && HasMessage(db.messages, output.channel, output.slackTs.value))
  {
    InitialConsistent(s);
    RunsAddressed(s, ls);
    HomeChannel(After(s, ls).db, o);
    hide Consistent, Addressed;
  }

  lemma HomeChannel(db: Db, o: nat)
    requires Sound(db) && Addressed(db) && o < |db.outputs|
    ensures var output := db.outputs[o];
            && output.run < |db.runs| && db.runs[output.run].trigger < |db.messages|
            && db.messages[db.runs[output.run].trigger].inbound
            && output.channel == db.messages[db.runs[output.run].trigger].channel
            && output.conv == db.messages[db.runs[output.run].trigger].conv
            && output.conv < |db.convs| && db.convs[output.conv].channel == output.channel
  {
  }
}
