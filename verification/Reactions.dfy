/** What reactions hang on: feedback and flavor outputs belong to posted replies, never to flavor or error
    messages. */
module Reactions {
  import opened Records
  import opened JobQueue
  import opened Service
  import opened Pipeline
  import opened Tasks
  import opened Integrity
  import opened Protocol
  import opened FailStop
  import Deliveries
  import Questions

  /** A reply of this run and conversation was posted to the channel under this timestamp. */
  predicate Anchor(db: Db, channel: Channel, ts: Ts, run: nat, conv: nat) {
    exists o | 0 <= o < |db.outputs| ::
      IsReplyAt(db.outputs[o], channel, ts) && db.outputs[o].run == run && db.outputs[o].conv == conv
  }

  predicate FeedbackAnchored(db: Db, row: Feedback) {
    Anchor(db, row.channel, row.ts, row.run, row.conv)
  }

  predicate FlavorAnchored(db: Db, output: Output) {
    output.kind == FeedbackFlavor ==>
      && output.key.FlavorKey? && output.channel == output.key.channel
      && Anchor(db, output.key.channel, output.key.ts, output.run, output.conv)
  }

  ghost predicate Anchored(db: Db) {
    && (forall f | 0 <= f < |db.feedback| :: FeedbackAnchored(db, db.feedback[f]))
    && (forall o | 0 <= o < |db.outputs| :: FlavorAnchored(db, db.outputs[o]))
  }

  /** Outputs are only added, and no posted one gets another timestamp. */
  ghost predicate KeepsPosts(before: Db, after: Db) {
    && |before.outputs| <= |after.outputs|
    && forall o | 0 <= o < |before.outputs| ::
         && after.outputs[o].(status := Pending, attempts := 0, slackTs := None)
            == before.outputs[o].(status := Pending, attempts := 0, slackTs := None)
         && (before.outputs[o].slackTs.Some? ==> after.outputs[o].slackTs == before.outputs[o].slackTs)
  }

  lemma AnchorStays(before: Db, after: Db, channel: Channel, ts: Ts, run: nat, conv: nat)
    requires KeepsPosts(before, after) && Anchor(before, channel, ts, run, conv)
    ensures Anchor(after, channel, ts, run, conv)
  {
    var o :| 0 <= o < |before.outputs| && IsReplyAt(before.outputs[o], channel, ts)
             && before.outputs[o].run == run && before.outputs[o].conv == conv;
    assert IsReplyAt(after.outputs[o], channel, ts);
  }

  /** Only new rows have to be anchored; the others stay so. */
  lemma AnchoredOn(before: Db, after: Db)
    requires Anchored(before) && KeepsPosts(before, after) && |before.feedback| <= |after.feedback|
    requires forall f | 0 <= f < |before.feedback| ::
               after.feedback[f].(active := true) == before.feedback[f].(active := true)
    requires forall f | |before.feedback| <= f < |after.feedback| :: FeedbackAnchored(before, after.feedback[f])
    requires forall o | |before.outputs| <= o < |after.outputs| :: FlavorAnchored(before, after.outputs[o])
    ensures Anchored(after)
  {
    hide Anchor;
    forall f | 0 <= f < |after.feedback|
      ensures FeedbackAnchored(after, after.feedback[f])
    {
      var row := after.feedback[f];
      if f < |before.feedback| { assert FeedbackAnchored(before, before.feedback[f]); }
      AnchorStays(before, after, row.channel, row.ts, row.run, row.conv);
    }
    forall o | 0 <= o < |after.outputs|
      ensures FlavorAnchored(after, after.outputs[o])
    {
      var output := after.outputs[o];
      if output.kind == FeedbackFlavor {
        if o < |before.outputs| { assert FlavorAnchored(before, before.outputs[o]); }
        AnchorStays(before, after, output.key.channel, output.key.ts, output.run, output.conv);
      }
    }
  }

  lemma FeedbackRecorded(db: Db, o: nat, p: Payload)
    requires p.ReactionPayload? && o < |db.outputs| && IsReplyAt(db.outputs[o], p.channel, p.messageTs)
    ensures var after := RecordFeedback(db, db.outputs[o], p);
            && after == db.(feedback := after.feedback) && |db.feedback| <= |after.feedback|
            && (forall f | 0 <= f < |db.feedback| ::
                  after.feedback[f].(active := true) == db.feedback[f].(active := true))
            && (forall f | |db.feedback| <= f < |after.feedback| :: FeedbackAnchored(db, after.feedback[f]))
  {
  }

  lemma FlavorAdded(db: Db, o: nat, p: Payload)
    requires p.ReactionPayload? && o < |db.outputs| && IsReplyAt(db.outputs[o], p.channel, p.messageTs)
    ensures var after := InsertOutput(db, FlavorOutput(db.outputs[o], p)).0;
            && db.outputs <= after.outputs && after == db.(outputs := after.outputs)
            && forall k | |db.outputs| <= k < |after.outputs| :: FlavorAnchored(db, after.outputs[k])
  {
  }

  lemma ReactionAnchored(db: Db, e: nat, mode: Mode)
    requires Anchored(db) && e < |db.events| && db.events[e].payload.ReactionPayload?
    ensures Anchored(ProcessReaction(db, e, mode).0)
  {
    var p := db.events[e].payload;
    match FindReply(db.outputs, p.channel, p.messageTs)
    case None =>
    case Some(o) =>
      var recorded := RecordFeedback(db, db.outputs[o], p);
      FeedbackRecorded(db, o, p);
      FlavorAdded(recorded, o, p);
      hide RecordFeedback, InsertOutput, Anchored, FlavorAnchored, FeedbackAnchored, FlavorOutput, WantsFlavor;
      PrefixKeepsPosts(db, recorded);
      AnchoredOn(db, recorded);
      var flavored := InsertOutput(recorded, FlavorOutput(db.outputs[o], p)).0;
      PrefixKeepsPosts(recorded, flavored);
      AnchoredOn(recorded, flavored);
      SettledAnchored(recorded, e);
      SettledAnchored(flavored, e);
  }

  lemma SettledAnchored(db: Db, e: nat)
    requires Anchored(db)
    ensures Anchored(SetDisposition(db, e, Processed))
  {
  }

  lemma MessageAnchored(db: Db, e: nat, now: int)
    requires Anchored(db) && e < |db.events| && db.events[e].payload.MessagePayload?
    ensures Anchored(ProcessMessage(db, e, now).0)
  {
    var after := ProcessMessage(db, e, now).0;
    assert after.outputs == db.outputs && after.feedback == db.feedback;
    hide ProcessMessage, FlavorAnchored, FeedbackAnchored;
    AnchoredOn(db, after);
  }

  lemma EventAnchored(db: Db, e: nat, mode: Mode, now: int)
    requires Anchored(db)
    ensures Anchored(ProcessStoredEvent(db, e, mode, now).0)
  {
    hide ProcessMessage, ProcessReaction;
    if e < |db.events| && !Settled(db.events[e].disposition) && mode == ModeOn {
      match db.events[e].payload
      case MessagePayload(_, _, _, _, _) => MessageAnchored(db, e, now);
      case ReactionPayload(_, _, _, _, _) => ReactionAnchored(db, e, mode);
      case OtherPayload =>
    }
  }

  lemma IntakeAnchored(s: State, l: Label)
    requires IntakeLabel(l) && IntakeEnabled(s, l) && Anchored(s.db)
    ensures Anchored(ApplyIntake(s, l).db)
  {
    hide ProcessStoredEvent;
    if l.ProcessEvent? { EventAnchored(s.db, TaskOf(s, l.p).event, l.mode, l.now); }
  }

  /** A late success write on an output that was posted under another timestamp before. */
  predicate Reposts(s: State, l: Label)
    requires Enabled(s, l)
  {
    && l.CommitSent?
    && var o := TaskOf(s, l.p).output;
       o < |s.db.outputs| && s.db.outputs[o].status != Sent && s.db.outputs[o].slackTs.Some?
  }

  lemma DeliveryKeepsPosts(s: State, l: Label)
    requires DeliveryLabel(l) && DeliveryEnabled(s, l) && !Reposts(s, l)
    ensures KeepsPosts(s.db, ApplyDelivery(s, l).db)
    ensures |ApplyDelivery(s, l).db.outputs| == |s.db.outputs| && ApplyDelivery(s, l).db.feedback == s.db.feedback
  {
    hide TsFree, HasMessage, StaleOutput;
  }

  lemma FinalizeAddsNoFlavor(db: Db, r: nat, kind: OutputKind, mode: Mode)
    requires IsReply(kind)
    ensures var after := CompleteRun(db, r, kind).0;
            && db.outputs <= after.outputs && after.feedback == db.feedback
            && forall o | |db.outputs| <= o < |after.outputs| :: after.outputs[o].kind != FeedbackFlavor
    ensures var after := FailRun(db, r, mode).0;
            && db.outputs <= after.outputs && after.feedback == db.feedback
            && forall o | |db.outputs| <= o < |after.outputs| :: after.outputs[o].kind != FeedbackFlavor
  {
    hide HasKey;
  }

  lemma PrefixKeepsPosts(before: Db, after: Db)
    requires before.outputs <= after.outputs
    ensures KeepsPosts(before, after)
  {
  }

  lemma RunKeepsPosts(s: State, l: Label)
    requires Consistent(s) && RunLabel(l) && RunEnabled(s, l)
    ensures var after := ApplyRun(s, l).db;
            && s.db.outputs <= after.outputs && after.feedback == s.db.feedback
            && forall o | |s.db.outputs| <= o < |after.outputs| :: after.outputs[o].kind != FeedbackFlavor
  {
    PlacedAt(s, l.p);
    hide Consistent, CompleteRun, FailRun, ClaimRun, CancelIfStale;
    if l.CommitRun? {
      FinalizeAddsNoFlavor(s.db, TaskOf(s, l.p).run, s.procs[l.p].pos.kind, ModeOn);
    } else if l.CommitFailure? {
      FinalizeAddsNoFlavor(s.db, TaskOf(s, l.p).run, Investigation, ModeOn);
    } else if l.StartRun? || l.CheckStale? {
      ClaimKeepsOutputs(s.db, TaskOf(s, l.p).run, l.mode);
    }
  }

  lemma QueueKeepsPosts(s: State, l: Label)
    requires QueueLabel(l) && QueueEnabled(s, l)
    ensures var after := ApplyQueue(s, l).db;
            && s.db.outputs <= after.outputs && after.feedback == s.db.feedback
            && forall o | |s.db.outputs| <= o < |after.outputs| :: after.outputs[o].kind != FeedbackFlavor
  {
    hide FailRun;
    if l.Recover? && s.jobs[l.job].task.RunTask? {
      FinalizeAddsNoFlavor(s.db, s.jobs[l.job].task.run, Investigation, l.mode);
    }
  }

  lemma OthersKeepPosts(s: State, l: Label)
    requires Consistent(s) && Enabled(s, l) && (RunLabel(l) || QueueLabel(l))
    ensures KeepsPosts(s.db, Apply(s, l).db) && Apply(s, l).db.feedback == s.db.feedback
    ensures s.db.outputs <= Apply(s, l).db.outputs
    ensures forall o | |s.db.outputs| <= o < |Apply(s, l).db.outputs| ::
              Apply(s, l).db.outputs[o].kind != FeedbackFlavor
  {
    hide Consistent, KeepsPosts, ApplyRun, ApplyQueue;
    if RunLabel(l) { RunKeepsPosts(s, l); } else { QueueKeepsPosts(s, l); }
    PrefixKeepsPosts(s.db, Apply(s, l).db);
  }

  lemma ClaimKeepsOutputs(db: Db, r: nat, mode: Mode)
    ensures ClaimRun(db, r, mode).0.outputs == db.outputs && ClaimRun(db, r, mode).0.feedback == db.feedback
    ensures CancelIfStale(db, r, mode).0.outputs == db.outputs && CancelIfStale(db, r, mode).0.feedback == db.feedback
  {
  }

  lemma StepAnchored(s: State, l: Label)
    requires Consistent(s) && Enabled(s, l) && Anchored(s.db) && !Reposts(s, l)
    ensures Anchored(Apply(s, l).db)
  {
    if IntakeLabel(l) {
      hide Anchored, Consistent;
      IntakeAnchored(s, l);
    } else {
      if DeliveryLabel(l) { DeliveryKeepsPosts(s, l); } else { OthersKeepPosts(s, l); }
      hide Apply, Consistent, Enabled, FeedbackAnchored, Anchor;
      AnchoredOn(s.db, Apply(s, l).db);
    }
  }

  ghost predicate NeverReposts(s: State, ls: seq<Label>)
    requires Valid(s, ls)
    decreases |ls|
  {
    ls == [] || (!Reposts(s, ls[0]) && NeverReposts(Apply(s, ls[0]), ls[1..]))
  }

  /** Late workers included, as long as none of them posts an output a second time under another timestamp. */
  lemma {:induction false} RunsAnchored(s: State, ls: seq<Label>)
    requires Consistent(s) && Valid(s, ls) && NeverReposts(s, ls) && Anchored(s.db)
    ensures Consistent(After(s, ls)) && Anchored(After(s, ls).db)
    decreases |ls|
  {
    if ls != [] {
      StepConsistent(s, ls[0]);
      StepAnchored(s, ls[0]);
      hide Consistent, Anchored, Apply, Enabled, Reposts;
      RunsAnchored(Apply(s, ls[0]), ls[1..]);
    }
  }

  // ---------- under fail-stop nobody posts twice ----------

  ghost predicate PendingUnposted(db: Db) {
    forall o | 0 <= o < |db.outputs| && db.outputs[o].status == Pending :: db.outputs[o].slackTs.None?
  }

  lemma PendingPrefix(before: Db, after: Db)
    requires PendingUnposted(before) && before.outputs <= after.outputs && Extends(before, after)
    ensures PendingUnposted(after)
  {
  }

  lemma PendingStep(s: State, l: Label)
    requires Consistent(s) && Enabled(s, l) && PendingUnposted(s.db)
    ensures PendingUnposted(Apply(s, l).db)
  {
    hide Consistent, Extends, PendingUnposted, KeepsPosts, ApplyRun, ApplyQueue, ApplyIntake, ApplyDelivery;
    if DeliveryLabel(l) {
      DeliveryPending(s, l);
    } else {
      StepConsistent(s, l);
      if IntakeLabel(l) { Questions.IntakeKeepsStatuses(s, l); } else { OthersKeepPosts(s, l); }
      PendingPrefix(s.db, Apply(s, l).db);
    }
  }

  lemma DeliveryPending(s: State, l: Label)
    requires DeliveryLabel(l) && DeliveryEnabled(s, l) && PendingUnposted(s.db)
    ensures PendingUnposted(ApplyDelivery(s, l).db)
  {
    hide TsFree, HasMessage, StaleOutput;
  }

  lemma FailStopPostsOnce(s: State, l: Label)
    requires Exclusively(s) && FailStopStep(s, l) && PendingUnposted(s.db)
    ensures !Reposts(s, l)
  {
    if l.CommitSent? { assert DeliversPending(s.db, s.jobs, s.procs[l.p]); }
  }

  lemma {:induction false} FailStopRunsAnchored(s: State, ls: seq<Label>)
    requires Orderly(s) && FailStopRun(s, ls) && PendingUnposted(s.db) && Anchored(s.db)
    ensures Valid(s, ls) && Orderly(After(s, ls)) && Anchored(After(s, ls).db)
    decreases |ls|
  {
    if ls != [] {
      assert Consistent(s);
      FailStopPostsOnce(s, ls[0]);
      hide Consistent, Anchored, PendingUnposted, Apply, Reposts;
      OrderlyStep(s, ls[0]);
      StepAnchored(s, ls[0]);
      PendingStep(s, ls[0]);
      hide Orderly;
      FailStopRunsAnchored(Apply(s, ls[0]), ls[1..]);
    }
  }

  lemma AnchorAlone(db: Db, channel: Channel, ts: Ts, run: nat, conv: nat, o: nat)
    requires Sound(db) && Anchor(db, channel, ts, run, conv)
    requires o < |db.outputs| && db.outputs[o].slackTs == Some(ts)
    ensures IsReply(db.outputs[o].kind) && db.outputs[o].run == run
  {
  }

  /** In every fail-stop state, whatever Slack repeated, reordered or made up: feedback and flavor outputs
      belong to the run and conversation of a reply that was posted where the reaction points, and no flavor
      or error message was ever posted there. */
  lemma ReactionsOnReplies(s: State, ls: seq<Label>)
    requires Initial(s) && FailStopRun(s, ls)
    ensures var db := After(s, ls).db;
            && (forall f | 0 <= f < |db.feedback| :: FeedbackAnchored(db, db.feedback[f]))
            && (forall o | 0 <= o < |db.outputs| :: FlavorAnchored(db, db.outputs[o]))
            && (forall f, o | 0 <= f < |db.feedback| && 0 <= o < |db.outputs|
                              && db.outputs[o].slackTs == Some(db.feedback[f].ts) :: IsReply(db.outputs[o].kind))
            && (forall i, o | 0 <= i < |db.outputs| && db.outputs[i].kind == FeedbackFlavor && 0 <= o < |db.outputs|
                              && db.outputs[o].slackTs == Some(db.outputs[i].key.ts) :: IsReply(db.outputs[o].kind))
  {
    InitialOrderly(s);
    FailStopRunsAnchored(s, ls);
    var db := After(s, ls).db;
    assert Sound(db);
    hide Orderly, Anchor, Sound, FailStopRun;
    forall f, o | 0 <= f < |db.feedback| && 0 <= o < |db.outputs| && db.outputs[o].slackTs == Some(db.feedback[f].ts)
      ensures IsReply(db.outputs[o].kind)
    {
      var row := db.feedback[f];
      assert FeedbackAnchored(db, row);
      AnchorAlone(db, row.channel, row.ts, row.run, row.conv, o);
    }
    forall i, o | 0 <= i < |db.outputs| && db.outputs[i].kind == FeedbackFlavor && 0 <= o < |db.outputs|
                  && db.outputs[o].slackTs == Some(db.outputs[i].key.ts)
      ensures IsReply(db.outputs[o].kind)
    {
      var flavor := db.outputs[i];
      assert FlavorAnchored(db, flavor);
      AnchorAlone(db, flavor.key.channel, flavor.key.ts, flavor.run, flavor.conv, o);
    }
  }
}
