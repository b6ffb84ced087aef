/** What becomes of the questions that Slack delivers: a message that concerns Cerebro is never dropped
    while the mode stays enabled, and its text is stored unless an exception was the last thing that
    happened to its event. */
module Mentions {
  import opened Records
  import opened JobQueue
  import opened Service
  import opened Tasks
  import opened Integrity
  import opened Protocol
  import opened Questions
  import opened FailStop
  import LateWorkers

  /** The event is a message that mentions Cerebro, or one in a thread that Cerebro takes part in. */
  predicate Concerns(db: Db, e: nat) {
    && e < |db.events| && db.events[e].payload.MessagePayload?
    && var p := db.events[e].payload;
       p.mention || FindConversation(db.convs, p.channel, p.threadTs).Some?
  }

  predicate Stored(db: Db, p: Payload) {
    p.MessagePayload? && HasMessage(db.messages, p.channel, p.messageTs)
  }

  function DispositionOf(db: Db, e: nat): Disposition {
    if e < |db.events| then db.events[e].disposition else Received
  }

  /** The message of every processed message event is stored. */
  ghost predicate Heard(db: Db) {
    forall e | 0 <= e < |db.events| && db.events[e].payload.MessagePayload?
               && db.events[e].disposition == Processed :: Stored(db, db.events[e].payload)
  }

  lemma StoredStays(before: Db, after: Db, p: Payload)
    requires before.messages <= after.messages && Stored(before, p)
    ensures Stored(after, p)
  {
    var i :| 0 <= i < |before.messages|
             && before.messages[i].channel == p.channel && before.messages[i].ts == p.messageTs;
    assert after.messages[i] == before.messages[i];
  }

  lemma ConcernsStays(before: Db, after: Db, e: nat)
    requires Extends(before, after) && Concerns(before, e)
    ensures Concerns(after, e) && after.events[e].payload == before.events[e].payload
  {
    var p := before.events[e].payload;
    match FindConversation(before.convs, p.channel, p.threadTs)
    case Some(c) => assert after.convs[c] == before.convs[c];
    case None =>
  }

  // ---------- what a step does to the disposition of an event ----------

  /** The handler's exception branch gives the event up. */
  predicate Marks(s: State, l: Label, e: nat)
    requires Enabled(s, l)
  {
    l.MarkEventFailed? && TaskOf(s, l.p) == EventTask(e)
  }

  /** The event is processed, or its listener sets it back. */
  predicate Rewrites(s: State, l: Label, e: nat)
    requires Enabled(s, l)
  {
    || (l.ProcessEvent? && TaskOf(s, l.p) == EventTask(e) && !Settled(DispositionOf(s.db, e)))
    || (l.ReceiverWrite? && s.procs[l.p].event == e)
  }

  /** Processing touches the disposition of its own event only, settles it, and drops a message that
      concerns Cerebro only when it is disabled. */
  lemma ProcessingSettles(db: Db, e: nat, mode: Mode, now: int, k: nat)
    requires k < |db.events|
    ensures var after := ProcessStoredEvent(db, e, mode, now).0;
            && |after.events| == |db.events| && after.events[k].payload == db.events[k].payload
            && (k != e || Settled(db.events[k].disposition) ==> after.events[k] == db.events[k])
            && (k == e ==> Settled(after.events[k].disposition))
            && (k == e && mode == ModeOn && Concerns(db, k) && db.events[k].disposition != Ignored ==>
                  after.events[k].disposition == Processed)
  {
  }

  lemma IntakeDisposition(s: State, l: Label, e: nat)
    requires Consistent(s) && IntakeLabel(l) && IntakeEnabled(s, l) && e < |s.db.events|
    ensures var d := DispositionOf(ApplyIntake(s, l).db, e);
            if l.MarkEventFailed? && TaskOf(s, l.p) == EventTask(e) then d == EventFailed
            else if l.ReceiverWrite? && s.procs[l.p].event == e then d == Queued
            else if l.ProcessEvent? && TaskOf(s, l.p) == EventTask(e) && !Settled(DispositionOf(s.db, e))
            then Settled(d)
                 && (LabelEnabled(l) && Concerns(s.db, e) ==> d == Processed)
            else d == DispositionOf(s.db, e)
  {
    hide ProcessStoredEvent, Consistent, FindConversation;
    if l.ProcessEvent? { ProcessingSettles(s.db, TaskOf(s, l.p).event, l.mode, l.now, e); }
  }

  lemma OthersKeepEvents(s: State, l: Label)
    requires Enabled(s, l) && !IntakeLabel(l)
    ensures Apply(s, l).db.events == s.db.events && s.db.messages <= Apply(s, l).db.messages
  {
  }

  /** The disposition of an event turns failed by its own exception branch, is rewritten by its own
      processing or its own listener, and stays otherwise. */
  lemma StepDisposition(s: State, l: Label, e: nat)
    requires Consistent(s) && Enabled(s, l)
    ensures var d := DispositionOf(Apply(s, l).db, e);
            if Marks(s, l, e) then d == EventFailed
            else if Rewrites(s, l, e)
            then d != EventFailed && (LabelEnabled(l) && Concerns(s.db, e) ==> d != Ignored)
            else e < |s.db.events| ==> d == DispositionOf(s.db, e)
    ensures e >= |s.db.events| ==> DispositionOf(Apply(s, l).db, e) != EventFailed && !Marks(s, l, e)
  {
    if e >= |s.db.events| {
      NewEventNotFailed(s, l, e);
    } else if IntakeLabel(l) {
      IntakeDisposition(s, l, e);
      hide ApplyIntake, Consistent, IntakeEnabled, FindConversation;
    } else {
      OthersKeepEvents(s, l);
      hide Apply;
    }
  }

  lemma NewEventNotFailed(s: State, l: Label, e: nat)
    requires Consistent(s) && Enabled(s, l) && e >= |s.db.events|
    ensures DispositionOf(Apply(s, l).db, e) != EventFailed && !Marks(s, l, e)
    ensures e < |Apply(s, l).db.events| ==> l.Receive?
  {
    if IntakeLabel(l) && !l.Receive? {
      PlacedAt(s, l.p);
      hide Consistent, ProcessMessage, ProcessReaction;
      if l.ProcessEvent? { ProcessingKeepsCount(s.db, TaskOf(s, l.p).event, l.mode, l.now); }
    } else if !l.Receive? {
      OthersKeepEvents(s, l);
    }
  }

  lemma ProcessingKeepsCount(db: Db, e: nat, mode: Mode, now: int)
    ensures |ProcessStoredEvent(db, e, mode, now).0.events| == |db.events|
  {
  }

  // ---------- over whole runs ----------

  /** The last thing that happened to the event in the run was an exception of its handler. */
  ghost predicate GivenUp(s: State, ls: seq<Label>, e: nat, before: bool)
    requires Valid(s, ls)
    decreases |ls|
  {
    if ls == [] then before
    else GivenUp(Apply(s, ls[0]), ls[1..], e,
                 Marks(s, ls[0], e) || (before && !Rewrites(s, ls[0], e)))
  }

  lemma {:induction false} FailedExactly(s: State, ls: seq<Label>, e: nat)
    requires Consistent(s) && Valid(s, ls)
    ensures DispositionOf(After(s, ls).db, e) == EventFailed
            <==> GivenUp(s, ls, e, DispositionOf(s.db, e) == EventFailed)
    decreases |ls|
  {
    if ls != [] {
      StepConsistent(s, ls[0]);
      StepDisposition(s, ls[0], e);
      hide Consistent, Apply, Enabled, Marks, Rewrites, DispositionOf;
      FailedExactly(Apply(s, ls[0]), ls[1..], e);
    }
  }

  lemma MessageHeard(db: Db, e: nat, now: int)
    requires e < |db.events| && db.events[e].payload.MessagePayload? && Heard(db)
    ensures Heard(ProcessMessage(db, e, now).0)
  {
    var after := ProcessMessage(db, e, now).0;
    forall k | 0 <= k < |after.events| && after.events[k].payload.MessagePayload?
               && after.events[k].disposition == Processed
      ensures Stored(after, after.events[k].payload)
    {
      if k == e { MessageStored(db, e, now); } else { StoredStays(db, after, db.events[k].payload); }
    }
  }

  lemma ReactionHeard(db: Db, e: nat, mode: Mode)
    requires e < |db.events| && db.events[e].payload.ReactionPayload? && Heard(db)
    ensures Heard(ProcessReaction(db, e, mode).0)
  {
  }

  lemma ProcessingHeard(db: Db, e: nat, mode: Mode, now: int)
    requires Heard(db)
    ensures Heard(ProcessStoredEvent(db, e, mode, now).0)
  {
    hide ProcessMessage, ProcessReaction;
    if e < |db.events| && !Settled(db.events[e].disposition) && mode == ModeOn {
      match db.events[e].payload
      case MessagePayload(_, _, _, _, _) => MessageHeard(db, e, now);
      case ReactionPayload(_, _, _, _, _) => ReactionHeard(db, e, mode);
      case OtherPayload =>
    }
  }

  lemma StepHeard(s: State, l: Label)
    requires Enabled(s, l) && Heard(s.db)
    ensures Heard(Apply(s, l).db)
  {
    if IntakeLabel(l) {
      IntakeHeard(s, l);
    } else {
      OthersKeepEvents(s, l);
      hide Apply, Stored;
      forall e | 0 <= e < |s.db.events| && Stored(s.db, s.db.events[e].payload)
        ensures Stored(Apply(s, l).db, s.db.events[e].payload)
      {
        StoredStays(s.db, Apply(s, l).db, s.db.events[e].payload);
      }
    }
  }

  lemma IntakeHeard(s: State, l: Label)
    requires IntakeLabel(l) && IntakeEnabled(s, l) && Heard(s.db)
    ensures Heard(ApplyIntake(s, l).db)
  {
    hide ProcessStoredEvent, HasMessage;
    if l.ProcessEvent? { ProcessingHeard(s.db, TaskOf(s, l.p).event, l.mode, l.now); }
  }

  lemma {:induction false} RunsHeard(s: State, ls: seq<Label>)
    requires Heard(s.db) && Valid(s, ls)
    ensures Heard(After(s, ls).db)
    decreases |ls|
  {
    if ls != [] {
      StepHeard(s, ls[0]);
      hide Heard, Apply, Enabled;
      RunsHeard(Apply(s, ls[0]), ls[1..]);
    }
  }

  /** The message that came with the event concerns Cerebro and was not dropped. */
  predicate Accepted(db: Db, e: nat) {
    Concerns(db, e) && DispositionOf(db, e) != Ignored
  }

  lemma StepAccepts(s: State, l: Label, e: nat)
    requires Consistent(s) && Enabled(s, l) && LabelEnabled(l) && Accepted(s.db, e)
    ensures Accepted(Apply(s, l).db, e)
    ensures Apply(s, l).db.events[e].payload == s.db.events[e].payload
  {
    hide Consistent, Apply, Enabled, Extends, Concerns, Marks, Rewrites;
    StepConsistent(s, l);
    ConcernsStays(s.db, Apply(s, l).db, e);
    StepDisposition(s, l, e);
    assert e < |s.db.events| by { ConcernsInside(s.db, e); }
  }

  lemma ConcernsInside(db: Db, e: nat)
    requires Concerns(db, e)
    ensures e < |db.events| && db.events[e].payload.MessagePayload?
  {
  }

  lemma {:induction false} RunsAccept(s: State, ls: seq<Label>, e: nat)
    requires Consistent(s) && Valid(s, ls) && AllEnabled(ls) && Accepted(s.db, e)
    ensures Accepted(After(s, ls).db, e) && e < |s.db.events| && e < |After(s, ls).db.events|
    ensures After(s, ls).db.events[e].payload == s.db.events[e].payload
    decreases |ls|
  {
    hide Consistent, Apply, Enabled, Concerns;
    ConcernsInside(s.db, e);
    if ls != [] {
      StepConsistent(s, ls[0]);
      StepAccepts(s, ls[0], e);
      RunsAccept(Apply(s, ls[0]), ls[1..], e);
    }
  }

  /** What Slack delivered, late workers and exceptions included: while the mode stays enabled, an accepted
      message is never dropped. Once its event does not wait any more, it was processed exactly if an
      exception was not the last thing that happened to it, and then its text is stored. */
  lemma DeliveredExactly(s: State, ls: seq<Label>, e: nat)
    requires Consistent(s) && Heard(s.db) && Valid(s, ls) && AllEnabled(ls) && Accepted(s.db, e)
    ensures var db := After(s, ls).db;
            && e < |s.db.events| && e < |db.events|
            && db.events[e].disposition != Ignored
            && (!EventPending(db.events[e]) ==>
                  && (db.events[e].disposition == Processed
                      <==> !GivenUp(s, ls, e, s.db.events[e].disposition == EventFailed))
                  && (db.events[e].disposition == Processed ==> Stored(db, s.db.events[e].payload)))
  {
    RunsHeard(s, ls);
    RunsAccept(s, ls, e);
    FailedExactly(s, ls, e);
    hide Consistent, GivenUp, HasMessage, FindConversation;
  }

  /** A delivered mention is accepted the moment it is stored as an event. */
  lemma ReceivedAccepted(s: State, slackId: string, payload: Payload)
    requires !HasEvent(s.db.events, slackId) && payload.MessagePayload? && payload.mention
    ensures var db := Apply(s, Receive(slackId, payload, false)).db;
            && Accepted(db, |s.db.events|)
            && db.events[|s.db.events|] == Event(slackId, payload, Received)
  {
  }

  // ---------- without exceptions ----------

  ghost predicate NoneFailed(db: Db) {
    forall e | 0 <= e < |db.events| :: db.events[e].disposition != EventFailed
  }

  lemma NoneFailedStep(s: State, l: Label)
    requires Consistent(s) && FailStopStep(s, l) && NoneFailed(s.db)
    ensures NoneFailed(Apply(s, l).db)
  {
    hide Consistent, Apply, Enabled, Rewrites, Concerns;
    var db := Apply(s, l).db;
    forall e | 0 <= e < |db.events|
      ensures db.events[e].disposition != EventFailed
    {
      StepDisposition(s, l, e);
      assert DispositionOf(db, e) == db.events[e].disposition;
    }
  }

  /** Under fail-stop no handler ends by an exception, so no event is ever marked failed. */
  lemma {:induction false} NoneFailedRun(s: State, ls: seq<Label>)
    requires Orderly(s) && FailStopRun(s, ls) && NoneFailed(s.db)
    ensures Valid(s, ls) && NoneFailed(After(s, ls).db)
    decreases |ls|
  {
    if ls != [] {
      OrderlyStep(s, ls[0]);
      NoneFailedStep(s, ls[0]);
      hide Orderly, Apply, Enabled, NoneFailed;
      NoneFailedRun(Apply(s, ls[0]), ls[1..]);
    }
  }

  // ---------- a question lost to an exception ----------

  const QUESTION := MessagePayload(true, "C", 1, 1, Some(0))

  function Alone(d: Disposition, jobs: seq<Job>, procs: seq<Proc>): State {
    State(Db([Event("e", QUESTION, d)], [], [], [], [], []), jobs, procs, 1)
  }

  const TODO := Job(EventTask(0), Todo)
  const DOING := Job(EventTask(0), Doing)
  const LABELS := [Receive("e", QUESTION, false), ReceiverDefer(0), Fetch(0), EventRaises(1), MarkEventFailed(1),
                   FinishJob(1), ReceiverRead(0)]

  /** The states of the run, one after another. */
  const FRESH := Alone(Received, [], [Receiver(0, ToDefer)])
  const HEARD := Alone(Received, [TODO], [Receiver(0, ToRead)])
  const FETCHED := Alone(Received, [DOING], [Receiver(0, ToRead), Worker(0, Start)])
  const RAISED := Alone(Received, [DOING], [Receiver(0, ToRead), Worker(0, EventFailing)])
  const MARKED := Alone(EventFailed, [DOING], [Receiver(0, ToRead), Worker(0, Done)])
  const ENDED := Alone(EventFailed, [Job(EventTask(0), Finished)], [Receiver(0, ToRead), Gone])
  const LOST := Alone(EventFailed, [Job(EventTask(0), Finished)], [Gone, Gone])

  lemma ListenSteps(s: State)
    requires s == State(EMPTY_DB, [], [], 1)
    ensures Enabled(s, LABELS[0]) && Apply(s, LABELS[0]) == FRESH
    ensures Enabled(FRESH, LABELS[1]) && Apply(FRESH, LABELS[1]) == HEARD
  {
  }

  lemma RaiseSteps()
    ensures Enabled(HEARD, LABELS[2]) && Apply(HEARD, LABELS[2]) == FETCHED
    ensures Enabled(FETCHED, LABELS[3]) && Apply(FETCHED, LABELS[3]) == RAISED
  {
  }

  lemma GiveUpSteps()
    ensures Enabled(RAISED, LABELS[4]) && Apply(RAISED, LABELS[4]) == MARKED
    ensures Enabled(MARKED, LABELS[5]) && Apply(MARKED, LABELS[5]) == ENDED
    ensures Enabled(ENDED, LABELS[6]) && Apply(ENDED, LABELS[6]) == LOST
  {
  }

  lemma Further(s: State, ls: seq<Label>, k: nat, t: State, u: State)
    requires k < |ls| && LateWorkers.Leads(s, ls[..k], t) && Enabled(t, ls[k]) && Apply(t, ls[k]) == u
    ensures LateWorkers.Leads(s, ls[..k + 1], u)
  {
    hide Apply, Enabled;
    assert ls[..k] + [ls[k]] == ls[..k + 1];
    LateWorkers.Then(s, ls[..k], t, ls[k], u);
  }

  lemma LostRun(s: State)
    requires s == State(EMPTY_DB, [], [], 1)
    ensures LateWorkers.Leads(s, LABELS, LOST)
  {
    ListenSteps(s);
    RaiseSteps();
    GiveUpSteps();
    assert LateWorkers.Leads(s, LABELS[..0], s);
    assert |LABELS| == 7 && LABELS[..7] == LABELS;
    hide Apply, Enabled, LateWorkers.Leads, LABELS, FRESH, HEARD, FETCHED, RAISED, MARKED, ENDED, LOST;
    Further(s, LABELS, 0, s, FRESH);
    Further(s, LABELS, 1, FRESH, HEARD);
    Further(s, LABELS, 2, HEARD, FETCHED);
    Further(s, LABELS, 3, FETCHED, RAISED);
    Further(s, LABELS, 4, RAISED, MARKED);
    Further(s, LABELS, 5, MARKED, ENDED);
    Further(s, LABELS, 6, ENDED, LOST);
  }

  /** A question lost to an exception: Slack delivers a mention, its handler raises once, and the protocol
      is over, enabled throughout: nobody at work, no open job, nothing that recovery would submit, and the
      message is stored nowhere. */
  lemma MentionLost()
    ensures exists s, ls ::
              && Initial(s) && Valid(s, ls) && AllEnabled(ls) && Receive("e", QUESTION, false) in ls
              && var end := After(s, ls);
                 && (forall p | 0 <= p < |end.procs| :: end.procs[p] == Gone)
                 && (forall j | 0 <= j < |end.jobs| :: end.jobs[j].status == Finished)
                 && PendingTasks(end.db) == []
                 && !Stored(end.db, QUESTION)
  {
    var s := State(EMPTY_DB, [], [], 1);
    LostRun(s);
    assert LABELS[0] in LABELS;
    hide Apply, Enabled;
    assert PendingTasks(LOST.db) == [] by {
      assert PendingEvents(LOST.db.events[..0]) == [];
    }
  }
}
