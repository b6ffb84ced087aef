/** What the fail-stop assumption is needed for: without it a worker that outlives its job can overwrite a
    finished delivery. The statuses change in exactly one way, and a concrete run shows it. */
module LateWorkers {
  import opened Records
  import opened JobQueue
  import opened Service
  import opened Pipeline
  import opened Tasks
  import opened Integrity
  import opened Protocol
  import opened Deliveries
  import opened FailStop

  /** The step is a completion write of a worker whose output somebody else has finished already, and the
      write's own guard does not stop it. */
  predicate Overwrites(s: State, l: Label, o: nat)
    requires Enabled(s, l)
  {
    || (l.CommitSent? && TaskOf(s, l.p) == OutputTask(o) && OutputStatus(s.db, o) != Sent)
    || (l.CommitDeliveryError? && TaskOf(s, l.p) == OutputTask(o) && Attempts(s.db, o) >= s.maxAttempts
        && OutputStatus(s.db, o) != DeliveryFailed)
  }

  lemma DeliveryOverwrites(s: State, l: Label, o: nat)
    requires DeliveryLabel(l) && DeliveryEnabled(s, l) && o < |s.db.outputs| && s.db.outputs[o].status != Pending
    ensures OutputStatus(ApplyDelivery(s, l).db, o) != OutputStatus(s.db, o) <==> Overwrites(s, l, o)
  {
    hide TsFree, HasMessage;
  }

  /** In every state, whoever works there, a finished delivery changes its status exactly when a late
      completion write overwrites it: the success write unless it is sent already, the failure write when
      no attempt is left. */
  lemma FinishedChangesExactly(s: State, l: Label, o: nat)
    requires Enabled(s, l) && o < |s.db.outputs| && s.db.outputs[o].status != Pending
    ensures OutputStatus(Apply(s, l).db, o) != OutputStatus(s.db, o) <==> Overwrites(s, l, o)
  {
    if DeliveryLabel(l) {
      DeliveryOverwrites(s, l, o);
    } else {
      OnlyDeliveriesDecide(s, l, o);
      hide Apply, Enabled;
    }
  }

  // ---------- a run in which a sent reply ends as failed ----------

  const QUESTION := MessagePayload(true, "C", 1, 1, Some(0))
  const ASKED := Message(0, "C", 1, true, 0)
  const THREAD := Conversation("C", 1)
  const ANSWER := Message(0, "C", 2, false, 0)
  const EVENT_JOB := Job(EventTask(0), Doing)
  const RUN_JOB := Job(RunTask(0, 0), Doing)
  const LISTENER := Receiver(0, ToRead)

  function Reply(status: DeliveryStatus, attempts: nat, ts: Option<Ts>): Output {
    Output(0, 0, "C", ReplyKey(0, Investigation), Investigation, status, attempts, ts)
  }

  function Rows(d: Disposition, messages: seq<Message>, runs: seq<Run>, outputs: seq<Output>): Db {
    Db([Event("e", QUESTION, d)], if messages == [] then [] else [THREAD], messages, runs, outputs, [])
  }

  /** After the listener stored and submitted the event. */
  const HEARD := State(Rows(Received, [], [], []), [Job(EventTask(0), Todo)], [LISTENER], 1)
  /** After the event's worker queued the run. */
  const QUEUED := State(Rows(Processed, [ASKED], [Run(0, 0, RunQueued)], []),
                        [EVENT_JOB, Job(RunTask(0, 0), Todo)], [LISTENER, Worker(0, Done)], 1)
  /** While the run is investigated. */
  const INVESTIGATED := State(Rows(Processed, [ASKED], [Run(0, 0, Running)], []),
                              [EVENT_JOB, RUN_JOB], [LISTENER, Worker(0, Done), Worker(1, FinalGate(Investigation))], 1)

  function Crew3(pos: Position): seq<Proc> {
    [LISTENER, Worker(0, Done), Worker(1, Done), Worker(2, pos)]
  }

  function Delivered(reply: Output, messages: seq<Message>, jobs: seq<Job>, procs: seq<Proc>): State {
    State(Rows(Processed, messages, [Run(0, 0, Succeeded)], [reply]), [EVENT_JOB, RUN_JOB] + jobs, procs, 1)
  }

  /** After the reply was written and submitted. */
  const REPLIED := Delivered(Reply(Pending, 0, None), [ASKED], [Job(OutputTask(0), Todo)],
                             [LISTENER, Worker(0, Done), Worker(1, Done)])
  /** The first worker claimed the reply, and recovery gave its job up while it still lives. */
  const GIVEN_UP := Delivered(Reply(Pending, 1, None), [ASKED], [Job(OutputTask(0), Finished)],
                              Crew3(Posting) + [Gone])
  /** The sweep submitted the reply again. */
  const SUBMITTED := Delivered(Reply(Pending, 1, None), [ASKED],
                               [Job(OutputTask(0), Finished), Job(OutputTask(0), Todo)],
                               Crew3(Posting) + [Gone, Sweep([])])
  /** A second worker posted and recorded the reply. */
  const RECORDED := Delivered(Reply(Sent, 2, Some(2)), [ASKED, ANSWER],
                              [Job(OutputTask(0), Finished), Job(OutputTask(0), Doing)],
                              Crew3(Posting) + [Gone, Sweep([]), Worker(3, Done)])
  /** The first worker's post failed, and it recorded that. */
  const OVERWRITTEN := Delivered(Reply(DeliveryFailed, 2, Some(2)), [ASKED, ANSWER],
                                 [Job(OutputTask(0), Finished), Job(OutputTask(0), Doing)],
                                 Crew3(Done) + [Gone, Sweep([]), Worker(3, Done)])

  /** A run from one state to another. */
  predicate Leads(s: State, ls: seq<Label>, t: State) {
    Valid(s, ls) && After(s, ls) == t
  }

  lemma {:induction false} Then(s: State, ls: seq<Label>, t: State, l: Label, u: State)
    requires Leads(s, ls, t) && Enabled(t, l) && Apply(t, l) == u
    ensures Leads(s, ls + [l], u)
    decreases |ls|
  {
    hide Apply, Enabled;
    if ls == [] {
      assert ls + [l] == [l] && [l][1..] == [];
      assert Valid(u, []) && After(u, []) == u;
    } else {
      assert (ls + [l])[0] == ls[0] && (ls + [l])[1..] == ls[1..] + [l];
      Then(Apply(s, ls[0]), ls[1..], t, l, u);
    }
  }

  /** The listener hears the question and submits it. */
  lemma Hear(s: State) returns (ls: seq<Label>)
    requires Initial(s) && s.maxAttempts == 1
    ensures Leads(s, ls, HEARD)
  {
    hide Leads;
    var t := State(Rows(Received, [], [], []), [], [Receiver(0, ToDefer)], 1);
    EmptyRun(s);
    Then(s, [], s, Receive("e", QUESTION, false), t);
    Then(s, [] + [Receive("e", QUESTION, false)], t, ReceiverDefer(0), HEARD);
    ls := [] + [Receive("e", QUESTION, false)] + [ReceiverDefer(0)];
  }

  lemma EmptyRun(s: State)
    ensures Leads(s, [], s)
  {
  }

  /** A worker stores it and queues its run. */
  lemma Store(s: State, before: seq<Label>) returns (ls: seq<Label>)
    requires Leads(s, before, HEARD)
    ensures Leads(s, ls, QUEUED)
  {
    hide Leads;
    StoreEffect();
    hide ProcessStoredEvent;
    var t := State(HEARD.db, [EVENT_JOB], [LISTENER, Worker(0, Start)], 1);
    var u := State(QUEUED.db, [EVENT_JOB], [LISTENER, Worker(0, ToEnqueue(RunTask(0, 0)))], 1);
    Then(s, before, HEARD, Fetch(0), t);
    ls := before + [Fetch(0)];
    Then(s, ls, t, ProcessEvent(1, ModeOn, 0), u);
    ls := ls + [ProcessEvent(1, ModeOn, 0)];
    Then(s, ls, u, EnqueueNext(1), QUEUED);
    ls := ls + [EnqueueNext(1)];
  }

  lemma StoreEffect()
    ensures ProcessStoredEvent(HEARD.db, 0, ModeOn, 0) == (QUEUED.db, Some(RunTask(0, 0)))
  {
    var db := HEARD.db;
    var upserted := db.(convs := [THREAD]);
    var stored := upserted.(messages := [ASKED], runs := [Run(0, 0, RunQueued)]);
    assert db.convs + [THREAD] == [THREAD] && db.messages + [ASKED] == [ASKED];
    assert db.runs + [Run(0, 0, RunQueued)] == [Run(0, 0, RunQueued)];
    assert UpsertConversation(db, "C", 1, true) == (upserted, Some(0));
    assert StoreTrigger(upserted, 0, "C", 1, 0) == (stored, Some(0));
    assert SetDisposition(stored, 0, Processed) == QUEUED.db;
  }

  /** Another worker investigates. */
  lemma Investigate(s: State, before: seq<Label>) returns (ls: seq<Label>)
    requires Leads(s, before, QUEUED)
    ensures Leads(s, ls, INVESTIGATED)
  {
    hide Leads;
    var rows := INVESTIGATED.db;
    var jobs := [EVENT_JOB, RUN_JOB];
    var start := State(QUEUED.db, jobs, [LISTENER, Worker(0, Done), Worker(1, Start)], 1);
    var gate := State(rows, jobs, [LISTENER, Worker(0, Done), Worker(1, Gate)], 1);
    var busy := State(rows, jobs, [LISTENER, Worker(0, Done), Worker(1, Investigating)], 1);
    NotSuperseded();
    hide Superseded;
    Then(s, before, QUEUED, Fetch(1), start);
    ls := before + [Fetch(1)];
    Then(s, ls, start, StartRun(2, ModeOn), gate);
    ls := ls + [StartRun(2, ModeOn)];
    Then(s, ls, gate, CheckStale(2, ModeOn), busy);
    ls := ls + [CheckStale(2, ModeOn)];
    Then(s, ls, busy, Investigated(2, Investigation), INVESTIGATED);
    ls := ls + [Investigated(2, Investigation)];
  }

  lemma NotSuperseded()
    ensures !Superseded(QUEUED.db, 0) && !Superseded(INVESTIGATED.db, 0)
    ensures forall status, attempts, ts, messages |
              messages == [ASKED] || messages == [ASKED, ANSWER] ::
              !Superseded(Rows(Processed, messages, [Run(0, 0, Succeeded)], [Reply(status, attempts, ts)]), 0)
  {
  }

  /** The run ends and its reply is submitted. */
  lemma Conclude(s: State, before: seq<Label>) returns (ls: seq<Label>)
    requires Leads(s, before, INVESTIGATED)
    ensures Leads(s, ls, REPLIED)
  {
    hide Leads;
    var jobs := [EVENT_JOB, RUN_JOB];
    var ready := State(INVESTIGATED.db, jobs, [LISTENER, Worker(0, Done), Worker(1, Committing(Investigation))], 1);
    var done := State(REPLIED.db, jobs, [LISTENER, Worker(0, Done), Worker(1, ToEnqueue(OutputTask(0)))], 1);
    NotSuperseded();
    CompleteEffect();
    hide Superseded, CompleteRun;
    Then(s, before, INVESTIGATED, CheckStale(2, ModeOn), ready);
    ls := before + [CheckStale(2, ModeOn)];
    Then(s, ls, ready, CommitRun(2), done);
    ls := ls + [CommitRun(2)];
    Then(s, ls, done, EnqueueNext(2), REPLIED);
    ls := ls + [EnqueueNext(2)];
  }

  lemma CompleteEffect()
    ensures CompleteRun(INVESTIGATED.db, 0, Investigation) == (REPLIED.db, Some(0))
  {
    var db := INVESTIGATED.db;
    assert db.outputs + [Reply(Pending, 0, None)] == [Reply(Pending, 0, None)];
    assert db.runs[0 := Run(0, 0, Succeeded)] == [Run(0, 0, Succeeded)];
    assert RunOutput(INVESTIGATED.db, 0, ReplyKey(0, Investigation), Investigation) == Reply(Pending, 0, None);
  }

  /** A third worker claims the reply; its heartbeat expires and its job is released while it lives. */
  lemma GiveUp(s: State, before: seq<Label>) returns (ls: seq<Label>)
    requires Leads(s, before, REPLIED)
    ensures Leads(s, ls, GIVEN_UP)
  {
    hide Leads;
    var doing := [Job(OutputTask(0), Doing)];
    var start := Delivered(Reply(Pending, 0, None), [ASKED], doing, Crew3(Start));
    var posting := Delivered(Reply(Pending, 1, None), [ASKED], doing, Crew3(Posting));
    var expired := Delivered(Reply(Pending, 1, None), [ASKED], doing, Crew3(Posting) + [Release(2)]);
    NotSuperseded();
    hide Superseded;
    Then(s, before, REPLIED, Fetch(2), start);
    ls := before + [Fetch(2)];
    Then(s, ls, start, StartDelivery(3, ModeOn), posting);
    ls := ls + [StartDelivery(3, ModeOn)];
    Then(s, ls, posting, Recover(2, ModeOn), expired);
    ls := ls + [Recover(2, ModeOn)];
    Then(s, ls, expired, ReleaseJob(4), GIVEN_UP);
    ls := ls + [ReleaseJob(4)];
  }

  const SWEPT := Delivered(Reply(Pending, 1, None), [ASKED], [Job(OutputTask(0), Finished)],
                           Crew3(Posting) + [Gone, Sweep([OutputTask(0)])])

  lemma SweepStep()
    ensures Enabled(GIVEN_UP, StartSweep) && Apply(GIVEN_UP, StartSweep) == SWEPT
  {
    OnlyReplyPending();
    hide PendingTasks;
  }

  lemma SubmitStep()
    ensures Enabled(SWEPT, SweepNext(5)) && Apply(SWEPT, SweepNext(5)) == SUBMITTED
  {
    assert SWEPT.jobs + [Job(OutputTask(0), Todo)] == SUBMITTED.jobs && [OutputTask(0)][1..] == [];
    assert SWEPT.procs[5 := Sweep([])] == SUBMITTED.procs;
  }

  /** The sweep finds the reply pending and submits it again. */
  lemma Submit(s: State, before: seq<Label>) returns (ls: seq<Label>)
    requires Leads(s, before, GIVEN_UP)
    ensures Leads(s, ls, SUBMITTED)
  {
    hide Leads, Apply, Enabled;
    SweepStep();
    SubmitStep();
    Then(s, before, GIVEN_UP, StartSweep, SWEPT);
    ls := before + [StartSweep];
    Then(s, ls, SWEPT, SweepNext(5), SUBMITTED);
    ls := ls + [SweepNext(5)];
  }

  lemma OnlyReplyPending()
    ensures PendingTasks(GIVEN_UP.db) == [OutputTask(0)]
  {
    var db := GIVEN_UP.db;
    assert db.events[..0] == [] && db.runs[..0] == [] && db.outputs[..0] == [];
    assert PendingEvents(db.events) == [] && PendingRuns(db.runs) == [];
    assert PendingOutputs(db.outputs) == [OutputTask(0)];
  }

  /** A fourth worker posts the reply and records it as sent. */
  lemma Record(s: State, before: seq<Label>) returns (ls: seq<Label>)
    requires Leads(s, before, SUBMITTED)
    ensures Leads(s, ls, RECORDED)
  {
    hide Leads;
    var jobs := [Job(OutputTask(0), Finished), Job(OutputTask(0), Doing)];
    var others := Crew3(Posting) + [Gone, Sweep([])];
    var start := Delivered(Reply(Pending, 1, None), [ASKED], jobs, others + [Worker(3, Start)]);
    var posting := Delivered(Reply(Pending, 2, None), [ASKED], jobs, others + [Worker(3, Posting)]);
    var posted := Delivered(Reply(Pending, 2, None), [ASKED], jobs, others + [Worker(3, Posted)]);
    NotSuperseded();
    hide Superseded;
    Then(s, before, SUBMITTED, Fetch(3), start);
    ls := before + [Fetch(3)];
    Then(s, ls, start, StartDelivery(6, ModeOn), posting);
    ls := ls + [StartDelivery(6, ModeOn)];
    Then(s, ls, posting, PostAccepted(6), posted);
    ls := ls + [PostAccepted(6)];
    Then(s, ls, posted, CommitSent(6, 2, 0), RECORDED);
    ls := ls + [CommitSent(6, 2, 0)];
  }

  /** The third worker's own post fails, and it records a failure over the sent reply. */
  lemma Overwrite(s: State, before: seq<Label>) returns (ls: seq<Label>)
    requires Leads(s, before, RECORDED)
    ensures Leads(s, ls, OVERWRITTEN) && before <= ls
  {
    hide Leads;
    var failed := RECORDED.(procs := Crew3(PostFailed) + [Gone, Sweep([]), Worker(3, Done)]);
    Then(s, before, RECORDED, PostRejected(3), failed);
    ls := before + [PostRejected(3)];
    Then(s, ls, failed, CommitDeliveryError(3), OVERWRITTEN);
    ls := ls + [CommitDeliveryError(3)];
  }

  /** Without the fail-stop assumption finality is lost: in this run a reply that was sent, and recorded
      as sent, ends as failed, because a worker outlived its heartbeat. */
  lemma SentThenFailed(s: State) returns (sent: seq<Label>, failed: seq<Label>)
    requires Initial(s) && s.maxAttempts == 1
    ensures Valid(s, sent) && OutputStatus(After(s, sent).db, 0) == Sent
    ensures Valid(s, failed) && OutputStatus(After(s, failed).db, 0) == DeliveryFailed
    ensures sent <= failed
  {
    hide Initial, Valid, After;
    var ls := Hear(s);
    ls := Store(s, ls);
    ls := Investigate(s, ls);
    ls := Conclude(s, ls);
    ls := GiveUp(s, ls);
    ls := Submit(s, ls);
    sent := Record(s, ls);
    failed := Overwrite(s, sent);
  }
}
