# Cerebro: a verified model

Cerebro answers payment questions asked in Slack. A question becomes a stored event, a message, a run, a
reply in an outbox, and finally a Slack message; several workers, a job queue and a periodic recovery job
act on one database, and any process may die between two commits. The answer itself comes from a language
model that is not trusted: it may only point at evidence that the run's tools have registered.

This project models that system in Dafny and proves what its users rely on. It has four parts.

**The question-to-reply protocol.** `Records` holds the tables, `JobQueue` the job queue by the contract of its
two kinds of locks, and `Service`, `Pipeline` and `Tasks` the transactions, each as an imperative method on the
tables proved equal to a function of the rows. `Protocol` puts them into a transition system: one step is one
committed transaction or one external call, and a label carries the mode, the clock, Slack's answer and who acts.
`Effects` says of the state before and after it what each step of a worker does. `Integrity`, `Questions`,
`Addresses`, `Deliveries` and `Gates` prove what holds over every interleaving, workers that outlive their job
included: what may start, what may be posted, and in which order. `Mentions` follows what Slack delivered until it is
stored, and `Reactions` what reactions hang on. `FailStop` adds the assumption that an expired heartbeat means a dead
worker and a database failure a dying one; `Draining` and `Rest` prove that the protocol then comes to rest with
every question answered, however the ticks of the recovery job overlap with the work. `LateWorkers` shows what is
lost without the assumption.

**The evidence ledger and the decision.** `Matching` compares normalized texts, `Candidates` turns rows of the
replica into signals and says exactly which row gives which evidence, `Ledger` registers them, `Histories` says
exactly what a ledger holds after any calls, `Decision` maps a model answer to a grounded identification,
`Repetition` shows that looking twice changes nothing, `Audit` is the independently written auditor with the
theorems about every history of tool calls, and `Answers` says, by kinds of evidence, exactly when an answer is a
match, how sure it is, and what outranks what. `Turns` is the turn budget and the correction loop.

**Source links and bounded reads.** `Catalog` compiles a path of foreign keys into a query and gives both a
meaning, `Fetching` is the bounded read, and `Sources` the verification that uses them.

**Text.** `Wording` counts and clips words, `Rendering` builds the Slack reply, `Layout` and `Content` prove
that the reply is never too long and never leaves out what it must say.

## Four properties that do not hold as one might expect

- A delivery that was recorded as sent, failed or cancelled is not final when a worker outlives its heartbeat: the
  completion writes do not look at the status again (`api/src/cerebro/slack/pipeline.py:619-624`, `632-637`).
  `LateWorkers.SentThenFailed` is such a run, `LateWorkers.FinishedChangesExactly` says exactly which steps change
  a finished delivery, and `FailStop.DeliveriesFinal` proves finality under the per-output lock.
- A question that Slack delivered can be lost: when the transaction that processes its event raises once, the event is
  marked failed (`api/src/cerebro/slack/service.py:267-281`), and the recovery job never selects it again
  (`api/src/cerebro/jobs/tasks.py:49-57`). `Mentions.MentionLost` is such a run. `Mentions.DeliveredExactly` says
  exactly when an event that waits no more was processed, late workers and exceptions included, and that its message
  is then stored; `Rest.EveryQuestionAnswered` proves under fail-stop, where no handler ends by an exception, that
  every delivered question is stored and answered.
- An untruncated read is complete in its rows and in its texts, but a value of another kind whose text is longer
  than 2000 characters is cut without a mark (`api/src/cerebro/replica/database.py:42-49`).
  `Fetching.ShortenedUnmarked` is an instance, and `Fetching.UntruncatedExact` says exactly when nothing is lost.
- A conversation in Vambe never outweighs another payer, and never supports an exact amount: both rules ask for a
  confirmed payment (`api/src/cerebro/agent/openai_runner.py:532-536`, `565-571`), while the only tool that reads
  Vambe reports mentions (`api/src/cerebro/replica/investigation.py:1376-1387`). `Histories.EvidencePlain` proves
  it for every history, and `Answers.RunMatchedExactly` gives the simpler rule that is left: a match of a run has
  no contradiction at all.

## Model

| member | source | states |
|---|---|---|
| `JobQueue.Queue.Defer` | api/src/cerebro/jobs/enqueue.py:8-40 | a job is deferred exactly when none with the same queueing lock is still to do, and the result says whether it was |
| `JobQueue.Queue.EnqueueSlackEvent` | api/src/cerebro/jobs/enqueue.py:8-16 | afterwards the event has a job to do, both locks hold, and the result is true exactly if a job was added |
| `JobQueue.Queue.EnqueueAgentRun` | api/src/cerebro/jobs/enqueue.py:19-28 | the same for a run, whose job carries the lock of its conversation |
| `JobQueue.Queue.EnqueueSlackOutput` | api/src/cerebro/jobs/enqueue.py:31-40 | the same for an output, whose job carries the lock of that output |
| `JobQueue.EnqueueKeepsLocks` | api/src/cerebro/jobs/enqueue.py:8-40 | enqueueing keeps at most one job to do per queueing lock and at most one running job per execution lock |
| `JobQueue.FetchKeepsLocks` | api/src/cerebro/jobs/enqueue.py:19-40 | a job may start exactly when nobody runs under its execution lock |
| `JobQueue.Queue.FinishJob` | api/src/cerebro/jobs/tasks.py:129-130 | only a running job is finished, and the locks hold on |
| `Service.ReceiveEvent` | api/src/cerebro/slack/service.py:33-56 | an event is stored once per Slack identifier, settled if it is ignored on arrival; the caller learns its identifier only when it is new |
| `Service.MarkDisposition` | api/src/cerebro/slack/service.py:57-62 | the late write sets the disposition whatever it is by then |
| `Service.StoreMessageEvent` | api/src/cerebro/slack/service.py:66-160 | the transaction of a message event: conversation, message, run and disposition, and the job to submit |
| `Service.StoreReactionEvent` | api/src/cerebro/slack/service.py:163-240 | the transaction of a reaction: feedback, flavor output and disposition, and the job to submit |
| `Service.ProcessEvent` | api/src/cerebro/slack/service.py:243-266 | a settled event is left alone, a disabled process ignores it, and otherwise its kind decides |
| `Pipeline.StartRun` | api/src/cerebro/slack/pipeline.py:245-322 | the run starts exactly if it is queued, Cerebro is enabled and no inbound message of its conversation is newer than its question; any other queued run ends cancelled, and a run not queued is left alone |
| `Pipeline.StopIfStale` | api/src/cerebro/slack/pipeline.py:148-180 | the worker goes on exactly if its run is queued or running, Cerebro is enabled and no newer question came; otherwise such a run ends cancelled |
| `Pipeline.FinishRun` | api/src/cerebro/slack/pipeline.py:406-476 | only a running run succeeds, together with its one reply |
| `Pipeline.AbandonRun` | api/src/cerebro/slack/pipeline.py:520-565 | only a running run fails, together with its error notice while enabled |
| `Pipeline.ClaimDelivery` | api/src/cerebro/slack/pipeline.py:574-606 | the output may be posted exactly if it is pending, Cerebro is enabled and, for a reply, no newer question came, and then has one more attempt; any other pending one ends cancelled with its attempts unchanged |
| `Pipeline.RecordDeliveryError` | api/src/cerebro/slack/pipeline.py:617-625 | the output fails once its attempts reached the maximum, whatever its status |
| `Pipeline.RecordDeliverySent` | api/src/cerebro/slack/pipeline.py:630-656 | an output not yet sent becomes sent, and the message is stored unless its identity is known |
| `Tasks.PendingTasksExact` | api/src/cerebro/jobs/tasks.py:49-78 | the recovery job submits a task exactly when its event, run or output still waits |
| `Tasks.EnqueueAllCovers` | api/src/cerebro/jobs/tasks.py:73-78 | after one pass every submitted task has a job to do, and no earlier job changed |
| `Tasks.RecoverPendingWork` | api/src/cerebro/jobs/tasks.py:45-78 | one pass leaves every waiting event, run and output with a job to do |
| `Tasks.ReleaseJob` | api/src/cerebro/jobs/tasks.py:92-130 | the run a stalled job left running fails before the job gives its lock back |
| `Tasks.RecoverInterruptedJobs` | api/src/cerebro/jobs/tasks.py:89-130 | releasing the stalled jobs one after another, with both locks kept |
| `Tasks.ReleaseAllFrees` | api/src/cerebro/jobs/tasks.py:89-130 | afterwards exactly the stalled running jobs are finished and exactly the running runs they held have failed |
| `Integrity.ProcessStoredEventSound` | api/src/cerebro/slack/service.py:243-266 | processing an event, however often, keeps every unique key, one run per inbound message, and feedback and flavor outputs on succeeded runs |
| `Integrity.NoOutputYet` | api/src/cerebro/slack/pipeline.py:406-476 | a run that is not finished owns no output, so its reply and error keys are free although they differ |
| `Integrity.CompleteRunSound` | api/src/cerebro/slack/pipeline.py:406-476 | completing keeps all keys and gives a running run, and no other, exactly one new reply |
| `Integrity.FailRunSound` | api/src/cerebro/slack/pipeline.py:520-565 | failing keeps all keys and gives a running run, and no other, exactly one error notice while enabled |
| `Integrity.ClaimOutputSound` | api/src/cerebro/slack/pipeline.py:574-606 | a claim touches nothing but the delivery columns of one output |
| `Integrity.DeliverySentSound` | api/src/cerebro/slack/pipeline.py:630-656 | recording a sent reply keeps every key, given that Slack timestamps of outputs are unique |
| `Protocol.StepConsistent` | api/src/cerebro/slack/pipeline.py:243-656 | every step of every process keeps the database sound, the locks, and the place of every process |
| `Protocol.RunsConsistent` | api/src/cerebro/slack/pipeline.py:243-656 | so does every run, over every interleaving, crash and late worker |
| `Protocol.RunAutomaton` | api/src/cerebro/slack/pipeline.py:246-271 | over any number of steps a run goes from queued to running to one terminal status, or from queued to cancelled, and stays there; its message and conversation never change |
| `Effects.ReceiveDecides` | api/src/cerebro/slack/service.py:33-56 | a known event identifier changes nothing; a new one is stored once, settled without a follow-up if ignored on arrival, else waiting with one process that submits it |
| `Effects.DisabledEventIgnored` | api/src/cerebro/slack/service.py:243-261 | a disabled process settles an event and does nothing else |
| `Effects.OtherEventIgnored` | api/src/cerebro/slack/service.py:243-266 | an event that is neither a message nor a reaction is settled and does nothing else |
| `Effects.EventSubmits` | api/src/cerebro/slack/service.py:282-286 | after its transaction the worker submits exactly what the event asks for |
| `Effects.SubmitDecides` | api/src/cerebro/jobs/enqueue.py:8-40 | whoever submits a task, intake and recovery included, leaves it with a job to do and adds at most that one |
| `Effects.ReactionTakesEffect` | api/src/cerebro/slack/service.py:163-240 | a reaction that points at no posted reply is ignored; otherwise a flavor output is added and submitted exactly if an electric plug was added and this user has none on this reply |
| `Effects.StartDecides` | api/src/cerebro/slack/pipeline.py:246-271 | what a start does to the whole state: it runs if wanted, is cancelled if queued and not wanted, and nothing else moves |
| `Effects.CheckDecides` | api/src/cerebro/slack/pipeline.py:148-180 | what a staleness check does to the whole state, before and after the investigation |
| `Effects.FinishDecides` | api/src/cerebro/slack/pipeline.py:406-476 | a result is committed exactly on a running run: it succeeds and its reply, to its own channel, is added and submitted; a run that somebody else ended is left alone |
| `Effects.FailureDecides` | api/src/cerebro/slack/pipeline.py:520-565 | a raised investigation fails a running run and adds and submits its notice; any other run is left alone |
| `Effects.RecoverDecides` | api/src/cerebro/jobs/tasks.py:92-130 | releasing a stalled job fails the run it left running, with a notice exactly if Cerebro is enabled, and changes no other row |
| `Effects.DeliveryDecides` | api/src/cerebro/slack/pipeline.py:572-606 | what a claim does to the whole state: a deliverable output gets one more attempt and is posted next, any other pending one is cancelled |
| `Effects.RecordDecides` | api/src/cerebro/slack/pipeline.py:617-656 | a recorded failure ends the output exactly when its attempts are used up; a recorded post makes it sent under its timestamp and stores the message unless known |
| `Gates.StartsOnlyWanted` | api/src/cerebro/slack/pipeline.py:246-271 | in every reachable state a run becomes running only by the claim of an enabled worker on that queued run, and no inbound message of its conversation is newer than its question |
| `Gates.StartOrder` | api/src/cerebro/slack/pipeline.py:266-271 | in each conversation the questions whose investigations start were asked in nondecreasing order, over every interleaving, crash and late worker |
| `Gates.PostsOnlyDeliverable` | api/src/cerebro/slack/pipeline.py:574-608 | a worker comes to post only by the claim of an enabled process on a pending output that no newer question made obsolete |
| `Gates.DisabledPostsNothing` | api/src/cerebro/slack/pipeline.py:595-599 | while every process reads that Cerebro is disabled, no more messages are posted than workers were already posting when that began |
| `Gates.DisabledTakesNothingOn` | api/src/cerebro/slack/pipeline.py:249-253 | and over every such run no run starts, no run or output is added, and no attempt is made |
| `Questions.ReplyExclusive` | api/src/cerebro/slack/pipeline.py:406-565 | in every reachable state a succeeded run has exactly one reply and no notice, a failed one no reply and at most one notice, any other neither |
| `Questions.IntakeUnique` | api/src/cerebro/db/models.py:34-155 | in every reachable state messages, events and conversations are stored once, every inbound message has exactly one run, and a reply and a user share at most one flavor output |
| `Questions.MessageTakesEffect` | api/src/cerebro/slack/service.py:143-160 | a message in an unknown thread without a mention stores nothing; any other new one is stored once in its thread with its own time and gets one queued run; a known one changes nothing |
| `Questions.FeedbackFollowsReaction` | api/src/cerebro/slack/service.py:177-207 | a feedback row is active exactly if its reaction was added last, and no other row changes |
| `Questions.ReprocessingAddsNothing` | api/src/cerebro/slack/service.py:57-62 | once an event took effect, processing it again at any later time, even after its disposition was set back, adds no message, run or output |
| `Questions.ReactionToOtherOutputIgnored` | api/src/cerebro/slack/service.py:165-176 | a reaction to a flavor or error message is ignored and stores nothing |
| `Questions.StepKept` | api/src/cerebro/slack/pipeline.py:148-171 | while enabled, every step that cancels a run or output has a strictly newer inbound message to show, and every step that fails a run leaves a notice |
| `Questions.CancelledOnlyIfSuperseded` | api/src/cerebro/slack/pipeline.py:249-271 | while enabled, over every run: whatever is cancelled was superseded by a strictly newer message of its conversation |
| `Questions.NoQuestionLost` | api/src/cerebro/slack/pipeline.py:579-599 | while enabled, whenever nothing is left to run or deliver, the newest question of every conversation has a succeeded or failed run with one answer, sent or given up on |
| `Mentions.ReceivedAccepted` | api/src/cerebro/slack/service.py:33-56 | a new mention that is not ignored on arrival is accepted |
| `Mentions.DeliveredExactly` | api/src/cerebro/slack/service.py:243-281 | over every run while enabled, an accepted message is never dropped; once its event waits no more, it was processed exactly if an exception was not the last thing that happened to it, and then it is stored |
| `Mentions.FailedExactly` | api/src/cerebro/slack/service.py:267-281 | over every run an event is marked failed exactly if its own exception branch was the last to write its disposition |
| `Mentions.NoneFailedRun` | api/src/cerebro/slack/service.py:267-281 | under fail-stop no event is ever marked failed |
| `Mentions.MentionLost` | api/src/cerebro/slack/service.py:267-281 | a complete run from the empty database, enabled throughout, after which a delivered mention is stored nowhere and recovery has nothing to submit |
| `Reactions.RunsAnchored` | api/src/cerebro/slack/service.py:163-240 | over every run in which no late worker posts an output again, feedback and flavor outputs belong to the run and conversation of a reply posted where the reaction points |
| `Reactions.ReactionsOnReplies` | api/src/cerebro/slack/service.py:163-240 | in every fail-stop state they do, and no flavor or error message was ever posted there |
| `Addresses.AnswersGoHome` | api/src/cerebro/slack/pipeline.py:460-475 | in every reachable state an output is addressed to the channel and the conversation, hence the thread, its question was asked in, and a sent one is stored as a message under its Slack timestamp |
| `Deliveries.ReplyOrder` | api/src/cerebro/slack/pipeline.py:574-601 | in each conversation the passing claims occur in nondecreasing order of the time their question was asked, for every interleaving and retry |
| `Deliveries.AttemptsCountClaims` | api/src/cerebro/slack/pipeline.py:600-601 | the attempts of an output are the number of claims, whoever made them |
| `Deliveries.PendingAccounted` | api/src/cerebro/slack/pipeline.py:617-625 | a pending output has fewer attempts than the maximum plus the claims in flight and the claims that died |
| `FailStop.RunsOrderly` | api/src/cerebro/jobs/tasks.py:89-130 | under fail-stop every step keeps each running job with at most one live worker, each delivery exclusive, and each running run held by a running job |
| `FailStop.OneRunPerConversation` | api/src/cerebro/jobs/enqueue.py:19-28 | a running run has a running job with the lock of its conversation, so no two of one conversation run at once |
| `FailStop.DeliveryFinal` | api/src/cerebro/slack/pipeline.py:617-637 | under the per-output lock one step never changes a finished delivery |
| `FailStop.DeliveriesFinal` | api/src/cerebro/jobs/enqueue.py:31-40 | what was sent, failed or cancelled stays so over every fail-stop run |
| `FailStop.PostsNeedClaims` | api/src/cerebro/slack/pipeline.py:600-608 | every call that posts uses up a claim of its own |
| `FailStop.PostsBounded` | api/src/cerebro/slack/pipeline.py:617-625 | executions without crashes post an output at most as often as the configured maximum |
| `LateWorkers.FinishedChangesExactly` | api/src/cerebro/slack/pipeline.py:619-637 | in every state, a finished delivery changes its status exactly when a late completion write overwrites it: success unless it is sent already, failure when no attempt is left |
| `LateWorkers.SentThenFailed` | api/src/cerebro/slack/pipeline.py:619-624 | a complete run from the empty database in which a reply recorded as sent ends as failed |
| `Draining.ProcessEventWeight` | api/src/cerebro/slack/service.py:243-266 | an event that is processed lowers the weight of what is pending by more than the run or output it creates adds |
| `Draining.FinalizeWeight` | api/src/cerebro/slack/pipeline.py:406-565 | a finished run outweighs the output it leaves |
| `Draining.ClaimOutputWeight` | api/src/cerebro/slack/pipeline.py:574-601 | a claim spends a remaining attempt; only a claim without one leaves the weight |
| `Draining.StepCloser` | api/src/cerebro/jobs/tasks.py:45-130 | every step that is neither a new event nor a tick lowers a natural number, a crash included, and none adds to what is pending |
| `Draining.InternalRunsEnd` | api/src/cerebro/jobs/tasks.py:45-130 | so no such run is longer than that number |
| `Rest.AttendedStep` | api/src/cerebro/jobs/tasks.py:89-130 | without crashes no running job is ever left without its worker, whatever ticks and releases do |
| `Rest.TickCovers` | api/src/cerebro/jobs/tasks.py:49-78 | right after a tick every waiting event, run and output has somebody to work on it |
| `Rest.CoverStep` | api/src/cerebro/jobs/tasks.py:49-78 | a step, a tick or a release included, either lowers the weight or leaves everything that waits with a job to do, a worker or a sweep, among those there were |
| `Rest.HeldStep` | api/src/cerebro/jobs/tasks.py:96-128 | while nothing waits, a step lowers the weight or leaves every running investigation with the job that held it |
| `Rest.OnwardRunsEnd` | api/src/cerebro/jobs/tasks.py:43-78 | without new events, however ticks overlap with the work, the number of steps is bounded by the rank and the number of ticks and releases |
| `Rest.WeightlessRests` | api/src/cerebro/jobs/tasks.py:49-78 | the weight is zero exactly when no row waits or runs and no listener can set its event back |
| `Rest.StuckIsIdle` | api/src/cerebro/slack/pipeline.py:243-656 | without dead workers, the protocol only stops when nobody is at work and no job is open: every live process can always take its next step |
| `Rest.RoundDrains` | api/src/cerebro/jobs/tasks.py:45-130 | anything at all, then a tick, then stretches without a crash in which those at work get through while other ticks and releases overlap: the weight falls, or nothing is left to do |
| `Rest.RoundsDrain` | api/src/cerebro/jobs/tasks.py:45-130 | in any run without new events, as many rounds as the weight counts bring it to zero, wherever crashes, releases and ticks fall between them |
| `Rest.StuckMakesRound` | api/src/cerebro/jobs/tasks.py:89-130 | the work after a tick that goes on until nobody can take a step makes a round |
| `Rest.RoundPossible` | api/src/cerebro/jobs/tasks.py:89-130 | from every fail-stop state a round is possible while enabled |
| `Rest.RoundsPossible` | api/src/cerebro/jobs/tasks.py:89-130 | and so is any number of rounds |
| `Rest.EveryQuestionAnswered` | api/src/cerebro/slack/pipeline.py:579-599 | whatever happened before, while enabled, once as many rounds have gone by as the weight counts and ever after: nothing is left to do, the newest question of every conversation is answered, and every message delivered for Cerebro is stored and answered or superseded |
| `Matching.TokensOfJoin` | api/src/cerebro/replica/investigation.py:194-199 | splitting a normalized text gives back the tokens it was joined from |
| `Matching.TokensApart` | api/src/cerebro/replica/investigation.py:194-199 | texts put side by side with a space have the tokens of the one, then those of the other |
| `Matching.PlainIdempotent` | api/src/cerebro/replica/investigation.py:194-199 | normalizing twice is normalizing once, and loses no token |
| `Matching.ExactAddressIsSublist` | api/src/cerebro/replica/investigation.py:339-342 | the space-padded substring test holds exactly when the address has tokens and they occur, contiguously, among those of the payment text |
| `Matching.ExactImpliesPartial` | api/src/cerebro/replica/investigation.py:275-286 | an exact address passes the partial test as well, unless it has no number or fewer than two words |
| `Matching.StrongMatchLaws` | api/src/cerebro/replica/investigation.py:225-246 | a strong name match is symmetric, and holds for a name contained in another as soon as two tokens remain |
| `Matching.TokensKeepText` | api/src/cerebro/replica/investigation.py:194-199 | cutting a text into tokens loses no letter and no digit and adds nothing |
| `Matching.StrongExactly` | api/src/cerebro/replica/investigation.py:225-246 | two names match strongly exactly when they share at least two tokens that count and at most a quarter of those of one is missing in the other |
| `Matching.PartialExactly` | api/src/cerebro/replica/investigation.py:275-286 | an address is partly in a text exactly when it has a number, all its numbers are there, and at least two and seven tenths of its words of three letters |
| `Matching.FragmentsExactly` | api/src/cerebro/replica/investigation.py:253-260 | a name shares a fragment exactly when some token of four letters or more that counts is in both |
| `Candidates.BuildRowCandidate` | api/src/cerebro/replica/investigation.py:321-595 | the evidence list of an eligible row, check by check |
| `Candidates.BuildPersonCandidate` | api/src/cerebro/replica/investigation.py:598-743 | the evidence list of an identity without an account receivable |
| `Candidates.RowMarksExact` | api/src/cerebro/replica/investigation.py:321-595 | kind by kind, exactly when a row gives it: which name comparison gives which evidence, a conflict of identity exactly when the transferor strongly matches neither name nor signee, is in no bank holder and shares no fragment, the four amount cases, and RUT, account, email and phone; only the three conflicts contradict |
| `Candidates.PersonMarksExact` | api/src/cerebro/replica/investigation.py:598-743 | the same for identities, kind by kind; they never contradict |
| `Candidates.DigitsExactly` | api/src/cerebro/replica/investigation.py:313-314 | comparing digits passes over everything else and nothing but that |
| `Candidates.CandidateSpeaks` | api/src/cerebro/replica/investigation.py:289-310 | the signals of a candidate are exactly what its row says, and contradict exactly when they are conflicts |
| `Candidates.ConflictsOnce` | api/src/cerebro/replica/investigation.py:321-595 | a row conflicts with a payment at most once in each way |
| `Candidates.SearchFindsExactly` | api/src/cerebro/replica/investigation.py:746-763 | a search returns exactly the rows that tell something and, if it asked for a person, the people who do and whose order has no such row |
| `Candidates.VerifyFindsExactly` | api/src/cerebro/replica/investigation.py:1170-1204 | a verification returns every row it read, and the identity only when there is none and no account was asked for |
| `Candidates.CandidatesWellRead` | api/src/cerebro/replica/investigation.py:289-310 | every signal of a search or verification names the order, account and tool of the one row it was read from |
| `Ledger.RunState.RegisterSignal` | api/src/cerebro/agent/openai_runner.py:157-160 | a signal gets the next identifier and is appended |
| `Ledger.RunState.RegisterObserved` | api/src/cerebro/agent/openai_runner.py:187-202 | all signals of all candidates are registered in order, and verified candidates stored under their key |
| `Ledger.RunState.RecordObservation` | api/src/cerebro/agent/openai_runner.py:162-202 | the whole effect of one observation on the ledger, counters included |
| `Ledger.RunState.InvokeTool` | api/src/cerebro/agent/openai_runner.py:204-253 | a call that answers leaves its signals and a succeeded record, a raised one only a failed record |
| `Histories.EvidenceExactly` | api/src/cerebro/agent/openai_runner.py:157-253 | after any calls the ledger holds exactly the evidence that the answered calls gave: nothing is lost and nothing added |
| `Histories.SearchSays` | api/src/cerebro/replica/investigation.py:1126-1168 | a search gives exactly the signals of its candidates |
| `Histories.VerificationSays` | api/src/cerebro/replica/investigation.py:1170-1312 | an answered verification gives the signals of its candidates and, to each of them, one weak signal for every accepted source |
| `Histories.VambeExactly` | api/src/cerebro/replica/investigation.py:1376-1396 | a run has evidence from Vambe exactly when some search for that order asked about the customer and found a message, and it is a supporting mention of the order and of no account |
| `Histories.EvidencePlain` | api/src/cerebro/replica/investigation.py:1376-1387 | in every run a signal contradicts exactly if its kind is a conflict, and none confirms a payment by Vambe |
| `Histories.VerifiedExactly` | api/src/cerebro/agent/openai_runner.py:187-202 | a candidate may be recommended exactly when an answered verification of the run returned it |
| `Histories.VerificationAnswers` | api/src/cerebro/agent/openai_runner.py:443-463 | a verification is answered exactly when every record it links was seen before |
| `Histories.AvailableExactly` | api/src/cerebro/agent/openai_runner.py:162-222 | the run remembers of every tool exactly whether its last call was answered |
| `Decision.ResolveCandidate` | api/src/cerebro/agent/openai_runner.py:480-495 | a resolved key is verified and of the named order |
| `Decision.SelectedSignals` | api/src/cerebro/agent/openai_runner.py:508-522 | selected signals are registered, about the candidate, and not none |
| `Decision.FindAlternatives` | api/src/cerebro/agent/openai_runner.py:648-679 | the alternatives are the resolved values, sorted by rank and cut to three, with their evidence without duplicates |
| `Decision.SortByRankLaws` | api/src/cerebro/agent/openai_runner.py:676-678 | the sort is by descending rank, keeps exactly its items, and keeps the order of equal ranks |
| `Decision.DeduplicateSignals` | api/src/cerebro/agent/openai_runner.py:574-591 | one pass keeps the first signal of every identifier |
| `Decision.DeduplicateDistinct` | api/src/cerebro/agent/openai_runner.py:574-591 | no identifier is left twice |
| `Decision.MapOutputConsistent` | api/src/cerebro/agent/models.py:136-156 | every mapped answer passes the validator of identifications, and none is out of scope |
| `Decision.MatchUnique` | api/src/cerebro/agent/openai_runner.py:773-785 | on one ledger all answers that come out matched name the same verified candidate |
| `Decision.SupportNeverLowers` | api/src/cerebro/agent/openai_runner.py:539-572 | a supporting signal never lowers confidence or rank |
| `Decision.ContradictionLowers` | api/src/cerebro/agent/openai_runner.py:524-572 | a contradicting signal never raises confidence and strictly lowers the rank |
| `Decision.RepetitionNeutral` | api/src/cerebro/agent/openai_runner.py:539-572 | one more signal of a kind already seen with its polarity changes neither confidence nor the seven supporting components of the rank |
| `Repetition.ObservationRepeated` | api/src/cerebro/agent/openai_runner.py:157-202 | for every ledger, registering the same observation again, at once or after any others, changes neither the confidence in any candidate nor the seven supporting components of its rank, then or after whatever is registered later |
| `Repetition.CallRepeated` | api/src/cerebro/agent/openai_runner.py:204-253 | making a tool call of the run again changes neither for any candidate, in every history; a verification must have been answered the first time |
| `Decision.OrderIrrelevant` | api/src/cerebro/agent/openai_runner.py:539-572 | rank and confidence do not depend on the order of the signals |
| `Answers.SelectedExactly` | api/src/cerebro/agent/openai_runner.py:508-522 | a citation is accepted exactly when something is cited, all of it is registered about the candidate, and some of it supports |
| `Answers.MatchedExactly` | api/src/cerebro/agent/openai_runner.py:730-803 | an answer is a match exactly when it names a verified candidate with valid citations, cites an exact address, an identity or a supported exact amount, nothing in the ledger stands against the candidate, and its evidence is stronger than that of all others; confidence is high exactly with a cited exact address |
| `Answers.RunMatchedExactly` | api/src/cerebro/agent/openai_runner.py:525-572 | for every history: an answer is a match exactly when the same holds with not one signal of the ledger contradicting the candidate, and with an amount backed by something else than Vambe |
| `Answers.MatchRests` | api/src/cerebro/agent/openai_runner.py:730-803 | for every history and answer, a match cites supporting signals about its candidate: an exact address, a name, a RUT, an email or a phone, or the exact amount with a second clue |
| `Answers.ConfidenceExactly` | api/src/cerebro/agent/openai_runner.py:525-572 | exactly when confidence is high, medium and unknown, by kinds of evidence, and exactly when a conflict of identity is outweighed |
| `Answers.GroundExactly` | api/src/cerebro/agent/openai_runner.py:574-591 | a grounded answer rests on exactly the cited support and every contradiction of the ledger, cited or not |
| `Answers.RankExactly` | api/src/cerebro/agent/openai_runner.py:539-554 | one rank is below another exactly when the other evidence is stronger, the first difference in the order of precedence deciding |
| `Answers.AlternativeExactly` | api/src/cerebro/agent/openai_runner.py:648-679 | a value becomes an alternative exactly when it names a verified candidate not seen before, cites it validly, and the citation tells enough |
| `Answers.AlternativesProposed` | api/src/cerebro/agent/openai_runner.py:648-701 | every alternative of a mapped answer was proposed, names a verified candidate and rests on registered signals about it |
| `Answers.MappedHidesNothing` | api/src/cerebro/agent/openai_runner.py:681-701 | an ambiguous result shows every proposed candidate worth showing, a rejected recommendation included, or three others of at least its rank |
| `Answers.NothingBetterHidden` | api/src/cerebro/agent/openai_runner.py:681-701 | a considered candidate worth showing is shown, unless three others are, each of a rank at least as high as the one it was given |
| `Answers.BestHidesNothing` | api/src/cerebro/agent/openai_runner.py:676-678 | what the cut to three hides ranks no higher than anything it keeps |
| `Audit.ReplayGrounded` | api/src/cerebro/agent/openai_runner.py:157-253 | in the ledger of every history each signal is numbered by position, its tool succeeded, its source record was audited, and an exact address was read from a row of its order |
| `Audit.MappedResultSupported` | api/src/cerebro/ops/pilot_gate.py:91-117 | for every history of tool calls and every model answer, the auditor accepts the mapped identification on that run's own tool log |
| `Audit.AuditsExactly` | api/src/cerebro/ops/pilot_gate.py:91-117 | the auditor objects exactly when some customer of the result cites nothing, or something that the result and the tool log do not prove about it |
| `Audit.HighRestsOnAddress` | api/src/cerebro/agent/openai_runner.py:757-763 | a high-confidence match rests on a row of the recommended order whose whole address occurs in what was asked, and no signal of its ledger says too much money or another currency |
| `Audit.SearchesCounted` | api/src/cerebro/agent/openai_runner.py:162-187 | the counters say whether any search answered, whether all found nobody, and whether one was conclusive |
| `Audit.NoCustomerExact` | api/src/cerebro/agent/openai_runner.py:710-730 | a no-customer answer comes out exactly when the model gave it, every answered search of the run found nobody, and one was untruncated and asked for a RUT, an email or a phone that neither query knew |
| `Turns.GetResponse` | api/src/cerebro/agent/turns.py:25-43 | no call is made beyond the limit, and the one at the limit has no tools; tokens add up |
| `Turns.RunSpecialist` | api/src/cerebro/agent/openai_runner.py:919-974 | one specialist goes on while the model asks for tools and a turn is left, stays within the shared budget, ends completed exactly with a valid answer, and its own counts are those of its calls |
| `Turns.AnswerRequest` | api/src/cerebro/agent/openai_runner.py:1060-1150 | at most two specialists and the limit of calls, a second one exactly on a correction with a turn left, no call after anything but tools and that correction, and reported usage equal to the router's plus all calls, even after an exception |
| `Fetching.FittingLongest` | api/src/cerebro/replica/database.py:206-219 | a prefix of the rows fits the byte limit exactly when it is no longer than what is kept |
| `Fetching.UntruncatedComplete` | api/src/cerebro/replica/database.py:200-220 | a read is untruncated exactly when all rows fit both limits and no text was too long, and then every row is there with its texts whole |
| `Fetching.UntruncatedExact` | api/src/cerebro/replica/database.py:42-49 | an untruncated read is the snapshot itself exactly when no value of another kind has a text over 2000 characters |
| `Fetching.ShortenedUnmarked` | api/src/cerebro/replica/database.py:42-49 | an untruncated read in which such a value was cut |
| `Fetching.Collect` | api/src/cerebro/replica/database.py:203-220 | the loop keeps the longest fitting prefix and marks what was cut |
| `Fetching.FetchBounded` | api/src/cerebro/replica/database.py:175-220 | at most three transactions, each further one only after a conflict, and the result is the bounded first good snapshot |
| `Fetching.RowLimitLargest` | api/src/cerebro/replica/database.py:182-186 | the row limit is the largest number that respects the configuration, the scope and the request |
| `Fetching.ListBytesExact` | api/src/cerebro/replica/database.py:216-217 | the bytes counted for a list are those of its JSON text |
| `Fetching.BoundedShows` | api/src/cerebro/replica/database.py:200-220 | the rows of a read are the first of the snapshot, each value shown as far as it may be, within both limits |
| `Catalog.RecordParamsExact` | api/src/cerebro/replica/catalog.py:55-66 | the parameters are the given values in the order of the primary key |
| `Catalog.RecordParamsGiven` | api/src/cerebro/replica/catalog.py:55-62 | a record can be named exactly when its relation is known and has a primary key, and every column of it and no other is given once |
| `Catalog.RelationKeyExactly` | api/src/cerebro/replica/catalog.py:13-16 | a qualified name is its schema and its table, an unqualified one a table of the public schema |
| `Catalog.SourceQuery` | api/src/cerebro/replica/catalog.py:68-102 | the loop compiles the whole path, or fails with it |
| `Catalog.CompilesExactly` | api/src/cerebro/replica/catalog.py:68-97 | a path compiles exactly when it is a simple walk of declared foreign keys, in either direction, from the record's relation to the orders over readable relations |
| `Catalog.QueryMeansPath` | api/src/cerebro/replica/catalog.py:68-102 | on every database the compiled joins select exactly the orders that following the foreign keys from the record reaches |
| `Catalog.AcceptedExactly` | api/src/cerebro/replica/investigation.py:1243-1249 | with DISTINCT and LIMIT 2 the test on the returned rows holds exactly when the requested order is selected and no other, and one row fits the limits |
| `Catalog.AcceptedLinkSound` | api/src/cerebro/replica/investigation.py:1230-1249 | an accepted link starts at the one row with the primary key and leads to the requested order only |
| `Sources.VerifySources` | api/src/cerebro/replica/investigation.py:1223-1312 | the accepted sources, and no others, are attached to every candidate, in their order and as often as they are given, and only when the order was verified at all |
| `Sources.AttachedEvidenceSound` | api/src/cerebro/replica/investigation.py:1230-1311 | whenever a record adds evidence, its path reaches the requested order and no other, and a name read from that same row matches what was asked |
| `Sources.LinkedEvidenceSound` | api/src/cerebro/agent/openai_runner.py:157-253 | for every history of tool calls, each signal of the ledger that cites a source record rests on a record a verification was given, whose path reaches the order of the signal and no other, and is a supporting name fragment |
| `Sources.LinkedWeak` | api/src/cerebro/replica/investigation.py:1285-1311 | in every history a linked source is a supporting name fragment of a verification and nothing else |
| `Sources.LinkedNeverMatch` | api/src/cerebro/replica/investigation.py:1285-1311 | whatever sources a run accepts, an answer that cites only linked signals never comes out as a match |
| `Sources.SourceAcceptedExactly` | api/src/cerebro/replica/investigation.py:1230-1284 | a source is accepted exactly when its path compiles, selects the requested order and no other, the answer fits, and a name column of the record matches whom the request names |
| `Sources.NameFieldsExactly` | api/src/cerebro/replica/investigation.py:1251-1262 | a name is read from exactly the six name columns the relation has |
| `Sources.NameRead` | api/src/cerebro/replica/investigation.py:1277-1283 | the name compared has the tokens of all those columns, one column after another |
| `Sources.LastLinkCounts` | api/src/cerebro/replica/investigation.py:1230-1234 | a later link overrules an earlier one with the same reference, and only a reference no link names has none |
| `Wording.WordsAreSplit` | api/src/cerebro/ops/pilot_gate.py:83-83 | counting word starts is splitting and taking the length |
| `Wording.ClipWords` | api/src/cerebro/slack/rendering.py:111-122 | the loop keeps whole sentences while their joined words fit |
| `Wording.ClippedBounds` | api/src/cerebro/slack/rendering.py:111-122 | a clipped text stays within its limit |
| `Wording.ClippedLongest` | api/src/cerebro/slack/rendering.py:111-122 | a text within the limit is kept whole, a longer one to the longest run of whole sentences that fits, or replaced when none does |
| `Wording.LimitCompleteAnswer` | api/src/cerebro/slack/rendering.py:125-148 | the loop keeps whole units while their words fit, and appends the required suffix |
| `Wording.LimitedBounds` | api/src/cerebro/slack/rendering.py:125-148 | the answer stays within the limit; it is kept whole exactly if it fits, is the notice exactly if not even its first unit does, and otherwise exactly the units that fit, from the front |
| `Wording.UnitsKeepWords` | api/src/cerebro/slack/rendering.py:129-133 | cutting an answer into units loses no word |
| `Wording.PiecesExactly` | api/src/cerebro/slack/rendering.py:116-116 | no piece can be cut further, and every piece but the last ends a sentence, or a line where lines count |
| `Wording.UnitsExactly` | api/src/cerebro/slack/rendering.py:132-132 | a unit of an answer is not empty, trimmed, and within one line |
| `Wording.EllipsisExactly` | api/src/cerebro/slack/rendering.py:112-112 | a trailing ellipsis becomes a full stop, and no other text changes |
| `Wording.StripExactly` | api/src/cerebro/slack/rendering.py:111-112 | all white space around a text is removed and nothing else |
| `Rendering.RenderReply` | api/src/cerebro/slack/rendering.py:17-86 | the reply line by line, for every outcome |
| `Rendering.RenderedWords` | api/src/cerebro/slack/rendering.py:17-86 | a valid identification is rendered in at most 126, 85, 26, 69, 111 or 70 words, depending on its outcome, always within the auditor's limit |
| `Rendering.GeneralWithinLimit` | api/src/cerebro/slack/rendering.py:89-102 | a general answer with its image notice stays within every limit from 40 to 500 |
| `Layout.RenderedNeverTooLong` | api/src/cerebro/ops/pilot_gate.py:81-88 | with addresses free of white space and fields free of line breaks, no rendered identification is too long in words or lines |
| `Layout.MappedNeverTooLong` | api/src/cerebro/ops/pilot_gate.py:81-88 | so no mapped answer, from any ledger, is ever rendered too long |
| `Content.MatchShowsCustomer` | api/src/cerebro/slack/rendering.py:44-49 | a match shows its customer with the link to the order |
| `Content.ImageNoteShown` | api/src/cerebro/slack/rendering.py:30-42 | unprocessed captures are always reported, whatever else could not be verified |
| `Content.NoteCounts` | api/src/cerebro/slack/rendering.py:30-42 | the note says how many of how many captures were not processed, in decimal, and is absent when all were |
| `Content.NoticeCounts` | api/src/cerebro/slack/rendering.py:89-102 | a general answer ends with the same counts |
| `Content.AlternativesShown` | api/src/cerebro/slack/rendering.py:151-184 | an ambiguous answer shows every alternative with its link |
| `Content.SuffixKept` | api/src/cerebro/slack/rendering.py:146-148 | a general answer ends with the notice it was given |
| `Content.MatchShowsVerdict` | api/src/cerebro/slack/rendering.py:44-60 | a match says whether confidence is high or medium, why, and which account |
| `Content.OthersShowVerdict` | api/src/cerebro/slack/rendering.py:62-86 | an answer without a match says which, why, and asks its question |
| `Content.OutOfScopeShowsReason` | api/src/cerebro/slack/rendering.py:27-28 | an answer out of scope says only why |
| `Content.ReasonsExactly` | api/src/cerebro/slack/rendering.py:151-179 | the reasons of an alternative are the names of its cited supporting evidence, all of them and each once |
| `Content.ReasonsShown` | api/src/cerebro/slack/rendering.py:169-180 | an alternative shows its first two reasons, or that its evidence is to be verified when there is none |
| `Content.UnverifiedShown` | api/src/cerebro/slack/rendering.py:38-42 | the first items that could not be verified are named, two beside unprocessed captures and three otherwise |
| `Content.PendingShown` | api/src/cerebro/slack/rendering.py:42-86 | and shown whatever the outcome, unless the request was out of scope |

## Left out

- The Slack SDK, HTTP, the Azure and Agents SDKs and asyncpg are results a step may or may not get, never code.
- SQL text is not evaluated: the candidate, identity and Vambe queries are arbitrary rows, and only the join chain of
  a source link has a meaning. `replica/sql_policy.py` and its parser are not part of this model.
- Values of the replica are compared by their text, so columns joined by a foreign key are taken to have one type.
- Unicode case folding, decomposition and combining marks happen before the texts of `Matching`; white space and
  line breaks in `Wording` are the ASCII ones, and in `Layout` those that end a line.
- The prose of signals and of the investigation summary is not modelled in `Candidates` and `Decision`, where nothing
  depends on it; `Rendering` takes any prose. The labels of what could not be verified are part of that prose, and
  the strength of a signal, which no code reads, is left out.
- `conversation.state`, `latest_question`, snapshots, steps and log lines: written as hints, never decided on.
- Row locks: a transaction that takes one is a single step, and the staleness checks read at its commit.
- The recovery job: each released job and each sweep is a process of its own, which allows more interleavings than
  the code has. Finishing a job that does not run changes nothing, where the queue would raise.
- A Slack timestamp already used by another output makes the success write fail by its unique key; the model does
  not take that step, and the worker dies or its handler ends by an exception instead.
- Idempotency keys are the three constructors of a datatype instead of formatted strings, so two families of keys
  never collide.
- Timestamps of messages are numbers; the time of a question is read from its timestamp or from the clock.
- The size cap of the stored tool log is taken not to be reached, and the request and token counts of the SDK to be
  those of its calls.
- `load_catalog`, metadata paging, schema search, the memory client, image download, prompts, configuration,
  readiness, heartbeats, status reports, migrations, evaluation and the feedback report around the auditor would add
  only easy members.
- Sources.VerifySources: takes the replica's answers as given functions that are faithful to its tables; that a read
  may also fail by an exception is the raised call of the ledger.
- Turns.AnswerRequest: does not model the text of the answers, only who answered, with which calls and at what cost.
- Answers.NothingBetterHidden: names a candidate by its order, because customers do not carry their account.
- Rest.EveryQuestionAnswered: takes it as given that rounds come to their end, that is, that the workers are scheduled
  and that stretches without a crash are long enough; Rest.RoundPossible shows that they always can be.
- Reactions.RunsAnchored: does not cover runs in which a late worker posts an output again under another timestamp;
  under fail-stop there are none.
