/** Intake: Slack events become messages with queued runs, feedback, and flavor outputs.
    Each function is the effect of one committed transaction; each method is that transaction. */
module Service {
  import opened Records
  import opened JobQueue

  predicate HasRunFor(runs: seq<Run>, message: nat) {
    exists r | 0 <= r < |runs| :: runs[r].trigger == message
  }

  predicate Settled(d: Disposition) {
    d == Processed || d == Ignored
  }

  /** The first transaction of `receive_event`: the new event's identifier, if it was new. */
  function InsertEvent(db: Db, slackId: string, payload: Payload, ignored: bool): (Db, Option<nat>) {
    if HasEvent(db.events, slackId) then (db, None)
    else
      var event := Event(slackId, payload, if ignored then Ignored else Received);
      (db.(events := db.events + [event]), Some(|db.events|))
  }

  function SetDisposition(db: Db, e: nat, d: Disposition): Db {
    if e < |db.events| then db.(events := db.events[e := db.events[e].(disposition := d)]) else db
  }

  function UpsertConversation(db: Db, channel: Channel, threadTs: Ts, create: bool): (Db, Option<nat>) {
    match FindConversation(db.convs, channel, threadTs)
    case Some(c) => (db, Some(c))
    case None =>
      if create then (db.(convs := db.convs + [Conversation(channel, threadTs)]), Some(|db.convs|))
      else (db, None)
  }

  /** Stores the trigger and queues its run, unless the message is already stored. */
  function StoreTrigger(db: Db, conv: nat, channel: Channel, ts: Ts, at: int): (Db, Option<nat>) {
    if HasMessage(db.messages, channel, ts) then (db, None)
    else
      var m := |db.messages|;
      var stored := db.(messages := db.messages + [Message(conv, channel, ts, true, at)]);
      if HasRunFor(db.runs, m) then (stored, None)
      else (stored.(runs := stored.runs + [Run(conv, m, RunQueued)]), Some(|db.runs|))
  }

  /** `_process_message`; `now` is the clock, used when the timestamp text is not a number. */
  function ProcessMessage(db: Db, e: nat, now: int): (Db, Option<Task>)
    requires e < |db.events| && db.events[e].payload.MessagePayload?
  {
    var p := db.events[e].payload;
    var (upserted, conv) := UpsertConversation(db, p.channel, p.threadTs, p.mention);
    if conv.None? then (SetDisposition(upserted, e, Ignored), None)
    else
      var at := if p.at.Some? then p.at.value else now;
      var (stored, run) := StoreTrigger(upserted, conv.value, p.channel, p.messageTs, at);
      (SetDisposition(stored, e, Processed),
       if run.Some? then Some(RunTask(run.value, conv.value)) else None)
  }

  function RecordFeedback(db: Db, reply: Output, p: Payload): Db
    requires p.ReactionPayload?
  {
    match FindFeedback(db.feedback, p.channel, p.messageTs, p.user, p.reaction)
    case Some(f) => db.(feedback := db.feedback[f := db.feedback[f].(active := p.added)])
    case None =>
      if p.added
      then db.(feedback := db.feedback + [Feedback(reply.conv, reply.run, p.channel, p.messageTs,
                                                   p.user, p.reaction, true)])
      else db
  }

  function InsertOutput(db: Db, output: Output): (Db, Option<nat>) {
    if HasKey(db.outputs, output.key) then (db, None)
    else (db.(outputs := db.outputs + [output]), Some(|db.outputs|))
  }

  predicate WantsFlavor(p: Payload, mode: Mode) {
    p.ReactionPayload? && p.added && p.reaction == ElectricPlug && mode == ModeOn
  }

  function FlavorOutput(reply: Output, p: Payload): Output
    requires p.ReactionPayload?
  {
    Output(reply.conv, reply.run, reply.channel, FlavorKey(p.channel, p.messageTs, p.user),
           FeedbackFlavor, Pending, 0, None)
  }

  function ProcessReaction(db: Db, e: nat, mode: Mode): (Db, Option<Task>)
    requires e < |db.events| && db.events[e].payload.ReactionPayload?
  {
    var p := db.events[e].payload;
    match FindReply(db.outputs, p.channel, p.messageTs)
    case None => (SetDisposition(db, e, Ignored), None)
    case Some(o) =>
      var reply := db.outputs[o];
      var recorded := RecordFeedback(db, reply, p);
      var (flavored, output) :=
        if WantsFlavor(p, mode) then InsertOutput(recorded, FlavorOutput(reply, p)) else (recorded, None);
      (SetDisposition(flavored, e, Processed),
       if output.Some? then Some(OutputTask(output.value)) else None)
  }

  /** The transaction of `process_stored_event`, with the job it asks for afterwards. */
  function ProcessStoredEvent(db: Db, e: nat, mode: Mode, now: int): (Db, Option<Task>) {
    if e >= |db.events| || Settled(db.events[e].disposition) then (db, None)
    else if mode == ModeOff then (SetDisposition(db, e, Ignored), None)
    else
      match db.events[e].payload
      case MessagePayload(_, _, _, _, _) => ProcessMessage(db, e, now)
      case ReactionPayload(_, _, _, _, _) => ProcessReaction(db, e, mode)
      case OtherPayload => (SetDisposition(db, e, Ignored), None)
  }

  method ReceiveEvent(store: Store, slackId: string, payload: Payload, ignored: bool)
    returns (event: Option<nat>)
    modifies store
    ensures (store.Rows(), event) == InsertEvent(old(store.Rows()), slackId, payload, ignored)
  {
    if HasEvent(store.events, slackId) {
      return None;
    }
    event := Some(|store.events|);
    store.events := store.events + [Event(slackId, payload, if ignored then Ignored else Received)];
  }

  /** The late write of `receive_event`: it does not look at the row again. */
  method MarkDisposition(store: Store, e: nat, d: Disposition)
    modifies store`events
    ensures store.Rows() == SetDisposition(old(store.Rows()), e, d)
  {
    if e < |store.events| {
      store.events := store.events[e := store.events[e].(disposition := d)];
    }
  }

  method StoreMessageEvent(store: Store, e: nat, now: int) returns (task: Option<Task>)
    requires e < |store.events| && store.events[e].payload.MessagePayload?
    modifies store
    ensures (store.Rows(), task) == ProcessMessage(old(store.Rows()), e, now)
  {
    var p := store.events[e].payload;
    var conv := FindConversation(store.convs, p.channel, p.threadTs);
    if conv.None? {
      if !p.mention {
        MarkDisposition(store, e, Ignored);
        return None;
      }
      conv := Some(|store.convs|);
      store.convs := store.convs + [Conversation(p.channel, p.threadTs)];
    }
    task := None;
    if !HasMessage(store.messages, p.channel, p.messageTs) {
      var m := |store.messages|;
      var at := if p.at.Some? then p.at.value else now;
      store.messages := store.messages + [Message(conv.value, p.channel, p.messageTs, true, at)];
      if !HasRunFor(store.runs, m) {
        task := Some(RunTask(|store.runs|, conv.value));
        store.runs := store.runs + [Run(conv.value, m, RunQueued)];
      }
    }
    MarkDisposition(store, e, Processed);
  }

  method StoreReactionEvent(store: Store, e: nat, mode: Mode) returns (task: Option<Task>)
    requires e < |store.events| && store.events[e].payload.ReactionPayload?
    modifies store
    ensures (store.Rows(), task) == ProcessReaction(old(store.Rows()), e, mode)
  {
    var p := store.events[e].payload;
    var found := FindReply(store.outputs, p.channel, p.messageTs);
    if found.None? {
      MarkDisposition(store, e, Ignored);
      return None;
    }
    var reply := store.outputs[found.value];
    var row := FindFeedback(store.feedback, p.channel, p.messageTs, p.user, p.reaction);
    if row.Some? {
      store.feedback := store.feedback[row.value := store.feedback[row.value].(active := p.added)];
    } else if p.added {
      store.feedback := store.feedback + [Feedback(reply.conv, reply.run, p.channel, p.messageTs,
                                                   p.user, p.reaction, true)];
    }
    task := None;
    if WantsFlavor(p, mode) {
      var flavor := FlavorOutput(reply, p);
      if !HasKey(store.outputs, flavor.key) {
        task := Some(OutputTask(|store.outputs|));
        store.outputs := store.outputs + [flavor];
      }
    }
    MarkDisposition(store, e, Processed);
  }

  method ProcessEvent(store: Store, e: nat, mode: Mode, now: int) returns (task: Option<Task>)
    modifies store
    ensures (store.Rows(), task) == ProcessStoredEvent(old(store.Rows()), e, mode, now)
  {
    if e >= |store.events| || Settled(store.events[e].disposition) {
      return None;
    }
    if mode == ModeOff {
      MarkDisposition(store, e, Ignored);
      return None;
    }
    match store.events[e].payload {
      case MessagePayload(_, _, _, _, _) => task := StoreMessageEvent(store, e, now);
      case ReactionPayload(_, _, _, _, _) => task := StoreReactionEvent(store, e, mode);
      case OtherPayload =>
        MarkDisposition(store, e, Ignored);
        task := None;
    }
  }
}
