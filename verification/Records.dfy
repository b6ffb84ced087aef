/** The rows Cerebro keeps in its own database, and the few row searches its transactions make.
    Every table is append-only: a row's identifier is its position, and no code path deletes a row. */
module Records {
  datatype Option<+T> = None | Some(value: T)

  type Channel = string
  type User = string
  /** A Slack message timestamp, which Slack uses as the message's identity inside a channel. */
  type Ts = nat

  datatype Mode = ModeOff | ModeOn
  datatype Reaction = CheeseWedge | ElectricPlug

  /** The retained part of a Slack event. `at` is the time read out of the message timestamp,
      or `None` when that text is not a number. */
  datatype Payload =
    | MessagePayload(mention: bool, channel: Channel, messageTs: Ts, threadTs: Ts, at: Option<int>)
    | ReactionPayload(added: bool, channel: Channel, messageTs: Ts, user: User, reaction: Reaction)
    | OtherPayload

  datatype Disposition = Received | Queued | Processed | Ignored | EventFailed
  datatype RunStatus = RunQueued | Running | Succeeded | RunFailed | RunCancelled
  datatype DeliveryStatus = Pending | Sent | DeliveryFailed | DeliveryCancelled
  datatype OutputKind = Investigation | GeneralReply | FeedbackFlavor | ErrorNotice

  /** The three families of idempotency keys. */
  datatype OutputKey =
    | ReplyKey(run: nat, kind: OutputKind)
    | ErrorKey(run: nat)
    | FlavorKey(channel: Channel, ts: Ts, user: User)

  datatype Event = Event(slackId: string, payload: Payload, disposition: Disposition)
  datatype Conversation = Conversation(channel: Channel, threadTs: Ts)
  datatype Message = Message(conv: nat, channel: Channel, ts: Ts, inbound: bool, at: int)
  datatype Run = Run(conv: nat, trigger: nat, status: RunStatus)
  datatype Output = Output(conv: nat, run: nat, channel: Channel, key: OutputKey, kind: OutputKind,
                           status: DeliveryStatus, attempts: nat, slackTs: Option<Ts>)
  datatype Feedback = Feedback(conv: nat, run: nat, channel: Channel, ts: Ts, user: User,
                               reaction: Reaction, active: bool)

  datatype Db = Db(events: seq<Event>, convs: seq<Conversation>, messages: seq<Message>,
                   runs: seq<Run>, outputs: seq<Output>, feedback: seq<Feedback>)

  const EMPTY_DB := Db([], [], [], [], [], [])

  predicate IsReply(kind: OutputKind) {
    kind == Investigation || kind == GeneralReply
  }

  predicate Terminal(status: RunStatus) {
    status == Succeeded || status == RunFailed || status == RunCancelled
  }

  /** An inbound message of the conversation is strictly newer than `at`. */
  predicate NewerInbound(messages: seq<Message>, conv: nat, at: int) {
    exists i | 0 <= i < |messages| ::
      messages[i].conv == conv && messages[i].inbound && messages[i].at > at
  }

  predicate HasMessage(messages: seq<Message>, channel: Channel, ts: Ts) {
    exists i | 0 <= i < |messages| :: messages[i].channel == channel && messages[i].ts == ts
  }

  predicate HasEvent(events: seq<Event>, slackId: string) {
    exists i | 0 <= i < |events| :: events[i].slackId == slackId
  }

  predicate HasKey(outputs: seq<Output>, key: OutputKey) {
    exists i | 0 <= i < |outputs| :: outputs[i].key == key
  }

  function FindConversation(convs: seq<Conversation>, channel: Channel, threadTs: Ts): (r: Option<nat>)
    ensures r.Some? ==> r.value < |convs| && convs[r.value] == Conversation(channel, threadTs)
    ensures r.None? ==> forall i | 0 <= i < |convs| :: convs[i] != Conversation(channel, threadTs)
  {
    if convs == [] then None
    else if convs[|convs| - 1] == Conversation(channel, threadTs) then Some(|convs| - 1)
    else FindConversation(convs[..|convs| - 1], channel, threadTs)
  }

  predicate IsReplyAt(output: Output, channel: Channel, ts: Ts) {
    output.channel == channel && output.slackTs == Some(ts) && IsReply(output.kind)
  }

  function FindReply(outputs: seq<Output>, channel: Channel, ts: Ts): (r: Option<nat>)
    ensures r.Some? ==> r.value < |outputs| && IsReplyAt(outputs[r.value], channel, ts)
    ensures r.None? ==> forall i | 0 <= i < |outputs| :: !IsReplyAt(outputs[i], channel, ts)
  {
    if outputs == [] then None
    else if IsReplyAt(outputs[|outputs| - 1], channel, ts) then Some(|outputs| - 1)
    else FindReply(outputs[..|outputs| - 1], channel, ts)
  }

  predicate SameFeedback(row: Feedback, channel: Channel, ts: Ts, user: User, reaction: Reaction) {
    row.channel == channel && row.ts == ts && row.user == user && row.reaction == reaction
  }

  function FindFeedback(rows: seq<Feedback>, channel: Channel, ts: Ts, user: User, reaction: Reaction)
    : (r: Option<nat>)
    ensures r.Some? ==> r.value < |rows| && SameFeedback(rows[r.value], channel, ts, user, reaction)
    ensures r.None? ==>
              forall i | 0 <= i < |rows| :: !SameFeedback(rows[i], channel, ts, user, reaction)
  {
    if rows == [] then None
    else if SameFeedback(rows[|rows| - 1], channel, ts, user, reaction) then Some(|rows| - 1)
    else FindFeedback(rows[..|rows| - 1], channel, ts, user, reaction)
  }

  /** The database as the workers see it: one mutable table per entity. */
  class Store {
    var events: seq<Event>
    var convs: seq<Conversation>
    var messages: seq<Message>
    var runs: seq<Run>
    var outputs: seq<Output>
    var feedback: seq<Feedback>

    constructor ()
      ensures Rows() == EMPTY_DB
    {
      events, convs, messages, runs, outputs, feedback := [], [], [], [], [], [];
    }

    function Rows(): Db
      reads this
    {
      Db(events, convs, messages, runs, outputs, feedback)
    }
  }
}
