/** The run and outbox state machines: claiming and finishing runs, claiming and completing deliveries.
    Each function is the effect of one transaction taken under the row's lock; each method is that
    transaction, and the external call between two transactions happens between two methods. */
module Pipeline {
  import opened Records
  import opened JobQueue
  import Service

  function SetStatus(db: Db, r: nat, status: RunStatus): Db
    requires r < |db.runs|
  {
    db.(runs := db.runs[r := db.runs[r].(status := status)])
  }

  /** A newer inbound message of the conversation makes the run's trigger obsolete. */
  predicate Superseded(db: Db, r: nat) {
    && r < |db.runs|
    && db.runs[r].trigger < |db.messages|
    && NewerInbound(db.messages, db.runs[r].conv, db.messages[db.runs[r].trigger].at)
  }

  /** First transaction of `execute_run`; the flag says that the investigation goes on. */
  function ClaimRun(db: Db, r: nat, mode: Mode): (Db, bool) {
    if r >= |db.runs| || db.runs[r].status != RunQueued then (db, false)
    else if mode == ModeOff || Superseded(db, r) then (SetStatus(db, r, RunCancelled), false)
    else (SetStatus(db, r, Running), true)
  }

  /** `_cancel_if_stale`; the flag says that the worker must stop. */
  function CancelIfStale(db: Db, r: nat, mode: Mode): (Db, bool) {
    if r >= |db.runs| || Terminal(db.runs[r].status) then (db, true)
    else if !Superseded(db, r) && mode != ModeOff then (db, false)
    else (SetStatus(db, r, RunCancelled), true)
  }

  function RunOutput(db: Db, r: nat, key: OutputKey, kind: OutputKind): Output
    requires r < |db.runs|
  {
    var conv := db.runs[r].conv;
    var channel := if conv < |db.convs| then db.convs[conv].channel else "";
    Output(conv, r, channel, key, kind, Pending, 0, None)
  }

  /** Commits a result and its reply; a run that somebody else finalized is left alone. */
  function CompleteRun(db: Db, r: nat, kind: OutputKind): (Db, Option<nat>) {
    if r >= |db.runs| || db.runs[r].status != Running then (db, None)
    else Service.InsertOutput(SetStatus(db, r, Succeeded), RunOutput(db, r, ReplyKey(r, kind), kind))
  }

  /** Commits a failure with its error notice: the handler of `execute_run` and the recovery job. */
  function FailRun(db: Db, r: nat, mode: Mode): (Db, Option<nat>) {
    if r >= |db.runs| || db.runs[r].status != Running then (db, None)
    else
      var failed := SetStatus(db, r, RunFailed);
      if mode == ModeOn
      then Service.InsertOutput(failed, RunOutput(db, r, ErrorKey(r), ErrorNotice))
      else (failed, None)
  }

  predicate StaleOutput(db: Db, o: nat)
    requires o < |db.outputs|
  {
    db.outputs[o].kind != FeedbackFlavor && Superseded(db, db.outputs[o].run)
  }

  /** First transaction of `deliver_output`; the flag says that the message is to be posted. */
  function ClaimOutput(db: Db, o: nat, mode: Mode): (Db, bool) {
    if o >= |db.outputs| || db.outputs[o].status != Pending then (db, false)
    else
      var output := db.outputs[o];
      if mode == ModeOff || StaleOutput(db, o)
      then (db.(outputs := db.outputs[o := output.(status := DeliveryCancelled)]), false)
      else (db.(outputs := db.outputs[o := output.(attempts := output.attempts + 1)]), true)
  }

  /** The failure write of `deliver_output`. It does not check that the output is still pending. */
  function DeliveryError(db: Db, o: nat, maxAttempts: nat): Db {
    if o < |db.outputs| && db.outputs[o].attempts >= maxAttempts
    then db.(outputs := db.outputs[o := db.outputs[o].(status := DeliveryFailed)])
    else db
  }

  /** The success write of `deliver_output`. It stops only if the output is already sent. */
  function DeliverySent(db: Db, o: nat, ts: Ts, now: int): Db {
    if o >= |db.outputs| || db.outputs[o].status == Sent then db
    else
      var output := db.outputs[o];
      var sent := db.(outputs := db.outputs[o := output.(status := Sent, slackTs := Some(ts))]);
      if HasMessage(db.messages, output.channel, ts) then sent
      else sent.(messages := db.messages + [Message(output.conv, output.channel, ts, false, now)])
  }

  /** Some inbound message of the conversation was sent strictly after message `m`. */
  predicate Outdated(db: Db, conv: nat, m: nat) {
    m < |db.messages|
    && exists k | 0 <= k < |db.messages| ::
         db.messages[k].conv == conv && db.messages[k].inbound && db.messages[k].at > db.messages[m].at
  }

  predicate RunIs(db: Db, r: nat, status: RunStatus) {
    r < |db.runs| && db.runs[r].status == status
  }

  /** The investigation is wanted: nobody switched Cerebro off, and no newer question took its place. */
  predicate Wanted(db: Db, r: nat, mode: Mode) {
    r < |db.runs| && mode == ModeOn && !Outdated(db, db.runs[r].conv, db.runs[r].trigger)
  }

  method StartRun(store: Store, r: nat, mode: Mode) returns (started: bool)
    modifies store`runs
    ensures (store.Rows(), started) == ClaimRun(old(store.Rows()), r, mode)
    ensures started <==> RunIs(old(store.Rows()), r, RunQueued) && Wanted(old(store.Rows()), r, mode)
    ensures RunIs(old(store.Rows()), r, RunQueued) ==>
              RunIs(store.Rows(), r, if started then Running else RunCancelled)
    ensures !RunIs(old(store.Rows()), r, RunQueued) ==> store.Rows() == old(store.Rows())
  {
    if r >= |store.runs| || store.runs[r].status != RunQueued {
      return false;
    }
    if mode == ModeOff || Superseded(store.Rows(), r) {
      store.runs := store.runs[r := store.runs[r].(status := RunCancelled)];
      return false;
    }
    store.runs := store.runs[r := store.runs[r].(status := Running)];
    return true;
  }

  method StopIfStale(store: Store, r: nat, mode: Mode) returns (stop: bool)
    modifies store`runs
    ensures (store.Rows(), stop) == CancelIfStale(old(store.Rows()), r, mode)
    ensures !stop <==>
              (RunIs(old(store.Rows()), r, RunQueued) || RunIs(old(store.Rows()), r, Running))
              && Wanted(old(store.Rows()), r, mode)
    ensures RunIs(old(store.Rows()), r, RunQueued) || RunIs(old(store.Rows()), r, Running) ==>
              RunIs(store.Rows(), r, if stop then RunCancelled else old(store.runs[r].status))
  {
    if r >= |store.runs| || Terminal(store.runs[r].status) {
      return true;
    }
    if !Superseded(store.Rows(), r) && mode != ModeOff {
      return false;
    }
    store.runs := store.runs[r := store.runs[r].(status := RunCancelled)];
    return true;
  }

  method FinishRun(store: Store, r: nat, kind: OutputKind) returns (output: Option<nat>)
    modifies store
    ensures (store.Rows(), output) == CompleteRun(old(store.Rows()), r, kind)
  {
    if r >= |store.runs| || store.runs[r].status != Running {
      return None;
    }
    var reply := RunOutput(store.Rows(), r, ReplyKey(r, kind), kind);
    store.runs := store.runs[r := store.runs[r].(status := Succeeded)];
    output := AddOutput(store, reply);
  }

  method AbandonRun(store: Store, r: nat, mode: Mode) returns (output: Option<nat>)
    modifies store
    ensures (store.Rows(), output) == FailRun(old(store.Rows()), r, mode)
  {
    if r >= |store.runs| || store.runs[r].status != Running {
      return None;
    }
    var notice := RunOutput(store.Rows(), r, ErrorKey(r), ErrorNotice);
    store.runs := store.runs[r := store.runs[r].(status := RunFailed)];
    output := None;
    if mode == ModeOn {
      output := AddOutput(store, notice);
    }
  }

  method AddOutput(store: Store, output: Output) returns (id: Option<nat>)
    modifies store`outputs
    ensures (store.Rows(), id) == Service.InsertOutput(old(store.Rows()), output)
  {
    if HasKey(store.outputs, output.key) {
      return None;
    }
    id := Some(|store.outputs|);
    store.outputs := store.outputs + [output];
  }

  predicate OutputIs(db: Db, o: nat, status: DeliveryStatus) {
    o < |db.outputs| && db.outputs[o].status == status
  }

  /** The output may be posted: nobody switched Cerebro off, and no newer question made an answer obsolete;
      a flavor output never is. */
  predicate Deliverable(db: Db, o: nat, mode: Mode) {
    && o < |db.outputs| && mode == ModeOn
    && (db.outputs[o].kind == FeedbackFlavor || db.outputs[o].run >= |db.runs|
        || !Outdated(db, db.runs[db.outputs[o].run].conv, db.runs[db.outputs[o].run].trigger))
  }

  method ClaimDelivery(store: Store, o: nat, mode: Mode) returns (post: bool)
    modifies store`outputs
    ensures (store.Rows(), post) == ClaimOutput(old(store.Rows()), o, mode)
    ensures post <==> OutputIs(old(store.Rows()), o, Pending) && Deliverable(old(store.Rows()), o, mode)
    ensures OutputIs(old(store.Rows()), o, Pending) ==>
              && OutputIs(store.Rows(), o, if post then Pending else DeliveryCancelled)
              && store.outputs[o].attempts == old(store.outputs[o].attempts) + if post then 1 else 0
    ensures !OutputIs(old(store.Rows()), o, Pending) ==> store.Rows() == old(store.Rows())
  {
    if o >= |store.outputs| || store.outputs[o].status != Pending {
      return false;
    }
    if mode == ModeOff || StaleOutput(store.Rows(), o) {
      store.outputs := store.outputs[o := store.outputs[o].(status := DeliveryCancelled)];
      return false;
    }
    store.outputs := store.outputs[o := store.outputs[o].(attempts := store.outputs[o].attempts + 1)];
    return true;
  }

  method RecordDeliveryError(store: Store, o: nat, maxAttempts: nat)
    modifies store`outputs
    ensures store.Rows() == DeliveryError(old(store.Rows()), o, maxAttempts)
  {
    if o < |store.outputs| && store.outputs[o].attempts >= maxAttempts {
      store.outputs := store.outputs[o := store.outputs[o].(status := DeliveryFailed)];
    }
  }

  method RecordDeliverySent(store: Store, o: nat, ts: Ts, now: int)
    modifies store
    ensures store.Rows() == DeliverySent(old(store.Rows()), o, ts, now)
  {
    if o >= |store.outputs| || store.outputs[o].status == Sent {
      return;
    }
    var output := store.outputs[o];
    store.outputs := store.outputs[o := output.(status := Sent, slackTs := Some(ts))];
    if !HasMessage(store.messages, output.channel, ts) {
      store.messages := store.messages + [Message(output.conv, output.channel, ts, false, now)];
    }
  }
}
