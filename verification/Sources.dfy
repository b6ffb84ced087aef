/** Verification through source records: which of the linked records add evidence to a verified order. */
module Sources {
  import opened Records
  import opened Matching
  import Candidates
  import A = Answers
  import Audit
  import Decision
  import C = Catalog
  import F = Fetching
  import Ledger

  const NAME_COLUMNS := ["name", "fullName", "firstName", "middleName", "lastName", "secondLastName"]

  /** The name columns the relation has, in their fixed order. */
  function NameFields(columns: set<string>, names: seq<string>): seq<string> {
    if names == [] then []
    else (if names[0] in columns then [names[0]] else []) + NameFields(columns, names[1..])
  }

  function CellText(cell: C.Cell): string {
    if cell.Null? then "" else cell.text
  }

  function ActualName(row: C.Tuple, fields: seq<string>): string {
    if fields == [] then ""
    else if |fields| == 1 then CellText(C.Get(row, fields[0]))
    else CellText(C.Get(row, fields[0])) + " " + ActualName(row, fields[1..])
  }

  function CellTokens(row: C.Tuple, fields: seq<string>): seq<string> {
    if fields == [] then [] else Tokens(CellText(C.Get(row, fields[0]))) + CellTokens(row, fields[1..])
  }

  /** A name is compared by the tokens of all its columns, one column after another; an empty one adds none. */
  lemma {:induction false} NameRead(row: C.Tuple, fields: seq<string>)
    ensures Tokens(ActualName(row, fields)) == CellTokens(row, fields)
  {
    if |fields| == 1 {
      assert CellTokens(row, fields[1..]) == [];
    } else if |fields| > 1 {
      NameRead(row, fields[1..]);
      TokensApart(CellText(C.Get(row, fields[0])), ActualName(row, fields[1..]));
    }
  }

  /** The transferor or the address that was asked for strongly matches the name. */
  predicate Asked(q: Candidates.Query, name: string)
    requires q.VerifyQuery?
  {
    || (q.transferor != "" && StrongNameMatch(q.transferor, name))
    || (q.address != "" && StrongNameMatch(q.address, name))
  }

  datatype SourceRecord = SourceRecord(reference: nat, record: C.RecordQuery)

  /** The replica as the verification meets it: the tables, and the limits every read obeys. */
  datatype Replica = Replica(catalog: C.Catalog, db: C.Database, rowLimit: nat, byteLimit: nat)

  /** The answers of the replica: distinct order identifiers for a link query, and the one record row if
      it came back whole. */
  datatype Answers =
    Answers(orders: C.Query -> seq<C.Cell>, record: C.RecordQuery -> Option<C.Tuple>, size: F.Row -> nat)

  ghost predicate Faithful(replica: Replica, answers: Answers) {
    && C.KeysUnique(replica.catalog, replica.db)
    && (forall query :: C.LimitTwo(replica.db, query, answers.orders(query)))
    && (forall record :: answers.record(record).Some? ==>
          C.IsRecord(replica.catalog, replica.db, record, answers.record(record).value))
  }

  /** The last link that names the reference. */
  function LinkOf(links: seq<Candidates.Link>, reference: nat): (r: Option<Candidates.Link>)
    ensures r.Some? ==> r.value in links && r.value.reference == reference
  {
    if links == [] then None
    else if links[|links| - 1].reference == reference then Some(links[|links| - 1])
    else LinkOf(links[..|links| - 1], reference)
  }

  /** A later link overrules an earlier one with the same reference, and only a reference that no link names has
      none: what is found is the link at `i`. */
  lemma {:induction false} LastLinkCounts(links: seq<Candidates.Link>, reference: nat) returns (i: nat)
    ensures LinkOf(links, reference).None? ==> forall j | 0 <= j < |links| :: links[j].reference != reference
    ensures LinkOf(links, reference).Some? ==>
              && i < |links| && LinkOf(links, reference) == Some(links[i]) && links[i].reference == reference
              && forall j | i < j < |links| :: links[j].reference != reference
  {
    i := 0;
    if links != [] {
      var n := |links| - 1;
      if links[n].reference == reference {
        i := n;
      } else {
        i := LastLinkCounts(links[..n], reference);
        assert forall j | 0 <= j < n :: links[j] == links[..n][j];
      }
    }
  }

  /** One order came back for the link, and it is the requested one. */
  predicate LinksOrder(replica: Replica, answers: Answers, query: C.Query, orderId: string) {
    var orders :=
      F.Bounded(C.IdRows(answers.orders(query)), F.Min(2, replica.rowLimit), replica.byteLimit, answers.size);
    C.Accepts(orders, orderId)
  }

  /** The record's own name, read from the columns that hold one, matches what was asked. */
  predicate NamesPayer(replica: Replica, answers: Answers, q: Candidates.Query, record: C.RecordQuery)
    requires q.VerifyQuery?
  {
    var key := C.RelationKey(record.relation);
    && key in replica.catalog.relations
    && var fields := NameFields(replica.catalog.relations[key].columns, NAME_COLUMNS);
       && fields != [] && answers.record(record).Some?
       && Asked(q, ActualName(answers.record(record).value, fields))
  }

  /** The decision about one record: the path compiles, leads to the requested order alone, and the
      record's name matches. */
  predicate SourceAccepted(replica: Replica, answers: Answers, q: Candidates.Query,
                           record: C.RecordQuery, path: seq<string>)
    requires q.VerifyQuery?
  {
    var query := C.Compile(replica.catalog, record, path);
    query.Some? && LinksOrder(replica, answers, query.value, q.orderId) && NamesPayer(replica, answers, q, record)
  }

  /** The request links the source, and the decision about it is positive. */
  predicate AcceptsSource(replica: Replica, answers: Answers, q: Candidates.Query, s: SourceRecord)
    requires q.VerifyQuery?
  {
    var link := LinkOf(q.links, s.reference);
    link.Some? && SourceAccepted(replica, answers, q, s.record, link.value.path)
  }

  /** The references of the accepted sources, in their order and as often as they were given. */
  function AcceptedReferences(replica: Replica, answers: Answers, q: Candidates.Query, sources: seq<SourceRecord>)
    : seq<nat>
    requires q.VerifyQuery?
  {
    if sources == [] then []
    else
      var n := |sources| - 1;
      AcceptedReferences(replica, answers, q, sources[..n])
      + if AcceptsSource(replica, answers, q, sources[n]) then [sources[n].reference] else []
  }

  lemma {:induction false} AcceptedMembers(replica: Replica, answers: Answers, q: Candidates.Query,
                                           sources: seq<SourceRecord>)
    requires q.VerifyQuery?
    ensures forall reference | reference in AcceptedReferences(replica, answers, q, sources) ::
              exists s | s in sources :: s.reference == reference && AcceptsSource(replica, answers, q, s)
    ensures forall s | s in sources && AcceptsSource(replica, answers, q, s) ::
              s.reference in AcceptedReferences(replica, answers, q, sources)
  {
    if sources != [] {
      hide AcceptsSource;
      var n := |sources| - 1;
      AcceptedMembers(replica, answers, q, sources[..n]);
      assert sources == sources[..n] + [sources[n]];
    }
  }

  /** `verify_payment_sources` after the ordinary verification: every accepted record adds one weak signal
      to every candidate, in the order of the sources, and nothing else does. */
  method VerifySources(replica: Replica, answers: Answers, q: Candidates.Query, candidates: seq<Candidates.Observed>,
                       sources: seq<SourceRecord>)
    returns (attached: seq<Candidates.Observed>, accepted: seq<nat>)
    requires q.VerifyQuery?
    ensures candidates == [] ==> attached == [] && accepted == []
    ensures attached == Ledger.AttachAll(candidates, accepted)
    ensures candidates != [] ==> accepted == AcceptedReferences(replica, answers, q, sources)
    ensures forall reference | reference in accepted ::
              exists s | s in sources :: s.reference == reference && AcceptsSource(replica, answers, q, s)
    ensures candidates != [] ==> forall s | s in sources && AcceptsSource(replica, answers, q, s) ::
              s.reference in accepted
  {
    hide AcceptsSource;
    attached, accepted := candidates, [];
    AttachNone(candidates);
    if candidates == [] {
      return;
    }
    var i := 0;
    while i < |sources|
      invariant 0 <= i <= |sources|
      invariant attached == Ledger.AttachAll(candidates, accepted)
      invariant accepted == AcceptedReferences(replica, answers, q, sources[..i])
    {
      assert sources[..i + 1][..i] == sources[..i];
      var s := sources[i];
      if AcceptsSource(replica, answers, q, s) {
        AttachMore(candidates, accepted, s.reference);
        attached := AttachOne(attached, s.reference);
        accepted := accepted + [s.reference];
      }
      i := i + 1;
    }
    assert sources[..i] == sources;
    AcceptedMembers(replica, answers, q, sources);
  }

  function AttachOne(candidates: seq<Candidates.Observed>, reference: nat): (r: seq<Candidates.Observed>)
    ensures |r| == |candidates|
  {
    seq(|candidates|, i requires 0 <= i < |candidates| =>
      candidates[i].(signals := candidates[i].signals + [Ledger.LinkedSignal(candidates[i].candidate, reference)]))
  }

  lemma AttachNone(candidates: seq<Candidates.Observed>)
    ensures Ledger.AttachAll(candidates, []) == candidates
  {
    forall i | 0 <= i < |candidates|
      ensures Ledger.AttachAll(candidates, [])[i] == candidates[i]
    {
      assert candidates[i].signals + [] == candidates[i].signals;
    }
  }

  /** Attaching references one after another attaches them all. */
  lemma AttachMore(candidates: seq<Candidates.Observed>, accepted: seq<nat>, reference: nat)
    ensures AttachOne(Ledger.AttachAll(candidates, accepted), reference)
            == Ledger.AttachAll(candidates, accepted + [reference])
  {
    forall i | 0 <= i < |candidates|
      ensures AttachOne(Ledger.AttachAll(candidates, accepted), reference)[i]
              == Ledger.AttachAll(candidates, accepted + [reference])[i]
    {
      var c := candidates[i].candidate;
      assert Ledger.LinkedSignals(c, accepted + [reference])
          == Ledger.LinkedSignals(c, accepted) + [Ledger.LinkedSignal(c, reference)];
    }
  }

  lemma {:induction false} FieldsListed(columns: set<string>, names: seq<string>, field: string)
    ensures field in NameFields(columns, names) <==> field in names && field in columns
  {
    if names != [] { FieldsListed(columns, names[1..], field); }
  }

  /** A name is read from exactly these columns, as far as the relation has them. */
  lemma NameFieldsExactly(columns: set<string>, field: string)
    ensures field in NameFields(columns, NAME_COLUMNS)
            <==> && field in columns
                 && (field == "name" || field == "fullName" || field == "firstName" || field == "middleName"
                     || field == "lastName" || field == "secondLastName")
  {
    FieldsListed(columns, NAME_COLUMNS, field);
  }

  /** The transferor or the address of the request strongly matches the name that the row of the record holds. */
  predicate RowNamesPayer(catalog: C.Catalog, q: Candidates.Query, record: C.RecordQuery, row: C.Tuple)
    requires q.VerifyQuery?
  {
    && C.RelationKey(record.relation) in catalog.relations
    && var name := ActualName(row, NameFields(catalog.relations[C.RelationKey(record.relation)].columns, NAME_COLUMNS));
       || (q.transferor != "" && StrongNameMatch(q.transferor, name))
       || (q.address != "" && StrongNameMatch(q.address, name))
  }

  /** Exactly when a source is accepted: its path compiles, the requested order is selected and no other, one row of
      identifiers fits the limits, the relation has a name column, and the record's row came back and names whom the
      request names. */
  lemma SourceAcceptedExactly(replica: Replica, answers: Answers, q: Candidates.Query,
                              record: C.RecordQuery, path: seq<string>)
    requires q.VerifyQuery? && Faithful(replica, answers)
    ensures SourceAccepted(replica, answers, q, record, path)
            <==> var query := C.Compile(replica.catalog, record, path);
                 && query.Some?
                 && (forall id :: C.Selects(replica.db, query.value, id) <==> id == C.Val(q.orderId))
                 && F.Min(2, replica.rowLimit) >= 1 && 2 + answers.size(C.IdRow(C.Val(q.orderId))) <= replica.byteLimit
                 && answers.record(record).Some?
                 && RowNamesPayer(replica.catalog, q, record, answers.record(record).value)
                 && exists field :: field in NameFields(
                      replica.catalog.relations[C.RelationKey(record.relation)].columns, NAME_COLUMNS)
  {
    var query := C.Compile(replica.catalog, record, path);
    if query.Some? {
      assert C.LimitTwo(replica.db, query.value, answers.orders(query.value));
      C.AcceptedExactly(replica.db, query.value, answers.orders(query.value), F.Min(2, replica.rowLimit),
                        replica.byteLimit, answers.size, q.orderId);
    }
    var key := C.RelationKey(record.relation);
    if key in replica.catalog.relations {
      var fields := NameFields(replica.catalog.relations[key].columns, NAME_COLUMNS);
      assert fields != [] ==> fields[0] in fields;
    }
    hide C.Compile, C.Selects, C.Accepts, C.LimitTwo, F.Bounded, NameFields, ActualName, StrongNameMatch, Faithful;
  }

  /** Source-link soundness: whenever a record adds evidence, following the given foreign keys from the one
      row with that primary key reaches the requested order and no other, and a name read from that same
      row strongly matches what was asked. */
  lemma AttachedEvidenceSound(replica: Replica, answers: Answers, q: Candidates.Query,
                              record: C.RecordQuery, path: seq<string>)
    requires q.VerifyQuery? && Faithful(replica, answers) && SourceAccepted(replica, answers, q, record, path)
    ensures exists row ::
              && C.OnlyRecord(replica.catalog, replica.db, record, row)
              && C.LeadsOnlyTo(replica.catalog, replica.db, record, path, row, q.orderId)
              && RowNamesPayer(replica.catalog, q, record, row)
  {
    var query := C.Compile(replica.catalog, record, path).value;
    hide C.Follows, C.IsRecord, C.KeysUnique, C.LimitTwo, C.Accepts, F.Bounded, ActualName, NameFields;
    assert C.LimitTwo(replica.db, query, answers.orders(query));
    C.AcceptedLinkSound(replica.catalog, replica.db, record, path, answers.orders(query), F.Min(2, replica.rowLimit),
                        replica.byteLimit, answers.size, q.orderId);
    var row :| C.OnlyRecord(replica.catalog, replica.db, record, row)
               && C.LeadsOnlyTo(replica.catalog, replica.db, record, path, row, q.orderId);
    var read := answers.record(record).value;
    assert C.IsRecord(replica.catalog, replica.db, record, read);
    assert read == row;
  }

  // ---------- every linked signal of a run ----------

  /** A linked source is weak evidence: it supports, and only as a fragment of a name. */
  predicate Weak(signal: Candidates.Signal) {
    signal.kind == Candidates.NameFragment && signal.polarity == Candidates.Supporting
    && signal.source == Candidates.CandidateVerification
  }

  /** The call is a verification that accepted the signal's source record for the signal's order, and the signal
      is weak evidence. */
  predicate Referenced(call: Ledger.Call, signal: Candidates.Signal) {
    && Weak(signal)
    && call.Verify? && signal.reference.Some? && signal.reference.value in call.accepted
    && exists c | c in Candidates.VerifyCandidates(call.q, call.rows, call.people) ::
         c.candidate.orderId == signal.orderId
  }

  lemma EmittedReferenced(call: Ledger.Call, records: nat, signal: Candidates.Signal)
    requires Audit.Emitted(Ledger.Observe(call, records), signal) && signal.reference.Some?
    ensures Referenced(call, signal)
  {
    if call.Search? {
      Audit.SearchFits(call, records, signal);
    } else if call.Verify? {
      var o := Ledger.Observe(call, records);
      var c, k :| 0 <= c < |o.candidates| && 0 <= k < |o.candidates[c].signals| && o.candidates[c].signals[k] == signal;
      AttachedReferenced(call, o.references, c, k);
    }
  }

  lemma AttachedReferenced(call: Ledger.Call, references: seq<nat>, c: nat, k: nat)
    requires call.Verify? && forall reference | reference in references :: reference in call.accepted
    requires var candidates := Candidates.VerifyCandidates(call.q, call.rows, call.people);
             && c < |candidates| && k < |Ledger.AttachAll(candidates, references)[c].signals|
             && Ledger.AttachAll(candidates, references)[c].signals[k].reference.Some?
    ensures var candidates := Candidates.VerifyCandidates(call.q, call.rows, call.people);
            Referenced(call, Ledger.AttachAll(candidates, references)[c].signals[k])
  {
    var candidates := Candidates.VerifyCandidates(call.q, call.rows, call.people);
    Candidates.CandidatesWellRead(call.q, call.rows, call.people);
    Audit.AttachedFrom(candidates, references, c, k);
    assert candidates[c] in candidates;
    hide Candidates.VerifyCandidates, Ledger.AttachAll;
    assert k >= |candidates[c].signals|;
  }

  lemma RegisteredReferenced(call: Ledger.Call, records: nat, signal: Candidates.Signal, id: nat)
    requires Audit.Registers(Ledger.Observe(call, records), signal, id) && signal.reference.Some?
    ensures Referenced(call, signal)
  {
    hide Audit.Emitted, Ledger.Observe;
    var s :| Audit.Emitted(Ledger.Observe(call, records), s) && signal == s.(id := id);
    EmittedReferenced(call, records, s);
  }

  /** Every linked signal in the ledger of a run comes from a verification that accepted its record. */
  lemma {:induction false} LinkedTraced(history: seq<Ledger.Call>, k: nat)
    requires k < |Ledger.Replay(history).evidence| && Ledger.Replay(history).evidence[k].reference.Some?
    ensures exists i | 0 <= i < |history| :: Referenced(history[i], Ledger.Replay(history).evidence[k])
  {
    var n := |history| - 1;
    var before, after := Ledger.Replay(history[..n]), Ledger.Replay(history);
    assert after == Ledger.Invoke(before, history[n]);
    Audit.ReplayGrounded(history[..n]);
    assert forall key | key in before.verified :: Ledger.KeyOf(before.verified[key]) == key;
    hide Ledger.Invoke, Ledger.Observe, Audit.Registers, Audit.Grounded, Referenced, Ledger.Replay;
    Audit.InvokeGrows(before, history[n]);
    if k < |before.evidence| {
      LinkedTraced(history[..n], k);
      var i :| 0 <= i < n && Referenced(history[..n][i], before.evidence[k]);
      assert history[i] == history[..n][i] && after.evidence[k] == before.evidence[k];
    } else {
      RegisteredReferenced(history[n], before.records, after.evidence[k], k + 1);
    }
  }

  /** Every verification asked for one order and got rows of that order only, and the records it accepted are
      those that the given sources lead to. */
  ghost predicate Verified(replica: Replica, answers: Answers, history: seq<Ledger.Call>,
                           sources: nat -> seq<SourceRecord>) {
    forall i: nat | i < |history| && history[i].Verify? ::
      && history[i].q.VerifyQuery?
      && (forall k | 0 <= k < |history[i].rows| :: history[i].rows[k].person.orderId == history[i].q.orderId)
      && (forall k | 0 <= k < |history[i].people| :: history[i].people[k].orderId == history[i].q.orderId)
      && history[i].accepted == AcceptedReferences(replica, answers, history[i].q, sources(i))
  }

  lemma CandidatesOfOrder(q: Candidates.Query, rows: seq<Candidates.Row>, people: seq<Candidates.Person>,
                          orderId: string)
    requires forall k | 0 <= k < |rows| :: rows[k].person.orderId == orderId
    requires forall k | 0 <= k < |people| :: people[k].orderId == orderId
    ensures forall c | c in Candidates.VerifyCandidates(q, rows, people) :: c.candidate.orderId == orderId
  {
    Candidates.CandidatesWellRead(q, rows, people);
    hide Candidates.VerifyCandidates;
  }

  /** The source record of the signal leads to the signal's order and to no other, and its own name matches
      what was asked. */
  ghost predicate SourceProves(replica: Replica, q: Candidates.Query, s: SourceRecord, signal: Candidates.Signal)
    requires q.VerifyQuery?
  {
    && signal.reference == Some(s.reference) && LinkOf(q.links, s.reference).Some?
    && exists row ::
         && C.OnlyRecord(replica.catalog, replica.db, s.record, row)
         && C.LeadsOnlyTo(replica.catalog, replica.db, s.record, LinkOf(q.links, s.reference).value.path, row,
                          signal.orderId)
         && RowNamesPayer(replica.catalog, q, s.record, row)
  }

  /** Source-link soundness of whole runs: for every history of tool calls, every signal of the ledger that
      cites a source record rests on a record with that reference that a verification of the run was given,
      from which the proposed path reaches the signal's order and no other. */
  lemma LinkedEvidenceSound(replica: Replica, answers: Answers, history: seq<Ledger.Call>,
                            sources: nat -> seq<SourceRecord>, k: nat)
    requires Faithful(replica, answers) && Verified(replica, answers, history, sources)
    requires k < |Ledger.Replay(history).evidence| && Ledger.Replay(history).evidence[k].reference.Some?
    ensures exists i: nat, s ::
              && i < |history| && history[i].Verify? && history[i].q.VerifyQuery? && s in sources(i)
              && SourceProves(replica, history[i].q, s, Ledger.Replay(history).evidence[k])
    ensures Weak(Ledger.Replay(history).evidence[k])
  {
    var signal := Ledger.Replay(history).evidence[k];
    LinkedTraced(history, k);
    hide Ledger.Replay, Faithful, Referenced, SourceProves, AcceptedReferences;
    var i: nat :| i < |history| && Referenced(history[i], signal);
    CallVerifies(history[i], signal);
    var s := ReferencedSource(replica, answers, history[i], signal, sources(i));
    AcceptedProves(replica, answers, history[i].q, s, signal);
  }

  lemma CallVerifies(call: Ledger.Call, signal: Candidates.Signal)
    requires Referenced(call, signal)
    ensures call.Verify? && Weak(signal)
  {
  }

  lemma ReferencedSource(replica: Replica, answers: Answers, call: Ledger.Call, signal: Candidates.Signal,
                         sources: seq<SourceRecord>) returns (s: SourceRecord)
    requires Referenced(call, signal) && call.q.VerifyQuery?
    requires forall k | 0 <= k < |call.rows| :: call.rows[k].person.orderId == call.q.orderId
    requires forall k | 0 <= k < |call.people| :: call.people[k].orderId == call.q.orderId
    requires call.accepted == AcceptedReferences(replica, answers, call.q, sources)
    ensures s in sources && signal.reference == Some(s.reference) && AcceptsSource(replica, answers, call.q, s)
    ensures signal.orderId == call.q.orderId
  {
    hide AcceptsSource, Candidates.VerifyCandidates, AcceptedReferences;
    CandidatesOfOrder(call.q, call.rows, call.people, call.q.orderId);
    AcceptedMembers(replica, answers, call.q, sources);
    s :| s in sources && s.reference == signal.reference.value && AcceptsSource(replica, answers, call.q, s);
  }

  lemma AcceptedProves(replica: Replica, answers: Answers, q: Candidates.Query, s: SourceRecord,
                       signal: Candidates.Signal)
    requires q.VerifyQuery? && Faithful(replica, answers) && AcceptsSource(replica, answers, q, s)
    requires signal.reference == Some(s.reference) && signal.orderId == q.orderId
    ensures SourceProves(replica, q, s, signal)
  {
    hide C.OnlyRecord, C.LeadsOnlyTo, LinksOrder, Faithful, RowNamesPayer;
    AttachedEvidenceSound(replica, answers, q, s.record, LinkOf(q.links, s.reference).value.path);
  }

  /** Every linked signal of a run is weak evidence, whatever was accepted. */
  lemma LinkedWeak(history: seq<Ledger.Call>, k: nat)
    requires k < |Ledger.Replay(history).evidence| && Ledger.Replay(history).evidence[k].reference.Some?
    ensures Weak(Ledger.Replay(history).evidence[k])
  {
    LinkedTraced(history, k);
    hide Ledger.Replay;
  }

  /** By itself a linked source identifies nobody: whatever sources a run accepts, an answer that cites only linked
      signals never comes out as a match. */
  lemma LinkedNeverMatch(history: seq<Ledger.Call>, answer: Decision.ModelAnswer)
    requires answer.recommended.Some?
    requires forall k | 0 <= k < |Ledger.Replay(history).evidence|
                        && Ledger.Replay(history).evidence[k].id in answer.recommended.value.evidenceIds ::
               Ledger.Replay(history).evidence[k].reference.Some?
    ensures Decision.MapOutput(answer, Ledger.Replay(history)).outcome != Decision.Matched
  {
    var evidence := Ledger.Replay(history).evidence;
    var value := answer.recommended.value;
    forall key, kind | A.Cites(value, key, evidence, Candidates.Supporting, kind)
      ensures kind == Candidates.NameFragment
    {
      var i :| 0 <= i < |evidence| && evidence[i].id in value.evidenceIds && evidence[i].kind == kind;
      LinkedWeak(history, i);
    }
    hide Ledger.Replay, A.Cites, Decision.MapOutput, A.Unopposed;
    if Decision.MapOutput(answer, Ledger.Replay(history)).outcome == Decision.Matched {
      A.MatchRests(history, answer);
    }
  }
}
