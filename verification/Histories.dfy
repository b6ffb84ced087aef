/** What the ledger of a run holds, for every history of tool calls: exactly the evidence its answered calls gave,
    and exactly the candidates its verifications returned. */
module Histories {
  import opened Records
  import opened Candidates
  import opened Ledger
  import opened Audit

  // ---------- evidence ----------

  /** The signals without the identifiers under which the run registered them. */
  function Said(signals: seq<Signal>): set<Signal> {
    set i | 0 <= i < |signals| :: signals[i].(id := 0)
  }

  function SaidByAll(candidates: seq<Observed>): set<Signal> {
    if candidates == [] then {} else Said(candidates[0].signals) + SaidByAll(candidates[1..])
  }

  function ObservationSays(o: Observation): set<Signal> {
    Said(o.evidence) + SaidByAll(o.candidates)
  }

  lemma SaidRegistered(evidence: seq<Signal>, signals: seq<Signal>)
    ensures Said(RegisterAll(evidence, signals)) == Said(evidence) + Said(signals)
  {
    var all := RegisterAll(evidence, signals);
    forall i | 0 <= i < |evidence|
      ensures evidence[i].(id := 0) in Said(all)
    {
      assert all[i] == evidence[i];
    }
    forall i | 0 <= i < |signals|
      ensures signals[i].(id := 0) in Said(all)
    {
      assert all[|evidence| + i].(id := 0) == signals[i].(id := 0);
    }
    forall i | 0 <= i < |all|
      ensures all[i].(id := 0) in Said(evidence) + Said(signals)
    {
      if i < |evidence| {
        assert all[i] == evidence[i];
      } else {
        assert all[|evidence| + (i - |evidence|)].(id := 0) == signals[i - |evidence|].(id := 0);
      }
    }
  }

  lemma {:induction false} SaidByCandidates(l: Ledger, candidates: seq<Observed>)
    ensures Said(RegisterCandidates(l, candidates).evidence) == Said(l.evidence) + SaidByAll(candidates)
    ensures RegisterCandidates(l, candidates).records == l.records
    ensures RegisterCandidates(l, candidates).available == l.available
    decreases |candidates|
  {
    if candidates != [] {
      SaidRegistered(l.evidence, candidates[0].signals);
      hide Said, RegisterAll;
      SaidByCandidates(RegisterCandidate(l, candidates[0]), candidates[1..]);
    }
  }

  lemma InvokeSays(l: Ledger, call: Call)
    ensures Said(Invoke(l, call).evidence)
            == Said(l.evidence) + if call.Raised? then {} else ObservationSays(Observe(call, l.records))
    ensures Invoke(l, call).records
            == l.records + if call.Raised? then 0 else Observe(call, l.records).records
    ensures Invoke(l, call).available
            == l.available[ToolOf(call) := !call.Raised? && Observe(call, l.records).available]
  {
    hide Said, RegisterAll, RegisterCandidates, SaidByAll, Observe, Conclusive;
    if !call.Raised? {
      var o := Observe(call, l.records);
      var seen := l.(available := l.available[ToolOf(call) := o.available]);
      var counted :=
        if ToolOf(call) == SearchTool && o.available then CountSearch(seen, call, |o.candidates|) else seen;
      SaidRegistered(l.evidence, o.evidence);
      SaidByCandidates(
        counted.(records := l.records + o.records, evidence := RegisterAll(l.evidence, o.evidence)), o.candidates);
    }
  }

  /** Some call of the history has the property, given the calls before it. */
  predicate Ever(history: seq<Call>, holds: (seq<Call>, Call) -> bool) {
    history != []
    && var n := |history| - 1; Ever(history[..n], holds) || holds(history[..n], history[n])
  }

  predicate HoldsAt(history: seq<Call>, i: nat, holds: (seq<Call>, Call) -> bool) {
    i < |history| && holds(history[..i], history[i])
  }

  lemma {:induction false} EverFound(history: seq<Call>, holds: (seq<Call>, Call) -> bool) returns (i: nat)
    requires Ever(history, holds)
    ensures HoldsAt(history, i, holds)
  {
    var n := |history| - 1;
    if holds(history[..n], history[n]) {
      i := n;
    } else {
      i := EverFound(history[..n], holds);
      assert history[..n][..i] == history[..i];
    }
  }

  lemma {:induction false} FoundEver(history: seq<Call>, holds: (seq<Call>, Call) -> bool, i: nat)
    requires HoldsAt(history, i, holds)
    ensures Ever(history, holds)
  {
    var n := |history| - 1;
    if i < n {
      assert history[..n][..i] == history[..i];
      FoundEver(history[..n], holds, i);
    }
  }

  lemma EverExactly(history: seq<Call>, holds: (seq<Call>, Call) -> bool)
    ensures Ever(history, holds) <==> exists i: nat :: HoldsAt(history, i, holds)
  {
    if Ever(history, holds) { var i := EverFound(history, holds); }
    if i: nat :| HoldsAt(history, i, holds) { FoundEver(history, holds, i); }
  }

  /** The signal is one that the call gave, after the calls before it. */
  predicate Gives(before: seq<Call>, call: Call, s: Signal) {
    !call.Raised? && s in ObservationSays(Observe(call, Replay(before).records))
  }

  function Giving(s: Signal): (seq<Call>, Call) -> bool {
    (before, call) => Gives(before, call, s)
  }

  lemma {:induction false} EvidenceEver(history: seq<Call>, s: Signal)
    ensures s in Said(Replay(history).evidence) <==> Ever(history, Giving(s))
  {
    if history != [] {
      var n := |history| - 1;
      InvokeSays(Replay(history[..n]), history[n]);
      EvidenceEver(history[..n], s);
      assert Replay(history) == Invoke(Replay(history[..n]), history[n]);
      hide Said, ObservationSays, Observe, Invoke, Replay;
    }
  }

  /** The ledger holds exactly the evidence that the answered calls gave: nothing is lost and nothing is added. */
  lemma EvidenceExactly(history: seq<Call>, s: Signal)
    ensures s in Said(Replay(history).evidence)
            <==> exists i | 0 <= i < |history| :: Gives(history[..i], history[i], s)
  {
    EvidenceEver(history, s);
    EverExactly(history, Giving(s));
    hide Gives, Ever, Said, Replay;
    assert forall i: nat :: HoldsAt(history, i, Giving(s)) <==> i < |history| && Gives(history[..i], history[i], s);
  }

  // ---------- searches and verifications ----------

  lemma {:induction false} SaidByOne(candidates: seq<Observed>, s: Signal)
    ensures s in SaidByAll(candidates) <==> exists c | c in candidates :: s in Said(c.signals)
  {
    if candidates != [] {
      hide Said;
      SaidByOne(candidates[1..], s);
      assert forall c | c in candidates :: c == candidates[0] || c in candidates[1..];
    }
  }

  /** A search gives exactly the signals of its candidates. */
  lemma SearchSays(call: Call, records: nat, s: Signal)
    requires call.Search?
    ensures s in ObservationSays(Observe(call, records))
            <==> exists c | c in SearchCandidates(call.q, call.rows, call.people) :: s in Said(c.signals)
  {
    SaidByOne(SearchCandidates(call.q, call.rows, call.people), s);
    hide SearchCandidates, SaidByAll;
  }

  /** The signal is the fragment of a name that an accepted source record adds to the candidate. */
  predicate Linked(c: Candidate, accepted: seq<nat>, s: Signal) {
    s.reference.Some? && s.reference.value in accepted
    && s == Signal(0, NameFragment, Supporting, CandidateVerification, c.orderId, c.arId, s.reference)
  }

  lemma SaidAttached(candidates: seq<Observed>, accepted: seq<nat>, i: nat, s: Signal)
    requires i < |candidates|
    ensures s in Said(AttachAll(candidates, accepted)[i].signals)
            <==> s in Said(candidates[i].signals) || Linked(candidates[i].candidate, accepted, s)
  {
    var own, links := candidates[i].signals, LinkedSignals(candidates[i].candidate, accepted);
    var all := AttachAll(candidates, accepted)[i].signals;
    assert all == own + links;
    assert forall k | 0 <= k < |own| :: all[k] == own[k];
    assert forall k | 0 <= k < |links| :: all[|own| + k] == links[k];
    if Linked(candidates[i].candidate, accepted, s) {
      var k :| 0 <= k < |accepted| && accepted[k] == s.reference.value;
      assert all[|own| + k].(id := 0) == s;
    }
  }

  /** A verification that is answered gives the signals of its candidates, and to each of them one weak signal for
      every accepted source; one that is not answered gives nothing. */
  lemma VerificationSays(call: Call, records: nat, s: Signal)
    requires call.Verify?
    ensures s in ObservationSays(Observe(call, records))
            <==> && LinksKnown(call.q, records)
                 && exists c | c in VerifyCandidates(call.q, call.rows, call.people) ::
                      s in Said(c.signals) || Linked(c.candidate, call.accepted, s)
  {
    var candidates := VerifyCandidates(call.q, call.rows, call.people);
    var o := Observe(call, records);
    if LinksKnown(call.q, records) {
      SaidByOne(o.candidates, s);
      assert o.candidates == AttachAll(candidates, o.references);
      assert candidates != [] ==> o.references == call.accepted;
      hide VerifyCandidates, SaidByAll, AttachAll, Observe, Said, Linked;
      forall i | 0 <= i < |candidates|
        ensures s in Said(o.candidates[i].signals)
                <==> s in Said(candidates[i].signals) || Linked(candidates[i].candidate, call.accepted, s)
      {
        SaidAttached(candidates, o.references, i, s);
      }
      if c :| c in candidates && (s in Said(c.signals) || Linked(c.candidate, call.accepted, s)) {
        var i :| 0 <= i < |candidates| && candidates[i] == c;
        assert o.candidates[i] in o.candidates;
      }
      if d :| d in o.candidates && s in Said(d.signals) {
        var i :| 0 <= i < |o.candidates| && o.candidates[i] == d;
        assert candidates[i] in candidates;
      }
    }
  }

  // ---------- Vambe ----------

  lemma VambeSays(call: Call, records: nat, s: Signal)
    requires call.Vambe?
    ensures s in ObservationSays(Observe(call, records))
            <==> call.order.Some? && call.asked && call.messages > 0
                 && s == Signal(0, VambeMention, Supporting, VambeSource, call.order.value, None, None)
  {
    var o := Observe(call, records);
    if o.evidence != [] { assert o.evidence[0].(id := 0) in Said(o.evidence); }
  }

  lemma {:induction false} OtherSources(candidates: seq<Observed>, s: Signal)
    requires forall c | c in candidates :: forall k | 0 <= k < |c.signals| :: c.signals[k].source != VambeSource
    requires s in SaidByAll(candidates)
    ensures s.source != VambeSource
  {
    if s !in Said(candidates[0].signals) { OtherSources(candidates[1..], s); }
  }

  lemma OthersSayNoVambe(call: Call, records: nat, s: Signal)
    requires !call.Vambe? && !call.Raised? && s in ObservationSays(Observe(call, records))
    ensures s.source != VambeSource
  {
    var o := Observe(call, records);
    forall c, k | c in o.candidates && 0 <= k < |c.signals|
      ensures c.signals[k].source != VambeSource
    {
      var i :| 0 <= i < |o.candidates| && o.candidates[i] == c;
      EmittedFits(call, records, c.signals[k]);
    }
    hide Observe;
    assert o.evidence == [] by { EmittedOnly(call, records); }
    OtherSources(o.candidates, s);
  }

  lemma EmittedOnly(call: Call, records: nat)
    requires !call.Vambe?
    ensures Observe(call, records).evidence == []
  {
    hide SearchCandidates, VerifyCandidates;
  }

  /** A run has evidence from Vambe about an order exactly when some search for that order, which asked about the
      customer, found a message; it is a mention that supports the order and no account. */
  lemma VambeExactly(history: seq<Call>, s: Signal)
    requires s.source == VambeSource
    ensures s in Said(Replay(history).evidence) <==> exists i | 0 <= i < |history| :: MentionsOrder(history[i], s)
  {
    EvidenceExactly(history, s);
    forall i | 0 <= i < |history|
      ensures Gives(history[..i], history[i], s) <==> MentionsOrder(history[i], s)
    {
      var records := Replay(history[..i]).records;
      if history[i].Vambe? {
        VambeSays(history[i], records, s);
      } else if Gives(history[..i], history[i], s) {
        OthersSayNoVambe(history[i], records, s);
      }
    }
    hide Replay, Said, Gives;
  }

  /** The call searched Vambe for the order, asked about the customer and found a message; the signal is the mention
      this gives. */
  predicate MentionsOrder(call: Call, s: Signal) {
    && call.Vambe? && call.order.Some? && call.asked && call.messages > 0
    && s == Signal(0, VambeMention, Supporting, VambeSource, call.order.value, None, None)
  }

  // ---------- contradictions ----------

  /** A signal contradicts exactly if its kind is a conflict, and none confirms a payment by what Vambe says. */
  predicate Plainly(s: Signal) {
    s.kind != VambeContext && (s.polarity == Contradicting <==> Conflicting(s.kind))
  }

  lemma CandidatePlain(row: Row, person: Person, q: Query, verified: bool, s: Signal)
    requires || s in Said(RowCandidate(row, q, verified).signals)
             || s in Said(PersonCandidate(person, q, verified).signals)
    ensures Plainly(s)
  {
    CandidateSpeaks(row, person, q, verified);
    var signals := if s in Said(RowCandidate(row, q, verified).signals) then RowCandidate(row, q, verified).signals
                   else PersonCandidate(person, q, verified).signals;
    hide RowCandidate, PersonCandidate, NamesSigneeOnly, NamesNobody, SharesName, HoldsAccount;
    var i :| 0 <= i < |signals| && signals[i].(id := 0) == s;
    assert Speaks(signals, s.kind) && signals[i] in signals;
  }

  lemma SearchPlain(call: Call, s: Signal)
    requires call.Search? && exists c | c in SearchCandidates(call.q, call.rows, call.people) :: s in Said(c.signals)
    ensures Plainly(s)
  {
    var c :| c in SearchCandidates(call.q, call.rows, call.people) && s in Said(c.signals);
    SearchFindsExactly(call.q, call.rows, call.people, c);
    hide Said, SearchCandidates, RowCandidate, PersonCandidate, RowTells, PersonTells, NotEligible, Plainly;
    var bank := Bank("", [], "");
    if i :| 0 <= i < |call.rows| && IsRow(c, call.rows[i], call.q) {
      CandidatePlain(call.rows[i], call.rows[i].person, call.q, false, s);
    } else {
      var i :| 0 <= i < |call.people| && IsPerson(c, call.people[i], call.q);
      CandidatePlain(Row(call.people[i], "", "", 0.0, "", bank, bank), call.people[i], call.q, false, s);
    }
  }

  lemma VerificationPlain(call: Call, s: Signal)
    requires call.Verify? && exists c | c in VerifyCandidates(call.q, call.rows, call.people) :: s in Said(c.signals)
    ensures Plainly(s)
  {
    var found := VerifyCandidates(call.q, call.rows, call.people);
    VerifyFindsExactly(call.q, call.rows, call.people);
    hide Said, VerifyCandidates, RowCandidate, PersonCandidate, Plainly;
    var bank := Bank("", [], "");
    var i :| 0 <= i < |found| && s in Said(found[i].signals);
    if call.rows == [] && call.q.VerifyQuery? && call.q.arId.None? {
      CandidatePlain(Row(call.people[i], "", "", 0.0, "", bank, bank), call.people[i], call.q, true, s);
    } else {
      CandidatePlain(call.rows[i], call.rows[i].person, call.q, true, s);
    }
  }

  /** In every run a signal contradicts exactly if its kind is a conflict, and no tool says that Vambe confirms a
      payment: what is found there is a mention. */
  lemma EvidencePlain(history: seq<Call>, k: nat)
    requires k < |Replay(history).evidence|
    ensures Plainly(Replay(history).evidence[k])
  {
    var s := Replay(history).evidence[k].(id := 0);
    assert s in Said(Replay(history).evidence);
    EvidenceExactly(history, s);
    var i :| 0 <= i < |history| && Gives(history[..i], history[i], s);
    var call, records := history[i], Replay(history[..i]).records;
    hide Replay, Said, SearchCandidates, VerifyCandidates;
    match call
    case Search(_, _, _, _) =>
      SearchSays(call, records, s);
      SearchPlain(call, s);
    case Verify(_, _, _, _) =>
      VerificationSays(call, records, s);
      if c :| c in VerifyCandidates(call.q, call.rows, call.people) && s in Said(c.signals) {
        VerificationPlain(call, s);
      }
    case Vambe(_, _, _) => VambeSays(call, records, s);
    case _ =>
  }

  // ---------- verified candidates ----------

  /** The verification returned a candidate of this order and account. */
  predicate Returned(call: Call, key: Key)
    ensures Returned(call, key) ==> call.Verify?
  {
    && call.Verify?
    && exists c | c in VerifyCandidates(call.q, call.rows, call.people) ::
         c.candidate.orderId == key.0 && c.candidate.arId == key.1
  }

  /** The call is a verification that was answered, after the calls before it, and returned the candidate. */
  predicate Verifies(before: seq<Call>, call: Call, key: Key) {
    Returned(call, key) && LinksKnown(call.q, Replay(before).records)
  }

  function Verifying(key: Key): (seq<Call>, Call) -> bool {
    (before, call) => Verifies(before, call, key)
  }

  lemma {:induction false} RegisteredKeys(l: Ledger, candidates: seq<Observed>, key: Key)
    ensures key in RegisterCandidates(l, candidates).verified
            <==> key in l.verified
                 || exists c | c in candidates :: c.candidate.verified && (c.candidate.orderId, c.candidate.arId) == key
    decreases |candidates|
  {
    if candidates != [] {
      hide RegisterAll;
      RegisteredKeys(RegisterCandidate(l, candidates[0]), candidates[1..], key);
      assert forall c | c in candidates :: c == candidates[0] || c in candidates[1..];
    }
  }

  lemma AttachedKeys(candidates: seq<Observed>, accepted: seq<nat>, key: Key)
    requires forall c | c in candidates :: c.candidate.verified
    ensures (exists d | d in AttachAll(candidates, accepted) ::
               d.candidate.verified && (d.candidate.orderId, d.candidate.arId) == key)
            <==> exists c | c in candidates :: c.candidate.orderId == key.0 && c.candidate.arId == key.1
  {
    var attached := AttachAll(candidates, accepted);
    forall i | 0 <= i < |candidates|
      ensures attached[i].candidate == candidates[i].candidate && attached[i] in attached && candidates[i] in candidates
    {
    }
    hide AttachAll;
    if c :| c in candidates && c.candidate.orderId == key.0 && c.candidate.arId == key.1 {
      var i :| 0 <= i < |candidates| && candidates[i] == c;
      assert attached[i] in attached;
    }
  }

  lemma ObservedKeys(call: Call, records: nat, key: Key)
    requires !call.Raised?
    ensures (exists c | c in Observe(call, records).candidates ::
               c.candidate.verified && (c.candidate.orderId, c.candidate.arId) == key)
            <==> Returned(call, key) && LinksKnown(call.q, records)
  {
    if call.Search? {
      CandidatesWellRead(call.q, call.rows, call.people);
    } else if call.Verify? && LinksKnown(call.q, records) {
      CandidatesWellRead(call.q, call.rows, call.people);
      hide VerifyCandidates, AttachAll;
      AttachedKeys(VerifyCandidates(call.q, call.rows, call.people), Observe(call, records).references, key);
    }
  }

  lemma InvokeVerifies(l: Ledger, call: Call, key: Key)
    ensures key in Invoke(l, call).verified
            <==> key in l.verified
                 || (Returned(call, key) && LinksKnown(call.q, l.records))
  {
    hide RegisterAll, RegisterCandidates, Observe, Conclusive, VerifyCandidates;
    if call.Raised? {
      assert !Returned(call, key);
    } else {
      var o := Observe(call, l.records);
      var seen := l.(available := l.available[ToolOf(call) := o.available]);
      var counted :=
        if ToolOf(call) == SearchTool && o.available then CountSearch(seen, call, |o.candidates|) else seen;
      RegisteredKeys(
        counted.(records := l.records + o.records, evidence := RegisterAll(l.evidence, o.evidence)), o.candidates, key);
      ObservedKeys(call, l.records, key);
    }
  }

  lemma {:induction false} VerifiedEver(history: seq<Call>, key: Key)
    ensures key in Replay(history).verified <==> Ever(history, Verifying(key))
  {
    if history != [] {
      var n := |history| - 1;
      InvokeVerifies(Replay(history[..n]), history[n], key);
      VerifiedEver(history[..n], key);
      assert Replay(history) == Invoke(Replay(history[..n]), history[n]);
      hide Returned, Invoke, Replay, LinksKnown;
    }
  }

  /** A candidate may be recommended exactly when an answered verification of the run returned it: a search alone
      makes nobody eligible. */
  lemma VerifiedExactly(history: seq<Call>, key: Key)
    ensures key in Replay(history).verified
            <==> exists i | 0 <= i < |history| :: Verifies(history[..i], history[i], key)
  {
    VerifiedEver(history, key);
    EverExactly(history, Verifying(key));
    hide Verifies, Ever, Replay;
    assert forall i: nat ::
        HoldsAt(history, i, Verifying(key)) <==> i < |history| && Verifies(history[..i], history[i], key);
  }

  /** A verification is answered exactly when every record it links was seen by the run before. */
  lemma VerificationAnswers(q: Query, rows: seq<Row>, people: seq<Person>, accepted: seq<nat>, records: nat)
    requires q.VerifyQuery?
    ensures Observe(Verify(q, rows, people, accepted), records).available
            <==> forall i | 0 <= i < |q.links| :: 0 < q.links[i].reference <= records
  {
  }

  // ---------- tools and records ----------

  function LastOf(history: seq<Call>, tool: Tool): (r: Option<nat>)
    ensures r.Some? ==> r.value < |history| && ToolOf(history[r.value]) == tool
                        && forall i | r.value < i < |history| :: ToolOf(history[i]) != tool
    ensures r.None? ==> forall i | 0 <= i < |history| :: ToolOf(history[i]) != tool
  {
    if history == [] then None
    else if ToolOf(history[|history| - 1]) == tool then Some(|history| - 1)
    else LastOf(history[..|history| - 1], tool)
  }

  /** The run remembers of every tool exactly whether its last call was answered. */
  lemma {:induction false} AvailableExactly(history: seq<Call>, tool: Tool)
    ensures var last := LastOf(history, tool);
            && (tool in Replay(history).available <==> last.Some?)
            && (last.Some? ==>
                  (Replay(history).available[tool]
                   <==> && !history[last.value].Raised?
                        && Observe(history[last.value], Replay(history[..last.value]).records).available))
  {
    if history != [] {
      var n := |history| - 1;
      InvokeSays(Replay(history[..n]), history[n]);
      AvailableExactly(history[..n], tool);
      assert Replay(history) == Invoke(Replay(history[..n]), history[n]);
      var last := LastOf(history[..n], tool);
      if last.Some? { assert history[..n][..last.value] == history[..last.value]; }
      hide Observe, Invoke, Replay, Said;
    }
  }
}
