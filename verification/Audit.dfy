/** The auditor, written independently of the mapping, and what every history of tool calls guarantees
    about the mapped result. */
module Audit {
  import opened Records
  import opened Matching
  import opened Candidates
  import opened Ledger
  import opened Decision

  // ---------- the auditor ----------

  function ToolFor(source: Source): Tool {
    match source
    case PaymentCandidates => SearchTool
    case CandidateVerification => VerifyTool
    case VambeSource => VambeTool
  }

  predicate Succeeded(calls: seq<CallRecord>, tool: Tool) {
    exists i | 0 <= i < |calls| :: calls[i].tool == tool && calls[i].succeeded
  }

  predicate ReferenceAudited(calls: seq<CallRecord>, reference: nat) {
    exists i | 0 <= i < |calls| ::
      calls[i].tool == VerifyTool && calls[i].succeeded && reference in calls[i].references
  }

  /** The auditor's objections to one cited signal. */
  predicate Objection(found: Option<Signal>, orderId: string, calls: seq<CallRecord>) {
    || found.None?
    || found.value.orderId != orderId
    || !Succeeded(calls, ToolFor(found.value.source))
    || (found.value.reference.Some? && !ReferenceAudited(calls, found.value.reference.value))
  }

  predicate UnsupportedCustomer(customer: Customer, evidence: seq<Signal>, calls: seq<CallRecord>) {
    || customer.evidenceIds == []
    || exists id | id in customer.evidenceIds :: Objection(Find(evidence, id), customer.orderId, calls)
  }

  /** `_unsupported`: some customer of the result is not backed by the run's tool log. */
  predicate Unsupported(r: Identification, calls: seq<CallRecord>) {
    || (r.recommended.Some? && UnsupportedCustomer(r.recommended.value, r.evidence, calls))
    || exists c | c in r.alternatives :: UnsupportedCustomer(c, r.evidence, calls)
  }

  /** The evidence of the result holds this cited signal: about the customer's order, from a tool that succeeded,
      and, if it names a source record, from a verification that audited it. */
  predicate Proven(id: nat, orderId: string, evidence: seq<Signal>, calls: seq<CallRecord>) {
    exists i | 0 <= i < |evidence| ::
      && evidence[i].id == id && evidence[i].orderId == orderId
      && (exists k | 0 <= k < |calls| ::
            && calls[k].succeeded
            && match evidence[i].source
               case PaymentCandidates => calls[k].tool == SearchTool
               case CandidateVerification => calls[k].tool == VerifyTool
               case VambeSource => calls[k].tool == VambeTool)
      && (evidence[i].reference.Some? ==>
            exists k | 0 <= k < |calls| ::
              calls[k].tool == VerifyTool && calls[k].succeeded && evidence[i].reference.value in calls[k].references)
  }

  predicate ProvenCustomer(c: Customer, evidence: seq<Signal>, calls: seq<CallRecord>) {
    c.evidenceIds != [] && forall id | id in c.evidenceIds :: Proven(id, c.orderId, evidence, calls)
  }

  lemma ObjectsExactly(id: nat, orderId: string, evidence: seq<Signal>, calls: seq<CallRecord>)
    requires DistinctIds(evidence)
    ensures Objection(Find(evidence, id), orderId, calls) <==> !Proven(id, orderId, evidence, calls)
  {
    var found := Find(evidence, id);
    if found.Some? {
      var i :| 0 <= i < |evidence| && evidence[i] == found.value;
      assert forall k | 0 <= k < |evidence| && evidence[k].id == id :: k == i;
    }
  }

  /** The auditor objects exactly when some customer of the result cites nothing, or cites something the result and
      the run's tool log do not prove about it. */
  lemma AuditsExactly(r: Identification, calls: seq<CallRecord>)
    requires DistinctIds(r.evidence)
    ensures Unsupported(r, calls)
            <==> (r.recommended.Some? && !ProvenCustomer(r.recommended.value, r.evidence, calls))
                 || exists c | c in r.alternatives :: !ProvenCustomer(c, r.evidence, calls)
  {
    hide Find, Objection, Proven, DistinctIds;
    forall id, orderId
      ensures Objection(Find(r.evidence, id), orderId, calls) <==> !Proven(id, orderId, r.evidence, calls)
    {
      ObjectsExactly(id, orderId, r.evidence, calls);
    }
    forall c: Customer
      ensures UnsupportedCustomer(c, r.evidence, calls) <==> !ProvenCustomer(c, r.evidence, calls)
    {
    }
    hide UnsupportedCustomer, ProvenCustomer;
  }

  // ---------- what a ledger is worth ----------

  /** The tool that produced the signal succeeded, and so did the verification of its source record. */
  predicate Backed(signal: Signal, calls: seq<CallRecord>) {
    && Succeeded(calls, ToolFor(signal.source))
    && (signal.reference.Some? ==> ReferenceAudited(calls, signal.reference.value))
  }

  predicate Numbered(evidence: seq<Signal>) {
    forall i | 0 <= i < |evidence| :: evidence[i].id == i + 1
  }

  ghost predicate Grounded(l: Ledger) {
    && Numbered(l.evidence)
    && (forall i | 0 <= i < |l.evidence| :: Backed(l.evidence[i], l.calls))
    && (forall k | k in l.verified :: KeyOf(l.verified[k]) == k)
  }

  /** The person's order is this one, and its address occurs, token by token, in what was asked. */
  predicate AddressRead(q: Query, person: Person, orderId: string) {
    && person.orderId == orderId
    && Tokens(person.address) != [] && Sublist(Tokens(RequestedAddress(q)), Tokens(person.address))
  }

  /** The call returned a row or a person of the order whose whole address was asked for. */
  predicate ReadsAddress(call: Call, orderId: string) {
    && (call.Search? || call.Verify?)
    && ((exists i | 0 <= i < |call.rows| :: AddressRead(call.q, call.rows[i].person, orderId))
        || (exists i | 0 <= i < |call.people| :: AddressRead(call.q, call.people[i], orderId)))
  }

  ghost predicate Traced(history: seq<Call>, signal: Signal) {
    signal.kind == ExactAddressKind ==> exists i | 0 <= i < |history| :: ReadsAddress(history[i], signal.orderId)
  }

  // ---------- what one observation emits ----------

  predicate Emitted(o: Observation, signal: Signal) {
    || signal in o.evidence
    || exists c, k | 0 <= c < |o.candidates| && 0 <= k < |o.candidates[c].signals| ::
         o.candidates[c].signals[k] == signal
  }

  /** An emitted signal names the tool that emitted it, the records it audited, and where it was read. */
  predicate FitsCall(signal: Signal, call: Call, references: seq<nat>) {
    && ToolFor(signal.source) == ToolOf(call)
    && (signal.reference.Some? ==> ToolOf(call) == VerifyTool && signal.reference.value in references)
    && (signal.kind == ExactAddressKind ==> ReadsAddress(call, signal.orderId))
  }

  lemma WellReadFits(call: Call, observed: Observed, k: nat, verified: bool, references: seq<nat>)
    requires (call.Search? && !verified) || (call.Verify? && verified)
    requires WellRead(observed, call.q, call.rows, call.people, verified) && k < |observed.signals|
    ensures FitsCall(observed.signals[k], call, references)
  {
  }

  lemma SearchFits(call: Call, records: nat, signal: Signal)
    requires call.Search? && Emitted(Observe(call, records), signal)
    ensures FitsCall(signal, call, Observe(call, records).references)
  {
    CandidatesWellRead(call.q, call.rows, call.people);
    var o := Observe(call, records);
    var c, k :| 0 <= c < |o.candidates| && 0 <= k < |o.candidates[c].signals| && o.candidates[c].signals[k] == signal;
    assert o.candidates[c] in SearchCandidates(call.q, call.rows, call.people);
    hide SearchCandidates, WellRead, FitsCall;
    WellReadFits(call, o.candidates[c], k, false, o.references);
  }

  lemma AttachedFrom(candidates: seq<Observed>, accepted: seq<nat>, c: nat, k: nat)
    requires c < |candidates| && k < |AttachAll(candidates, accepted)[c].signals|
    ensures var signal := AttachAll(candidates, accepted)[c].signals[k];
            if k < |candidates[c].signals| then signal == candidates[c].signals[k]
            else exists i | 0 <= i < |accepted| :: signal == LinkedSignal(candidates[c].candidate, accepted[i])
  {
    if k >= |candidates[c].signals| {
      var i := k - |candidates[c].signals|;
      assert LinkedSignals(candidates[c].candidate, accepted)[i] == LinkedSignal(candidates[c].candidate, accepted[i]);
    }
  }

  lemma AttachedFits(call: Call, references: seq<nat>, c: nat, k: nat)
    requires call.Verify?
    requires var candidates := VerifyCandidates(call.q, call.rows, call.people);
             c < |candidates| && k < |AttachAll(candidates, references)[c].signals|
    ensures var candidates := VerifyCandidates(call.q, call.rows, call.people);
            FitsCall(AttachAll(candidates, references)[c].signals[k], call, references)
  {
    var candidates := VerifyCandidates(call.q, call.rows, call.people);
    CandidatesWellRead(call.q, call.rows, call.people);
    AttachedFrom(candidates, references, c, k);
    assert candidates[c] in candidates;
    hide VerifyCandidates, WellRead, AttachAll, ReadsAddress;
    if k < |candidates[c].signals| {
      hide FitsCall;
      WellReadFits(call, candidates[c], k, true, references);
    }
  }

  lemma VerifyFits(call: Call, records: nat, signal: Signal)
    requires call.Verify? && Emitted(Observe(call, records), signal)
    ensures FitsCall(signal, call, Observe(call, records).references)
  {
    var o := Observe(call, records);
    var c, k :| 0 <= c < |o.candidates| && 0 <= k < |o.candidates[c].signals| && o.candidates[c].signals[k] == signal;
    AttachedFits(call, o.references, c, k);
  }

  lemma EmittedFits(call: Call, records: nat, signal: Signal)
    requires !call.Raised? && Emitted(Observe(call, records), signal)
    ensures FitsCall(signal, call, Observe(call, records).references)
  {
    if call.Search? {
      SearchFits(call, records, signal);
    } else if call.Verify? {
      VerifyFits(call, records, signal);
    }
  }

  // ---------- registering keeps the ledger grounded ----------

  ghost predicate Registers(o: Observation, signal: Signal, id: nat) {
    signal.id == id && exists s :: Emitted(o, s) && signal == s.(id := id)
  }

  /** The evidence grew by emitted signals only, numbered on. */
  ghost predicate GrownBy(before: seq<Signal>, after: seq<Signal>, o: Observation) {
    before <= after && forall i | |before| <= i < |after| :: Registers(o, after[i], i + 1)
  }

  lemma RegisteredGrow(before: seq<Signal>, signals: seq<Signal>, o: Observation)
    requires forall s | s in signals :: Emitted(o, s)
    ensures GrownBy(before, RegisterAll(before, signals), o)
  {
    hide Emitted;
    var after := RegisterAll(before, signals);
    forall i | |before| <= i < |after|
      ensures Registers(o, after[i], i + 1)
    {
      var s := signals[i - |before|];
      assert s in signals;
      assert after[|before| + (i - |before|)] == s.(id := i + 1);
    }
  }

  lemma GrowOn(a: seq<Signal>, b: seq<Signal>, c: seq<Signal>, o: Observation)
    requires GrownBy(a, b, o) && GrownBy(b, c, o)
    ensures GrownBy(a, c, o)
  {
  }

  lemma CandidateEmits(o: Observation, observed: Observed)
    requires observed in o.candidates
    ensures forall s | s in observed.signals :: Emitted(o, s)
  {
  }

  lemma {:induction false} CandidatesGrow(l: Ledger, candidates: seq<Observed>, o: Observation)
    requires forall c | c in candidates :: c in o.candidates
    requires forall k | k in l.verified :: KeyOf(l.verified[k]) == k
    ensures var after := RegisterCandidates(l, candidates);
            && GrownBy(l.evidence, after.evidence, o) && after.calls == l.calls
            && forall k | k in after.verified :: KeyOf(after.verified[k]) == k
    decreases |candidates|
  {
    if candidates != [] {
      var next := RegisterCandidate(l, candidates[0]);
      CandidateEmits(o, candidates[0]);
      RegisteredGrow(l.evidence, candidates[0].signals, o);
      hide Registers, Emitted;
      assert forall c | c in candidates[1..] :: c in candidates;
      CandidatesGrow(next, candidates[1..], o);
      GrowOn(l.evidence, next.evidence, RegisterCandidates(next, candidates[1..]).evidence, o);
    }
  }

  lemma ObservationGrows(l: Ledger, call: Call, o: Observation)
    requires forall k | k in l.verified :: KeyOf(l.verified[k]) == k
    ensures var after := RegisterObservation(l, call, o);
            && GrownBy(l.evidence, after.evidence, o) && after.calls == l.calls
            && forall k | k in after.verified :: KeyOf(after.verified[k]) == k
  {
    hide Registers;
    RegisteredGrow(l.evidence, o.evidence, o);
    var seen := l.(available := l.available[ToolOf(call) := o.available]);
    var counted := if ToolOf(call) == SearchTool && o.available then CountSearch(seen, call, |o.candidates|) else seen;
    var start := counted.(records := l.records + o.records, evidence := RegisterAll(l.evidence, o.evidence));
    CandidatesGrow(start, o.candidates, o);
    GrowOn(l.evidence, start.evidence, RegisterObservation(l, call, o).evidence, o);
  }

  lemma BackedForever(signal: Signal, calls: seq<CallRecord>, record: CallRecord)
    requires Backed(signal, calls)
    ensures Backed(signal, calls + [record])
  {
    var more := calls + [record];
    assert forall i | 0 <= i < |calls| :: more[i] == calls[i];
  }

  lemma FittingBacked(signal: Signal, call: Call, calls: seq<CallRecord>, references: seq<nat>)
    requires FitsCall(signal, call, references)
    ensures Backed(signal, calls + [CallRecord(ToolOf(call), true, references)])
  {
    assert (calls + [CallRecord(ToolOf(call), true, references)])[|calls|].succeeded;
  }

  lemma RegisteredFits(call: Call, records: nat, signal: Signal, id: nat, calls: seq<CallRecord>)
    requires !call.Raised? && Registers(Observe(call, records), signal, id)
    ensures Backed(signal, calls + [CallRecord(ToolOf(call), true, Observe(call, records).references)])
    ensures signal.kind == ExactAddressKind ==> ReadsAddress(call, signal.orderId)
  {
    hide Emitted, FitsCall, ReadsAddress, Backed;
    var o := Observe(call, records);
    var s :| Emitted(o, s) && signal == s.(id := id);
    EmittedFits(call, records, s);
    SameFit(s, id, call, o.references);
    FittingBacked(signal, call, calls, o.references);
    FittingTraced(signal, call, o.references);
  }

  /** What a call adds to the ledger: one record, and signals it emitted. */
  lemma InvokeGrows(l: Ledger, call: Call)
    requires forall k | k in l.verified :: KeyOf(l.verified[k]) == k
    ensures var after := Invoke(l, call);
            && (forall k | k in after.verified :: KeyOf(after.verified[k]) == k)
            && if call.Raised?
               then after.calls == l.calls + [CallRecord(call.tool, false, [])] && after.evidence == l.evidence
               else var o := Observe(call, l.records);
                    && after.calls == l.calls + [CallRecord(ToolOf(call), true, o.references)]
                    && GrownBy(l.evidence, after.evidence, o)
  {
    hide Observe, RegisterObservation, GrownBy;
    if !call.Raised? { ObservationGrows(l, call, Observe(call, l.records)); }
  }

  lemma InvokeGrounded(l: Ledger, call: Call)
    requires Grounded(l)
    ensures Grounded(Invoke(l, call))
    ensures l.evidence <= Invoke(l, call).evidence
    ensures forall i | |l.evidence| <= i < |Invoke(l, call).evidence| ::
              Invoke(l, call).evidence[i].kind == ExactAddressKind ==>
                ReadsAddress(call, Invoke(l, call).evidence[i].orderId)
  {
    hide Invoke, Observe, Backed, Registers, ReadsAddress;
    var after := Invoke(l, call);
    InvokeGrows(l, call);
    forall i | 0 <= i < |after.evidence|
      ensures after.evidence[i].id == i + 1 && Backed(after.evidence[i], after.calls)
      ensures i >= |l.evidence| && after.evidence[i].kind == ExactAddressKind ==>
                ReadsAddress(call, after.evidence[i].orderId)
    {
      if i < |l.evidence| {
        assert after.evidence[i] == l.evidence[i];
        BackedForever(l.evidence[i], l.calls, after.calls[|l.calls|]);
      } else {
        RegistersId(Observe(call, l.records), after.evidence[i], i + 1);
        RegisteredFits(call, l.records, after.evidence[i], i + 1, l.calls);
      }
    }
  }

  lemma RegistersId(o: Observation, signal: Signal, id: nat)
    requires Registers(o, signal, id)
    ensures signal.id == id
  {
  }

  lemma FittingTraced(signal: Signal, call: Call, references: seq<nat>)
    requires FitsCall(signal, call, references)
    ensures signal.kind == ExactAddressKind ==> ReadsAddress(call, signal.orderId)
  {
  }

  lemma SameFit(signal: Signal, id: nat, call: Call, references: seq<nat>)
    requires FitsCall(signal, call, references)
    ensures FitsCall(signal.(id := id), call, references)
  {
  }

  /** Every ledger that tool calls can leave is grounded, and its exact addresses were read somewhere. */
  lemma {:induction false} ReplayGrounded(history: seq<Call>)
    ensures Grounded(Replay(history))
    ensures forall i | 0 <= i < |Replay(history).evidence| :: Traced(history, Replay(history).evidence[i])
  {
    if history != [] {
      var n := |history| - 1;
      ReplayGrounded(history[..n]);
      var before, after := Replay(history[..n]), Replay(history);
      InvokeGrounded(before, history[n]);
      hide Grounded, ReadsAddress, Invoke;
      forall i | 0 <= i < |after.evidence|
        ensures Traced(history, after.evidence[i])
      {
        if i < |before.evidence| && after.evidence[i].kind == ExactAddressKind {
          assert Traced(history[..n], before.evidence[i]);
          var j :| 0 <= j < n && ReadsAddress(history[..n][j], before.evidence[i].orderId);
          assert ReadsAddress(history[j], after.evidence[i].orderId);
        }
      }
    }
  }

  // ---------- the auditor accepts every mapped result ----------

  lemma {:induction false} DeduplicateKeeps(signals: seq<Signal>)
    ensures forall s | s in signals :: Find(Deduplicate(signals), s.id).Some?
  {
    if signals != [] {
      var n := |signals| - 1;
      DeduplicateKeeps(signals[..n]);
      var front := Deduplicate(signals[..n]);
      forall s | s in signals
        ensures Find(Deduplicate(signals), s.id).Some?
      {
        assert s in signals[..n] || s == signals[n];
        if Find(front, signals[n].id).None? { assert (front + [signals[n]])[..|front|] == front; }
      }
    }
  }

  /** Signals of one customer that are registered, about the order, and present in the result. */
  predicate Cited(signals: seq<Signal>, orderId: string, evidence: seq<Signal>, l: Ledger) {
    signals != [] && forall s | s in signals :: s in l.evidence && s.orderId == orderId && Find(evidence, s.id).Some?
  }

  lemma CustomerSupported(value: ModelCandidate, candidate: Candidate, signals: seq<Signal>,
                          evidence: seq<Signal>, l: Ledger)
    requires Grounded(l) && Cited(signals, value.orderId, evidence, l)
    requires forall s | s in evidence :: s in l.evidence
    ensures !UnsupportedCustomer(MakeCustomer(value, candidate, signals), evidence, l.calls)
  {
  }

  lemma SameSignal(a: Signal, b: Signal, l: Ledger)
    requires Numbered(l.evidence) && a in l.evidence && b in l.evidence && a.id == b.id
    ensures a == b
  {
  }

  /** A resolved alternative: its customer and signals belong together and to the ledger. */
  ghost predicate Resolved(item: Ranked, l: Ledger) {
    && item.signals != []
    && (forall s | s in item.signals :: s in l.evidence && s.orderId == item.customer.orderId)
    && exists value, candidate :: item.customer == MakeCustomer(value, candidate, item.signals)
  }

  lemma {:induction false} AllResolved(values: seq<ModelCandidate>, l: Ledger, seen: set<Key>)
    ensures forall item | item in ResolveAll(values, l, seen) :: Resolved(item, l)
    decreases |values|
  {
    if values != [] {
      var r := AsAlternative(values[0], l, seen);
      if r.Some? {
        AlternativeResolved(values[0], l, seen);
        hide AsAlternative, Resolved;
        AllResolved(values[1..], l, seen + {r.value.0});
      } else {
        AllResolved(values[1..], l, seen);
      }
    }
  }

  lemma AlternativeResolved(value: ModelCandidate, l: Ledger, seen: set<Key>)
    requires AsAlternative(value, l, seen).Some?
    ensures Resolved(AsAlternative(value, l, seen).value.1, l)
  {
    var r := AsAlternative(value, l, seen).value;
    assert r.1.customer == MakeCustomer(value, l.verified[r.0], r.1.signals);
  }

  lemma {:induction false} SortMembers(items: seq<Ranked>)
    ensures forall x | x in SortByRank(items) :: x in items
  {
    if items != [] {
      SortMembers(items[..|items| - 1]);
      InsertKeeps(items[|items| - 1], SortByRank(items[..|items| - 1]));
    }
  }

  lemma {:induction false} EvidenceMembers(items: seq<Ranked>)
    ensures forall item, s | item in items && s in item.signals :: s in Evidence(items)
    ensures forall s | s in Evidence(items) :: exists item :: item in items && s in item.signals
  {
    if items != [] {
      EvidenceMembers(items[1..]);
      assert forall item | item in items :: item == items[0] || item in items[1..];
    }
  }

  lemma AmbiguousSupported(answer: ModelAnswer, l: Ledger, withRecommended: bool)
    requires Grounded(l)
    ensures !Unsupported(MakeAmbiguous(answer, l, withRecommended), l.calls)
  {
    var values := (if withRecommended && answer.recommended.Some? then [answer.recommended.value] else [])
                  + answer.alternatives;
    var items := ResolveAll(values, l, {});
    var best := Best(SortByRank(items));
    AllResolved(values, l, {});
    SortMembers(items);
    assert forall item | item in best :: item in SortByRank(items);
    hide SortByRank, ResolveAll, Best, UnsupportedCustomer;
    BestSupported(best, l);
  }

  lemma BestSupported(best: seq<Ranked>, l: Ledger)
    requires Grounded(l) && forall item | item in best :: Resolved(item, l)
    ensures forall c | c in Customers(best) :: !UnsupportedCustomer(c, Deduplicate(Evidence(best)), l.calls)
  {
    hide UnsupportedCustomer, Grounded;
    var evidence := Deduplicate(Evidence(best));
    EvidenceMembers(best);
    DeduplicateKeeps(Evidence(best));
    forall c | c in Customers(best)
      ensures !UnsupportedCustomer(c, evidence, l.calls)
    {
      var i :| 0 <= i < |best| && best[i].customer == c;
      assert best[i] in best;
      var value, candidate :| best[i].customer == MakeCustomer(value, candidate, best[i].signals);
      CustomerSupported(value, candidate, best[i].signals, evidence, l);
    }
  }

  lemma MatchSupported(value: ModelCandidate, key: Key, selected: seq<Signal>, l: Ledger)
    requires Grounded(l) && key in l.verified && key.0 == value.orderId
    requires selected != [] && forall s | s in selected :: s in l.evidence && About(s, key)
    ensures var grounded := Ground(selected, SignalsFor(key, l.evidence));
            !UnsupportedCustomer(MakeCustomer(value, l.verified[key], grounded), grounded, l.calls)
  {
    var all := selected + Against(SignalsFor(key, l.evidence));
    var grounded := Ground(selected, SignalsFor(key, l.evidence));
    DeduplicateKeeps(all);
    assert all[0] == selected[0] && all[0] in all;
    assert forall s | s in all :: s in l.evidence && About(s, key);
    hide UnsupportedCustomer, SignalsFor, Grounded;
    assert grounded != [] by { assert Find(grounded, all[0].id).Some?; }
    DeduplicateFinds(all);
    CustomerSupported(value, l.verified[key], grounded, grounded, l);
  }

  lemma {:induction false} DeduplicateFinds(signals: seq<Signal>)
    ensures forall s | s in Deduplicate(signals) :: Find(Deduplicate(signals), s.id).Some?
  {
    DeduplicateKeeps(signals);
  }

  /** Producer meets auditor: for every history of tool calls and every model answer, the auditor accepts
      the mapped identification on that run's own tool log. */
  lemma MappedResultSupported(history: seq<Call>, answer: ModelAnswer)
    ensures !Unsupported(MapOutput(answer, Replay(history)), Replay(history).calls)
  {
    var l := Replay(history);
    ReplayGrounded(history);
    AmbiguousSupported(answer, l, false);
    AmbiguousSupported(answer, l, true);
    if answer.recommended.Some? {
      var value := answer.recommended.value;
      var key := ResolveCandidate(value, l.verified);
      if key.Some? && SelectedSignals(value, key.value, l.evidence).Some? {
        MatchSupported(value, key.value, SelectedSignals(value, key.value, l.evidence).value, l);
      }
    }
    hide Grounded, UnsupportedCustomer, MakeAmbiguous, ConfidenceOf, HasCompetitor, Ground, SelectedSignals,
         ResolveCandidate, Replay;
  }

  // ---------- a high-confidence match ----------

  lemma NoHardContradiction(selected: seq<Signal>, key: Key, l: Ledger, s: Signal)
    requires Grounded(l) && s in SignalsFor(key, l.evidence) && s.polarity == Contradicting
    requires forall t | t in selected :: t in l.evidence
    requires !MaterialContradiction(Ground(selected, SignalsFor(key, l.evidence)))
    ensures s.kind !in HARD_CONTRADICTIONS
  {
    var all := selected + Against(SignalsFor(key, l.evidence));
    var grounded := Ground(selected, SignalsFor(key, l.evidence));
    DeduplicateKeeps(all);
    assert s in Against(SignalsFor(key, l.evidence)) && s in all;
    var found := Find(grounded, s.id).value;
    assert found in grounded && found in all;
    SameSignal(found, s, l);
    var i :| 0 <= i < |grounded| && grounded[i] == s;
    assert s.kind in Kinds(grounded, Contradicting);
    assert s.kind in HARD_CONTRADICTIONS ==> s.kind in Kinds(grounded, Contradicting) * HARD_CONTRADICTIONS;
  }

  lemma HighMeans(answer: ModelAnswer, l: Ledger) returns (key: Key, selected: seq<Signal>)
    requires MapOutput(answer, l).confidence == High
    ensures answer.recommended.Some? && key.0 == answer.recommended.value.orderId
    ensures ResolveCandidate(answer.recommended.value, l.verified) == Some(key)
    ensures forall t | t in selected :: t in l.evidence && About(t, key)
    ensures ConfidenceOf(Ground(selected, SignalsFor(key, l.evidence))) == High
  {
    hide ConfidenceOf, HasCompetitor, SortByRank, ResolveAll, Ground;
    key := ResolveCandidate(answer.recommended.value, l.verified).value;
    selected := SelectedSignals(answer.recommended.value, key, l.evidence).value;
  }

  lemma HighCitesAddress(signals: seq<Signal>) returns (s: Signal)
    requires ConfidenceOf(signals) == High
    ensures s in signals && s.kind == ExactAddressKind && !MaterialContradiction(signals)
  {
    var i :| 0 <= i < |signals| && signals[i].polarity == Supporting && signals[i].kind == ExactAddressKind;
    s := signals[i];
  }

  /** A high-confidence match rests on an exact address: some search or verification of the run returned
      the recommended order with an address all of whose tokens occur, in a row, in the payment text; and
      nothing in the candidate's whole ledger says the amount is too high or in another currency. */
  lemma HighRestsOnAddress(history: seq<Call>, answer: ModelAnswer)
    requires MapOutput(answer, Replay(history)).confidence == High
    ensures answer.recommended.Some?
    ensures exists i | 0 <= i < |history| :: ReadsAddress(history[i], answer.recommended.value.orderId)
    ensures var key := ResolveCandidate(answer.recommended.value, Replay(history).verified);
            && key.Some?
            && forall s | s in SignalsFor(key.value, Replay(history).evidence) && s.polarity == Contradicting ::
                 s.kind !in HARD_CONTRADICTIONS
  {
    var l := Replay(history);
    ReplayGrounded(history);
    var key, selected := HighMeans(answer, l);
    hide MapOutput, Replay, Grounded, ReadsAddress, MaterialContradiction, Ground, ConfidenceOf;
    var grounded := Ground(selected, SignalsFor(key, l.evidence));
    var s := HighCitesAddress(grounded);
    GroundedWithin(selected, key, l);
    forall t | t in SignalsFor(key, l.evidence) && t.polarity == Contradicting
      ensures t.kind !in HARD_CONTRADICTIONS
    {
      NoHardContradiction(selected, key, l, t);
    }
    var j :| 0 <= j < |l.evidence| && l.evidence[j] == s;
    assert Traced(history, l.evidence[j]);
  }

  lemma GroundedWithin(selected: seq<Signal>, key: Key, l: Ledger)
    requires forall t | t in selected :: t in l.evidence && About(t, key)
    ensures forall t | t in Ground(selected, SignalsFor(key, l.evidence)) :: t in l.evidence && t.orderId == key.0
  {
  }

  // ---------- an answer without a customer ----------

  predicate FoundNobody(call: Call) {
    call.Search? ==> SearchCandidates(call.q, call.rows, call.people) == []
  }

  lemma {:induction false} CandidatesKeepCounters(l: Ledger, candidates: seq<Observed>)
    ensures var after := RegisterCandidates(l, candidates);
            after.searchSucceeded == l.searchSucceeded && after.searchCount == l.searchCount
            && after.searchConclusive == l.searchConclusive
    decreases |candidates|
  {
    if candidates != [] { CandidatesKeepCounters(RegisterCandidate(l, candidates[0]), candidates[1..]); }
  }

  lemma InvokeCounts(l: Ledger, call: Call)
    ensures var after := Invoke(l, call);
            if call.Search?
            then var n := |SearchCandidates(call.q, call.rows, call.people)|;
                 after.searchSucceeded && after.searchConclusive == (l.searchConclusive || Conclusive(call))
                 && after.searchCount == Some(Max(if l.searchCount.Some? then l.searchCount.value else 0, n))
            else after.searchSucceeded == l.searchSucceeded && after.searchConclusive == l.searchConclusive
                 && after.searchCount == l.searchCount
  {
    hide SearchCandidates, VerifyCandidates, Conclusive, RegisterCandidates, RegisterAll, AttachAll;
    if !call.Raised? {
      var o := Observe(call, l.records);
      var seen := l.(available := l.available[ToolOf(call) := o.available]);
      var counted :=
        if ToolOf(call) == SearchTool && o.available then CountSearch(seen, call, |o.candidates|) else seen;
      CandidatesKeepCounters(
        counted.(records := l.records + o.records, evidence := RegisterAll(l.evidence, o.evidence)), o.candidates);
    }
  }

  predicate Searched(history: seq<Call>) {
    exists i | 0 <= i < |history| :: history[i].Search?
  }

  predicate NobodyFound(history: seq<Call>) {
    forall i | 0 <= i < |history| :: FoundNobody(history[i])
  }

  /** Some search was not truncated, asked for a RUT, an email or a phone, and met no row at all. */
  predicate Concluded(history: seq<Call>) {
    exists i | 0 <= i < |history| :: Concludes(history[i])
  }

  predicate Concludes(call: Call) {
    && call.Search? && !call.truncated && call.rows == [] && call.people == []
    && call.q.SearchQuery? && (call.q.rut != "" || call.q.email != "" || call.q.phone != "")
  }

  lemma ConcludesExactly(call: Call)
    ensures Conclusive(call) <==> Concludes(call)
  {
  }

  lemma LastCall(history: seq<Call>)
    requires history != []
    ensures var front, last := history[..|history| - 1], history[|history| - 1];
            && (Searched(history) <==> Searched(front) || last.Search?)
            && (NobodyFound(history) <==> NobodyFound(front) && FoundNobody(last))
            && (Concluded(history) <==> Concluded(front) || Concludes(last))
  {
    hide FoundNobody, Concludes;
    var n := |history| - 1;
    assert forall i | 0 <= i < n :: history[..n][i] == history[i];
    if NobodyFound(history[..n]) && FoundNobody(history[n]) {
      forall i | 0 <= i < |history|
        ensures FoundNobody(history[i])
      {
        if i < n { assert FoundNobody(history[..n][i]); }
      }
    }
    if NobodyFound(history) {
      forall i | 0 <= i < n
        ensures FoundNobody(history[..n][i])
      {
        assert FoundNobody(history[i]);
      }
    }
  }

  /** The counters of a run say what all its searches together found. */
  lemma {:induction false} SearchesCounted(history: seq<Call>)
    ensures var l := Replay(history);
            && (l.searchSucceeded <==> Searched(history))
            && (l.searchCount.Some? <==> Searched(history))
            && (l.searchCount == Some(0) <==> Searched(history) && NobodyFound(history))
            && (l.searchConclusive <==> Concluded(history))
  {
    if history != [] {
      var n := |history| - 1;
      SearchesCounted(history[..n]);
      InvokeCounts(Replay(history[..n]), history[n]);
      LastCall(history);
      ConcludesExactly(history[n]);
      if NobodyFound(history[..n]) && !Searched(history[..n]) { assert Replay(history[..n]).searchCount.None?; }
      NoSearchNobody(history[..n]);
      hide Invoke, Conclusive, Concludes, SearchCandidates, Searched, NobodyFound, Concluded;
    }
  }

  lemma NoSearchNobody(history: seq<Call>)
    ensures !Searched(history) ==> NobodyFound(history)
    ensures Concluded(history) ==> Searched(history)
  {
  }

  /** A no-customer answer speaks for the whole run: it comes out exactly when the model gave it, every
      search that answered returned no candidate, and one of them was untruncated and asked for a RUT, an
      email or a phone that neither query knew. */
  lemma NoCustomerExact(history: seq<Call>, answer: ModelAnswer)
    ensures MapOutput(answer, Replay(history)).outcome == NoCustomerFound
            <==> answer.outcome == NoCustomerFound && NobodyFound(history) && Concluded(history)
  {
    SearchesCounted(history);
    NoSearchNobody(history);
    hide Replay, SortByRank, ResolveAll, ConfidenceOf, HasCompetitor, Searched, NobodyFound, Concluded;
  }
}
