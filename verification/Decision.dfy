/** From an untrusted model answer to a grounded result: the answer may only point at verified candidates
    and registered evidence, and ranks computed from the ledger decide whether it stands. */
module Decision {
  import opened Records
  import opened Candidates
  import opened Ledger

  datatype Confidence = High | Medium | Low | Unknown
  datatype Outcome = Matched | Ambiguous | NoCustomerFound | OutOfScope

  datatype ModelCandidate = ModelCandidate(orderId: string, arId: Option<string>, evidenceIds: seq<nat>)
  datatype ModelAnswer = ModelAnswer(outcome: Outcome, recommended: Option<ModelCandidate>,
                                     alternatives: seq<ModelCandidate>)

  datatype Customer = Customer(name: string, orderId: string, evidenceIds: seq<nat>)
  datatype Identification = Identification(outcome: Outcome, recommended: Option<Customer>,
                                           arSummary: Option<string>, confidence: Confidence,
                                           alternatives: seq<Customer>, evidence: seq<Signal>)

  // ---------- which candidate, which evidence ----------

  predicate OnlyKeyOf(verified: map<Key, Candidate>, orderId: string, key: Key) {
    key.0 == orderId && forall k | k in verified && k.0 == orderId :: k == key
  }

  /** The exact key if it was verified; without an account receivable also the order's only one. */
  function ResolveCandidate(value: ModelCandidate, verified: map<Key, Candidate>): (r: Option<Key>)
    ensures r.Some? ==> r.value in verified && r.value.0 == value.orderId
  {
    var key := (value.orderId, value.arId);
    if key in verified then Some(key)
    else if value.arId.Some? then None
    else if exists k | k in verified :: OnlyKeyOf(verified, value.orderId, k)
    then var k :| k in verified && OnlyKeyOf(verified, value.orderId, k); Some(k)
    else None
  }

  predicate About(signal: Signal, key: Key) {
    signal.orderId == key.0 && (signal.arId.None? || signal.arId == key.1)
  }

  function SignalsFor(key: Key, evidence: seq<Signal>): (signals: seq<Signal>)
    ensures forall s :: s in signals <==> s in evidence && About(s, key)
  {
    if evidence == [] then []
    else
      var n := |evidence| - 1;
      SignalsFor(key, evidence[..n]) + if About(evidence[n], key) then [evidence[n]] else []
  }

  function Find(signals: seq<Signal>, id: nat): (r: Option<Signal>)
    ensures r.Some? ==> r.value in signals && r.value.id == id
    ensures r.None? ==> forall s | s in signals :: s.id != id
  {
    if signals == [] then None
    else
      var n := |signals| - 1;
      if signals[n].id == id then Some(signals[n]) else Find(signals[..n], id)
  }

  function Distinct(ids: seq<nat>): (r: seq<nat>)
    ensures forall id :: id in r <==> id in ids
    ensures forall i, j | 0 <= i < j < |r| :: r[i] != r[j]
  {
    if ids == [] then []
    else
      var n := |ids| - 1;
      if ids[n] in ids[..n] then Distinct(ids[..n]) else Distinct(ids[..n]) + [ids[n]]
  }

  /** The signals with these identifiers, in their order. */
  function Pick(allowed: seq<Signal>, ids: seq<nat>): (r: seq<Signal>)
    ensures forall s | s in r :: s in allowed
  {
    if ids == [] then []
    else
      var found := Find(allowed, ids[|ids| - 1]);
      Pick(allowed, ids[..|ids| - 1]) + if found.Some? then [found.value] else []
  }

  predicate AnySupporting(signals: seq<Signal>) {
    exists i | 0 <= i < |signals| :: signals[i].polarity == Supporting
  }

  /** The cited signals, if all of them are about the candidate and one of them supports it. */
  function SelectedSignals(value: ModelCandidate, key: Key, evidence: seq<Signal>): (r: Option<seq<Signal>>)
    ensures r.Some? ==> r.value != [] && forall s | s in r.value :: s in evidence && About(s, key)
  {
    var allowed := SignalsFor(key, evidence);
    if value.evidenceIds == [] || exists id | id in value.evidenceIds :: Find(allowed, id).None? then None
    else
      var signals := Pick(allowed, Distinct(value.evidenceIds));
      assert value.evidenceIds[0] in Distinct(value.evidenceIds);
      if AnySupporting(signals) then Some(signals) else None
  }

  // ---------- ranks and confidence ----------

  const DIRECT_IDENTITY := {CustomerName, SigneeName, Rut, Email, Phone}
  const BANK_IDENTITY := {BankName, BankAccount}
  const HARD_CONTRADICTIONS := {AmountExceedsOutstanding, CurrencyMismatch}

  function Kinds(signals: seq<Signal>, polarity: Polarity): set<EvidenceKind> {
    set i | 0 <= i < |signals| && signals[i].polarity == polarity :: signals[i].kind
  }

  function Contradictions(signals: seq<Signal>): int {
    if signals == [] then 0
    else Contradictions(signals[..|signals| - 1])
         + if signals[|signals| - 1].polarity == Contradicting then 1 else 0
  }

  predicate MaterialContradiction(signals: seq<Signal>) {
    var kinds, against := Kinds(signals, Supporting), Kinds(signals, Contradicting);
    || against * HARD_CONTRADICTIONS != {}
    || (IdentityConflict in against
        && !(VambeContext in kinds && (ExactOutstanding in kinds || ExactAddressKind in kinds)))
  }

  function ConfidenceOf(signals: seq<Signal>): Confidence {
    var kinds := Kinds(signals, Supporting);
    if MaterialContradiction(signals) then Unknown
    else if ExactAddressKind in kinds then High
    else if kinds * DIRECT_IDENTITY != {} then Medium
    else if ExactOutstanding in kinds
            && (VambeContext in kinds || PartialAddressKind in kinds || NameFragment in kinds
                || kinds * BANK_IDENTITY != {})
    then Medium
    else Unknown
  }

  function Flag(kind: EvidenceKind, kinds: set<EvidenceKind>): int {
    if kind in kinds then 1 else 0
  }

  /** Eight components, compared from left to right. */
  type RankTuple = r: seq<int> | |r| == 8 witness [0, 0, 0, 0, 0, 0, 0, 0]

  function Rank(signals: seq<Signal>): RankTuple {
    var kinds := Kinds(signals, Supporting);
    [Flag(ExactAddressKind, kinds), |kinds * DIRECT_IDENTITY|, Flag(ExactOutstanding, kinds),
     Flag(VambeContext, kinds), Flag(PartialAddressKind, kinds), Flag(NameFragment, kinds),
     Flag(PartialPayment, kinds), -Contradictions(signals)]
  }

  predicate Less(a: seq<int>, b: seq<int>)
    decreases |a|
  {
    |a| > 0 && |b| > 0 && (a[0] < b[0] || (a[0] == b[0] && Less(a[1..], b[1..])))
  }

  // ---------- the result ----------

  /** Registered signals always have an identifier, so it alone decides what is a duplicate. */
  function Deduplicate(signals: seq<Signal>): (r: seq<Signal>)
    ensures forall s | s in r :: s in signals
  {
    if signals == [] then []
    else
      var n := |signals| - 1;
      var front := Deduplicate(signals[..n]);
      if Find(front, signals[n].id).Some? then front else front + [signals[n]]
  }

  lemma {:induction false} FoundAppended(signals: seq<Signal>, s: Signal, id: nat)
    ensures Find(signals + [s], id).Some? <==> Find(signals, id).Some? || s.id == id
  {
    assert (signals + [s])[..|signals|] == signals;
  }

  /** `_deduplicate_signals`: one pass with the identifiers seen so far. */
  method DeduplicateSignals(signals: seq<Signal>) returns (result: seq<Signal>)
    ensures result == Deduplicate(signals)
  {
    hide Find;
    result := [];
    var seen: set<nat> := {};
    var i := 0;
    NothingInEmpty();
    while i < |signals|
      invariant 0 <= i <= |signals| && result == Deduplicate(signals[..i])
      invariant forall id: nat :: id in seen <==> Find(result, id).Some?
    {
      assert signals[..i + 1][..i] == signals[..i];
      var signal := signals[i];
      if signal.id !in seen {
        forall id: nat
          ensures Find(result + [signal], id).Some? <==> Find(result, id).Some? || signal.id == id
        {
          FoundAppended(result, signal, id);
        }
        seen := seen + {signal.id};
        result := result + [signal];
      }
      i := i + 1;
    }
    assert signals[..i] == signals;
  }

  lemma NothingInEmpty()
    ensures forall id: nat :: Find([], id).None?
  {
  }

  predicate DistinctIds(signals: seq<Signal>) {
    forall i, j | 0 <= i < j < |signals| :: signals[i].id != signals[j].id
  }

  lemma DistinctAppended(signals: seq<Signal>, s: Signal)
    requires DistinctIds(signals) && Find(signals, s.id).None?
    ensures DistinctIds(signals + [s])
  {
  }

  /** No identifier is left twice. */
  lemma {:induction false} DeduplicateDistinct(signals: seq<Signal>)
    ensures DistinctIds(Deduplicate(signals))
  {
    if signals != [] {
      hide Find, DistinctIds;
      var n := |signals| - 1;
      DeduplicateDistinct(signals[..n]);
      var front := Deduplicate(signals[..n]);
      if Find(front, signals[n].id).None? { DistinctAppended(front, signals[n]); }
    }
  }

  function Ids(signals: seq<Signal>): (ids: seq<nat>)
    ensures |ids| == |signals| && forall i | 0 <= i < |ids| :: ids[i] == signals[i].id
  {
    seq(|signals|, i requires 0 <= i < |signals| => signals[i].id)
  }

  function MakeCustomer(value: ModelCandidate, candidate: Candidate, signals: seq<Signal>): Customer {
    Customer(candidate.name, value.orderId, Ids(signals))
  }

  datatype Ranked = Ranked(rank: RankTuple, customer: Customer, signals: seq<Signal>)

  predicate WorthShowing(signals: seq<Signal>) {
    var kinds := Kinds(signals, Supporting);
    ConfidenceOf(signals) != Unknown || ExactOutstanding in kinds || ExactAddressKind in kinds
    || PartialAddressKind in kinds
  }

  /** The value as an alternative: a verified candidate not seen before, with valid and telling evidence. */
  function AsAlternative(value: ModelCandidate, l: Ledger, seen: set<Key>): (r: Option<(Key, Ranked)>)
    ensures r.Some? ==>
              && r.value.0 in l.verified && r.value.0 !in seen && r.value.0.0 == value.orderId
              && var signals := r.value.1.signals;
                 && signals != [] && (forall s | s in signals :: s in l.evidence && About(s, r.value.0))
                 && r.value.1.rank == Rank(signals)
                 && r.value.1.customer == MakeCustomer(value, l.verified[r.value.0], signals)
  {
    var resolved := ResolveCandidate(value, l.verified);
    if resolved.None? || resolved.value in seen then None
    else
      var signals := SelectedSignals(value, resolved.value, l.evidence);
      if signals.None? || !WorthShowing(signals.value) then None
      else Some((resolved.value, Ranked(Rank(signals.value),
                                      MakeCustomer(value, l.verified[resolved.value], signals.value), signals.value)))
  }

  function ResolveAll(values: seq<ModelCandidate>, l: Ledger, seen: set<Key>): seq<Ranked>
    decreases |values|
  {
    if values == [] then []
    else
      var r := AsAlternative(values[0], l, seen);
      if r.None? then ResolveAll(values[1..], l, seen)
      else [r.value.1] + ResolveAll(values[1..], l, seen + {r.value.0})
  }

  /** Inserts behind everything of equal or higher rank. */
  function InsertByRank(item: Ranked, sorted: seq<Ranked>): seq<Ranked> {
    if sorted == [] then [item]
    else if Less(sorted[0].rank, item.rank) then [item] + sorted
    else [sorted[0]] + InsertByRank(item, sorted[1..])
  }

  /** The stable sort by descending rank. */
  function SortByRank(items: seq<Ranked>): seq<Ranked> {
    if items == [] then [] else InsertByRank(items[|items| - 1], SortByRank(items[..|items| - 1]))
  }

  function Best(items: seq<Ranked>): seq<Ranked> {
    if |items| <= 3 then items else items[..3]
  }

  function Customers(items: seq<Ranked>): (r: seq<Customer>)
    ensures |r| == |items| && forall i | 0 <= i < |r| :: r[i] == items[i].customer
  {
    seq(|items|, i requires 0 <= i < |items| => items[i].customer)
  }

  function Evidence(items: seq<Ranked>): seq<Signal> {
    if items == [] then [] else items[0].signals + Evidence(items[1..])
  }

  /** `_alternatives`: resolve in the given order, sort by rank, keep three. */
  method FindAlternatives(values: seq<ModelCandidate>, l: Ledger)
    returns (customers: seq<Customer>, evidence: seq<Signal>)
    ensures var best := Best(SortByRank(ResolveAll(values, l, {})));
            customers == Customers(best) && evidence == Deduplicate(Evidence(best))
  {
    hide AsAlternative, ResolveAll, SortByRank, Deduplicate, Best, Customers, Evidence;
    var resolved: seq<Ranked> := [];
    var seen: set<Key> := {};
    var i := 0;
    while i < |values|
      invariant 0 <= i <= |values|
      invariant ResolveAll(values, l, {}) == resolved + ResolveAll(values[i..], l, seen)
    {
      ResolveStep(values[i..], l, seen);
      assert values[i..][1..] == values[i + 1..];
      var found := AsAlternative(values[i], l, seen);
      if found.Some? {
        seen := seen + {found.value.0};
        resolved := resolved + [found.value.1];
      }
      i := i + 1;
    }
    ResolveNone(l, seen);
    assert values[i..] == [] && resolved + [] == resolved;
    var best := Best(SortByRank(resolved));
    customers, evidence := Customers(best), Deduplicate(Evidence(best));
  }

  lemma ResolveNone(l: Ledger, seen: set<Key>)
    ensures ResolveAll([], l, seen) == []
  {
  }

  lemma ResolveStep(values: seq<ModelCandidate>, l: Ledger, seen: set<Key>)
    requires values != []
    ensures var r := AsAlternative(values[0], l, seen);
            ResolveAll(values, l, seen)
            == if r.None? then ResolveAll(values[1..], l, seen)
               else [r.value.1] + ResolveAll(values[1..], l, seen + {r.value.0})
  {
  }

  function MakeAmbiguous(answer: ModelAnswer, l: Ledger, withRecommended: bool): Identification {
    var values := (if withRecommended && answer.recommended.Some? then [answer.recommended.value] else [])
                  + answer.alternatives;
    var best := Best(SortByRank(ResolveAll(values, l, {})));
    Identification(Ambiguous, None, None, Unknown, Customers(best), Deduplicate(Evidence(best)))
  }

  /** The cited signals together with every contradiction the ledger holds about the candidate. */
  function Ground(selected: seq<Signal>, all: seq<Signal>): seq<Signal> {
    Deduplicate(selected + Against(all))
  }

  function Against(signals: seq<Signal>): (r: seq<Signal>)
    ensures forall s :: s in r <==> s in signals && s.polarity == Contradicting
  {
    if signals == [] then []
    else
      var n := |signals| - 1;
      Against(signals[..n]) + if signals[n].polarity == Contradicting then [signals[n]] else []
  }

  /** Another verified candidate ranks at least as high on all its evidence. */
  predicate HasCompetitor(key: Key, l: Ledger) {
    exists other | other in l.verified ::
      other != key && !Less(Rank(SignalsFor(other, l.evidence)), Rank(SignalsFor(key, l.evidence)))
  }

  /** The tests a recommendation has to pass, in the order they are made. */
  function MapRecommended(answer: ModelAnswer, value: ModelCandidate, l: Ledger): Identification {
    var key := ResolveCandidate(value, l.verified);
    if key.None? then MakeAmbiguous(answer, l, true)
    else
      var selected := SelectedSignals(value, key.value, l.evidence);
      if selected.None? then MakeAmbiguous(answer, l, true)
      else
        var grounded := Ground(selected.value, SignalsFor(key.value, l.evidence));
        if ConfidenceOf(grounded) == Unknown || HasCompetitor(key.value, l) then MakeAmbiguous(answer, l, true)
        else
          var candidate := l.verified[key.value];
          Identification(Matched, Some(MakeCustomer(value, candidate, grounded)), candidate.arSummary,
                         ConfidenceOf(grounded), [], grounded)
  }

  /** The run looked for candidates, found none in any search, and one search was conclusive. */
  predicate NothingFound(l: Ledger) {
    l.searchSucceeded && l.searchConclusive && l.searchCount == Some(0)
  }

  /** `_map_output`. */
  function MapOutput(answer: ModelAnswer, l: Ledger): Identification {
    match answer.outcome
    case OutOfScope => MakeAmbiguous(answer, l, false)
    case NoCustomerFound =>
      if NothingFound(l) then Identification(NoCustomerFound, None, None, Unknown, [], [])
      else MakeAmbiguous(answer, l, false)
    case Ambiguous => MakeAmbiguous(answer, l, false)
    case Matched =>
      if answer.recommended.None? then MakeAmbiguous(answer, l, false)
      else MapRecommended(answer, answer.recommended.value, l)
  }

  /** The validator every identification has to satisfy. */
  predicate OutcomeConsistent(r: Identification) {
    && (if r.outcome == Matched then r.recommended.Some? && (r.confidence == High || r.confidence == Medium)
        else r.recommended.None? && r.arSummary.None? && r.confidence == Unknown)
    && (r.outcome == NoCustomerFound || r.outcome == OutOfScope ==> r.alternatives == [])
    && |r.alternatives| <= 3
  }

  // ---------- laws of the result ----------

  /** Whatever the model answers, the mapped result passes the validator; and a payment question is never called
      out of scope. */
  lemma MapOutputConsistent(answer: ModelAnswer, l: Ledger)
    ensures OutcomeConsistent(MapOutput(answer, l)) && MapOutput(answer, l).outcome != OutOfScope
  {
  }

  lemma {:induction false} LessAsymmetric(a: seq<int>, b: seq<int>)
    ensures !(Less(a, b) && Less(b, a))
    decreases |a|
  {
    if |a| > 0 && |b| > 0 { LessAsymmetric(a[1..], b[1..]); }
  }

  lemma {:induction false} NotLessTransitive(a: seq<int>, b: seq<int>, c: seq<int>)
    requires !Less(a, b) && !Less(b, c) && |a| == |b| == |c|
    ensures !Less(a, c)
    decreases |a|
  {
    if |a| > 0 && a[0] == b[0] == c[0] { NotLessTransitive(a[1..], b[1..], c[1..]); }
  }

  predicate IsMatch(answer: ModelAnswer, l: Ledger) {
    MapOutput(answer, l).outcome == Matched
  }

  lemma MatchBeatsAll(answer: ModelAnswer, l: Ledger)
    requires IsMatch(answer, l)
    ensures answer.recommended.Some?
    ensures var key := ResolveCandidate(answer.recommended.value, l.verified);
            && key.Some? && !HasCompetitor(key.value, l)
            && MapOutput(answer, l).arSummary == l.verified[key.value].arSummary
            && MapOutput(answer, l).recommended.value.name == l.verified[key.value].name
            && MapOutput(answer, l).recommended.value.orderId == key.value.0
  {
    hide ConfidenceOf, HasCompetitor, SortByRank, ResolveAll, Ground, SelectedSignals;
  }

  /** The model cannot choose between customers: on one ledger, all answers that come out matched name
      the same verified candidate, the one that strictly outranks every other. */
  lemma MatchUnique(first: ModelAnswer, second: ModelAnswer, l: Ledger)
    requires IsMatch(first, l) && IsMatch(second, l)
    ensures ResolveCandidate(first.recommended.value, l.verified)
            == ResolveCandidate(second.recommended.value, l.verified)
    ensures var a, b := MapOutput(first, l), MapOutput(second, l);
            a.recommended.value.name == b.recommended.value.name
            && a.recommended.value.orderId == b.recommended.value.orderId && a.arSummary == b.arSummary
  {
    MatchBeatsAll(first, l);
    MatchBeatsAll(second, l);
    hide MapOutput, IsMatch, Rank;
    var a := ResolveCandidate(first.recommended.value, l.verified).value;
    var b := ResolveCandidate(second.recommended.value, l.verified).value;
    LessAsymmetric(Rank(SignalsFor(a, l.evidence)), Rank(SignalsFor(b, l.evidence)));
  }

  // ---------- sorting ----------

  predicate Sorted(items: seq<Ranked>) {
    forall i, j | 0 <= i < j < |items| :: !Less(items[i].rank, items[j].rank)
  }

  function WithRank(items: seq<Ranked>, rank: RankTuple): seq<Ranked> {
    if items == [] then []
    else (if items[0].rank == rank then [items[0]] else []) + WithRank(items[1..], rank)
  }

  lemma {:induction false} InsertKeeps(item: Ranked, sorted: seq<Ranked>)
    ensures multiset(InsertByRank(item, sorted)) == multiset(sorted) + multiset{item}
    ensures forall x | x in InsertByRank(item, sorted) :: x == item || x in sorted
  {
    hide Less;
    if sorted != [] {
      assert sorted == [sorted[0]] + sorted[1..];
      InsertKeeps(item, sorted[1..]);
    }
  }

  lemma {:induction false} InsertSorted(item: Ranked, sorted: seq<Ranked>)
    requires Sorted(sorted)
    ensures Sorted(InsertByRank(item, sorted))
  {
    hide Less;
    if sorted != [] {
      var first := sorted[0];
      if Less(first.rank, item.rank) {
        LessAsymmetric(first.rank, item.rank);
        forall j | 1 <= j < |sorted|
          ensures !Less(item.rank, sorted[j].rank)
        {
          NotLessTransitive(item.rank, first.rank, sorted[j].rank);
        }
      } else {
        assert forall i | 0 <= i < |sorted[1..]| :: sorted[1..][i] == sorted[i + 1];
        InsertSorted(item, sorted[1..]);
        InsertKeeps(item, sorted[1..]);
        var rest := InsertByRank(item, sorted[1..]);
        forall j | 0 <= j < |rest|
          ensures !Less(first.rank, rest[j].rank)
        {
          assert rest[j] == item || rest[j] in sorted[1..];
        }
      }
    }
  }

  lemma WithRankCons(item: Ranked, items: seq<Ranked>, rank: RankTuple)
    ensures WithRank([item] + items, rank) == (if item.rank == rank then [item] else []) + WithRank(items, rank)
  {
    assert ([item] + items)[1..] == items;
  }

  lemma {:induction false} InsertStable(item: Ranked, sorted: seq<Ranked>, rank: RankTuple)
    requires Sorted(sorted)
    ensures WithRank(InsertByRank(item, sorted), rank)
            == WithRank(sorted, rank) + if item.rank == rank then [item] else []
  {
    if sorted == [] {
      WithRankCons(item, [], rank);
    } else {
      hide WithRank, Less;
      if Less(sorted[0].rank, item.rank) {
        if item.rank == rank { NoneWithRank(sorted, rank); }
        WithRankCons(item, sorted, rank);
      } else {
        InsertStable(item, sorted[1..], rank);
        WithRankCons(sorted[0], InsertByRank(item, sorted[1..]), rank);
        WithRankCons(sorted[0], sorted[1..], rank);
        assert sorted == [sorted[0]] + sorted[1..];
      }
    }
  }

  lemma {:induction false} NoneWithRank(items: seq<Ranked>, rank: RankTuple)
    requires Sorted(items) && (items != [] ==> Less(items[0].rank, rank))
    ensures WithRank(items, rank) == []
  {
    hide Less;
    if items != [] {
      LessAsymmetric(items[0].rank, rank);
      assert forall i | 0 <= i < |items[1..]| :: items[1..][i] == items[i + 1];
      if |items| > 1 { LessBelow(items[1].rank, items[0].rank, rank); }
      NoneWithRank(items[1..], rank);
    }
  }

  lemma {:induction false} LessBelow(a: seq<int>, b: seq<int>, c: seq<int>)
    requires !Less(b, a) && Less(b, c)
    requires |a| == |b| == |c|
    ensures Less(a, c)
    decreases |a|
  {
    if a[0] == b[0] == c[0] { LessBelow(a[1..], b[1..], c[1..]); }
  }

  lemma {:induction false} SortSorted(items: seq<Ranked>)
    ensures Sorted(SortByRank(items))
  {
    if items != [] {
      hide Less, InsertByRank, Sorted;
      SortSorted(items[..|items| - 1]);
      InsertSorted(items[|items| - 1], SortByRank(items[..|items| - 1]));
    }
  }

  lemma {:induction false} SortKeeps(items: seq<Ranked>)
    ensures multiset(SortByRank(items)) == multiset(items)
  {
    if items != [] {
      hide Less, InsertByRank;
      var front, last := items[..|items| - 1], items[|items| - 1];
      SortKeeps(front);
      InsertKeeps(last, SortByRank(front));
      assert items == front + [last];
    }
  }

  lemma {:induction false} SortStable(items: seq<Ranked>, rank: RankTuple)
    ensures WithRank(SortByRank(items), rank) == WithRank(items, rank)
  {
    if items != [] {
      hide Less, InsertByRank, WithRank, Sorted;
      var front, last := items[..|items| - 1], items[|items| - 1];
      SortStable(front, rank);
      SortSorted(front);
      InsertStable(last, SortByRank(front), rank);
      WithRankAppended(front, last, rank);
      assert items == front + [last];
    }
  }

  /** The alternatives are sorted by rank, nothing is added or dropped before the cut, and candidates of
      equal rank stay in the order the model gave them. */
  lemma SortByRankLaws(items: seq<Ranked>, rank: RankTuple)
    ensures Sorted(SortByRank(items)) && multiset(SortByRank(items)) == multiset(items)
    ensures WithRank(SortByRank(items), rank) == WithRank(items, rank)
  {
    hide Sorted, SortByRank, WithRank;
    SortSorted(items);
    SortKeeps(items);
    SortStable(items, rank);
  }

  lemma {:induction false} WithRankAppended(items: seq<Ranked>, item: Ranked, rank: RankTuple)
    ensures WithRank(items + [item], rank) == WithRank(items, rank) + if item.rank == rank then [item] else []
  {
    if items == [] {
      WithRankCons(item, [], rank);
      assert [] + [item] == [item] + [];
    } else {
      hide WithRank;
      WithRankAppended(items[1..], item, rank);
      WithRankCons(items[0], items[1..] + [item], rank);
      WithRankCons(items[0], items[1..], rank);
      assert items + [item] == [items[0]] + (items[1..] + [item]);
      assert items == [items[0]] + items[1..];
    }
  }

  // ---------- more evidence ----------

  function Level(c: Confidence): int {
    match c
    case Unknown => 0
    case Low => 1
    case Medium => 2
    case High => 3
  }

  lemma KindsAppended(signals: seq<Signal>, s: Signal, polarity: Polarity)
    ensures Kinds(signals + [s], polarity)
            == Kinds(signals, polarity) + if s.polarity == polarity then {s.kind} else {}
  {
    var all := signals + [s];
    assert forall i | 0 <= i < |signals| :: all[i] == signals[i];
    forall kind
      ensures kind in Kinds(all, polarity) <==>
              kind in Kinds(signals, polarity) || (s.polarity == polarity && s.kind == kind)
    {
      if s.polarity == polarity && s.kind == kind { assert all[|signals|] == s; }
      if kind in Kinds(signals, polarity) {
        var i :| 0 <= i < |signals| && signals[i].polarity == polarity && signals[i].kind == kind;
        assert all[i] == signals[i];
      }
    }
  }

  lemma ContradictionsAppended(signals: seq<Signal>, s: Signal)
    ensures Contradictions(signals + [s]) == Contradictions(signals) + if s.polarity == Contradicting then 1 else 0
  {
    assert (signals + [s])[..|signals|] == signals;
  }

  lemma {:induction false} SubsetSize<T>(a: set<T>, b: set<T>)
    requires a <= b
    ensures |a| <= |b|
  {
    if a != {} {
      var x :| x in a;
      SubsetSize(a - {x}, b - {x});
    }
  }

  lemma {:induction false} NotLessPointwise(a: seq<int>, b: seq<int>)
    requires |a| == |b| && forall i | 0 <= i < |a| :: b[i] <= a[i]
    ensures !Less(a, b)
    decreases |a|
  {
    if |a| > 0 { NotLessPointwise(a[1..], b[1..]); }
  }

  lemma {:induction false} LessAtLast(a: seq<int>, b: seq<int>)
    requires |a| == |b| > 0 && a[..|a| - 1] == b[..|b| - 1] && a[|a| - 1] < b[|b| - 1]
    ensures Less(a, b)
    decreases |a|
  {
    if |a| > 1 {
      assert a[0] == a[..|a| - 1][0] && b[0] == b[..|b| - 1][0];
      assert a[1..][..|a| - 2] == a[..|a| - 1][1..] && b[1..][..|b| - 2] == b[..|b| - 1][1..];
      LessAtLast(a[1..], b[1..]);
    }
  }

  /** A supporting signal never lowers confidence or rank. */
  lemma SupportNeverLowers(signals: seq<Signal>, s: Signal)
    requires s.polarity == Supporting
    ensures Level(ConfidenceOf(signals)) <= Level(ConfidenceOf(signals + [s]))
    ensures !Less(Rank(signals + [s]), Rank(signals))
  {
    KindsAppended(signals, s, Supporting);
    KindsAppended(signals, s, Contradicting);
    ContradictionsAppended(signals, s);
    hide Kinds, Contradictions, Less;
    SubsetSize(Kinds(signals, Supporting) * DIRECT_IDENTITY, Kinds(signals + [s], Supporting) * DIRECT_IDENTITY);
    NotLessPointwise(Rank(signals + [s]), Rank(signals));
  }

  /** A contradicting signal never raises confidence and strictly lowers the rank. */
  lemma ContradictionLowers(signals: seq<Signal>, s: Signal)
    requires s.polarity == Contradicting
    ensures Level(ConfidenceOf(signals + [s])) <= Level(ConfidenceOf(signals))
    ensures Less(Rank(signals + [s]), Rank(signals))
  {
    KindsAppended(signals, s, Supporting);
    KindsAppended(signals, s, Contradicting);
    ContradictionsAppended(signals, s);
    hide Kinds, Contradictions, Less;
    LessAtLast(Rank(signals + [s]), Rank(signals));
  }

  /** One more signal of a kind already seen with its polarity changes neither the confidence nor the seven
      supporting components. */
  lemma RepetitionNeutral(signals: seq<Signal>, s: Signal)
    requires s.kind in Kinds(signals, s.polarity)
    ensures ConfidenceOf(signals + [s]) == ConfidenceOf(signals)
    ensures Rank(signals + [s])[..7] == Rank(signals)[..7]
    ensures s.polarity == Supporting ==> Rank(signals + [s]) == Rank(signals)
  {
    KindsAppended(signals, s, Supporting);
    KindsAppended(signals, s, Contradicting);
    ContradictionsAppended(signals, s);
    hide Kinds, Contradictions;
    assert Kinds(signals, s.polarity) + {s.kind} == Kinds(signals, s.polarity);
  }

  function Without(signals: seq<Signal>, i: nat): (r: seq<Signal>)
    requires i < |signals|
    ensures |r| == |signals| - 1
  {
    signals[..i] + signals[i + 1..]
  }

  lemma {:induction false} ContradictionsRemoved(signals: seq<Signal>, i: nat)
    requires i < |signals|
    ensures Contradictions(signals)
            == Contradictions(Without(signals, i)) + if signals[i].polarity == Contradicting then 1 else 0
  {
    var n := |signals| - 1;
    if i < n {
      ContradictionsRemoved(signals[..n], i);
      assert Without(signals, i)[..n - 1] == Without(signals[..n], i);
    } else {
      assert Without(signals, i) == signals[..n];
    }
  }

  lemma RemovedContents(signals: seq<Signal>, i: nat)
    requires i < |signals|
    ensures multiset(Without(signals, i)) == multiset(signals) - multiset{signals[i]}
  {
    assert signals == signals[..i] + [signals[i]] + signals[i + 1..];
  }

  lemma {:induction false} ContradictionsOrder(a: seq<Signal>, b: seq<Signal>)
    requires multiset(a) == multiset(b)
    ensures Contradictions(a) == Contradictions(b)
    decreases |a|
  {
    if a == [] {
      assert |b| == |multiset(b)| == 0;
    } else {
      assert a[0] in multiset(b);
      var i :| 0 <= i < |b| && b[i] == a[0];
      hide Contradictions, Without;
      RemovedContents(a, 0);
      RemovedContents(b, i);
      ContradictionsRemoved(a, 0);
      ContradictionsRemoved(b, i);
      ContradictionsOrder(Without(a, 0), Without(b, i));
    }
  }

  /** The order in which signals arrive matters for neither rank nor confidence. */
  lemma OrderIrrelevant(a: seq<Signal>, b: seq<Signal>)
    requires multiset(a) == multiset(b)
    ensures Rank(a) == Rank(b) && ConfidenceOf(a) == ConfidenceOf(b)
  {
    forall polarity
      ensures Kinds(a, polarity) == Kinds(b, polarity)
    {
      KindsWithin(a, b, polarity);
      KindsWithin(b, a, polarity);
    }
    ContradictionsOrder(a, b);
    hide Kinds, Contradictions;
  }

  lemma KindsWithin(a: seq<Signal>, b: seq<Signal>, polarity: Polarity)
    requires multiset(a) == multiset(b)
    ensures Kinds(a, polarity) <= Kinds(b, polarity)
  {
    forall i | 0 <= i < |a| && a[i].polarity == polarity
      ensures a[i].kind in Kinds(b, polarity)
    {
      assert a[i] in multiset(b);
      var j :| 0 <= j < |b| && b[j] == a[i];
    }
  }
}
