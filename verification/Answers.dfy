/** Exactly when a model answer is accepted, and what a user is shown otherwise. */
module Answers {
  import opened Records
  import opened Candidates
  import opened Ledger
  import opened Decision
  import opened Audit
  import Histories

  // ---------- evidence that may be cited ----------

  /** The signal is about the candidate: about its order, and about its account unless it names none. */
  predicate Touches(signal: Signal, key: Key) {
    signal.orderId == key.0 && (signal.arId.None? || signal.arId == key.1)
  }

  /** Some registered signal about the candidate has this identifier. */
  predicate Registered(id: nat, key: Key, evidence: seq<Signal>) {
    exists i | 0 <= i < |evidence| :: evidence[i].id == id && Touches(evidence[i], key)
  }

  /** The cited identifier is that of a supporting signal about the candidate. */
  predicate RegisteredSupport(id: nat, key: Key, evidence: seq<Signal>) {
    exists i | 0 <= i < |evidence| ::
      evidence[i].id == id && Touches(evidence[i], key) && evidence[i].polarity == Supporting
  }

  /** Something is cited, everything cited is registered about the candidate, and some of it supports. */
  predicate CitesValidly(value: ModelCandidate, key: Key, evidence: seq<Signal>) {
    && value.evidenceIds != []
    && (forall k | 0 <= k < |value.evidenceIds| :: Registered(value.evidenceIds[k], key, evidence))
    && exists k | 0 <= k < |value.evidenceIds| :: RegisteredSupport(value.evidenceIds[k], key, evidence)
  }

  lemma FoundExactly(key: Key, evidence: seq<Signal>, id: nat)
    ensures Find(SignalsFor(key, evidence), id).Some? <==> Registered(id, key, evidence)
  {
  }

  lemma {:induction false} PickedAll(allowed: seq<Signal>, ids: seq<nat>, s: Signal)
    requires s.id in ids && Find(allowed, s.id) == Some(s)
    ensures s in Pick(allowed, ids)
  {
    var n := |ids| - 1;
    if ids[n] != s.id { PickedAll(allowed, ids[..n], s); }
  }

  lemma {:induction false} PickedFrom(allowed: seq<Signal>, ids: seq<nat>)
    ensures forall s | s in Pick(allowed, ids) :: s.id in ids && Find(allowed, s.id) == Some(s)
  {
    if ids != [] { PickedFrom(allowed, ids[..|ids| - 1]); }
  }

  lemma CitedRegistered(ids: seq<nat>, key: Key, evidence: seq<Signal>)
    ensures (exists id | id in ids :: Find(SignalsFor(key, evidence), id).None?)
            <==> exists k | 0 <= k < |ids| :: !Registered(ids[k], key, evidence)
  {
    hide SignalsFor, Find, Registered;
    forall id
      ensures Find(SignalsFor(key, evidence), id).Some? <==> Registered(id, key, evidence)
    {
      FoundExactly(key, evidence, id);
    }
    if k :| 0 <= k < |ids| && !Registered(ids[k], key, evidence) {
      assert ids[k] in ids && Find(SignalsFor(key, evidence), ids[k]).None?;
    }
  }

  /** A selection exists exactly when the citation is valid. */
  lemma SelectedExactly(value: ModelCandidate, key: Key, evidence: seq<Signal>)
    requires Numbered(evidence)
    ensures SelectedSignals(value, key, evidence).Some? <==> CitesValidly(value, key, evidence)
  {
    hide SignalsFor, Find, Pick, AnySupporting, Registered, RegisteredSupport, Distinct;
    CitedRegistered(value.evidenceIds, key, evidence);
    SupportExactly(value, key, evidence);
  }

  lemma SupportExactly(value: ModelCandidate, key: Key, evidence: seq<Signal>)
    requires Numbered(evidence)
    ensures AnySupporting(Pick(SignalsFor(key, evidence), Distinct(value.evidenceIds)))
            <==> exists k | 0 <= k < |value.evidenceIds| :: RegisteredSupport(value.evidenceIds[k], key, evidence)
  {
    var allowed := SignalsFor(key, evidence);
    var picked := Pick(allowed, Distinct(value.evidenceIds));
    PickedFrom(allowed, Distinct(value.evidenceIds));
    if AnySupporting(picked) {
      var i :| 0 <= i < |picked| && picked[i].polarity == Supporting;
      var s := picked[i];
      assert s in picked && s in evidence && About(s, key);
      var k :| 0 <= k < |value.evidenceIds| && value.evidenceIds[k] == s.id;
      assert RegisteredSupport(value.evidenceIds[k], key, evidence);
    }
    if k :| 0 <= k < |value.evidenceIds| && RegisteredSupport(value.evidenceIds[k], key, evidence) {
      var id := value.evidenceIds[k];
      var i :|
        0 <= i < |evidence| && evidence[i].id == id && Touches(evidence[i], key) && evidence[i].polarity == Supporting;
      assert evidence[i] in allowed;
      FindsIt(allowed, evidence, i);
      PickedAll(allowed, Distinct(value.evidenceIds), evidence[i]);
    }
  }

  lemma FindsIt(allowed: seq<Signal>, evidence: seq<Signal>, i: nat)
    requires Numbered(evidence) && i < |evidence| && evidence[i] in allowed && forall s | s in allowed :: s in evidence
    ensures Find(allowed, evidence[i].id) == Some(evidence[i])
  {
  }

  // ---------- what evidence is worth ----------

  /** Some supporting signal of the list has this kind. */
  predicate Backs(signals: seq<Signal>, kind: EvidenceKind) {
    exists i | 0 <= i < |signals| :: signals[i].polarity == Supporting && signals[i].kind == kind
  }

  predicate Opposes(signals: seq<Signal>, kind: EvidenceKind) {
    exists i | 0 <= i < |signals| :: signals[i].polarity == Contradicting && signals[i].kind == kind
  }

  /** A name, a number or an address of the person itself. */
  predicate Identifies(signals: seq<Signal>) {
    Backs(signals, CustomerName) || Backs(signals, SigneeName) || Backs(signals, Rut) || Backs(signals, Email)
    || Backs(signals, Phone)
  }

  /** The exact amount, together with something that points at the customer. */
  predicate PaysExactly(signals: seq<Signal>) {
    && Backs(signals, ExactOutstanding)
    && (Backs(signals, VambeContext) || Backs(signals, PartialAddressKind) || Backs(signals, NameFragment)
        || Backs(signals, BankName) || Backs(signals, BankAccount))
  }

  /** Too much money, another currency, or another payer whom no conversation in Vambe explains together with
      the exact amount or the exact address. */
  predicate Contradicted(signals: seq<Signal>) {
    || Opposes(signals, AmountExceedsOutstanding)
    || Opposes(signals, CurrencyMismatch)
    || (Opposes(signals, IdentityConflict)
        && !(Backs(signals, VambeContext) && (Backs(signals, ExactOutstanding) || Backs(signals, ExactAddressKind))))
  }

  lemma KindsExactly(signals: seq<Signal>, kind: EvidenceKind)
    ensures kind in Kinds(signals, Supporting) <==> Backs(signals, kind)
    ensures kind in Kinds(signals, Contradicting) <==> Opposes(signals, kind)
  {
  }

  lemma AllKindsExactly(signals: seq<Signal>)
    ensures forall kind :: kind in Kinds(signals, Supporting) <==> Backs(signals, kind)
    ensures forall kind :: kind in Kinds(signals, Contradicting) <==> Opposes(signals, kind)
  {
    forall kind
      ensures kind in Kinds(signals, Supporting) <==> Backs(signals, kind)
      ensures kind in Kinds(signals, Contradicting) <==> Opposes(signals, kind)
    {
      KindsExactly(signals, kind);
    }
  }

  lemma ContradictedExactly(signals: seq<Signal>)
    ensures MaterialContradiction(signals) <==> Contradicted(signals)
  {
    AllKindsExactly(signals);
    hide Kinds, Backs, Opposes;
    var against := Kinds(signals, Contradicting);
    if AmountExceedsOutstanding in against { assert AmountExceedsOutstanding in against * HARD_CONTRADICTIONS; }
    if CurrencyMismatch in against { assert CurrencyMismatch in against * HARD_CONTRADICTIONS; }
  }

  lemma IdentitiesExactly(signals: seq<Signal>)
    ensures Kinds(signals, Supporting) * DIRECT_IDENTITY != {} <==> Identifies(signals)
    ensures Kinds(signals, Supporting) * BANK_IDENTITY != {}
            <==> Backs(signals, BankName) || Backs(signals, BankAccount)
  {
    AllKindsExactly(signals);
    hide Kinds, Backs, Opposes;
    var kinds := Kinds(signals, Supporting);
    forall kind | kind in {CustomerName, SigneeName, Rut, Email, Phone} && kind in kinds
      ensures kind in kinds * DIRECT_IDENTITY
    {
    }
    forall kind | kind in {BankName, BankAccount} && kind in kinds
      ensures kind in kinds * BANK_IDENTITY
    {
    }
    if BankName in kinds { assert BankName in kinds * BANK_IDENTITY; }
    if BankAccount in kinds { assert BankAccount in kinds * BANK_IDENTITY; }
    if Identifies(signals) {
      var kind :| kind in {CustomerName, SigneeName, Rut, Email, Phone} && kind in kinds;
      assert kind in kinds * DIRECT_IDENTITY;
    }
  }

  /** Confidence is high exactly with an uncontradicted exact address; medium exactly without one, but with an
      uncontradicted identity or an exact amount that something else supports; and unknown otherwise. */
  lemma ConfidenceExactly(signals: seq<Signal>)
    ensures ConfidenceOf(signals) == High <==> !Contradicted(signals) && Backs(signals, ExactAddressKind)
    ensures ConfidenceOf(signals) == Medium
            <==> !Contradicted(signals) && !Backs(signals, ExactAddressKind)
                 && (Identifies(signals) || PaysExactly(signals))
    ensures ConfidenceOf(signals) == Unknown
            <==> Contradicted(signals)
                 || !(Backs(signals, ExactAddressKind) || Identifies(signals) || PaysExactly(signals))
  {
    AllKindsExactly(signals);
    ContradictedExactly(signals);
    IdentitiesExactly(signals);
    hide Kinds, Backs, Opposes, Contradicted, Identifies, MaterialContradiction;
  }

  // ---------- what outranks what ----------

  function One(holds: bool): nat {
    if holds then 1 else 0
  }

  /** How many kinds of evidence identify the person. */
  function Identities(signals: seq<Signal>): nat {
    |set kind | kind in {CustomerName, SigneeName, Rut, Email, Phone} && Backs(signals, kind)|
  }

  /** The order of precedence: the first difference decides. */
  predicate Stronger(a: seq<Signal>, b: seq<Signal>) {
    if Backs(a, ExactAddressKind) != Backs(b, ExactAddressKind) then Backs(a, ExactAddressKind)
    else if Identities(a) != Identities(b) then Identities(a) > Identities(b)
    else if Backs(a, ExactOutstanding) != Backs(b, ExactOutstanding) then Backs(a, ExactOutstanding)
    else if Backs(a, VambeContext) != Backs(b, VambeContext) then Backs(a, VambeContext)
    else if Backs(a, PartialAddressKind) != Backs(b, PartialAddressKind) then Backs(a, PartialAddressKind)
    else if Backs(a, NameFragment) != Backs(b, NameFragment) then Backs(a, NameFragment)
    else if Backs(a, PartialPayment) != Backs(b, PartialPayment) then Backs(a, PartialPayment)
    else Contradictions(a) < Contradictions(b)
  }

  lemma LessFrom(x: seq<int>, y: seq<int>, i: nat)
    requires i < |x| == |y|
    ensures Less(x[i..], y[i..]) <==> if x[i] != y[i] then x[i] < y[i] else Less(x[i + 1..], y[i + 1..])
  {
    assert x[i..][1..] == x[i + 1..] && y[i..][1..] == y[i + 1..];
  }

  /** The first difference decides. */
  lemma LessByFirst(x: seq<int>, y: seq<int>)
    requires |x| == |y| == 8
    ensures Less(x, y) <==> if x[0] != y[0] then x[0] < y[0] else if x[1] != y[1] then x[1] < y[1]
                            else if x[2] != y[2] then x[2] < y[2] else if x[3] != y[3] then x[3] < y[3]
                            else if x[4] != y[4] then x[4] < y[4] else if x[5] != y[5] then x[5] < y[5]
                            else if x[6] != y[6] then x[6] < y[6] else x[7] < y[7]
  {
    assert x[0..] == x && y[0..] == y && !Less(x[8..], y[8..]);
    hide Less;
    LessFrom(x, y, 0);
    LessFrom(x, y, 1);
    LessFrom(x, y, 2);
    LessFrom(x, y, 3);
    LessFrom(x, y, 4);
    LessFrom(x, y, 5);
    LessFrom(x, y, 6);
    LessFrom(x, y, 7);
  }

  lemma RankComponents(signals: seq<Signal>)
    ensures var r := Rank(signals);
            && r[0] == One(Backs(signals, ExactAddressKind)) && r[1] == Identities(signals)
            && r[2] == One(Backs(signals, ExactOutstanding)) && r[3] == One(Backs(signals, VambeContext))
            && r[4] == One(Backs(signals, PartialAddressKind)) && r[5] == One(Backs(signals, NameFragment))
            && r[6] == One(Backs(signals, PartialPayment)) && r[7] == -Contradictions(signals)
  {
    AllKindsExactly(signals);
    hide Kinds, Backs, Contradictions;
    assert Kinds(signals, Supporting) * DIRECT_IDENTITY
        == set kind | kind in {CustomerName, SigneeName, Rut, Email, Phone} && Backs(signals, kind);
  }

  /** One rank is below another exactly when the other's evidence is stronger. */
  lemma RankExactly(a: seq<Signal>, b: seq<Signal>)
    ensures Less(Rank(a), Rank(b)) <==> Stronger(b, a)
  {
    hide Backs, Contradictions, Less, Rank, Identities;
    RankComponents(a);
    RankComponents(b);
    LessByFirst(Rank(a), Rank(b));
  }

  // ---------- exactly when an answer is a match ----------

  /** The answer cites a registered signal about the candidate of this polarity and kind. */
  predicate Cites(value: ModelCandidate, key: Key, evidence: seq<Signal>, polarity: Polarity, kind: EvidenceKind) {
    exists i | 0 <= i < |evidence| ::
      evidence[i].id in value.evidenceIds && Touches(evidence[i], key) && evidence[i].polarity == polarity
      && evidence[i].kind == kind
  }

  /** Some registered signal about the candidate, cited or not, contradicts it in this way. */
  predicate Opposed(key: Key, evidence: seq<Signal>, kind: EvidenceKind) {
    exists i | 0 <= i < |evidence| ::
      Touches(evidence[i], key) && evidence[i].polarity == Contradicting && evidence[i].kind == kind
  }

  lemma SelectedCited(value: ModelCandidate, key: Key, evidence: seq<Signal>)
    requires Numbered(evidence) && SelectedSignals(value, key, evidence).Some?
    ensures forall s :: s in SelectedSignals(value, key, evidence).value
                        <==> s in evidence && Touches(s, key) && s.id in value.evidenceIds
  {
    var allowed := SignalsFor(key, evidence);
    var ids := Distinct(value.evidenceIds);
    PickedFrom(allowed, ids);
    forall s | s in evidence && Touches(s, key) && s.id in value.evidenceIds
      ensures s in Pick(allowed, ids)
    {
      var i :| 0 <= i < |evidence| && evidence[i] == s;
      FindsIt(allowed, evidence, i);
      PickedAll(allowed, ids, s);
    }
  }

  lemma GroundedMembers(selected: seq<Signal>, key: Key, evidence: seq<Signal>)
    requires Numbered(evidence) && forall s | s in selected :: s in evidence
    ensures forall s :: s in Ground(selected, SignalsFor(key, evidence))
                        <==> s in selected || (s in evidence && Touches(s, key) && s.polarity == Contradicting)
  {
    var all := selected + Against(SignalsFor(key, evidence));
    var grounded := Ground(selected, SignalsFor(key, evidence));
    DeduplicateKeeps(all);
    assert forall s | s in all :: s in evidence;
    forall s | s in all
      ensures s in grounded
    {
      var found := Find(grounded, s.id).value;
      assert found in all;
      SameNumber(found, s, evidence);
    }
  }

  lemma SameNumber(a: Signal, b: Signal, evidence: seq<Signal>)
    requires Numbered(evidence) && a in evidence && b in evidence && a.id == b.id
    ensures a == b
  {
  }

  /** What a grounded answer rests on: the cited support, and every contradiction of the ledger. */
  lemma GroundExactly(value: ModelCandidate, key: Key, evidence: seq<Signal>)
    requires Numbered(evidence) && SelectedSignals(value, key, evidence).Some?
    ensures var selected := SelectedSignals(value, key, evidence).value;
            var grounded := Ground(selected, SignalsFor(key, evidence));
            forall kind ::
              && (Backs(grounded, kind) <==> Cites(value, key, evidence, Supporting, kind))
              && (Opposes(grounded, kind) <==> Opposed(key, evidence, kind))
  {
    var selected := SelectedSignals(value, key, evidence).value;
    var grounded := Ground(selected, SignalsFor(key, evidence));
    SelectedCited(value, key, evidence);
    GroundedMembers(selected, key, evidence);
    hide SelectedSignals, Ground, SignalsFor;
    forall kind
      ensures Backs(grounded, kind) <==> Cites(value, key, evidence, Supporting, kind)
      ensures Opposes(grounded, kind) <==> Opposed(key, evidence, kind)
    {
      SameKinds(grounded, value, key, evidence, kind);
    }
  }

  lemma SameKinds(grounded: seq<Signal>, value: ModelCandidate, key: Key, evidence: seq<Signal>, kind: EvidenceKind)
    requires forall s :: s in grounded
                         <==> (s in evidence && Touches(s, key) && s.id in value.evidenceIds)
                              || (s in evidence && Touches(s, key) && s.polarity == Contradicting)
    ensures Backs(grounded, kind) <==> Cites(value, key, evidence, Supporting, kind)
    ensures Opposes(grounded, kind) <==> Opposed(key, evidence, kind)
  {
    hide Touches;
    if i :| 0 <= i < |grounded| && grounded[i].kind == kind && grounded[i].polarity == Supporting {
      assert grounded[i] in grounded;
    }
    if i :| 0 <= i < |grounded| && grounded[i].kind == kind && grounded[i].polarity == Contradicting {
      assert grounded[i] in grounded;
    }
    if i :| 0 <= i < |evidence| && evidence[i].id in value.evidenceIds && Touches(evidence[i], key)
            && evidence[i].polarity == Supporting && evidence[i].kind == kind {
      assert evidence[i] in grounded;
    }
    if i :| 0 <= i < |evidence| && Touches(evidence[i], key) && evidence[i].polarity == Contradicting
            && evidence[i].kind == kind {
      assert evidence[i] in grounded;
    }
  }

  /** The cited support identifies the person, or is an exact amount that something else supports. */
  predicate CitesIdentity(value: ModelCandidate, key: Key, evidence: seq<Signal>) {
    || Cites(value, key, evidence, Supporting, CustomerName) || Cites(value, key, evidence, Supporting, SigneeName)
    || Cites(value, key, evidence, Supporting, Rut) || Cites(value, key, evidence, Supporting, Email)
    || Cites(value, key, evidence, Supporting, Phone)
  }

  predicate CitesExactAmount(value: ModelCandidate, key: Key, evidence: seq<Signal>) {
    && Cites(value, key, evidence, Supporting, ExactOutstanding)
    && (|| Cites(value, key, evidence, Supporting, VambeContext)
        || Cites(value, key, evidence, Supporting, PartialAddressKind)
        || Cites(value, key, evidence, Supporting, NameFragment)
        || Cites(value, key, evidence, Supporting, BankName)
        || Cites(value, key, evidence, Supporting, BankAccount))
  }

  /** Nothing in the candidate's ledger stands against it: not too much money, not another currency, and no
      other payer, unless the answer cites a Vambe conversation with the exact amount or the exact address. */
  predicate Unopposed(value: ModelCandidate, key: Key, evidence: seq<Signal>) {
    && !Opposed(key, evidence, AmountExceedsOutstanding)
    && !Opposed(key, evidence, CurrencyMismatch)
    && (Opposed(key, evidence, IdentityConflict) ==>
          && Cites(value, key, evidence, Supporting, VambeContext)
          && (Cites(value, key, evidence, Supporting, ExactOutstanding)
              || Cites(value, key, evidence, Supporting, ExactAddressKind)))
  }

  /** The confidence in a grounded answer, by what it cites and what stands against it. */
  lemma GroundedConfidence(value: ModelCandidate, key: Key, evidence: seq<Signal>)
    requires Numbered(evidence) && SelectedSignals(value, key, evidence).Some?
    ensures var c := ConfidenceOf(Ground(SelectedSignals(value, key, evidence).value, SignalsFor(key, evidence)));
            && (c == High <==> Unopposed(value, key, evidence)
                               && Cites(value, key, evidence, Supporting, ExactAddressKind))
            && (c != Unknown
                <==> Unopposed(value, key, evidence)
                     && (Cites(value, key, evidence, Supporting, ExactAddressKind)
                         || CitesIdentity(value, key, evidence) || CitesExactAmount(value, key, evidence)))
  {
    var grounded := Ground(SelectedSignals(value, key, evidence).value, SignalsFor(key, evidence));
    GroundExactly(value, key, evidence);
    ConfidenceExactly(grounded);
    hide SelectedSignals, Ground, SignalsFor, ConfidenceOf, Backs, Opposes, Cites, Opposed;
  }

  /** The candidate the value names: verified under exactly this key, or, when no account receivable is
      named, the only verified candidate of the order. */
  predicate Names(value: ModelCandidate, verified: map<Key, Candidate>, key: Key) {
    && key in verified && key.0 == value.orderId
    && (key.1 == value.arId
        || (value.arId.None? && (value.orderId, None) !in verified && OnlyKeyOf(verified, value.orderId, key)))
  }

  lemma ResolvesExactly(value: ModelCandidate, verified: map<Key, Candidate>, key: Key)
    ensures ResolveCandidate(value, verified) == Some(key) <==> Names(value, verified, key)
  {
  }

  /** Stronger than every other verified candidate, each with all the evidence about it. */
  predicate Outranks(key: Key, l: Ledger) {
    forall other | other in l.verified && other != key ::
      Stronger(SignalsFor(key, l.evidence), SignalsFor(other, l.evidence))
  }

  lemma OutranksExactly(key: Key, l: Ledger)
    ensures HasCompetitor(key, l) <==> !Outranks(key, l)
  {
    hide Less, Rank, Stronger, SignalsFor;
    forall other
      ensures Less(Rank(SignalsFor(other, l.evidence)), Rank(SignalsFor(key, l.evidence)))
              <==> Stronger(SignalsFor(key, l.evidence), SignalsFor(other, l.evidence))
    {
      RankExactly(SignalsFor(other, l.evidence), SignalsFor(key, l.evidence));
    }
  }

  /** The proposal names a verified candidate, cites it validly and sufficiently, nothing stands against it,
      and it is stronger than all others. */
  predicate Accepted(value: ModelCandidate, key: Key, l: Ledger) {
    && Names(value, l.verified, key)
    && CitesValidly(value, key, l.evidence)
    && Unopposed(value, key, l.evidence)
    && (Cites(value, key, l.evidence, Supporting, ExactAddressKind) || CitesIdentity(value, key, l.evidence)
        || CitesExactAmount(value, key, l.evidence))
    && Outranks(key, l)
  }

  lemma RecommendedExactly(answer: ModelAnswer, value: ModelCandidate, l: Ledger)
    requires Numbered(l.evidence)
    ensures var r := MapRecommended(answer, value, l);
            && (r.outcome == Matched <==> exists key :: key in l.verified && Accepted(value, key, l))
            && (r.outcome == Matched ==>
                  (r.confidence == High
                   <==> exists key :: key in l.verified && Accepted(value, key, l)
                                      && Cites(value, key, l.evidence, Supporting, ExactAddressKind)))
  {
    forall key
      ensures ResolveCandidate(value, l.verified) == Some(key) <==> Names(value, l.verified, key)
      ensures SelectedSignals(value, key, l.evidence).Some? <==> CitesValidly(value, key, l.evidence)
    {
      ResolvesExactly(value, l.verified, key);
      SelectedExactly(value, key, l.evidence);
    }
    hide ConfidenceOf, Ground, SignalsFor, ResolveCandidate, SelectedSignals, Names, CitesValidly, Unopposed, Cites,
         CitesIdentity, CitesExactAmount, HasCompetitor, Outranks, MakeAmbiguous;
    var key := ResolveCandidate(value, l.verified);
    AmbiguousNever(answer, l);
    if key.Some? && SelectedSignals(value, key.value, l.evidence).Some? {
      GroundedConfidence(value, key.value, l.evidence);
      OutranksExactly(key.value, l);
      assert Names(value, l.verified, key.value);
    }
  }

  lemma AmbiguousNever(answer: ModelAnswer, l: Ledger)
    ensures forall withRecommended :: MakeAmbiguous(answer, l, withRecommended).outcome == Ambiguous
  {
    hide SortByRank, ResolveAll, Deduplicate;
  }

  /** An answer comes out as a match exactly when the model proposed one and the proposal is accepted: it names
      a verified candidate, cites an exact address, an identity or a supported exact amount, nothing in the
      candidate's ledger stands against it, and its evidence is stronger than that of all others. The
      confidence is high exactly when an exact address is cited. */
  lemma MatchedExactly(answer: ModelAnswer, l: Ledger)
    requires Numbered(l.evidence)
    ensures MapOutput(answer, l).outcome == Matched
            <==> && answer.outcome == Matched && answer.recommended.Some?
                 && exists key :: key in l.verified && Accepted(answer.recommended.value, key, l)
    ensures MapOutput(answer, l).confidence == High
            <==> && answer.outcome == Matched && answer.recommended.Some?
                 && exists key :: key in l.verified && Accepted(answer.recommended.value, key, l)
                                  && Cites(answer.recommended.value, key, l.evidence, Supporting, ExactAddressKind)
    ensures MapOutput(answer, l).confidence == Medium || MapOutput(answer, l).confidence == High
            <==> MapOutput(answer, l).outcome == Matched
  {
    AmbiguousNever(answer, l);
    MapOutputConsistent(answer, l);
    if answer.recommended.Some? { RecommendedExactly(answer, answer.recommended.value, l); }
    hide MapRecommended, MakeAmbiguous, Accepted, Cites;
  }

  /** What a match of a run rests on: for every history and answer, the ledger holds supporting signals that
      the answer cites and that are about the recommended candidate: an exact address, a name, a RUT, an email
      or a phone of the person, or the exact amount together with a Vambe conversation, a partial address, a
      name fragment, a bank holder or a bank account. */
  lemma MatchRests(history: seq<Call>, answer: ModelAnswer)
    requires MapOutput(answer, Replay(history)).outcome == Matched
    ensures answer.recommended.Some?
    ensures exists key ::
              && key in Replay(history).verified
              && Names(answer.recommended.value, Replay(history).verified, key)
              && Unopposed(answer.recommended.value, key, Replay(history).evidence)
              && (Cites(answer.recommended.value, key, Replay(history).evidence, Supporting, ExactAddressKind)
                  || CitesIdentity(answer.recommended.value, key, Replay(history).evidence)
                  || CitesExactAmount(answer.recommended.value, key, Replay(history).evidence))
  {
    ReplayGrounded(history);
    MatchedExactly(answer, Replay(history));
    hide MapOutput, Replay, Cites, Unopposed, CitesIdentity, CitesExactAmount;
  }

  // ---------- matches of a run ----------

  /** Everything the ledger holds about the candidate, cited or not, supports it. */
  predicate Uncontradicted(key: Key, evidence: seq<Signal>) {
    forall i | 0 <= i < |evidence| && Touches(evidence[i], key) :: evidence[i].polarity == Supporting
  }

  /** The exact amount and a partial address, a name fragment, a bank holder or a bank account. */
  predicate CitesBackedAmount(value: ModelCandidate, key: Key, evidence: seq<Signal>) {
    && Cites(value, key, evidence, Supporting, ExactOutstanding)
    && (|| Cites(value, key, evidence, Supporting, PartialAddressKind)
        || Cites(value, key, evidence, Supporting, NameFragment)
        || Cites(value, key, evidence, Supporting, BankName)
        || Cites(value, key, evidence, Supporting, BankAccount))
  }

  lemma PlainlyUnopposed(value: ModelCandidate, key: Key, evidence: seq<Signal>)
    requires forall i | 0 <= i < |evidence| :: Histories.Plainly(evidence[i])
    ensures Unopposed(value, key, evidence) <==> Uncontradicted(key, evidence)
    ensures CitesExactAmount(value, key, evidence) <==> CitesBackedAmount(value, key, evidence)
  {
    assert !Cites(value, key, evidence, Supporting, VambeContext);
    assert Uncontradicted(key, evidence)
      <==> forall kind | Conflicting(kind) :: !Opposed(key, evidence, kind) by {
      hide Touches;
      if !Uncontradicted(key, evidence) {
        var i :| 0 <= i < |evidence| && Touches(evidence[i], key) && evidence[i].polarity != Supporting;
        assert Conflicting(evidence[i].kind) && Opposed(key, evidence, evidence[i].kind);
      }
    }
    hide Cites, Opposed;
  }

  /** In a run the rule is simpler than the one that is checked: no tool ever confirms a payment by Vambe, so no
      contradiction is ever outweighed. An answer comes out as a match exactly when the model proposed one, the
      proposal names a verified candidate and cites it validly, not one signal of the ledger contradicts that
      candidate, an exact address, an identity or an exact amount backed by something else is cited, and the
      candidate's evidence is stronger than that of all others. */
  lemma RunMatchedExactly(history: seq<Call>, answer: ModelAnswer)
    ensures MapOutput(answer, Replay(history)).outcome == Matched
            <==> && answer.outcome == Matched && answer.recommended.Some?
                 && var value, l := answer.recommended.value, Replay(history);
                    exists key ::
                      && key in l.verified
                      && Names(value, l.verified, key)
                      && CitesValidly(value, key, l.evidence)
                      && Uncontradicted(key, l.evidence)
                      && (Cites(value, key, l.evidence, Supporting, ExactAddressKind)
                          || CitesIdentity(value, key, l.evidence) || CitesBackedAmount(value, key, l.evidence))
                      && Outranks(key, l)
  {
    var l := Replay(history);
    ReplayGrounded(history);
    MatchedExactly(answer, l);
    forall i | 0 <= i < |l.evidence|
      ensures Histories.Plainly(l.evidence[i])
    {
      Histories.EvidencePlain(history, i);
    }
    if answer.recommended.Some? {
      var value := answer.recommended.value;
      forall key
        ensures Unopposed(value, key, l.evidence) <==> Uncontradicted(key, l.evidence)
        ensures CitesExactAmount(value, key, l.evidence) <==> CitesBackedAmount(value, key, l.evidence)
      {
        PlainlyUnopposed(value, key, l.evidence);
      }
    }
    hide MapOutput, Replay, Cites, Unopposed, Uncontradicted, CitesIdentity, CitesExactAmount, CitesBackedAmount, Names,
         CitesValidly, Outranks;
  }

  // ---------- which alternatives are worth showing ----------

  lemma SelectedKinds(value: ModelCandidate, key: Key, evidence: seq<Signal>, kind: EvidenceKind)
    requires Numbered(evidence) && SelectedSignals(value, key, evidence).Some?
    ensures var selected := SelectedSignals(value, key, evidence).value;
            && (Backs(selected, kind) <==> Cites(value, key, evidence, Supporting, kind))
            && (Opposes(selected, kind) <==> Cites(value, key, evidence, Contradicting, kind))
  {
    var selected := SelectedSignals(value, key, evidence).value;
    SelectedCited(value, key, evidence);
    hide SelectedSignals, Touches;
    if i :| 0 <= i < |selected| && selected[i].kind == kind { assert selected[i] in selected; }
    if i :| 0 <= i < |selected| && selected[i].kind == kind && selected[i].polarity == Supporting {
      assert selected[i] in selected;
    }
    if i :| 0 <= i < |selected| && selected[i].kind == kind && selected[i].polarity == Contradicting {
      assert selected[i] in selected;
    }
    forall i | 0 <= i < |evidence| && evidence[i].id in value.evidenceIds && Touches(evidence[i], key)
      ensures evidence[i] in selected
    {
    }
  }

  /** The citation tells enough to show the candidate: an exact amount, an address, or an identity that no cited
      contradiction puts in doubt. */
  predicate Telling(value: ModelCandidate, key: Key, evidence: seq<Signal>) {
    || Cites(value, key, evidence, Supporting, ExactOutstanding)
    || Cites(value, key, evidence, Supporting, ExactAddressKind)
    || Cites(value, key, evidence, Supporting, PartialAddressKind)
    || (&& CitesIdentity(value, key, evidence)
        && !Cites(value, key, evidence, Contradicting, AmountExceedsOutstanding)
        && !Cites(value, key, evidence, Contradicting, CurrencyMismatch)
        && !Cites(value, key, evidence, Contradicting, IdentityConflict))
  }

  lemma WorthExactly(value: ModelCandidate, key: Key, evidence: seq<Signal>)
    requires Numbered(evidence) && SelectedSignals(value, key, evidence).Some?
    ensures WorthShowing(SelectedSignals(value, key, evidence).value) <==> Telling(value, key, evidence)
  {
    var selected := SelectedSignals(value, key, evidence).value;
    hide SelectedSignals, Cites, ConfidenceOf, Kinds, Backs, Opposes;
    forall kind
      ensures Backs(selected, kind) <==> Cites(value, key, evidence, Supporting, kind)
      ensures Opposes(selected, kind) <==> Cites(value, key, evidence, Contradicting, kind)
    {
      SelectedKinds(value, key, evidence, kind);
    }
    AllKindsExactly(selected);
    ConfidenceExactly(selected);
  }

  /** A value becomes an alternative exactly when it names a verified candidate not seen before, cites it
      validly, and the citation tells enough. */
  lemma AlternativeExactly(value: ModelCandidate, l: Ledger, seen: set<Key>)
    requires Numbered(l.evidence)
    ensures AsAlternative(value, l, seen).Some?
            <==> exists key :: && key in l.verified && Names(value, l.verified, key) && key !in seen
                               && CitesValidly(value, key, l.evidence) && Telling(value, key, l.evidence)
  {
    forall key
      ensures ResolveCandidate(value, l.verified) == Some(key) <==> Names(value, l.verified, key)
      ensures SelectedSignals(value, key, l.evidence).Some? <==> CitesValidly(value, key, l.evidence)
    {
      ResolvesExactly(value, l.verified, key);
      SelectedExactly(value, key, l.evidence);
    }
    hide ResolveCandidate, SelectedSignals, Names, CitesValidly, Telling, WorthShowing, MakeCustomer, Rank;
    var key := ResolveCandidate(value, l.verified);
    if key.Some? && SelectedSignals(value, key.value, l.evidence).Some? {
      WorthExactly(value, key.value, l.evidence);
      assert Names(value, l.verified, key.value);
    }
  }

  // ---------- nothing better is hidden ----------

  /** The candidates an ambiguous answer is drawn from. */
  function Considered(answer: ModelAnswer, withRecommended: bool): seq<ModelCandidate> {
    (if withRecommended && answer.recommended.Some? then [answer.recommended.value] else []) + answer.alternatives
  }

  lemma SeenIrrelevant(value: ModelCandidate, l: Ledger, seen: set<Key>)
    requires AsAlternative(value, l, {}).Some? && AsAlternative(value, l, {}).value.0 !in seen
    ensures AsAlternative(value, l, seen) == AsAlternative(value, l, {})
  {
  }

  lemma {:induction false} ResolvedCovers(values: seq<ModelCandidate>, l: Ledger, seen: set<Key>, i: nat)
    requires i < |values| && AsAlternative(values[i], l, {}).Some?
    requires AsAlternative(values[i], l, {}).value.0 !in seen
    ensures exists item | item in ResolveAll(values, l, seen) :: item.customer.orderId == values[i].orderId
    decreases |values|
  {
    var r := AsAlternative(values[0], l, seen);
    var key := AsAlternative(values[i], l, {}).value.0;
    assert key.0 == values[i].orderId;
    SeenIrrelevant(values[i], l, seen);
    assert r.Some? ==> r.value.1.customer.orderId == r.value.0.0;
    hide AsAlternative;
    if r.Some? && r.value.0 == key {
      assert r.value.1 in ResolveAll(values, l, seen);
    } else if i > 0 {
      assert values[i] == values[1..][i - 1];
      if r.None? {
        ResolvedCovers(values[1..], l, seen, i - 1);
      } else {
        ResolvedCovers(values[1..], l, seen + {r.value.0}, i - 1);
      }
    }
  }

  lemma BestHidesNothing(items: seq<Ranked>, item: Ranked)
    requires item in items
    ensures var best := Best(SortByRank(items));
            item in best || (|best| == 3 && forall b | b in best :: !Less(b.rank, item.rank))
  {
    SortSorted(items);
    SortKeeps(items);
    var sorted := SortByRank(items);
    assert item in multiset(sorted);
    var i :| 0 <= i < |sorted| && sorted[i] == item;
    hide Less, SortByRank;
  }

  /** The customer is that of a resolved candidate which ranks at least as high as the item. */
  predicate RanksAsHigh(c: Customer, item: Ranked, items: seq<Ranked>) {
    exists b | b in items :: b.customer == c && !Less(b.rank, item.rank)
  }

  /** Every considered candidate that is verified, validly cited and worth showing is shown, or three others
      are, each of which ranks at least as high as the candidate was ranked. */
  lemma NothingBetterHidden(answer: ModelAnswer, l: Ledger, withRecommended: bool, i: nat)
    requires var values := Considered(answer, withRecommended);
             i < |values| && AsAlternative(values[i], l, {}).Some?
    ensures var r := MakeAmbiguous(answer, l, withRecommended);
            var value := Considered(answer, withRecommended)[i];
            var items := ResolveAll(Considered(answer, withRecommended), l, {});
            || (exists c | c in r.alternatives :: c.orderId == value.orderId)
            || (&& |r.alternatives| == 3
                && exists item | item in items ::
                     && item.customer.orderId == value.orderId
                     && forall c | c in r.alternatives :: RanksAsHigh(c, item, items))
  {
    var values := Considered(answer, withRecommended);
    var items := ResolveAll(values, l, {});
    ResolvedCovers(values, l, {}, i);
    hide AsAlternative, ResolveAll, SortByRank;
    var item :| item in items && item.customer.orderId == values[i].orderId;
    BestHidesNothing(items, item);
    var best := Best(SortByRank(items));
    if item in best {
      var k :| 0 <= k < |best| && best[k] == item;
      assert Customers(best)[k] == item.customer;
      assert Customers(best)[k] in Customers(best);
    } else {
      hide Less, Best;
      SortMembers(items);
      assert BestWithin(best, items) by { BestKept(items); }
      forall c | c in Customers(best)
        ensures RanksAsHigh(c, item, items)
      {
        var k :| 0 <= k < |best| && Customers(best)[k] == c;
        assert best[k] in best && best[k].customer == c;
      }
    }
  }

  predicate BestWithin(best: seq<Ranked>, items: seq<Ranked>) {
    forall b | b in best :: b in items
  }

  lemma BestKept(items: seq<Ranked>)
    ensures BestWithin(Best(SortByRank(items)), items)
  {
    SortMembers(items);
    hide SortByRank;
  }

  /** The candidates the reply may show instead of a match: the alternatives, and first the one the model
      recommended, if it did. */
  function Proposed(answer: ModelAnswer): seq<ModelCandidate> {
    Considered(answer, answer.outcome == Matched)
  }

  /** An answer that does not come out as asked still shows what it proposed: every proposed candidate that
      is worth showing is shown, a rejected recommendation included, or three others of at least its rank are. */
  lemma MappedHidesNothing(answer: ModelAnswer, l: Ledger, i: nat)
    requires MapOutput(answer, l).outcome == Ambiguous
    requires i < |Proposed(answer)| && AsAlternative(Proposed(answer)[i], l, {}).Some?
    ensures var r := MapOutput(answer, l);
            var items := ResolveAll(Proposed(answer), l, {});
            var orderId := Proposed(answer)[i].orderId;
            || (exists c | c in r.alternatives :: c.orderId == orderId)
            || (&& |r.alternatives| == 3
                && exists item | item in items ::
                     item.customer.orderId == orderId && forall c | c in r.alternatives :: RanksAsHigh(c, item, items))
  {
    NothingBetterHidden(answer, l, answer.outcome == Matched, i);
    AmbiguousIs(answer, l);
    hide AsAlternative, ResolveAll, MakeAmbiguous, MapOutput, RanksAsHigh;
  }

  lemma AmbiguousIs(answer: ModelAnswer, l: Ledger)
    requires MapOutput(answer, l).outcome == Ambiguous
    ensures MapOutput(answer, l) == MakeAmbiguous(answer, l, answer.outcome == Matched)
  {
    hide SortByRank, ResolveAll, Deduplicate, ConfidenceOf, HasCompetitor, Ground, SelectedSignals, ResolveCandidate;
  }

  lemma {:induction false} ResolvedProposed(values: seq<ModelCandidate>, l: Ledger, seen: set<Key>)
    ensures forall item | item in ResolveAll(values, l, seen) ::
              exists value | value in values :: FromValue(item, value, l)
    decreases |values|
  {
    hide AsAlternative, FromValue;
    if values != [] {
      assert forall value | value in values[1..] :: value in values;
      var r := AsAlternative(values[0], l, seen);
      if r.Some? {
        AlternativeFrom(values[0], l, seen);
        ResolvedProposed(values[1..], l, seen + {r.value.0});
        assert ResolveAll(values, l, seen) == [r.value.1] + ResolveAll(values[1..], l, seen + {r.value.0});
      } else {
        ResolvedProposed(values[1..], l, seen);
      }
    }
  }

  /** The item is what the value says about one verified candidate, on the evidence it cites. */
  ghost predicate FromValue(item: Ranked, value: ModelCandidate, l: Ledger) {
    exists key ::
      && key in l.verified && Names(value, l.verified, key) && item.customer.orderId == value.orderId
      && item.customer.name == l.verified[key].name
      && item.rank == Rank(item.signals) && item.signals != []
      && forall s | s in item.signals :: s in l.evidence && Touches(s, key)
  }

  lemma AlternativeFrom(value: ModelCandidate, l: Ledger, seen: set<Key>)
    requires AsAlternative(value, l, seen).Some?
    ensures FromValue(AsAlternative(value, l, seen).value.1, value, l)
  {
    var key := ResolveCandidate(value, l.verified).value;
    ResolvesExactly(value, l.verified, key);
    hide SelectedSignals, WorthShowing, Rank, ResolveCandidate, Names;
  }

  /** Nothing else is shown: every alternative of a mapped answer was proposed, names a verified candidate that
      was not shown before, and is cited validly and tellingly. */
  lemma AlternativesProposed(answer: ModelAnswer, l: Ledger)
    ensures forall c | c in MapOutput(answer, l).alternatives ::
              exists item: Ranked, value: ModelCandidate ::
                value in Proposed(answer) && item.customer == c && FromValue(item, value, l)
  {
    var items := ResolveAll(Proposed(answer), l, {});
    ResolvedProposed(Proposed(answer), l, {});
    BestKept(items);
    if MapOutput(answer, l).outcome == Ambiguous {
      AmbiguousIs(answer, l);
      hide ResolveAll, SortByRank, MapOutput, FromValue;
      var best := Best(SortByRank(items));
      forall c | c in Customers(best)
        ensures exists item: Ranked, value: ModelCandidate ::
                  value in Proposed(answer) && item.customer == c && FromValue(item, value, l)
      {
        var k :| 0 <= k < |best| && Customers(best)[k] == c;
        assert best[k] in best && best[k] in items;
        var value :| value in Proposed(answer) && FromValue(best[k], value, l);
      }
    } else {
      OthersShowNone(answer, l);
    }
  }

  lemma OthersShowNone(answer: ModelAnswer, l: Ledger)
    requires MapOutput(answer, l).outcome != Ambiguous
    ensures MapOutput(answer, l).alternatives == []
  {
    AmbiguousNever(answer, l);
    hide SortByRank, ResolveAll, Deduplicate, ConfidenceOf, HasCompetitor, Ground, SelectedSignals, ResolveCandidate,
         MakeAmbiguous;
  }
}
