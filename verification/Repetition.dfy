/** Looking again at the same evidence: an observation that a run registers once more, under new
    identifiers and at any later time, changes neither the confidence in a candidate nor the supporting
    components of its rank. */
module Repetition {
  import opened Records
  import opened Candidates
  import opened Ledger
  import opened Decision

  /** The kinds of the signals of this polarity about the candidate. */
  function Marks(key: Key, signals: seq<Signal>, polarity: Polarity): set<EvidenceKind> {
    set i | 0 <= i < |signals| && About(signals[i], key) && signals[i].polarity == polarity :: signals[i].kind
  }

  lemma MarksExact(key: Key, evidence: seq<Signal>, polarity: Polarity)
    ensures Kinds(SignalsFor(key, evidence), polarity) == Marks(key, evidence, polarity)
  {
    var signals := SignalsFor(key, evidence);
    forall i | 0 <= i < |signals| && signals[i].polarity == polarity
      ensures signals[i].kind in Marks(key, evidence, polarity)
    {
      assert signals[i] in evidence;
    }
    forall i | 0 <= i < |evidence| && About(evidence[i], key) && evidence[i].polarity == polarity
      ensures evidence[i].kind in Kinds(signals, polarity)
    {
      assert evidence[i] in signals;
    }
  }

  lemma MarksRegistered(key: Key, evidence: seq<Signal>, signals: seq<Signal>, polarity: Polarity)
    ensures Marks(key, RegisterAll(evidence, signals), polarity)
            == Marks(key, evidence, polarity) + Marks(key, signals, polarity)
  {
    var all := RegisterAll(evidence, signals);
    forall i | 0 <= i < |evidence| && About(evidence[i], key) && evidence[i].polarity == polarity
      ensures evidence[i].kind in Marks(key, all, polarity)
    {
      assert all[i] == evidence[i];
    }
    forall i | 0 <= i < |signals| && About(signals[i], key) && signals[i].polarity == polarity
      ensures signals[i].kind in Marks(key, all, polarity)
    {
      assert all[|evidence| + i] == signals[i].(id := |evidence| + i + 1);
    }
    forall i | 0 <= i < |all| && About(all[i], key) && all[i].polarity == polarity
      ensures all[i].kind in Marks(key, evidence, polarity) + Marks(key, signals, polarity)
    {
      if i < |evidence| {
        assert all[i] == evidence[i];
      } else {
        assert all[|evidence| + (i - |evidence|)] == signals[i - |evidence|].(id := i + 1);
      }
    }
  }

  function CandidateMarks(key: Key, candidates: seq<Observed>, polarity: Polarity): set<EvidenceKind> {
    if candidates == [] then {}
    else Marks(key, candidates[0].signals, polarity) + CandidateMarks(key, candidates[1..], polarity)
  }

  /** What an observation has to say about the candidate. */
  function ObservedMarks(key: Key, o: Observation, polarity: Polarity): set<EvidenceKind> {
    Marks(key, o.evidence, polarity) + CandidateMarks(key, o.candidates, polarity)
  }

  lemma {:induction false} CandidatesMark(l: Ledger, candidates: seq<Observed>, key: Key, polarity: Polarity)
    ensures Marks(key, RegisterCandidates(l, candidates).evidence, polarity)
            == Marks(key, l.evidence, polarity) + CandidateMarks(key, candidates, polarity)
    ensures RegisterCandidates(l, candidates).records == l.records
    decreases |candidates|
  {
    if candidates != [] {
      MarksRegistered(key, l.evidence, candidates[0].signals, polarity);
      hide Marks, RegisterAll;
      CandidatesMark(RegisterCandidate(l, candidates[0]), candidates[1..], key, polarity);
    }
  }

  /** Registering an observation adds what it has to say, and nothing else. */
  lemma ObservationMarks(l: Ledger, call: Call, o: Observation, key: Key, polarity: Polarity)
    ensures var after := RegisterObservation(l, call, o);
            && Marks(key, after.evidence, polarity)
               == Marks(key, l.evidence, polarity) + ObservedMarks(key, o, polarity)
            && after.records == l.records + o.records
  {
    hide Marks, RegisterAll, RegisterCandidates, CandidateMarks, Conclusive;
    var seen := l.(available := l.available[ToolOf(call) := o.available]);
    var counted :=
      if ToolOf(call) == SearchTool && o.available then CountSearch(seen, call, |o.candidates|) else seen;
    var start := counted.(records := l.records + o.records, evidence := RegisterAll(l.evidence, o.evidence));
    MarksRegistered(key, l.evidence, o.evidence, polarity);
    CandidatesMark(start, o.candidates, key, polarity);
  }

  /** Confidence and the supporting components of the rank depend on the kinds alone. */
  lemma KindsDecide(a: seq<Signal>, b: seq<Signal>)
    requires Kinds(a, Supporting) == Kinds(b, Supporting) && Kinds(a, Contradicting) == Kinds(b, Contradicting)
    ensures ConfidenceOf(a) == ConfidenceOf(b) && Rank(a)[..7] == Rank(b)[..7]
  {
    hide Kinds, Contradictions;
  }

  /** The candidate stands the same in both ledgers, as far as confidence and supporting evidence go. */
  ghost predicate SameStanding(key: Key, a: Ledger, b: Ledger) {
    && ConfidenceOf(SignalsFor(key, a.evidence)) == ConfidenceOf(SignalsFor(key, b.evidence))
    && Rank(SignalsFor(key, a.evidence))[..7] == Rank(SignalsFor(key, b.evidence))[..7]
  }

  lemma MarksDecide(key: Key, a: Ledger, b: Ledger)
    requires forall polarity :: Marks(key, a.evidence, polarity) == Marks(key, b.evidence, polarity)
    ensures SameStanding(key, a, b)
  {
    forall polarity
      ensures Kinds(SignalsFor(key, a.evidence), polarity) == Kinds(SignalsFor(key, b.evidence), polarity)
    {
      MarksExact(key, a.evidence, polarity);
      MarksExact(key, b.evidence, polarity);
    }
    hide Marks, Kinds, SignalsFor, ConfidenceOf, Rank;
    KindsDecide(SignalsFor(key, a.evidence), SignalsFor(key, b.evidence));
  }

  // ---------- the same observation again ----------

  /** Further observations, one after another. */
  function RegisterMany(l: Ledger, more: seq<(Call, Observation)>): Ledger
    decreases |more|
  {
    if more == [] then l else RegisterMany(RegisterObservation(l, more[0].0, more[0].1), more[1..])
  }

  function ManyMarks(key: Key, more: seq<(Call, Observation)>, polarity: Polarity): set<EvidenceKind> {
    if more == [] then {} else ObservedMarks(key, more[0].1, polarity) + ManyMarks(key, more[1..], polarity)
  }

  lemma {:induction false} ManyMark(l: Ledger, more: seq<(Call, Observation)>, key: Key, polarity: Polarity)
    ensures Marks(key, RegisterMany(l, more).evidence, polarity)
            == Marks(key, l.evidence, polarity) + ManyMarks(key, more, polarity)
    decreases |more|
  {
    if more != [] {
      hide Marks, ObservedMarks, RegisterObservation;
      ObservationMarks(l, more[0].0, more[0].1, key, polarity);
      ManyMark(RegisterObservation(l, more[0].0, more[0].1), more[1..], key, polarity);
    }
  }

  /** Registering the same observation again, right away or after any others, gives its signals new
      identifiers but changes neither the confidence in any candidate nor the seven supporting components
      of its rank, then or after whatever is registered later. */
  lemma ObservationRepeated(l: Ledger, call: Call, o: Observation, between: seq<(Call, Observation)>,
                            later: seq<(Call, Observation)>, key: Key)
    ensures var once := RegisterMany(RegisterObservation(l, call, o), between);
            var twice := RegisterObservation(once, call, o);
            SameStanding(key, RegisterMany(once, later), RegisterMany(twice, later))
  {
    var first := RegisterObservation(l, call, o);
    var once := RegisterMany(first, between);
    var twice := RegisterObservation(once, call, o);
    hide Marks, ObservedMarks, ManyMarks, RegisterMany, RegisterObservation, SameStanding;
    forall polarity
      ensures Marks(key, RegisterMany(once, later).evidence, polarity)
              == Marks(key, RegisterMany(twice, later).evidence, polarity)
    {
      ObservationMarks(l, call, o, key, polarity);
      ManyMark(first, between, key, polarity);
      ObservationMarks(once, call, o, key, polarity);
      ManyMark(once, later, key, polarity);
      ManyMark(twice, later, key, polarity);
    }
    MarksDecide(key, RegisterMany(once, later), RegisterMany(twice, later));
  }

  // ---------- the same tool call again ----------

  /** The call got an answer: a verification's linked records were known by then. */
  predicate Answered(call: Call, records: nat) {
    call.Verify? ==> LinksKnown(call.q, records)
  }

  lemma SameAnswer(call: Call, records: nat, more: nat)
    requires Answered(call, records) && records <= more
    ensures Observe(call, more) == Observe(call, records) && Answered(call, more)
  {
    hide VerifyCandidates, SearchCandidates;
  }

  lemma InvokeMarks(l: Ledger, call: Call, key: Key, polarity: Polarity)
    ensures var after := Invoke(l, call);
            && l.records <= after.records
            && Marks(key, after.evidence, polarity)
               == Marks(key, l.evidence, polarity)
                  + if call.Raised? then {} else ObservedMarks(key, Observe(call, l.records), polarity)
  {
    hide Marks, ObservedMarks, Observe, RegisterObservation;
    if !call.Raised? { ObservationMarks(l, call, Observe(call, l.records), key, polarity); }
  }

  /** What an answered call had to say is in the ledger, and the same call would say nothing else now. */
  lemma {:induction false} SaidBefore(history: seq<Call>, i: nat, key: Key, polarity: Polarity)
    requires i < |history| && !history[i].Raised? && Answered(history[i], Replay(history[..i]).records)
    ensures Answered(history[i], Replay(history).records)
    ensures Replay(history[..i]).records <= Replay(history).records
    ensures ObservedMarks(key, Observe(history[i], Replay(history).records), polarity)
            <= Marks(key, Replay(history).evidence, polarity)
  {
    var n := |history| - 1;
    var before, after := Replay(history[..n]), Replay(history);
    assert after == Invoke(before, history[n]);
    hide Marks, ObservedMarks, Observe, Invoke, Replay, Answered;
    InvokeMarks(before, history[n], key, polarity);
    if i < n {
      assert history[..n][..i] == history[..i] && history[..n][i] == history[i];
      SaidBefore(history[..n], i, key, polarity);
    }
    SameAnswer(history[i], before.records, after.records);
  }

  /** A tool call of the run that got an answer may be made again with the same result: no candidate's
      confidence changes, and none of the seven supporting components of its rank. */
  lemma CallRepeated(history: seq<Call>, i: nat, key: Key)
    requires i < |history| && Answered(history[i], Replay(history[..i]).records)
    ensures SameStanding(key, Replay(history), Replay(history + [history[i]]))
  {
    var l := Replay(history);
    var call := history[i];
    assert (history + [call])[..|history|] == history;
    assert Replay(history + [call]) == Invoke(l, call);
    hide Marks, ObservedMarks, Observe, Invoke, Replay, SameStanding;
    forall polarity
      ensures Marks(key, l.evidence, polarity) == Marks(key, Invoke(l, call).evidence, polarity)
    {
      InvokeMarks(l, call, key, polarity);
      if !call.Raised? { SaidBefore(history, i, key, polarity); }
    }
    MarksDecide(key, l, Invoke(l, call));
  }
}
