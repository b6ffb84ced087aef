/** The evidence ledger of one run: every tool call leaves an audit record, its signals get identifiers
    in the order they arrive, and verified candidates become eligible for a recommendation. */
module Ledger {
  import opened Records
  import opened Candidates

  datatype Tool = SearchTool | VerifyTool | VambeTool | OtherTool(name: string)

  datatype CallRecord = CallRecord(tool: Tool, succeeded: bool, references: seq<nat>)

  type Key = (string, Option<string>)

  /** What one tool call met: the rows the replica returned, or how it ended without any. */
  datatype Call =
    | Search(q: Query, rows: seq<Row>, people: seq<Person>, truncated: bool)
    | Verify(q: Query, rows: seq<Row>, people: seq<Person>, accepted: seq<nat>)
    | Vambe(order: Option<string>, asked: bool, messages: nat)
    | Other(name: string, records: nat)
    | Unavailable(tool: Tool)
    | Raised(tool: Tool)

  datatype Observation = Observation(available: bool, evidence: seq<Signal>, candidates: seq<Observed>,
                                     records: nat, references: seq<nat>)

  datatype Ledger = Ledger(calls: seq<CallRecord>, evidence: seq<Signal>, verified: map<Key, Candidate>,
                           records: nat, available: map<Tool, bool>,
                           searchSucceeded: bool, searchCount: Option<nat>, searchConclusive: bool)

  const EMPTY_LEDGER := Ledger([], [], map[], 0, map[], false, None, false)

  function ToolOf(call: Call): Tool {
    match call
    case Search(_, _, _, _) => SearchTool
    case Verify(_, _, _, _) => VerifyTool
    case Vambe(_, _, _) => VambeTool
    case Other(name, _) => OtherTool(name)
    case Unavailable(tool) => tool
    case Raised(tool) => tool
  }

  function LinkedSignal(candidate: Candidate, reference: nat): Signal {
    Signal(0, NameFragment, Supporting, CandidateVerification, candidate.orderId, candidate.arId, Some(reference))
  }

  function LinkedSignals(candidate: Candidate, accepted: seq<nat>): (signals: seq<Signal>)
    ensures |signals| == |accepted|
    ensures forall i | 0 <= i < |accepted| :: signals[i] == LinkedSignal(candidate, accepted[i])
  {
    seq(|accepted|, i requires 0 <= i < |accepted| => LinkedSignal(candidate, accepted[i]))
  }

  /** Every accepted source adds one weak name fragment to every verified candidate. */
  function AttachAll(candidates: seq<Observed>, accepted: seq<nat>): (attached: seq<Observed>)
    ensures |attached| == |candidates|
  {
    seq(|candidates|, i requires 0 <= i < |candidates| =>
      candidates[i].(signals := candidates[i].signals + LinkedSignals(candidates[i].candidate, accepted)))
  }

  const NOTHING := Observation(false, [], [], 0, [])

  /** A verification only runs when every linked record is known to this run. */
  predicate LinksKnown(q: Query, records: nat) {
    q.VerifyQuery? ==> forall i | 0 <= i < |q.links| :: 1 <= q.links[i].reference <= records
  }

  /** What the tool answers; `records` is the number of source records the run already has. */
  function Observe(call: Call, records: nat): Observation {
    match call
    case Search(q, rows, people, _) => Observation(true, [], SearchCandidates(q, rows, people), 0, [])
    case Verify(q, rows, people, accepted) =>
      if !LinksKnown(q, records) then NOTHING
      else
        var candidates := VerifyCandidates(q, rows, people);
        var references := if candidates == [] then [] else accepted;
        Observation(true, [], AttachAll(candidates, references), 0, references)
    case Vambe(order, asked, messages) =>
      Observation(true,
                  if messages > 0 && asked && order.Some?
                  then [Signal(0, VambeMention, Supporting, VambeSource, order.value, None, None)] else [],
                  [], 0, [])
    case Other(_, count) => Observation(true, [], [], count, [])
    case _ => NOTHING
  }

  function RegisterOne(evidence: seq<Signal>, signal: Signal): seq<Signal> {
    evidence + [signal.(id := |evidence| + 1)]
  }

  function RegisterAll(evidence: seq<Signal>, signals: seq<Signal>): (all: seq<Signal>)
    ensures |all| == |evidence| + |signals| && evidence <= all
    ensures forall i | 0 <= i < |signals| :: all[|evidence| + i] == signals[i].(id := |evidence| + i + 1)
    decreases |signals|
  {
    if signals == [] then evidence else RegisterAll(RegisterOne(evidence, signals[0]), signals[1..])
  }

  function KeyOf(candidate: Candidate): Key {
    (candidate.orderId, candidate.arId)
  }

  function RegisterCandidate(l: Ledger, observed: Observed): Ledger {
    var c := observed.candidate;
    l.(evidence := RegisterAll(l.evidence, observed.signals),
       verified := if c.verified then l.verified[KeyOf(c) := c] else l.verified)
  }

  function RegisterCandidates(l: Ledger, candidates: seq<Observed>): Ledger
    decreases |candidates|
  {
    if candidates == [] then l else RegisterCandidates(RegisterCandidate(l, candidates[0]), candidates[1..])
  }

  function Max(a: nat, b: nat): nat {
    if a < b then b else a
  }

  predicate Conclusive(call: Call) {
    call.Search? && IdentitySearchComplete(call.q, call.rows, call.people) && !call.truncated
  }

  /** The search counters of the run. */
  function CountSearch(l: Ledger, call: Call, candidates: nat): Ledger {
    l.(searchSucceeded := true,
       searchCount := Some(Max(if l.searchCount.Some? then l.searchCount.value else 0, candidates)),
       searchConclusive := l.searchConclusive || Conclusive(call))
  }

  function RegisterObservation(l: Ledger, call: Call, o: Observation): Ledger {
    var seen := l.(available := l.available[ToolOf(call) := o.available]);
    var counted := if ToolOf(call) == SearchTool && o.available then CountSearch(seen, call, |o.candidates|) else seen;
    RegisterCandidates(counted.(records := l.records + o.records, evidence := RegisterAll(l.evidence, o.evidence)),
                       o.candidates)
  }

  /** One tool call: a raised exception only leaves a failed record. */
  function Invoke(l: Ledger, call: Call): Ledger {
    if call.Raised?
    then l.(available := l.available[call.tool := false], calls := l.calls + [CallRecord(call.tool, false, [])])
    else
      var o := Observe(call, l.records);
      var registered := RegisterObservation(l, call, o);
      registered.(calls := l.calls + [CallRecord(ToolOf(call), true, o.references)])
  }

  /** The ledger a history of tool calls leaves. */
  function Replay(history: seq<Call>): Ledger {
    if history == [] then EMPTY_LEDGER
    else Invoke(Replay(history[..|history| - 1]), history[|history| - 1])
  }

  /** `RunState`: the mutable ledger the tools fill while the model works. */
  class RunState {
    var calls: seq<CallRecord>
    var evidence: seq<Signal>
    var verified: map<Key, Candidate>
    var records: nat
    var available: map<Tool, bool>
    var searchSucceeded: bool
    var searchCount: Option<nat>
    var searchConclusive: bool

    constructor ()
      ensures Value() == EMPTY_LEDGER
    {
      calls, evidence, verified, records, available := [], [], map[], 0, map[];
      searchSucceeded, searchCount, searchConclusive := false, None, false;
    }

    function Value(): Ledger
      reads this
    {
      Ledger(calls, evidence, verified, records, available, searchSucceeded, searchCount, searchConclusive)
    }

    method RegisterSignal(signal: Signal) returns (registered: Signal)
      modifies this`evidence
      ensures Value() == old(Value()).(evidence := RegisterOne(old(evidence), signal))
      ensures registered.id == |evidence| && registered == evidence[|evidence| - 1]
    {
      registered := signal.(id := |evidence| + 1);
      evidence := evidence + [registered];
    }

    method RegisterSignals(signals: seq<Signal>)
      modifies this`evidence
      ensures Value() == old(Value()).(evidence := RegisterAll(old(evidence), signals))
    {
      var i := 0;
      while i < |signals|
        invariant 0 <= i <= |signals|
        invariant RegisterAll(evidence, signals[i..]) == RegisterAll(old(evidence), signals)
      {
        assert signals[i..][1..] == signals[i + 1..];
        var _ := RegisterSignal(signals[i]);
        i := i + 1;
      }
    }

    method RegisterObserved(candidates: seq<Observed>)
      modifies this
      ensures Value() == RegisterCandidates(old(Value()), candidates)
    {
      var i := 0;
      while i < |candidates|
        invariant 0 <= i <= |candidates|
        invariant RegisterCandidates(Value(), candidates[i..]) == RegisterCandidates(old(Value()), candidates)
      {
        assert candidates[i..][1..] == candidates[i + 1..];
        var c := candidates[i].candidate;
        RegisterSignals(candidates[i].signals);
        if c.verified {
          verified := verified[KeyOf(c) := c];
        }
        i := i + 1;
      }
    }

    method RecordObservation(call: Call, o: Observation)
      modifies this
      ensures Value() == RegisterObservation(old(Value()), call, o)
    {
      hide Conclusive, RegisterAll, RegisterCandidates;
      available := available[ToolOf(call) := o.available];
      if ToolOf(call) == SearchTool && o.available {
        searchSucceeded := true;
        searchCount := Some(Max(if searchCount.Some? then searchCount.value else 0, |o.candidates|));
        searchConclusive := searchConclusive || Conclusive(call);
      }
      records := records + o.records;
      RegisterSignals(o.evidence);
      RegisterObserved(o.candidates);
    }

    /** `invoke`: the observation is registered before its audit record is written. */
    method InvokeTool(call: Call)
      modifies this
      ensures Value() == Invoke(old(Value()), call)
    {
      hide Observe, RegisterObservation;
      if call.Raised? {
        available := available[call.tool := false];
        calls := calls + [CallRecord(call.tool, false, [])];
      } else {
        var o := Observe(call, records);
        RegistrationKeepsCalls(Value(), call, o);
        RecordObservation(call, o);
        calls := calls + [CallRecord(ToolOf(call), true, o.references)];
      }
    }
  }

  lemma {:induction false} CandidatesKeepCalls(l: Ledger, candidates: seq<Observed>)
    ensures RegisterCandidates(l, candidates).calls == l.calls
    decreases |candidates|
  {
    if candidates != [] { CandidatesKeepCalls(RegisterCandidate(l, candidates[0]), candidates[1..]); }
  }

  lemma RegistrationKeepsCalls(l: Ledger, call: Call, o: Observation)
    ensures RegisterObservation(l, call, o).calls == l.calls
  {
    var seen := l.(available := l.available[ToolOf(call) := o.available]);
    var counted := if ToolOf(call) == SearchTool && o.available then CountSearch(seen, call, |o.candidates|) else seen;
    CandidatesKeepCalls(
      counted.(records := l.records + o.records, evidence := RegisterAll(l.evidence, o.evidence)), o.candidates);
  }
}
