/** The turn budget of a request, shared by at most two specialists. The provider is any function from
    the number of a call to what comes back, so every behaviour of the model is covered. */
module Turns {
  import opened Records

  datatype RequestKind = PaymentIdentification | General

  /** One model call as the provider ends it: tool calls, a final answer, a response the SDK turns into a
      handled exception, a timeout without any response, or an exception nobody handles. */
  datatype Reply =
    | ToolCalls(input: nat, output: nat)
    | Answer(input: nat, output: nat, valid: bool, correction: Option<RequestKind>)
    | Unusable(input: nat, output: nat)
    | TimedOut
    | Broken

  datatype CallLog = CallLog(withTools: bool, input: nat, output: nat)

  function InputOf(reply: Reply): nat {
    match reply
    case ToolCalls(input, _) => input
    case Answer(input, _, _, _) => input
    case Unusable(input, _) => input
    case _ => 0
  }

  function OutputOf(reply: Reply): nat {
    match reply
    case ToolCalls(_, output) => output
    case Answer(_, output, _, _) => output
    case Unusable(_, output) => output
    case _ => 0
  }

  function InputSum(log: seq<CallLog>): nat {
    if log == [] then 0 else InputSum(log[..|log| - 1]) + log[|log| - 1].input
  }

  function OutputSum(log: seq<CallLog>): nat {
    if log == [] then 0 else OutputSum(log[..|log| - 1]) + log[|log| - 1].output
  }

  /** The log of a run: every call is answered by the provider, and only the last of the budget has no
      tools. */
  predicate Logged(log: seq<CallLog>, limit: nat, replies: nat -> Reply) {
    && |log| <= limit
    && forall i: nat | i < |log| :: log[i] == CallLog(i + 1 < limit, InputOf(replies(i)), OutputOf(replies(i)))
  }

  class SpecialistTurns {
    const limit: nat
    var used: nat
    var inputTokens: nat
    var outputTokens: nat

    constructor (limit: nat)
      ensures this.limit == limit && used == 0 && inputTokens == 0 && outputTokens == 0
    {
      this.limit := limit;
      used, inputTokens, outputTokens := 0, 0, 0;
    }
  }

  class Provider {
    const replies: nat -> Reply
    var log: seq<CallLog>

    constructor (replies: nat -> Reply)
      ensures this.replies == replies && log == []
    {
      this.replies := replies;
      log := [];
    }

    method Respond(withTools: bool) returns (reply: Reply)
      modifies this
      ensures reply == replies(|old(log)|)
      ensures log == old(log) + [CallLog(withTools, InputOf(reply), OutputOf(reply))]
    {
      reply := replies(|log|);
      log := log + [CallLog(withTools, InputOf(reply), OutputOf(reply))];
    }
  }

  /** The shared counters agree with the calls made so far. */
  ghost predicate InStep(turns: SpecialistTurns, provider: Provider)
    reads turns, provider
  {
    && Logged(provider.log, turns.limit, provider.replies)
    && turns.used == |provider.log|
    && turns.inputTokens == InputSum(provider.log) && turns.outputTokens == OutputSum(provider.log)
  }

  /** `TurnLimitedModel.get_response`: no call beyond the limit, and none with tools at the limit. */
  method GetResponse(turns: SpecialistTurns, provider: Provider) returns (reply: Option<Reply>)
    requires InStep(turns, provider)
    modifies turns, provider
    ensures InStep(turns, provider)
    ensures reply.None? <==> old(turns.used) >= turns.limit
    ensures reply.None? ==> provider.log == old(provider.log)
    ensures reply.Some? ==> reply.value == provider.replies(|old(provider.log)|)
                            && |provider.log| == |old(provider.log)| + 1 && old(provider.log) <= provider.log
                            && turns.inputTokens == old(turns.inputTokens) + InputOf(reply.value)
                            && turns.outputTokens == old(turns.outputTokens) + OutputOf(reply.value)
  {
    if turns.used >= turns.limit {
      return None;
    }
    turns.used := turns.used + 1;
    var response := provider.Respond(turns.used != turns.limit);
    turns.inputTokens := turns.inputTokens + InputOf(response);
    turns.outputTokens := turns.outputTokens + OutputOf(response);
    assert provider.log[..|provider.log| - 1] == old(provider.log);
    return Some(response);
  }

  /** How a specialist ends: with an answer and the SDK's own counts, with a fallback and no counts, or
      with an exception that ends the request. */
  datatype Ending =
    | Completed(requests: nat, input: nat, output: nat, correction: Option<RequestKind>)
    | Fallback
    | Escaped

  /** One SDK run: model calls until an answer, an exception, or the turns of this run are used up; as long as
      the model asks for tools and a turn is left, it goes on. */
  method RunSpecialist(turns: SpecialistTurns, provider: Provider) returns (ending: Ending)
    requires InStep(turns, provider)
    modifies turns, provider
    ensures InStep(turns, provider) && old(provider.log) <= provider.log
    ensures old(turns.inputTokens) <= turns.inputTokens && old(turns.outputTokens) <= turns.outputTokens
    ensures ending.Completed? ==>
              && ending.requests == |provider.log| - |old(provider.log)|
              && old(turns.inputTokens) + ending.input == turns.inputTokens
              && old(turns.outputTokens) + ending.output == turns.outputTokens
              && |provider.log| > 0
              && provider.replies(|provider.log| - 1).Answer?
              && provider.replies(|provider.log| - 1).valid
              && provider.replies(|provider.log| - 1).correction == ending.correction
    ensures ending.Fallback? && |provider.log| > |old(provider.log)| ==>
              !(provider.replies(|provider.log| - 1).Answer? && provider.replies(|provider.log| - 1).valid)
    ensures forall k: nat | |old(provider.log)| <= k < |provider.log| - 1 :: provider.replies(k).ToolCalls?
    ensures |provider.log| > |old(provider.log)| && provider.replies(|provider.log| - 1).ToolCalls? ==>
              |provider.log| == turns.limit
    ensures old(turns.used) < turns.limit ==> |provider.log| > |old(provider.log)|
    ensures ending.Escaped? <==> |provider.log| > |old(provider.log)| && provider.replies(|provider.log| - 1).Broken?
  {
    var maxTurns := if turns.limit > turns.used then turns.limit - turns.used else 1;
    var requests: nat, input: nat, output: nat := 0, 0, 0;
    while requests < maxTurns
      invariant InStep(turns, provider) && old(provider.log) <= provider.log
      invariant requests == |provider.log| - |old(provider.log)|
      invariant forall k: nat | |old(provider.log)| <= k < |provider.log| :: provider.replies(k).ToolCalls?
      invariant old(turns.inputTokens) + input == turns.inputTokens
      invariant old(turns.outputTokens) + output == turns.outputTokens
      decreases maxTurns - requests
    {
      var reply := GetResponse(turns, provider);
      if reply.None? || reply.value.TimedOut? {
        return Fallback;
      }
      requests := requests + 1;
      input := input + InputOf(reply.value);
      output := output + OutputOf(reply.value);
      match reply.value {
        case ToolCalls(_, _) =>
        case Answer(_, _, valid, correction) =>
          if valid {
            return Completed(requests, input, output, correction);
          }
          return Fallback;
        case Unusable(_, _) => return Fallback;
        case Broken => return Escaped;
      }
    }
    return Fallback;
  }

  datatype Usage = Usage(turns: nat, input: nat, output: nat)

  datatype Report =
    | Failure
    | Report(kind: RequestKind, gaveUp: bool, usage: Usage)

  function Larger(a: nat, b: nat): nat {
    if a < b then b else a
  }

  /** The specialist that answered call `k` asked for the other kind of request, with turns left. */
  predicate CorrectedAt(replies: nat -> Reply, k: nat, kind: RequestKind, limit: nat) {
    k + 1 < limit && Corrects(replies(k), kind)
  }

  /** The reply is a valid answer that asks for the other kind of request. */
  predicate Corrects(reply: Reply, kind: RequestKind) {
    reply.Answer? && reply.valid && reply.correction.Some? && reply.correction.value != kind
  }

  function OtherKind(kind: RequestKind): RequestKind {
    if kind == General then PaymentIdentification else General
  }

  /** The last specialist, for a request of this kind, ended by asking for the other kind. */
  predicate EndsCorrecting(log: seq<CallLog>, replies: nat -> Reply, kind: RequestKind) {
    log != [] && Corrects(replies(|log| - 1), kind)
  }

  /** Tool calls are followed by another call while a turn is left, and only they and a correction are. */
  predicate WentOn(log: seq<CallLog>, replies: nat -> Reply, routed: RequestKind, limit: nat) {
    && (log != [] && replies(|log| - 1).ToolCalls? ==> |log| == limit)
    && forall k: nat | k + 1 < |log| :: replies(k).ToolCalls? || CorrectedAt(replies, k, routed, limit)
  }

  lemma NothingOn(replies: nat -> Reply, routed: RequestKind, limit: nat)
    ensures WentOn([], replies, routed, limit) && Logged([], limit, replies) && InputSum([]) == OutputSum([]) == 0
  {
  }

  lemma StillOn(before: seq<CallLog>, log: seq<CallLog>, replies: nat -> Reply, routed: RequestKind, limit: nat)
    requires WentOn(before, replies, routed, limit) && before <= log
    requires before == [] || CorrectedAt(replies, |before| - 1, routed, limit)
    requires forall k: nat | |before| <= k < |log| - 1 :: replies(k).ToolCalls?
    requires |log| > |before| && replies(|log| - 1).ToolCalls? ==> |log| == limit
    requires Logged(log, limit, replies)
    ensures WentOn(log, replies, routed, limit) && |log| <= limit
  {
  }

  /** The correction loop of `run`: at most two specialists share the budget. The reported usage is the
      router's plus everything the specialists used, even when one of them ended by an exception. A second
      specialist starts exactly when the first ends by asking for the other kind with a turn left; a third
      never does, and a run whose last specialist still asks for the other kind gives up. */
  method AnswerRequest(limit: nat, routed: RequestKind, clarify: bool, router: Usage, replies: nat -> Reply)
    returns (report: Report, log: seq<CallLog>, specialists: nat)
    ensures Logged(log, limit, replies) && specialists <= 2
    ensures clarify <==> specialists == 0
    ensures clarify ==> log == []
    ensures report.Failure? <==> log != [] && replies(|log| - 1).Broken?
    ensures report.Report? ==>
              report.usage == Usage(router.turns + |log|, router.input + InputSum(log), router.output + OutputSum(log))
    ensures specialists == 2 ==> exists k: nat | k < |log| :: CorrectedAt(replies, k, routed, limit)
    ensures !clarify && limit > 0 ==> log != []
    ensures WentOn(log, replies, routed, limit)
    ensures specialists == 1 && report.Report? ==>
              (report.gaveUp <==> EndsCorrecting(log, replies, routed)) && (report.gaveUp ==> |log| == limit)
    ensures specialists == 2 && report.Report? ==>
              (report.gaveUp <==> EndsCorrecting(log, replies, OtherKind(routed)))
    ensures report.Report? ==>
              report.kind == if report.gaveUp then PaymentIdentification
                             else if clarify then General
                             else if specialists == 2 then OtherKind(routed) else routed
  {
    hide WentOn, Logged, InputSum, OutputSum;
    NothingOn(replies, routed, limit);
    var turns := new SpecialistTurns(limit);
    var provider := new Provider(replies);
    if clarify {
      return Report(General, false, Usage(router.turns, router.input, router.output)), [], 0;
    }
    var kind := routed;
    var gaveUp := false;
    var counted := Usage(0, 0, 0);
    var attempt := 0;
    var done := false;
    while !done && attempt < 2
      invariant 0 <= attempt <= 2
      invariant turns.limit == limit && provider.replies == replies && InStep(turns, provider)
      invariant counted.input <= turns.inputTokens && counted.output <= turns.outputTokens
      invariant attempt == 0 ==> !done && kind == routed && provider.log == []
      invariant attempt == 2 ==> done
      invariant attempt == 1 && !done ==> kind == OtherKind(routed) && turns.used < limit
      invariant attempt == 2 || (attempt == 1 && !done) ==>
                  exists k: nat | k < |provider.log| :: CorrectedAt(replies, k, routed, limit)
      invariant attempt == 1 && done ==>
                  (gaveUp <==> EndsCorrecting(provider.log, replies, routed)) && (gaveUp ==> |provider.log| == limit)
      invariant attempt == 2 ==> (gaveUp <==> EndsCorrecting(provider.log, replies, OtherKind(routed)))
      invariant gaveUp ==> done
      invariant attempt > 0 && limit > 0 ==> provider.log != []
      invariant WentOn(provider.log, replies, routed, limit)
      invariant attempt == 1 && !done ==> CorrectedAt(replies, |provider.log| - 1, routed, limit)
      invariant provider.log != [] ==> !replies(|provider.log| - 1).Broken?
      invariant done ==> kind == if gaveUp then PaymentIdentification
                                 else if attempt == 2 then OtherKind(routed) else routed
      decreases 2 - attempt
    {
      var usedBefore := turns.used;
      ghost var before := provider.log;
      var ending := RunSpecialist(turns, provider);
      StillOn(before, provider.log, replies, routed, limit);
      attempt := attempt + 1;
      if ending.Escaped? {
        return Failure, provider.log, attempt;
      }
      var used := 0;
      var target := None;
      if ending.Completed? {
        counted := Usage(counted.turns + ending.requests, counted.input + ending.input,
                         counted.output + ending.output);
        used, target := ending.requests, ending.correction;
      }
      turns.used := Larger(turns.used, usedBefore + used);
      if target.None? || target.value == kind {
        done := true;
      } else if attempt == 2 || turns.used >= turns.limit {
        kind, gaveUp, done := PaymentIdentification, true, true;
      } else {
        assert CorrectedAt(replies, |provider.log| - 1, routed, limit);
        kind := target.value;
      }
    }
    log, specialists := provider.log, attempt;
    var spent := Usage(turns.used, Larger(counted.input, turns.inputTokens),
                       Larger(counted.output, turns.outputTokens));
    report := Report(kind, gaveUp, Usage(router.turns + spent.turns, router.input + spent.input,
                                         router.output + spent.output));
  }
}
