/**
 * One run of the agent: turns until the model finishes, a limit is reached, the run is
 * cancelled or something throws (`runWithResult` of src/agent/Agent.ts). Provider, hooks and
 * tools are arbitrary scripts, one per step.
 */
module AgentRun {
  import opened Messages
  import opened Numbers
  import opened LlmAttempts

  datatype ToolPhase = ToolsCompleted(forcedTurnCompletion: bool) | ToolsCancelled | ToolsThrew

  /** Everything outside the agent that one step meets. */
  datatype StepScript = StepScript(
    startHookThrows: bool,
    startBlocked: Option<string>,
    abortedAtStart: bool,
    event: nat -> AttemptEvent,
    preparationThrows: nat -> bool,
    responseHookThrows: bool,
    toolPhase: ToolPhase)

  datatype RunOutcome = Returned(result: RunResult) | Threw

  /** The counters at the head of an iteration of the main loop. */
  datatype LoopHead = LoopHead(protocolFailures: nat, progressOnlyStops: nat, maxTokensAttempt: nat)

  /** What a run did, besides its outcome. */
  datatype RunTrace = RunTrace(
    heads: seq<LoopHead>,
    providerCalls: nat,
    maxTokensEvents: seq<MaxTokensEvent>,
    continuationPrompts: nat,
    progressPrompts: nat,
    protocolMessages: nat)

  const PLAN_APPROVED := "Plan approved. Execution will continue in a new turn."

  predicate IsEndTurn(finishReason: Option<string>) {
    finishReason == Some("end_turn")
  }

  predicate ShouldRecoverProgressOnly(r: Response) {
    IsEndTurn(r.finishReason) && !r.hasToolCalls && r.progressOnlyText
  }

  /** The events of `n` cut-off answers: numbered from one, recovered up to the limit. */
  function MaxTokensEvents(n: nat, limit: nat): (events: seq<MaxTokensEvent>)
    ensures |events| == n
  {
    if n == 0 then [] else MaxTokensEvents(n - 1, limit) + [MaxTokensEvent(n, n <= limit)]
  }

  /** The variables of the main loop. */
  datatype RunState = RunState(
    step: int,
    lastResult: string,
    failures: nat,
    progressStops: nat,
    attempt: nat,
    recovered: bool,
    trace: RunTrace)
  {
    function Meta(): RecoveryMeta {
      RecoveryMeta(recovered, attempt, trace.maxTokensEvents)
    }
  }

  /** What holds whenever a step begins or ends, for `turns` finished iterations. */
  ghost predicate Consistent(s: RunState, limit: nat, callsPerTurn: nat) {
    && s.trace.maxTokensEvents == MaxTokensEvents(s.attempt, limit)
    && s.attempt <= limit + 1
    && s.trace.continuationPrompts == Min(s.attempt, limit)
    && (s.recovered <==> s.attempt >= 1 && limit >= 1)
    && s.trace.providerCalls <= |s.trace.heads| * callsPerTurn
    && s.trace.protocolMessages <= |s.trace.heads|
    && forall h :: h in s.trace.heads ==>
         h.protocolFailures < PROTOCOL_FAILURE_ESCALATE_AFTER && h.progressOnlyStops <= PROGRESS_ONLY_MAX_ATTEMPTS
         && h.maxTokensAttempt <= limit
  }

  /** The state at the head of an iteration. */
  ghost predicate AtHead(s: RunState, limit: nat, callsPerTurn: nat) {
    && Consistent(s, limit, callsPerTurn)
    && s.failures < PROTOCOL_FAILURE_ESCALATE_AFTER
    && s.progressStops <= PROGRESS_ONLY_MAX_ATTEMPTS
    && s.attempt <= limit
    && 0 <= s.step && |s.trace.heads| == s.step
  }

  class Agent {
    const llmConfigured: bool
    const maxSteps: int
    const maxErrorsBeforeTrim: int
    const keepLlmRounds: int
    const aggressiveKeepCap: int
    const progressOnlyRecoveryEnabled: bool
    const maxTokensLimit: nat
    const host: CompletionHost
    var isRunning: bool

    constructor (
      llmConfigured: bool, maxSteps: int, maxErrorsBeforeTrim: int, keepLlmRounds: int, aggressiveKeepCap: int,
      progressOnlyRecoveryEnabled: bool, maxTokensLimit: nat, host: CompletionHost)
      ensures !isRunning && this.host == host && this.llmConfigured == llmConfigured && this.maxSteps == maxSteps
      ensures this.maxErrorsBeforeTrim == maxErrorsBeforeTrim && this.maxTokensLimit == maxTokensLimit
    {
      this.llmConfigured, this.maxSteps, this.maxErrorsBeforeTrim := llmConfigured, maxSteps, maxErrorsBeforeTrim;
      this.keepLlmRounds, this.aggressiveKeepCap := keepLlmRounds, aggressiveKeepCap;
      this.progressOnlyRecoveryEnabled, this.maxTokensLimit := progressOnlyRecoveryEnabled, maxTokensLimit;
      this.host := host;
      isRunning := false;
    }

    /** The most provider calls one turn can take. */
    function CallsPerTurn(): nat {
      Max(1, maxErrorsBeforeTrim) + TRANSPORT_RETRY_MAX_ATTEMPTS + 1
    }

    lemma MostCalls()
      ensures CallsPerTurn() == if maxErrorsBeforeTrim < 1 then 4 else maxErrorsBeforeTrim + 3
    {
    }

    function World(script: StepScript): AttemptWorld {
      AttemptWorld(maxErrorsBeforeTrim, keepLlmRounds, aggressiveKeepCap, script.event, script.preparationThrows)
    }

    // ----- what a step does -----

    /** After an answer with its tool phase done: the run is finished, or there is a reason to go on. */
    function AfterResponseOf(response: Response, s: RunState): StepEnd {
      if response.finishReason == Some("max_tokens") then
        var attempt := s.attempt + 1;
        var recovered := attempt <= maxTokensLimit;
        var s' := s.(
          progressStops := 0,
          attempt := attempt,
          recovered := s.recovered || recovered,
          trace := s.trace.(
            maxTokensEvents := s.trace.maxTokensEvents + [MaxTokensEvent(attempt, recovered)],
            continuationPrompts := s.trace.continuationPrompts + (if recovered then 1 else 0)));
        if recovered then GoesOnWith(s')
        else Finishes(RunResult(s.lastResult, MaxTokens, s.step + 1, Some(s'.Meta())), s')
      else if progressOnlyRecoveryEnabled && ShouldRecoverProgressOnly(response) then
        if s.progressStops >= PROGRESS_ONLY_MAX_ATTEMPTS then
          Finishes(RunResult("[PROGRESS_ONLY_STALL]", ProtocolStall, s.step + 1, Some(s.Meta())), s)
        else
          GoesOnWith(s.(
            progressStops := s.progressStops + 1,
            trace := s.trace.(progressPrompts := s.trace.progressPrompts + 1)))
      else if IsEndTurn(response.finishReason) then
        Finishes(RunResult(s.lastResult, EndTurn, s.step + 1, Some(s.Meta())), s.(progressStops := 0))
      else GoesOnWith(s.(progressStops := 0))
    }

    /** The response hook and the tool phase of an answered turn, then the decision how to go on. */
    function AfterAnswerOf(script: StepScript, response: Response, s: RunState): StepEnd {
      if script.responseHookThrows then StepEnd(Some(Threw), s)
      else
        var answered := s.(lastResult := if response.content != "" then response.content else s.lastResult);
        match if response.hasToolCalls then script.toolPhase else ToolsCompleted(false)
        case ToolsThrew => StepEnd(Some(Threw), answered)
        case ToolsCancelled => Finishes(Cancelled(s.step, s.Meta()), answered)
        case ToolsCompleted(forced) =>
          if forced then
            Finishes(RunResult(PLAN_APPROVED, EndTurn, s.step + 1, Some(s.Meta())), answered.(lastResult := PLAN_APPROVED))
          else AfterResponseOf(response, answered)
    }

    /** How the provider's part of a step ends. */
    function TurnOf(script: StepScript, s: RunState): AttemptOutcome {
      TurnOutcome(World(script), s.step, s.Meta(), s.failures, 0, 0)
    }

    /** The state behind the provider's part of a step. */
    ghost function Attempted(script: StepScript, s: RunState): RunState {
      var t := TurnTrace(World(script), s.step, s.Meta(), s.failures);
      AfterAttempts(s, HeadOf(s), t, FailuresAfter(TurnOf(script, s), s.failures, t.protocolMessages))
    }

    /** One iteration of the main loop. */
    ghost function StepOf(script: StepScript, s: RunState): StepEnd {
      if script.startHookThrows then StepEnd(Some(Threw), Begun(s))
      else if script.startBlocked.Some? then Finishes(Blocked(script.startBlocked.value, s.step), Begun(s))
      else if script.abortedAtStart then Finishes(Cancelled(s.step, s.Meta()), Begun(s))
      else
        match TurnOf(script, s)
        case Terminal(result) => Finishes(result, Attempted(script, s))
        case AttemptThrew => StepEnd(Some(Threw), Attempted(script, s))
        case RecoveredProtocol => GoesOnWith(Attempted(script, s))
        case Responded(response) => AfterAnswerOf(script, response, Attempted(script, s))
    }

    method AfterResponse(response: Response, s: RunState)
      returns (outcome: Option<RunOutcome>, s': RunState)
      modifies host`completions
      ensures StepEnd(outcome, s') == AfterResponseOf(response, s)
      ensures host.completions == old(host.completions) + ResultsOf(outcome)
    {
      s' := s;
      if response.finishReason == Some("max_tokens") {
        var attempt := s.attempt + 1;
        var recovered := attempt <= maxTokensLimit;
        s' := s.(
          progressStops := 0,
          attempt := attempt,
          recovered := s.recovered || recovered,
          trace := s.trace.(
            maxTokensEvents := s.trace.maxTokensEvents + [MaxTokensEvent(attempt, recovered)],
            continuationPrompts := s.trace.continuationPrompts + (if recovered then 1 else 0)));
        if recovered {
          s' := s'.(step := s.step + 1);
          return None, s';
        }
        var result := host.CompleteAgentTurn(RunResult(s'.lastResult, MaxTokens, s.step + 1, Some(s'.Meta())));
        return Some(Returned(result)), s';
      }
      if progressOnlyRecoveryEnabled && ShouldRecoverProgressOnly(response) {
        var decision := DecideProgressOnlyRecovery(s.progressStops);
        if decision.stall {
          var result := host.CompleteAgentTurn(RunResult("[PROGRESS_ONLY_STALL]", ProtocolStall, s.step + 1, Some(s'.Meta())));
          return Some(Returned(result)), s';
        }
        s' := s.(
          progressStops := decision.nextCount,
          step := s.step + 1,
          trace := s.trace.(progressPrompts := s.trace.progressPrompts + 1));
        return None, s';
      }
      s' := s.(progressStops := 0);
      if IsEndTurn(response.finishReason) {
        var result := host.CompleteAgentTurn(RunResult(s'.lastResult, EndTurn, s.step + 1, Some(s'.Meta())));
        return Some(Returned(result)), s';
      }
      s' := s'.(step := s.step + 1);
      return None, s';
    }

    method AfterAnswer(script: StepScript, response: Response, s: RunState)
      returns (outcome: Option<RunOutcome>, s': RunState)
      modifies host`completions
      ensures StepEnd(outcome, s') == AfterAnswerOf(script, response, s)
      ensures script.responseHookThrows ==> s'.lastResult == s.lastResult
      ensures !script.responseHookThrows && !(response.hasToolCalls && script.toolPhase == ToolsCompleted(true)) ==>
                s'.lastResult == if response.content != "" then response.content else s.lastResult
      ensures outcome.Some? && outcome.value.Returned? && outcome.value.result.finishReason in {EndTurn, MaxTokens} ==>
                outcome.value.result.content == s'.lastResult
      ensures host.completions == old(host.completions) + ResultsOf(outcome)
    {
      s' := s;
      if script.responseHookThrows {
        return Some(Threw), s';
      }
      s' := s.(lastResult := if response.content != "" then response.content else s.lastResult);
      var phase := if response.hasToolCalls then script.toolPhase else ToolsCompleted(false);
      match phase {
        case ToolsThrew => return Some(Threw), s';
        case ToolsCancelled =>
          var result := host.CompleteCancelledRun(s.step, s'.Meta());
          return Some(Returned(result)), s';
        case ToolsCompleted(forced) =>
          if forced {
            s' := s'.(lastResult := PLAN_APPROVED);
            var result := host.CompleteAgentTurn(RunResult(PLAN_APPROVED, EndTurn, s.step + 1, Some(s'.Meta())));
            return Some(Returned(result)), s';
          }
          outcome, s' := AfterResponse(response, s');
      }
    }

    method RunStep(script: StepScript, s: RunState) returns (outcome: Option<RunOutcome>, s': RunState)
      modifies host`completions
      ensures StepEnd(outcome, s') == StepOf(script, s)
      ensures host.completions == old(host.completions) + ResultsOf(outcome)
    {
      hide TurnOutcome, TurnTrace, TraceOk;
      s' := Begun(s);
      if script.startHookThrows {
        return Some(Threw), s';
      }
      if script.startBlocked.Some? {
        var result := host.CompleteAgentTurn(RunResult(script.startBlocked.value, HookBlocked, s.step + 1, None));
        return Some(Returned(result)), s';
      }
      if script.abortedAtStart {
        var result := host.CompleteCancelledRun(s.step, s'.Meta());
        return Some(Returned(result)), s';
      }
      var attempted, failures, t := RunAgentLlmAttemptLoop(host, World(script), s.step, s'.Meta(), s.failures);
      s' := AfterAttempts(s, HeadOf(s), t, failures);
      match attempted {
        case Terminal(result) => return Some(Returned(result)), s';
        case AttemptThrew => return Some(Threw), s';
        case RecoveredProtocol =>
          s' := s'.(step := s.step + 1);
          return None, s';
        case Responded(response) =>
          outcome, s' := AfterAnswer(script, response, s');
      }
    }

    // ----- what every step keeps -----

    lemma ResponseKeeps(response: Response, s: RunState)
      requires Consistent(s, maxTokensLimit, CallsPerTurn()) && s.attempt <= maxTokensLimit
      requires s.failures == 0 && s.progressStops <= PROGRESS_ONLY_MAX_ATTEMPTS
      requires 0 <= s.step && |s.trace.heads| == s.step + 1
      ensures Kept(s, AfterResponseOf(response, s))
    {
    }

    lemma AnswerKeeps(script: StepScript, response: Response, s: RunState)
      requires Consistent(s, maxTokensLimit, CallsPerTurn()) && s.attempt <= maxTokensLimit
      requires s.failures == 0 && s.progressStops <= PROGRESS_ONLY_MAX_ATTEMPTS
      requires 0 <= s.step && |s.trace.heads| == s.step + 1
      ensures Kept(s, AfterAnswerOf(script, response, s))
    {
      hide MaxTokensEvents, AfterResponseOf;
      var answered := s.(lastResult := if response.content != "" then response.content else s.lastResult);
      ResponseKeeps(response, answered);
    }

    /** The step ends in a consistent state, or at the head of the next iteration, and its result fits the state. */
    ghost predicate Kept(s: RunState, end: StepEnd) {
      && Consistent(end.state, maxTokensLimit, CallsPerTurn()) && |end.state.trace.heads| == s.step + 1
      && (end.outcome == None ==> AtHead(end.state, maxTokensLimit, CallsPerTurn()) && end.state.step == s.step + 1)
      && (end.outcome.Some? && end.outcome.value.Returned? ==>
            StepResult(end.outcome.value.result, s, end.state, maxTokensLimit))
    }

    lemma StepKeeps(script: StepScript, s: RunState)
      requires AtHead(s, maxTokensLimit, CallsPerTurn())
      ensures Kept(s, StepOf(script, s))
    {
      hide Consistent, TraceOk, TurnOutcome, TurnTrace, AfterAnswerOf;
      HeadRecorded(s, HeadOf(s), maxTokensLimit, CallsPerTurn());
      var t := TurnTrace(World(script), s.step, s.Meta(), s.failures);
      TurnKeeps(World(script), s.step, s.Meta(), s.failures);
      TurnResult(World(script), s.step, s.Meta(), s.failures, 0, 0);
      var failures := FailuresAfter(TurnOf(script, s), s.failures, t.protocolMessages);
      CallsCounted(World(script), s, HeadOf(s), t, failures, maxTokensLimit, CallsPerTurn());
      var turn := TurnOf(script, s);
      if turn.Responded? {
        AnswerKeeps(script, turn.response, Attempted(script, s));
      } else if turn == RecoveredProtocol {
        StepAdvanced(Attempted(script, s), maxTokensLimit, CallsPerTurn());
      }
    }

    // ----- the whole run -----

    /** The rest of the run, from the head of an iteration on. */
    ghost function RunFrom(scripts: nat -> StepScript, s: RunState): RunEnd
      requires AtHead(s, maxTokensLimit, CallsPerTurn())
      decreases maxSteps - s.step
    {
      if s.step >= maxSteps then
        RunEnd(Returned(RunResult("Task couldn't be completed", MaxSteps, s.step, Some(s.Meta()))), s)
      else
        StepKeeps(scripts(s.step), s);
        var end := StepOf(scripts(s.step), s);
        if end.outcome.Some? then RunEnd(end.outcome.value, end.state) else RunFrom(scripts, end.state)
    }

    /** The whole run of a configured agent. */
    ghost function Run(scripts: nat -> StepScript): RunEnd {
      FirstAtHead();
      RunFrom(scripts, First())
    }

    lemma FirstAtHead()
      ensures AtHead(First(), maxTokensLimit, CallsPerTurn()) && First().step == 0
    {
    }

    lemma RunStarts(scripts: nat -> StepScript)
      ensures AtHead(First(), maxTokensLimit, CallsPerTurn()) && First().step == 0
      ensures Run(scripts) == RunFrom(scripts, First())
    {
      hide RunFrom;
      FirstAtHead();
    }

    lemma RunUnfolds(scripts: nat -> StepScript, s: RunState)
      requires AtHead(s, maxTokensLimit, CallsPerTurn())
      ensures s.step >= 0
      ensures if s.step >= maxSteps then
                RunFrom(scripts, s)
                == RunEnd(Returned(RunResult("Task couldn't be completed", MaxSteps, s.step, Some(s.Meta()))), s)
              else
                var end := StepOf(scripts(s.step), s);
                if end.outcome.Some? then RunFrom(scripts, s) == RunEnd(end.outcome.value, end.state)
                else
                  && AtHead(end.state, maxTokensLimit, CallsPerTurn()) && end.state.step == s.step + 1
                  && RunFrom(scripts, s) == RunFrom(scripts, end.state)
    {
      hide StepOf;
      if s.step < maxSteps {
        StepKeeps(scripts(s.step), s);
      }
    }

    /** The end of a run is consistent, within the steps, and its result fits it. */
    ghost predicate RunKept(end: RunEnd) {
      && Consistent(end.state, maxTokensLimit, CallsPerTurn()) && |end.state.trace.heads| <= Max(0, maxSteps)
      && (end.outcome.Returned? ==>
            var r := end.outcome.result;
            && (r.meta == None ==> r.finishReason == HookBlocked)
            && (r.meta.Some? ==> r.meta.value == end.state.Meta())
            && (r.finishReason == MaxTokens ==> end.state.attempt == maxTokensLimit + 1)
            && (r.finishReason == MaxSteps ==> r.step == |end.state.trace.heads| == Max(0, maxSteps))
            && (r.finishReason != MaxSteps ==>
                  r.step == |end.state.trace.heads| - (if r.finishReason == CancelledByUser then 1 else 0)))
    }

    lemma {:induction false} RunKeeps(scripts: nat -> StepScript, s: RunState)
      requires AtHead(s, maxTokensLimit, CallsPerTurn()) && s.step <= Max(0, maxSteps)
      ensures RunKept(RunFrom(scripts, s))
      decreases maxSteps - s.step
    {
      hide Consistent, StepOf, RunFrom;
      RunUnfolds(scripts, s);
      if s.step < maxSteps {
        StepKeeps(scripts(s.step), s);
        var end := StepOf(scripts(s.step), s);
        if end.outcome == None {
          RunKeeps(scripts, end.state);
        }
      }
    }

    lemma EndFacts(end: RunEnd)
      requires RunKept(end)
      ensures var trace := end.state.trace;
              && |trace.heads| <= Max(0, maxSteps)
              && trace.providerCalls <= |trace.heads| * CallsPerTurn() <= Max(0, maxSteps) * CallsPerTurn()
              && trace.maxTokensEvents == MaxTokensEvents(|trace.maxTokensEvents|, maxTokensLimit)
              && |trace.maxTokensEvents| <= maxTokensLimit + 1
              && trace.continuationPrompts == Min(|trace.maxTokensEvents|, maxTokensLimit)
              && (forall h :: h in trace.heads ==>
                    h.protocolFailures < PROTOCOL_FAILURE_ESCALATE_AFTER && h.progressOnlyStops <= PROGRESS_ONLY_MAX_ATTEMPTS
                    && h.maxTokensAttempt <= maxTokensLimit)
              && (end.outcome.Returned? ==>
                    var r := end.outcome.result;
                    && (r.meta == None ==> r.finishReason == HookBlocked)
                    && (r.meta.Some? ==> r.meta.value == FinalMeta(trace, maxTokensLimit))
                    && (r.finishReason == MaxTokens ==> |trace.maxTokensEvents| == maxTokensLimit + 1)
                    && (r.finishReason == MaxSteps ==> r.step == |trace.heads| == Max(0, maxSteps))
                    && (r.finishReason != MaxSteps ==>
                          r.step == |trace.heads| - (if r.finishReason == CancelledByUser then 1 else 0)))
    {
      hide MaxTokensEvents;
      ConsistentTrace(end.state, maxSteps, maxTokensLimit, CallsPerTurn());
    }

    /**
     * The whole run. However the provider, the hooks and the tools behave:
     *  - it takes at most `maxSteps` iterations and `maxSteps * (M + 3)` provider calls, where
     *    M is the overflow limit;
     *  - cut-off answers number their events 1, 2, ... and get a continuation prompt up to the
     *    limit, one more ends the run;
     *  - at every loop head fewer than two protocol failures and at most three progress-only
     *    stops are outstanding;
     *  - the outcome and everything counted are those of the run described by its steps;
     *  - the completion fires once, with the returned result, exactly when the run returns and
     *    a provider is configured; a throw fires the error callback instead, except when the
     *    agent was already running.
     */
    method RunWithResult(scripts: nat -> StepScript) returns (outcome: RunOutcome, trace: RunTrace)
      modifies this`isRunning, host
      ensures isRunning == old(isRunning)
      ensures old(isRunning) ==> outcome == Threw && trace.heads == []
      ensures host.completions == old(host.completions)
                                  + if outcome.Returned? && llmConfigured then [outcome.result] else []
      ensures host.errors == old(host.errors) + if outcome == Threw && !old(isRunning) then 1 else 0
      ensures !llmConfigured && !old(isRunning) ==> outcome.Returned? && outcome.result.finishReason == Unset && trace.heads == []
      ensures !old(isRunning) && llmConfigured ==>
                && outcome == Run(scripts).outcome && trace == Run(scripts).state.trace
                && (outcome.Returned? && outcome.result.finishReason != MaxSteps ==>
                      exists k: nat :: EndedBy(scripts, k, Some(outcome.result.finishReason)) && Says(scripts, k, outcome.result))
                && (outcome == Threw ==> exists k: nat :: EndedBy(scripts, k, None))
      ensures !old(isRunning) && llmConfigured ==> trace.providerCalls == CallsMade(scripts, |trace.heads|)
      ensures trace.providerCalls <= |trace.heads| * (if maxErrorsBeforeTrim < 1 then 4 else maxErrorsBeforeTrim + 3)
      ensures |trace.heads| <= Max(0, maxSteps)
      ensures trace.providerCalls <= |trace.heads| * CallsPerTurn() <= Max(0, maxSteps) * CallsPerTurn()
      ensures trace.maxTokensEvents == MaxTokensEvents(|trace.maxTokensEvents|, maxTokensLimit)
      ensures |trace.maxTokensEvents| <= maxTokensLimit + 1
      ensures trace.continuationPrompts == Min(|trace.maxTokensEvents|, maxTokensLimit)
      ensures forall h :: h in trace.heads ==>
                h.protocolFailures < PROTOCOL_FAILURE_ESCALATE_AFTER && h.progressOnlyStops <= PROGRESS_ONLY_MAX_ATTEMPTS
                && h.maxTokensAttempt <= maxTokensLimit
      ensures outcome.Returned? && llmConfigured ==>
                && (outcome.result.meta == None ==> outcome.result.finishReason == HookBlocked)
                && (outcome.result.meta.Some? ==> outcome.result.meta.value == FinalMeta(trace, maxTokensLimit))
                && (outcome.result.finishReason == MaxTokens ==> |trace.maxTokensEvents| == maxTokensLimit + 1)
                && (outcome.result.finishReason == MaxSteps ==>
                      outcome.result.step == |trace.heads| == Max(0, maxSteps))
                && (outcome.result.finishReason != MaxSteps ==>
                      outcome.result.step
                      == |trace.heads| - (if outcome.result.finishReason == CancelledByUser then 1 else 0))
    {
      hide *;
      trace := NoTrace();
      NothingDone(maxSteps, CallsPerTurn(), maxTokensLimit);
      if isRunning {
        return Threw, trace;
      }
      isRunning := true;
      if !llmConfigured {
        isRunning := false;
        return Returned(RunResult("API Key not configured.", Unset, 0, None)), trace;
      }
      var s := First();
      RunStarts(scripts);
      RunKeeps(scripts, s);
      EndFacts(Run(scripts));
      RunEndsWith(scripts, None);
      ThrewIs(Run(scripts).outcome);
      RunCalls(scripts);
      MostCalls();
      while s.step < maxSteps
        invariant AtHead(s, maxTokensLimit, CallsPerTurn()) && s.step >= 0
        invariant RunFrom(scripts, s) == Run(scripts)
        invariant isRunning && host.completions == old(host.completions) && host.errors == old(host.errors)
      {
        RunUnfolds(scripts, s);
        var stepOutcome, next := RunStep(scripts(s.step), s);
        ResultsAre(stepOutcome);
        if stepOutcome.Some? {
          if stepOutcome.value == Threw {
            host.OnError();
          }
          isRunning := false;
          return stepOutcome.value, next.trace;
        }
        s := next;
      }
      RunUnfolds(scripts, s);
      var content := if s.step >= maxSteps then "Task couldn't be completed" else s.lastResult;
      var result := host.CompleteAgentTurn(RunResult(content, MaxSteps, s.step, Some(s.Meta())));
      isRunning := false;
      return Returned(result), s.trace;
    }

    // ----- where and why a run ends -----

    /** The state at the head of iteration `k`, if the run comes to it. */
    ghost function StateAt(scripts: nat -> StepScript, k: nat): Option<RunState> {
      if k == 0 then Some(First())
      else
        var s :- StateAt(scripts, k - 1);
        var end := StepOf(scripts(k - 1), s);
        if k - 1 >= maxSteps || end.outcome.Some? then None else Some(end.state)
    }

    /** Iteration `k` ends the run. */
    ghost predicate EndsIn(scripts: nat -> StepScript, k: nat) {
      StateAt(scripts, k).Some? && k < maxSteps && StepOf(scripts(k), StateAt(scripts, k).value).outcome.Some?
    }

    lemma {:induction false} RunFromState(scripts: nat -> StepScript, k: nat)
      requires StateAt(scripts, k).Some?
      ensures var s := StateAt(scripts, k).value;
              && AtHead(s, maxTokensLimit, CallsPerTurn()) && s.step == k <= Max(0, maxSteps)
              && Run(scripts) == RunFrom(scripts, s)
    {
      hide StepOf, RunFrom, AtHead;
      RunStarts(scripts);
      if k > 0 {
        RunFromState(scripts, k - 1);
        RunUnfolds(scripts, StateAt(scripts, k - 1).value);
      }
    }

    /** The run ends with the first iteration that has an outcome, and at the step limit exactly when none has. */
    lemma RunEndsIff(scripts: nat -> StepScript)
      ensures forall k: nat :: EndsIn(scripts, k) ==>
                var end := StepOf(scripts(k), StateAt(scripts, k).value);
                Run(scripts) == RunEnd(end.outcome.value, end.state)
      ensures (forall k: nat :: !EndsIn(scripts, k)) <==> StateAt(scripts, Max(0, maxSteps)).Some?
      ensures StateAt(scripts, Max(0, maxSteps)).Some? ==>
                var s := StateAt(scripts, Max(0, maxSteps)).value;
                Run(scripts)
                == RunEnd(Returned(RunResult("Task couldn't be completed", MaxSteps, Max(0, maxSteps), Some(s.Meta()))), s)
    {
      hide StepOf, RunFrom, AtHead, StateAt;
      forall k: nat | EndsIn(scripts, k)
        ensures var end := StepOf(scripts(k), StateAt(scripts, k).value);
                Run(scripts) == RunEnd(end.outcome.value, end.state)
        ensures StateAt(scripts, Max(0, maxSteps)) == None
      {
        RunFromState(scripts, k);
        RunUnfolds(scripts, StateAt(scripts, k).value);
        NotBeyond(scripts, k, Max(0, maxSteps));
      }
      if StateAt(scripts, Max(0, maxSteps)).Some? {
        RunFromState(scripts, Max(0, maxSteps));
        RunUnfolds(scripts, StateAt(scripts, Max(0, maxSteps)).value);
      } else {
        var k := EndFound(scripts, Max(0, maxSteps));
      }
    }

    lemma {:induction false} NotBeyond(scripts: nat -> StepScript, k: nat, n: nat)
      requires EndsIn(scripts, k) && k < n
      ensures StateAt(scripts, n) == None
    {
      hide StepOf;
      if k < n - 1 {
        NotBeyond(scripts, k, n - 1);
      }
    }

    lemma {:induction false} EndFound(scripts: nat -> StepScript, n: nat) returns (k: nat)
      requires StateAt(scripts, n) == None && n <= Max(0, maxSteps)
      ensures EndsIn(scripts, k)
    {
      hide StepOf;
      if StateAt(scripts, n - 1) == None {
        k := EndFound(scripts, n - 1);
      } else {
        k := n - 1;
      }
    }

    // ----- why a run ends, and what it returns -----

    /** Iteration `k` is begun. */
    ghost predicate Comes(scripts: nat -> StepScript, k: nat) {
      StateAt(scripts, k).Some? && k < maxSteps
    }

    /** The provider's part of iteration `k`, as far as it is come to. */
    ghost function TurnAt(scripts: nat -> StepScript, k: nat): AttemptOutcome
      requires StateAt(scripts, k).Some?
    {
      TurnOf(scripts(k), StateAt(scripts, k).value)
    }

    /** The answer that the run takes in iteration `k`: it was given, and the response hook let it pass. */
    ghost function TakenAt(scripts: nat -> StepScript, k: nat): Option<Response>
      requires StateAt(scripts, k).Some?
    {
      var script := scripts(k);
      if !Starts(script) || !TurnAt(scripts, k).Responded? || script.responseHookThrows then None
      else Some(TurnAt(scripts, k).response)
    }

    /** The texts of the answers taken before iteration `k`. */
    ghost function Texts(scripts: nat -> StepScript, k: nat): seq<string>
      requires StateAt(scripts, k).Some?
    {
      if k == 0 then []
      else
        var taken := TakenAt(scripts, k - 1);
        Texts(scripts, k - 1) + (if taken.Some? then [taken.value.content] else [])
    }

    /** The answer is an announcement only, of which three in a row are let pass. */
    predicate Announces(r: Response) {
      progressOnlyRecoveryEnabled && r.finishReason == Some("end_turn") && !r.hasToolCalls && r.progressOnlyText
    }

    /** In iteration `k` a tool had a plan approved. */
    ghost predicate PlanApproved(scripts: nat -> StepScript, k: nat)
      requires StateAt(scripts, k).Some?
    {
      TakenAt(scripts, k).Some? && TakenAt(scripts, k).value.hasToolCalls && scripts(k).toolPhase == ToolsCompleted(true)
    }

    /** The answer of iteration `k` is taken with its calls done, if it has any. */
    ghost predicate TakenWithCalls(scripts: nat -> StepScript, k: nat)
      requires StateAt(scripts, k).Some?
    {
      TakenAt(scripts, k).Some? && (TakenAt(scripts, k).value.hasToolCalls ==> scripts(k).toolPhase == ToolsCompleted(false))
    }

    /** Why iteration `k` ends the run with this reason, or with a throw if there is none. */
    ghost predicate Cause(scripts: nat -> StepScript, k: nat, reason: Option<FinishReason>)
      requires StateAt(scripts, k).Some?
    {
      var script, taken := scripts(k), TakenAt(scripts, k);
      match reason
      case None =>
        || script.startHookThrows
        || (Starts(script) && TurnAt(scripts, k) == AttemptThrew)
        || (Starts(script) && TurnAt(scripts, k).Responded? && script.responseHookThrows)
        || (taken.Some? && taken.value.hasToolCalls && script.toolPhase == ToolsThrew)
      case Some(EndTurn) =>
        || PlanApproved(scripts, k)
        || (TakenWithCalls(scripts, k) && taken.value.finishReason == Some("end_turn") && !Announces(taken.value))
      case Some(MaxTokens) =>
        && TakenWithCalls(scripts, k) && taken.value.finishReason == Some("max_tokens")
        && Count(Kinds(scripts, k), CutOffAnswer) == maxTokensLimit
      case Some(ProtocolStall) =>
        TakenWithCalls(scripts, k) && Announces(taken.value) && TrailingProgress(Kinds(scripts, k)) == 3
      case Some(HookBlocked) =>
        || (!script.startHookThrows && script.startBlocked.Some?)
        || (Starts(script) && TurnAt(scripts, k).Terminal? && TurnAt(scripts, k).result.finishReason == HookBlocked)
      case Some(CancelledByUser) =>
        || (!script.startHookThrows && script.startBlocked == None && script.abortedAtStart)
        || (Starts(script) && TurnAt(scripts, k).Terminal? && TurnAt(scripts, k).result.finishReason == CancelledByUser)
        || (taken.Some? && taken.value.hasToolCalls && script.toolPhase == ToolsCancelled)
      case _ => false
    }

    /** The text that iteration `k` returns: the last one that was not empty, unless there is a reason to say something else. */
    ghost predicate Says(scripts: nat -> StepScript, k: nat, result: RunResult)
      requires StateAt(scripts, k).Some?
    {
      var script := scripts(k);
      match result.finishReason
      case EndTurn =>
        if PlanApproved(scripts, k) then result.content == "Plan approved. Execution will continue in a new turn."
        else TakenAt(scripts, k).Some? && IsLastText(Texts(scripts, k) + [TakenAt(scripts, k).value.content], result.content)
      case MaxTokens =>
        TakenAt(scripts, k).Some? && IsLastText(Texts(scripts, k) + [TakenAt(scripts, k).value.content], result.content)
      case ProtocolStall => result.content == "[PROGRESS_ONLY_STALL]"
      case HookBlocked =>
        if script.startBlocked.Some? then result.content == script.startBlocked.value
        else TurnAt(scripts, k).Terminal? && result.content == TurnAt(scripts, k).result.content
      case CancelledByUser => result.content == "Task cancelled by user."
      case _ => false
    }

    /** What an answered step makes of the answer. */
    lemma AnswerStep(script: StepScript, response: Response, s: RunState)
      ensures var end := AfterAnswerOf(script, response, s);
              && (script.responseHookThrows ==> end.state.lastResult == s.lastResult)
              && (!script.responseHookThrows && !(response.hasToolCalls && script.toolPhase == ToolsCompleted(true)) ==>
                    end.state.lastResult == if response.content != "" then response.content else s.lastResult)
              && (end.outcome.Some? && end.outcome.value.Returned? && end.outcome.value.result.finishReason in {EndTurn, MaxTokens} ==>
                    end.outcome.value.result.content == end.state.lastResult)
    {
    }

    lemma StateUnfolds(scripts: nat -> StepScript, k: nat)
      requires k > 0 && StateAt(scripts, k).Some?
      ensures StateAt(scripts, k - 1).Some?
      ensures var end := StepOf(scripts(k - 1), StateAt(scripts, k - 1).value);
              end.outcome == None && end.state == StateAt(scripts, k).value
    {
      hide StepOf;
    }

    /** At every head the text kept is the last one that was not empty. */
    lemma {:induction false} KeepsLastText(scripts: nat -> StepScript, k: nat)
      requires StateAt(scripts, k).Some?
      ensures IsLastText(Texts(scripts, k), StateAt(scripts, k).value.lastResult)
    {
      hide StepOf, StateAt, IsLastText, AfterAnswerOf, TurnOf;
      if k == 0 {
        NoText();
        FirstState(scripts);
      } else {
        StateUnfolds(scripts, k);
        KeepsLastText(scripts, k - 1);
        StepText(scripts, k - 1);
        assert Texts(scripts, k - 1) + [] == Texts(scripts, k - 1);
      }
    }

    lemma FirstState(scripts: nat -> StepScript)
      ensures StateAt(scripts, 0) == Some(First())
    {
    }

    /** What a step does to the text kept. */
    lemma StepText(scripts: nat -> StepScript, k: nat)
      requires StateAt(scripts, k).Some? && IsLastText(Texts(scripts, k), StateAt(scripts, k).value.lastResult)
      ensures var s, end, taken := StateAt(scripts, k).value, StepOf(scripts(k), StateAt(scripts, k).value), TakenAt(scripts, k);
              if taken == None then end.state.lastResult == s.lastResult
              else if PlanApproved(scripts, k) then end.outcome.Some?
              else IsLastText(Texts(scripts, k) + [taken.value.content], end.state.lastResult)
    {
      hide TurnOf, StateAt, IsLastText, Texts, AfterAnswerOf, AfterResponseOf;
      var s := StateAt(scripts, k).value;
      if Starts(scripts(k)) && TurnAt(scripts, k).Responded? {
        var response := TurnAt(scripts, k).response;
        AnswerStep(scripts(k), response, Attempted(scripts(k), s));
        AttemptedText(scripts(k), s);
        MoreText(Texts(scripts, k), s.lastResult, response.content);
        PlanEnds(scripts(k), response, Attempted(scripts(k), s));
      } else {
        AttemptedText(scripts(k), s);
      }
    }

    lemma AttemptedText(script: StepScript, s: RunState)
      ensures Attempted(script, s).lastResult == s.lastResult
    {
      hide TurnTrace, TurnOf;
    }

    lemma PlanEnds(script: StepScript, response: Response, s: RunState)
      ensures !script.responseHookThrows && response.hasToolCalls && script.toolPhase == ToolsCompleted(true) ==>
                AfterAnswerOf(script, response, s).outcome.Some?
    {
    }

    /** The iteration ends the run with this reason, or with a throw if there is none. */
    predicate EndsAs(outcome: RunOutcome, reason: Option<FinishReason>) {
      if reason == None then outcome == Threw
      else outcome.Returned? && outcome.result.finishReason == reason.value
    }

    /** How an answered step ends, and what it returns. */
    lemma AnswerEndsIff(script: StepScript, response: Response, s: RunState, reason: Option<FinishReason>)
      ensures var end := AfterAnswerOf(script, response, s);
              var calls := response.hasToolCalls;
              var taken := !script.responseHookThrows;
              var go := taken && (calls ==> script.toolPhase == ToolsCompleted(false));
              var cause := match reason
                           case None => script.responseHookThrows || (calls && script.toolPhase == ToolsThrew)
                           case Some(EndTurn) =>
                             || (taken && calls && script.toolPhase == ToolsCompleted(true))
                             || (go && response.finishReason == Some("end_turn") && !Announces(response))
                           case Some(MaxTokens) =>
                             go && response.finishReason == Some("max_tokens") && s.attempt >= maxTokensLimit
                           case Some(ProtocolStall) => go && Announces(response) && s.progressStops >= 3
                           case Some(CancelledByUser) => taken && calls && script.toolPhase == ToolsCancelled
                           case _ => false;
              cause <==> end.outcome.Some? && EndsAs(end.outcome.value, reason)
    {
    }

    lemma AnswerSays(script: StepScript, response: Response, s: RunState)
      ensures var outcome := AfterAnswerOf(script, response, s).outcome;
              outcome.Some? && outcome.value.Returned? ==>
                var result := outcome.value.result;
                && (result.finishReason == EndTurn && response.hasToolCalls && script.toolPhase == ToolsCompleted(true) ==>
                      result.content == "Plan approved. Execution will continue in a new turn.")
                && (result.finishReason == ProtocolStall ==> result.content == "[PROGRESS_ONLY_STALL]")
                && (result.finishReason == CancelledByUser ==> result.content == "Task cancelled by user.")
                && result.finishReason in {EndTurn, MaxTokens, ProtocolStall, CancelledByUser}
                && (result.finishReason in {EndTurn, MaxTokens} ==> !script.responseHookThrows)
                && (result.finishReason == MaxTokens ==> response.hasToolCalls ==> script.toolPhase == ToolsCompleted(false))
    {
    }

    lemma ThrewIs(outcome: RunOutcome)
      ensures EndsAs(outcome, None) <==> outcome == Threw
      ensures outcome.Returned? ==> (EndsAs(outcome, Some(MaxSteps)) <==> outcome.result.finishReason == MaxSteps)
    {
    }

    /** A step ends the run with a reason exactly when there is a cause for it. */
    lemma StepEndsIff(scripts: nat -> StepScript, k: nat, reason: Option<FinishReason>)
      requires StateAt(scripts, k).Some?
      ensures var end := StepOf(scripts(k), StateAt(scripts, k).value);
              Cause(scripts, k, reason) <==> end.outcome.Some? && EndsAs(end.outcome.value, reason)
    {
      var script, s := scripts(k), StateAt(scripts, k).value;
      CountersMean(scripts, k);
      RunFromState(scripts, k);
      TurnResult(World(script), s.step, s.Meta(), s.failures, 0, 0);
      hide StateAt, Kinds, TurnOutcome, Count, TrailingProgress, TurnTrace, RunFrom, Consistent, AfterAnswerOf, Announces;
      if Starts(script) && TurnAt(scripts, k).Responded? {
        AnswerEndsIff(script, TurnAt(scripts, k).response, Attempted(script, s), reason);
      }
    }

    /** And then it says what it should. */
    lemma StepSays(scripts: nat -> StepScript, k: nat)
      requires StateAt(scripts, k).Some?
      ensures var outcome := StepOf(scripts(k), StateAt(scripts, k).value).outcome;
              outcome.Some? && outcome.value.Returned? ==> Says(scripts, k, outcome.value.result)
    {
      hide StateAt, TurnOutcome, TurnTrace, AfterAnswerOf, Texts, IsLastText;
      var script, s := scripts(k), StateAt(scripts, k).value;
      KeepsLastText(scripts, k);
      StepText(scripts, k);
      TurnResult(World(script), s.step, s.Meta(), s.failures, 0, 0);
      if Starts(script) && TurnAt(scripts, k).Responded? {
        var response := TurnAt(scripts, k).response;
        AnswerStep(script, response, Attempted(script, s));
        AnswerSays(script, response, Attempted(script, s));
      }
    }

    /** The run ends in iteration `k`, or at the step limit. */
    ghost predicate EndedBy(scripts: nat -> StepScript, k: nat, reason: Option<FinishReason>) {
      Comes(scripts, k) && Cause(scripts, k, reason)
    }

    /**
     * Why a run ends: with a reason exactly when some iteration is come to that has a cause for it, and at
     * the step limit exactly when none has a cause for anything.
     */
    lemma RunEndsWith(scripts: nat -> StepScript, reason: Option<FinishReason>)
      ensures reason != Some(MaxSteps) ==>
                (EndsAs(Run(scripts).outcome, reason) <==> exists k: nat :: EndedBy(scripts, k, reason))
      ensures EndsAs(Run(scripts).outcome, Some(MaxSteps)) <==> StateAt(scripts, Max(0, maxSteps)).Some?
      ensures Run(scripts).outcome.Returned? && Run(scripts).outcome.result.finishReason != MaxSteps ==>
                exists k: nat :: EndedBy(scripts, k, Some(Run(scripts).outcome.result.finishReason))
                                 && Says(scripts, k, Run(scripts).outcome.result)
      ensures EndsAs(Run(scripts).outcome, Some(MaxSteps)) ==>
                Run(scripts).outcome.result.content == "Task couldn't be completed"
    {
      hide StepOf, Run, StateAt, Cause, Says;
      RunEndsIff(scripts);
      var outcome := Run(scripts).outcome;
      forall k: nat | EndedBy(scripts, k, reason) ensures EndsIn(scripts, k) && EndsAs(outcome, reason) {
        StepEndsIff(scripts, k, reason);
      }
      if k: nat :| EndsIn(scripts, k) {
        var r := if outcome == Threw then None else Some(outcome.result.finishReason);
        StepEndsIff(scripts, k, r);
        StepEndsIff(scripts, k, reason);
        StepEndsIff(scripts, k, Some(MaxSteps));
        StepSays(scripts, k);
        NoCauseForLimit(scripts, k);
        assert EndsAs(outcome, reason) ==> EndedBy(scripts, k, reason);
        assert EndsAs(outcome, r) && EndedBy(scripts, k, r);
      }
    }

    // ----- what the run asks of the provider -----

    /** The provider calls of iteration `k`, if it is begun and asks at all. */
    ghost function CallsAt(scripts: nat -> StepScript, k: nat): nat {
      match StateAt(scripts, k)
      case None => 0
      case Some(s) => if Starts(scripts(k)) then TurnTrace(World(scripts(k)), s.step, s.Meta(), s.failures).providerCalls else 0
    }

    ghost function CallsMade(scripts: nat -> StepScript, n: nat): nat {
      if n == 0 then 0 else CallsMade(scripts, n - 1) + CallsAt(scripts, n - 1)
    }

    lemma StepCalls(script: StepScript, s: RunState)
      ensures var calls := if Starts(script) then TurnTrace(World(script), s.step, s.Meta(), s.failures).providerCalls else 0;
              var t := StepOf(script, s).state.trace;
              t.providerCalls == s.trace.providerCalls + calls && |t.heads| == |s.trace.heads| + 1
    {
      hide TurnTrace, TurnOf;
    }

    /** At every head the calls counted are those of the iterations before. */
    lemma {:induction false} CallsAreCounted(scripts: nat -> StepScript, k: nat)
      requires StateAt(scripts, k).Some?
      ensures var t := StateAt(scripts, k).value.trace; t.providerCalls == CallsMade(scripts, k) && |t.heads| == k
    {
      hide StepOf, TurnTrace, Starts;
      if k == 0 {
        FirstState(scripts);
      } else {
        StateUnfolds(scripts, k);
        CallsAreCounted(scripts, k - 1);
        StepCalls(scripts(k - 1), StateAt(scripts, k - 1).value);
      }
    }

    /** And so are those of the whole run. */
    lemma RunCalls(scripts: nat -> StepScript)
      ensures var t := Run(scripts).state.trace; t.providerCalls == CallsMade(scripts, |t.heads|)
    {
      hide StepOf, Run, StateAt, TurnTrace, Starts;
      RunEndsIff(scripts);
      if k: nat :| EndsIn(scripts, k) {
        CallsAreCounted(scripts, k);
        StepCalls(scripts(k), StateAt(scripts, k).value);
      } else {
        CallsAreCounted(scripts, Max(0, maxSteps));
      }
    }

    lemma NoCauseForLimit(scripts: nat -> StepScript, k: nat)
      requires StateAt(scripts, k).Some?
      ensures !Cause(scripts, k, Some(MaxSteps))
    {
    }

    // ----- what the counters count -----

    ghost function KindOf(script: StepScript, s: RunState): StepKind {
      match TurnOf(script, s)
      case RecoveredProtocol => ProtocolReported
      case Responded(response) =>
        if response.finishReason == Some("max_tokens") then CutOffAnswer
        else if progressOnlyRecoveryEnabled && ShouldRecoverProgressOnly(response) then ProgressOnlyAnswer
        else OtherAnswer
      case _ => OtherAnswer
    }

    /** The kinds of the first `k` iterations. */
    ghost function Kinds(scripts: nat -> StepScript, k: nat): seq<StepKind>
      requires StateAt(scripts, k).Some?
    {
      if k == 0 then [] else Kinds(scripts, k - 1) + [KindOf(scripts(k - 1), StateAt(scripts, k - 1).value)]
    }

    /** One step: every counter moves as the kind of the step says. */
    lemma StepCounts(script: StepScript, s: RunState)
      requires StepOf(script, s).outcome == None
      ensures var s', kind := StepOf(script, s).state, KindOf(script, s);
              && s'.attempt == s.attempt + (if kind == CutOffAnswer then 1 else 0)
              && s'.progressStops
                 == (match kind case ProtocolReported => s.progressStops case ProgressOnlyAnswer => s.progressStops + 1 case _ => 0)
              && s'.failures == (if kind == ProtocolReported then s.failures + 1 else 0)
              && s'.trace.continuationPrompts == s.trace.continuationPrompts + (if kind == CutOffAnswer then 1 else 0)
              && s'.trace.progressPrompts == s.trace.progressPrompts + (if kind == ProgressOnlyAnswer then 1 else 0)
              && s'.trace.protocolMessages == s.trace.protocolMessages + (if kind == ProtocolReported then 1 else 0)
              && (kind == ProtocolReported ==> s.failures == 0)
    {
      hide TurnOutcome, TurnTrace;
      TurnKeeps(World(script), s.step, s.Meta(), s.failures);
      TurnResult(World(script), s.step, s.Meta(), s.failures, 0, 0);
    }

    lemma MeantNext(script: StepScript, s: RunState, kinds: seq<StepKind>)
      requires Meant(s, kinds) && StepOf(script, s).outcome == None
      ensures Meant(StepOf(script, s).state, kinds + [KindOf(script, s)])
    {
      hide StepOf, KindOf;
      StepCounts(script, s);
      assert (kinds + [KindOf(script, s)])[..|kinds|] == kinds;
    }

    /**
     * At the head of every iteration the counters mean what they are named for: cut-off answers so far,
     * progress-only answers since the last other answer, and whether the iteration before met a missing result;
     * and the user messages that the recoveries add are one for each such iteration.
     */
    lemma {:induction false} CountersMean(scripts: nat -> StepScript, k: nat)
      requires StateAt(scripts, k).Some?
      ensures Meant(StateAt(scripts, k).value, Kinds(scripts, k))
    {
      hide StepOf, KindOf, Meant;
      if k > 0 {
        CountersMean(scripts, k - 1);
        MeantNext(scripts(k - 1), StateAt(scripts, k - 1).value, Kinds(scripts, k - 1));
      } else {
        MeantFirst();
      }
    }

    lemma MeantFirst()
      ensures Meant(First(), [])
    {
    }
  }

  /** No hook and no cancellation keeps the step from asking the provider. */
  predicate Starts(script: StepScript) {
    !script.startHookThrows && script.startBlocked == None && !script.abortedAtStart
  }

  /** `text` is the last of the texts that is not empty, or empty if they all are. */
  predicate IsLastText(texts: seq<string>, text: string) {
    if text == "" then forall i :: 0 <= i < |texts| ==> texts[i] == ""
    else exists i :: 0 <= i < |texts| && texts[i] == text && forall j :: i < j < |texts| ==> texts[j] == ""
  }

  lemma NoText()
    ensures IsLastText([], "")
  {
  }

  lemma MoreText(texts: seq<string>, text: string, next: string)
    requires IsLastText(texts, text)
    ensures IsLastText(texts + [next], if next != "" then next else text)
  {
    var all := texts + [next];
    if next != "" {
      assert all[|texts|] == next;
    } else if text != "" {
      var i :| 0 <= i < |texts| && texts[i] == text && forall j :: i < j < |texts| ==> texts[j] == "";
      assert all[i] == text;
    }
  }

  /** What an iteration is to the counters. */
  datatype StepKind = ProtocolReported | CutOffAnswer | ProgressOnlyAnswer | OtherAnswer

  function Count(kinds: seq<StepKind>, kind: StepKind): nat {
    if kinds == [] then 0
    else Count(kinds[..|kinds| - 1], kind) + (if kinds[|kinds| - 1] == kind then 1 else 0)
  }

  /** The progress-only answers at the end, reports of missing results not counted. */
  function TrailingProgress(kinds: seq<StepKind>): nat {
    if kinds == [] then 0
    else
      match kinds[|kinds| - 1]
      case ProgressOnlyAnswer => TrailingProgress(kinds[..|kinds| - 1]) + 1
      case ProtocolReported => TrailingProgress(kinds[..|kinds| - 1])
      case _ => 0
  }

  /** The counters and prompts are those that the kinds of the iterations so far give. */
  predicate Meant(s: RunState, kinds: seq<StepKind>) {
    && s.attempt == s.trace.continuationPrompts == Count(kinds, CutOffAnswer)
    && s.trace.progressPrompts == Count(kinds, ProgressOnlyAnswer)
    && s.trace.protocolMessages == Count(kinds, ProtocolReported)
    && s.progressStops == TrailingProgress(kinds)
    && s.failures == (if kinds != [] && kinds[|kinds| - 1] == ProtocolReported then 1 else 0)
  }

  /** The end of one iteration: the run's outcome, or none when it goes on from the new state. */
  datatype StepEnd = StepEnd(outcome: Option<RunOutcome>, state: RunState)

  datatype RunEnd = RunEnd(outcome: RunOutcome, state: RunState)

  function Finishes(result: RunResult, s: RunState): StepEnd {
    StepEnd(Some(Returned(result)), s)
  }

  function GoesOnWith(s: RunState): StepEnd {
    StepEnd(None, s.(step := s.step + 1))
  }

  /** The results that the completion callback is told of. */
  function ResultsOf(outcome: Option<RunOutcome>): seq<RunResult> {
    if outcome.Some? && outcome.value.Returned? then [outcome.value.result] else []
  }

  lemma ResultsAre(outcome: Option<RunOutcome>)
    ensures ResultsOf(outcome) == if outcome.Some? && outcome.value.Returned? then [outcome.value.result] else []
  {
  }

  function HeadOf(s: RunState): LoopHead {
    LoopHead(s.failures, s.progressStops, s.attempt)
  }

  /** The state with the head of an iteration recorded. */
  function Begun(s: RunState): RunState {
    s.(trace := s.trace.(heads := s.trace.heads + [HeadOf(s)]))
  }

  function NoTrace(): RunTrace {
    RunTrace([], 0, [], 0, 0, 0)
  }

  function First(): RunState {
    RunState(0, "", 0, 0, 0, false, NoTrace())
  }

  function FinalMeta(trace: RunTrace, limit: nat): RecoveryMeta {
    RecoveryMeta(|trace.maxTokensEvents| >= 1 && limit >= 1, |trace.maxTokensEvents|, trace.maxTokensEvents)
  }

  /** How a result returned from within a step relates to the state around it. */
  ghost predicate StepResult(r: RunResult, s: RunState, s': RunState, limit: nat) {
    && r.finishReason != MaxSteps
    && (r.finishReason == CancelledByUser ==> r.step == s.step)
    && (r.finishReason != CancelledByUser ==> r.step == s.step + 1)
    && (r.meta == None ==> r.finishReason == HookBlocked)
    && (r.meta.Some? ==> r.meta.value == s'.Meta())
    && (r.finishReason == MaxTokens ==> s'.attempt == limit + 1)
  }

  lemma HeadRecorded(s: RunState, head: LoopHead, limit: nat, callsPerTurn: nat)
    requires AtHead(s, limit, callsPerTurn) && head == LoopHead(s.failures, s.progressStops, s.attempt)
    ensures Consistent(s.(trace := s.trace.(heads := s.trace.heads + [head])), limit, callsPerTurn)
  {
    assert (|s.trace.heads| + 1) * callsPerTurn == |s.trace.heads| * callsPerTurn + callsPerTurn;
  }

  function AfterAttempts(s: RunState, head: LoopHead, t: AttemptTrace, failures: nat): RunState {
    s.(failures := failures,
       trace := s.trace.(heads := s.trace.heads + [head],
                         providerCalls := s.trace.providerCalls + t.providerCalls,
                         protocolMessages := s.trace.protocolMessages + t.protocolMessages))
  }

  lemma CallsCounted(
    world: AttemptWorld, s: RunState, head: LoopHead, t: AttemptTrace, failures: nat, limit: nat, callsPerTurn: nat)
    requires AtHead(s, limit, callsPerTurn) && head == LoopHead(s.failures, s.progressStops, s.attempt)
    requires TraceOk(world, t) && |t.attempts| <= callsPerTurn && t.protocolMessages <= 1
    ensures Consistent(AfterAttempts(s, head, t, failures), limit, callsPerTurn)
  {
    assert (|s.trace.heads| + 1) * callsPerTurn == |s.trace.heads| * callsPerTurn + callsPerTurn;
  }

  lemma StepAdvanced(s: RunState, limit: nat, callsPerTurn: nat)
    requires Consistent(s, limit, callsPerTurn)
    ensures Consistent(s.(step := s.step + 1), limit, callsPerTurn)
  {
  }

  lemma NothingDone(maxSteps: int, callsPerTurn: nat, limit: nat)
    ensures 0 <= Max(0, maxSteps) && 0 <= Max(0, maxSteps) * callsPerTurn && NoTrace() == RunTrace([], 0, [], 0, 0, 0)
    ensures MaxTokensEvents(0, limit) == [] && Min(0, limit) == 0
  {
  }

  lemma ConsistentTrace(s: RunState, maxSteps: int, limit: nat, callsPerTurn: nat)
    requires Consistent(s, limit, callsPerTurn) && |s.trace.heads| <= Max(0, maxSteps)
    ensures s.Meta() == FinalMeta(s.trace, limit)
    ensures |s.trace.heads| * callsPerTurn <= Max(0, maxSteps) * callsPerTurn
  {
  }

  /** What the event list says: numbered in order, and every event but one past the limit recovered. */
  lemma {:induction false} EventsNumbered(n: nat, limit: nat, i: nat)
    requires i < n
    ensures MaxTokensEvents(n, limit)[i] == MaxTokensEvent(i + 1, i < limit)
  {
    if i < n - 1 {
      EventsNumbered(n - 1, limit, i);
    }
  }
}
