/**
 * The recovery decisions of a turn (src/agent/TurnRecoveryPolicy.ts), the one way a run
 * completes (src/agent/AgentTurnCompletionService.ts), and the loop that keeps asking the
 * provider until it answers, gives up, or the turn ends (src/agent/AgentLlmAttemptService.ts).
 */
module LlmAttempts {
  import opened Messages
  import opened Numbers

  // ----- decisions -----

  const PROTOCOL_FAILURE_ESCALATE_AFTER := 2
  const PROGRESS_ONLY_MAX_ATTEMPTS := 3
  const TRANSPORT_RETRY_MAX_ATTEMPTS := 2

  /** How the provider's error text is classified; one text can match several classes. */
  datatype ProviderError = ProviderError(toolResultIdNotFound: bool, contextWindowExceeded: bool, retriableTransport: bool)

  datatype ProtocolDecision = ProtocolDecision(escalate: bool, nextCount: nat)

  function DecideToolCallProtocolRecovery(consecutiveFailureCount: nat): ProtocolDecision {
    ProtocolDecision(
      consecutiveFailureCount + 1 >= PROTOCOL_FAILURE_ESCALATE_AFTER, consecutiveFailureCount + 1)
  }

  predicate ShouldRetryTransport(streamedVisibleOutput: bool, error: ProviderError, transportRetryCount: nat) {
    !streamedVisibleOutput && error.retriableTransport && transportRetryCount < TRANSPORT_RETRY_MAX_ATTEMPTS
  }

  datatype OverflowDecision = RetryWithForcedCompress | RetryWithForcedTrim | Abort

  function DecideContextOverflowRecovery(overflowCountInTurn: nat, maxErrorsBeforeTrim: int): OverflowDecision {
    var maxBeforeTrim := Max(1, maxErrorsBeforeTrim);
    if overflowCountInTurn < maxBeforeTrim then RetryWithForcedCompress
    else if overflowCountInTurn == maxBeforeTrim then RetryWithForcedTrim
    else Abort
  }

  datatype ProgressDecision = ProgressDecision(stall: bool, nextCount: nat)

  function DecideProgressOnlyRecovery(consecutiveStopCount: nat): ProgressDecision {
    ProgressDecision(consecutiveStopCount + 1 > PROGRESS_ONLY_MAX_ATTEMPTS, consecutiveStopCount + 1)
  }

  // ----- completion -----

  datatype FinishReason = EndTurn | MaxTokens | HookBlocked | CancelledByUser | ProtocolStall | MaxSteps | Unset

  datatype MaxTokensEvent = MaxTokensEvent(attempt: nat, recovered: bool)

  /** The recovery state a completion reports; a blocked turn reports none. */
  datatype RecoveryMeta = RecoveryMeta(recoveredFromMaxTokens: bool, maxTokensRecoveryAttempt: nat, maxTokensEvents: seq<MaxTokensEvent>)

  datatype RunResult = RunResult(content: string, finishReason: FinishReason, step: int, meta: Option<RecoveryMeta>)

  /** Who is told about the end of a run: completions in order, and the number of errors. */
  class CompletionHost {
    var completions: seq<RunResult>
    var errors: nat

    constructor ()
      ensures completions == [] && errors == 0
    {
      completions, errors := [], 0;
    }

    /** The completion callback fires once with what the caller gets back. */
    method CompleteAgentTurn(input: RunResult) returns (r: RunResult)
      modifies `completions
      ensures completions == old(completions) + [input] && r == input
    {
      completions := completions + [input];
      r := input;
    }

    method CompleteCancelledRun(step: int, meta: RecoveryMeta) returns (r: RunResult)
      modifies `completions
      ensures r == RunResult("Task cancelled by user.", CancelledByUser, step, Some(meta))
      ensures completions == old(completions) + [r]
    {
      r := CompleteAgentTurn(RunResult("Task cancelled by user.", CancelledByUser, step, Some(meta)));
    }

    method OnError()
      modifies `errors
      ensures errors == old(errors) + 1
    {
      errors := errors + 1;
    }
  }

  // ----- one turn's attempts -----

  datatype Response = Response(content: string, finishReason: Option<string>, hasToolCalls: bool, progressOnlyText: bool)

  /** What one attempt meets: the input hook, then the provider. */
  datatype AttemptEvent =
    | InputBlocked(message: string)
    | InputHookThrew(error: ProviderError, aborted: bool)
    | Answered(response: Response)
    | ProviderThrew(error: ProviderError, streamedVisibleOutput: bool, aborted: bool)

  datatype SnapshotStage = Initial | AfterCompress | AfterForcedTrim

  datatype PrepareMode = LightMode | AggressiveMode | DisabledMode

  datatype PrepareRequest = PrepareRequest(mode: PrepareMode, force: bool, keepLlmRounds: Option<int>)

  /** The settings of the loop and the outside world: attempt events and failing preparations. */
  datatype AttemptWorld = AttemptWorld(
    maxErrorsBeforeTrim: int,
    keepLlmRounds: int,
    aggressiveKeepCap: int,
    event: nat -> AttemptEvent,
    preparationThrows: nat -> bool)
  {
    function Limit(): nat {
      Max(1, maxErrorsBeforeTrim)
    }

    function AggressiveRequest(): PrepareRequest {
      PrepareRequest(AggressiveMode, true, Some(Max(1, Min(keepLlmRounds, aggressiveKeepCap))))
    }
  }

  /** One attempt as it was made, with the overflows seen before it. */
  datatype AttemptRecord = AttemptRecord(stage: SnapshotStage, forcedTrim: bool, overflows: nat)

  /** Everything the loop did. */
  datatype AttemptTrace = AttemptTrace(
    attempts: seq<AttemptRecord>,
    providerCalls: nat,
    requests: seq<PrepareRequest>,
    decisions: seq<OverflowDecision>,
    transportRetries: nat,
    protocolMessages: nat,
    interruptedSaves: nat)

  datatype AttemptOutcome =
    | Terminal(result: RunResult)
    | Responded(response: Response)
    | RecoveredProtocol
    | AttemptThrew

  /** The ladder of overflow decisions: compress until the limit, then trim once, then abort. */
  function LadderStep(limit: nat, i: nat): OverflowDecision {
    if i + 1 < limit then RetryWithForcedCompress else if i + 1 == limit then RetryWithForcedTrim else Abort
  }

  function StageAfter(limit: nat, overflows: nat): SnapshotStage {
    if overflows == 0 then Initial else if overflows < limit then AfterCompress else AfterForcedTrim
  }

  predicate OnLadder(limit: nat, decisions: seq<OverflowDecision>) {
    |decisions| <= limit + 1 && forall i :: 0 <= i < |decisions| ==> decisions[i] == LadderStep(limit, i)
  }

  /** Stages only advance, and the forced-trim options hold exactly from the trim on. */
  predicate StagesAdvance(limit: nat, attempts: seq<AttemptRecord>) {
    && (forall k :: 0 <= k < |attempts| ==>
          && attempts[k].overflows <= limit
          && attempts[k].stage == StageAfter(limit, attempts[k].overflows)
          && (attempts[k].forcedTrim <==> attempts[k].overflows == limit))
    && (|attempts| > 0 ==> attempts[0].overflows == 0)
    && forall k :: 0 < k < |attempts| ==> attempts[k - 1].overflows <= attempts[k].overflows <= attempts[k - 1].overflows + 1
  }

  /** Only the first preparation may compress lightly; later ones do so only when forced. */
  predicate RequestsDecided(world: AttemptWorld, requests: seq<PrepareRequest>) {
    && (requests != [] ==> requests[0] == PrepareRequest(LightMode, false, None))
    && forall k :: 0 < k < |requests| ==>
         requests[k] == PrepareRequest(DisabledMode, false, None) || requests[k] == world.AggressiveRequest()
  }

  ghost predicate TraceOk(world: AttemptWorld, t: AttemptTrace) {
    && OnLadder(world.Limit(), t.decisions)
    && StagesAdvance(world.Limit(), t.attempts)
    && RequestsDecided(world, t.requests)
    && t.providerCalls <= |t.attempts|
    && t.transportRetries <= TRANSPORT_RETRY_MAX_ATTEMPTS
  }

  function Rank(stage: SnapshotStage): nat {
    match stage case Initial => 0 case AfterCompress => 1 case AfterForcedTrim => 2
  }

  /** Over a whole turn the stage never moves back, and the forced-trim options are never given up. */
  lemma {:induction false} StagesNeverGoBack(limit: nat, attempts: seq<AttemptRecord>, j: nat, k: nat)
    requires limit > 0 && StagesAdvance(limit, attempts) && j <= k < |attempts|
    ensures Rank(attempts[j].stage) <= Rank(attempts[k].stage)
    ensures attempts[j].forcedTrim ==> attempts[k].forcedTrim
    decreases k - j
  {
    if j < k {
      StagesNeverGoBack(limit, attempts, j + 1, k);
    }
  }

  /** The variables of the loop. */
  datatype LoopState = LoopState(t: AttemptTrace, stage: SnapshotStage, forcedTrim: bool, prepared: bool, mode: PrepareMode)

  /** Between attempts: every attempt so far ended in an overflow or a transport retry. */
  ghost predicate Underway(world: AttemptWorld, s: LoopState) {
    && TraceOk(world, s.t)
    && |s.t.decisions| <= world.Limit()
    && |s.t.attempts| == |s.t.decisions| + s.t.transportRetries
    && s.stage == StageAfter(world.Limit(), |s.t.decisions|)
    && (s.forcedTrim <==> |s.t.decisions| == world.Limit())
    && (if s.t.attempts == [] then s.t.requests == [] && s.mode == LightMode && !s.prepared
        else
          && s.t.requests != [] && s.mode == DisabledMode
          && var last := s.t.attempts[|s.t.attempts| - 1].overflows; last <= |s.t.decisions| <= last + 1)
    && s.t.protocolMessages == 0 && s.t.interruptedSaves == 0
  }

  /** Right after an attempt was made and before its outcome is known. */
  ghost predicate Attempted(world: AttemptWorld, s: LoopState) {
    && TraceOk(world, s.t)
    && |s.t.attempts| == |s.t.decisions| + s.t.transportRetries + 1
    && s.t.attempts[|s.t.attempts| - 1].overflows == |s.t.decisions| <= world.Limit()
    && s.stage == StageAfter(world.Limit(), |s.t.decisions|)
    && (s.forcedTrim <==> |s.t.decisions| == world.Limit())
    && s.t.requests != [] && s.mode == DisabledMode && !s.prepared
    && s.t.protocolMessages == 0 && s.t.interruptedSaves == 0
  }

  function Requested(s: LoopState, request: PrepareRequest): LoopState {
    s.(t := s.t.(requests := s.t.requests + [request]), prepared := true)
  }

  /** With the preparation asked for, unless it was made ahead. */
  function Asked(s: LoopState): LoopState {
    if s.prepared then s else Requested(s, PrepareRequest(s.mode, false, None))
  }

  function Attempting(s: LoopState, calls: nat): LoopState {
    s.(t := s.t.(attempts := s.t.attempts + [AttemptRecord(s.stage, s.forcedTrim, |s.t.decisions|)],
                 providerCalls := s.t.providerCalls + calls),
       prepared := false,
       mode := DisabledMode)
  }

  lemma RequestRecorded(world: AttemptWorld, s: LoopState)
    requires Underway(world, s)
    ensures RequestsDecided(world, s.t.requests + [PrepareRequest(s.mode, false, None)])
    ensures TraceOk(world, Requested(s, PrepareRequest(s.mode, false, None)).t)
  {
  }

  lemma StageAppended(limit: nat, attempts: seq<AttemptRecord>, next: AttemptRecord)
    requires StagesAdvance(limit, attempts) && next.overflows <= limit
    requires next.stage == StageAfter(limit, next.overflows) && (next.forcedTrim <==> next.overflows == limit)
    requires if attempts == [] then next.overflows == 0
             else var last := attempts[|attempts| - 1].overflows; last <= next.overflows <= last + 1
    ensures StagesAdvance(limit, attempts + [next])
  {
  }

  lemma AttemptRecorded(world: AttemptWorld, s: LoopState, calls: nat)
    requires Underway(world, s) && calls <= 1
    ensures var asked := Asked(s);
            Attempted(world, Attempting(asked, calls))
  {
    hide OnLadder, RequestsDecided, StagesAdvance, StageAfter;
    if !s.prepared {
      RequestRecorded(world, s);
    }
    StageAppended(world.Limit(), s.t.attempts, AttemptRecord(s.stage, s.forcedTrim, |s.t.decisions|));
  }

  lemma TransportRetried(world: AttemptWorld, s: LoopState)
    requires Attempted(world, s) && s.t.transportRetries < TRANSPORT_RETRY_MAX_ATTEMPTS
    ensures Underway(world, s.(t := s.t.(transportRetries := s.t.transportRetries + 1)))
  {
    hide OnLadder, RequestsDecided, StagesAdvance;
  }

  /** The state after an overflow: the decision, the forced preparation, and the new stage. */
  function AfterOverflow(world: AttemptWorld, s: LoopState, decision: OverflowDecision): LoopState {
    var t := s.t.(decisions := s.t.decisions + [decision]);
    match decision
    case RetryWithForcedCompress =>
      Requested(s.(t := t, stage := AfterCompress, forcedTrim := false), world.AggressiveRequest())
    case RetryWithForcedTrim =>
      Requested(s.(t := t, stage := AfterForcedTrim, forcedTrim := true), PrepareRequest(DisabledMode, false, None))
    case Abort => s.(t := t)
  }

  lemma OverflowRecorded(world: AttemptWorld, s: LoopState)
    requires Attempted(world, s)
    ensures var decision := DecideContextOverflowRecovery(|s.t.decisions| + 1, world.maxErrorsBeforeTrim);
            && decision == LadderStep(world.Limit(), |s.t.decisions|)
            && TraceOk(world, AfterOverflow(world, s, decision).t)
            && (decision != Abort ==> Underway(world, AfterOverflow(world, s, decision)))
            && (decision == Abort <==> |s.t.decisions| == world.Limit())
  {
    hide StagesAdvance;
  }

  lemma AttemptBound(world: AttemptWorld, s: LoopState)
    requires Underway(world, s)
    ensures |s.t.attempts| <= world.Limit() + TRANSPORT_RETRY_MAX_ATTEMPTS
  {
  }

  // ----- what one attempt leads to -----

  /** The verdict on an attempt: the turn's outcome, or nothing when the loop goes on. */
  type Verdict = Option<AttemptOutcome>

  /** The end of one pass: the verdict, the loop's variables, and the consecutive protocol failures. */
  datatype Pass = Pass(verdict: Verdict, state: LoopState, failures: nat)

  /** A failed attempt: the error, whether output was already shown, and whether the run was cancelled meanwhile. */
  datatype Failure = Failure(error: ProviderError, streamedVisibleOutput: bool, aborted: bool)

  function Cancelled(step: int, meta: RecoveryMeta): RunResult {
    RunResult("Task cancelled by user.", CancelledByUser, step, Some(meta))
  }

  function Blocked(message: string, step: int): RunResult {
    RunResult(message, HookBlocked, step + 1, None)
  }

  /** The failure lets the loop go on with so many overflows and retries behind it, unless a preparation throws. */
  predicate GoesOn(world: AttemptWorld, failure: Failure, overflows: nat, retries: nat) {
    && !failure.aborted && !failure.error.toolResultIdNotFound
    && (if failure.error.contextWindowExceeded then overflows < world.Limit()
        else ShouldRetryTransport(failure.streamedVisibleOutput, failure.error, retries))
  }

  /** How the turn ends with a failure that does not let it go on. */
  function Ending(failure: Failure, step: int, meta: RecoveryMeta, failures: nat): AttemptOutcome {
    if failure.aborted then Terminal(Cancelled(step, meta))
    else if failure.error.toolResultIdNotFound && failures + 1 < PROTOCOL_FAILURE_ESCALATE_AFTER then RecoveredProtocol
    else AttemptThrew
  }

  /** What the failure adds to the trace. */
  function Charged(world: AttemptWorld, failure: Failure, s: LoopState): LoopState {
    if failure.aborted then s
    else if failure.error.toolResultIdNotFound then s.(t := s.t.(protocolMessages := s.t.protocolMessages + 1))
    else if failure.error.contextWindowExceeded then AfterOverflow(world, s, LadderStep(world.Limit(), |s.t.decisions|))
    else if ShouldRetryTransport(failure.streamedVisibleOutput, failure.error, s.t.transportRetries) then
      s.(t := s.t.(transportRetries := s.t.transportRetries + 1))
    else if failure.streamedVisibleOutput && failure.error.retriableTransport then
      s.(t := s.t.(interruptedSaves := s.t.interruptedSaves + 1))
    else s
  }

  function AfterFailure(world: AttemptWorld, failure: Failure, step: int, meta: RecoveryMeta, failures: nat, s: LoopState): Pass {
    var goesOn := GoesOn(world, failure, |s.t.decisions|, s.t.transportRetries)
                  && !(failure.error.contextWindowExceeded && world.preparationThrows(|s.t.requests|));
    Pass(
      if goesOn then None else Some(Ending(failure, step, meta, failures)),
      Charged(world, failure, s),
      if !failure.aborted && failure.error.toolResultIdNotFound then failures + 1 else failures)
  }

  /** What becomes of a failed attempt, told by the error and by what was counted before it. */
  ghost predicate IsJudged(world: AttemptWorld, failure: Failure, failures: nat, s: LoopState, verdict: Verdict, s': LoopState,
                           failures': nat)
  {
    var error, visible := failure.error, failure.streamedVisibleOutput;
    if failure.aborted then
      && verdict.Some? && verdict.value.Terminal? && verdict.value.result.finishReason == CancelledByUser
      && s' == s && failures' == failures
    else if error.toolResultIdNotFound then
      && verdict == Some(if failures == 0 then RecoveredProtocol else AttemptThrew) && failures' == failures + 1
      && s'.t.protocolMessages == s.t.protocolMessages + 1 && s'.t.interruptedSaves == s.t.interruptedSaves
    else
      && failures' == failures && s'.t.protocolMessages == s.t.protocolMessages
      && (verdict == None || verdict == Some(AttemptThrew))
      && if error.contextWindowExceeded then
           && (verdict == None <==> |s.t.decisions| < Max(1, world.maxErrorsBeforeTrim) && !world.preparationThrows(|s.t.requests|))
           && |s'.t.decisions| == |s.t.decisions| + 1 && s'.t.transportRetries == s.t.transportRetries
           && s'.t.interruptedSaves == s.t.interruptedSaves
         else
           && (verdict == None <==> !visible && error.retriableTransport && s.t.transportRetries < 2)
           && s'.t.decisions == s.t.decisions && s'.t.transportRetries == s.t.transportRetries + (if verdict == None then 1 else 0)
           && s'.t.interruptedSaves == s.t.interruptedSaves + if visible && error.retriableTransport then 1 else 0
  }

  lemma FailureIsJudged(world: AttemptWorld, failure: Failure, step: int, meta: RecoveryMeta, failures: nat, s: LoopState)
    requires |s.t.decisions| <= world.Limit()
    ensures var pass := AfterFailure(world, failure, step, meta, failures, s);
            IsJudged(world, failure, failures, s, pass.verdict, pass.state, pass.failures)
  {
  }

  /**
   * Classifies an error in the code's order: cancelled run, missing tool result, context
   * overflow, transport. Only an overflow below the limit whose forced preparation succeeds, or an early
   * transport failure, lets the loop go on.
   */
  method HandleLlmAttemptError(
    host: CompletionHost, world: AttemptWorld, error: ProviderError, streamedVisibleOutput: bool, aborted: bool,
    step: int, meta: RecoveryMeta, failures: nat, s: LoopState)
    returns (verdict: Verdict, s': LoopState, failures': nat)
    requires |s.t.decisions| <= world.Limit()
    modifies host`completions
    ensures Pass(verdict, s', failures')
            == AfterFailure(world, Failure(error, streamedVisibleOutput, aborted), step, meta, failures, s)
    ensures host.completions == old(host.completions) + if aborted then [Cancelled(step, meta)] else []
    ensures IsJudged(world, Failure(error, streamedVisibleOutput, aborted), failures, s, verdict, s', failures')
  {
    hide IsJudged;
    FailureIsJudged(world, Failure(error, streamedVisibleOutput, aborted), step, meta, failures, s);
    s', failures' := s, failures;
    if aborted {
      var result := host.CompleteCancelledRun(step, meta);
      return Some(Terminal(result)), s', failures';
    }
    if error.toolResultIdNotFound {
      var decision := DecideToolCallProtocolRecovery(failures);
      s' := s.(t := s.t.(protocolMessages := s.t.protocolMessages + 1));
      return if decision.escalate then Some(AttemptThrew) else Some(RecoveredProtocol), s', decision.nextCount;
    }
    if !error.contextWindowExceeded {
      if ShouldRetryTransport(streamedVisibleOutput, error, s.t.transportRetries) {
        s' := s.(t := s.t.(transportRetries := s.t.transportRetries + 1));
        return None, s', failures';
      }
      if streamedVisibleOutput && error.retriableTransport {
        s' := s.(t := s.t.(interruptedSaves := s.t.interruptedSaves + 1));
      }
      return Some(AttemptThrew), s', failures';
    }
    var decision := DecideContextOverflowRecovery(|s.t.decisions| + 1, world.maxErrorsBeforeTrim);
    s' := AfterOverflow(world, s, decision);
    if decision == Abort || world.preparationThrows(|s'.t.requests| - 1) {
      return Some(AttemptThrew), s', failures';
    }
    return None, s', failures';
  }

  function FailureOf(event: AttemptEvent): Failure
    requires event.InputHookThrew? || event.ProviderThrew?
  {
    match event
    case InputHookThrew(error, aborted) => Failure(error, false, aborted)
    case ProviderThrew(error, visible, aborted) => Failure(error, visible, aborted)
  }

  /** One pass of the loop: the preparation unless that was done, then the input hook and the provider. */
  function Once(world: AttemptWorld, step: int, meta: RecoveryMeta, failures: nat, s: LoopState): Pass {
    var asked := Asked(s);
    if !s.prepared && world.preparationThrows(|s.t.requests|) then Pass(Some(AttemptThrew), asked, failures)
    else
      var event := world.event(|s.t.attempts|);
      var made := Attempting(asked, if event.Answered? || event.ProviderThrew? then 1 else 0);
      match event
      case InputBlocked(message) => Pass(Some(Terminal(Blocked(message, step))), made, failures)
      case Answered(response) => Pass(Some(Responded(response)), made, 0)
      case _ => AfterFailure(world, FailureOf(event), step, meta, failures, made)
  }

  method AttemptOnce(host: CompletionHost, world: AttemptWorld, step: int, meta: RecoveryMeta, failures: nat, s: LoopState)
    returns (verdict: Verdict, s': LoopState, failures': nat)
    requires |s.t.decisions| <= world.Limit()
    modifies host`completions
    ensures Pass(verdict, s', failures') == Once(world, step, meta, failures, s)
    ensures host.completions == old(host.completions)
                                + if verdict.Some? && verdict.value.Terminal? then [verdict.value.result] else []
  {
    s', failures' := s, failures;
    if !s.prepared {
      var request := PrepareRequest(s.mode, false, None);
      s' := Requested(s, request);
      if world.preparationThrows(|s'.t.requests| - 1) {
        return Some(AttemptThrew), s', failures';
      }
    }
    var at := |s'.t.attempts|;
    var event := world.event(at);
    s' := Attempting(s', if event.Answered? || event.ProviderThrew? then 1 else 0);
    match event {
      case InputBlocked(message) =>
        var result := host.CompleteAgentTurn(RunResult(message, HookBlocked, step + 1, None));
        return Some(Terminal(result)), s', failures';
      case Answered(response) =>
        return Some(Responded(response)), s', 0;
      case InputHookThrew(error, aborted) =>
        verdict, s', failures' := HandleLlmAttemptError(host, world, error, false, aborted, step, meta, failures, s');
      case ProviderThrew(error, visible, aborted) =>
        verdict, s', failures' := HandleLlmAttemptError(host, world, error, visible, aborted, step, meta, failures, s');
    }
  }

  /** What every pass keeps, and what it adds. */
  lemma OnceKeeps(world: AttemptWorld, step: int, meta: RecoveryMeta, failures: nat, s: LoopState)
    requires Underway(world, s)
    ensures var p := Once(world, step, meta, failures, s);
            && TraceOk(world, p.state.t) && p.state.t.protocolMessages <= 1
            && |s.t.attempts| <= |p.state.t.attempts| <= |s.t.attempts| + 1
            && (p.verdict == None ==> Underway(world, p.state) && |p.state.t.attempts| == |s.t.attempts| + 1)
            && (|p.state.t.decisions| > world.Limit() ==> p.verdict == Some(AttemptThrew))
  {
    hide Attempted, Underway, TraceOk, AfterFailure;
    UnderwayFacts(world, s);
    if !s.prepared {
      RequestRecorded(world, s);
    }
    if s.prepared || !world.preparationThrows(|s.t.requests|) {
      var event := world.event(|s.t.attempts|);
      var calls := if event.Answered? || event.ProviderThrew? then 1 else 0;
      var asked := Asked(s);
      AttemptRecorded(world, s, calls);
      AttemptedFacts(world, Attempting(asked, calls));
      if event.InputHookThrew? || event.ProviderThrew? {
        FailureKeeps(world, FailureOf(event), step, meta, failures, Attempting(asked, calls));
      }
    }
  }

  lemma FailureKeeps(world: AttemptWorld, failure: Failure, step: int, meta: RecoveryMeta, failures: nat, s: LoopState)
    requires Attempted(world, s)
    ensures var p := AfterFailure(world, failure, step, meta, failures, s);
            && TraceOk(world, p.state.t) && p.state.t.protocolMessages <= 1 && p.state.t.attempts == s.t.attempts
            && (p.verdict == None ==> Underway(world, p.state))
            && (|p.state.t.decisions| > world.Limit() ==> p.verdict == Some(AttemptThrew))
  {
    hide Attempted, Underway, TraceOk;
    AttemptedFacts(world, s);
    var s' := Charged(world, failure, s);
    if failure.aborted {
    } else if failure.error.toolResultIdNotFound {
      SideEffectsKeepTrace(world, s.t, s'.t);
    } else if failure.error.contextWindowExceeded {
      OverflowRecorded(world, s);
    } else if ShouldRetryTransport(failure.streamedVisibleOutput, failure.error, s.t.transportRetries) {
      TransportRetried(world, s);
      UnderwayFacts(world, s');
    } else {
      SideEffectsKeepTrace(world, s.t, s'.t);
    }
  }

  lemma AttemptedFacts(world: AttemptWorld, s: LoopState)
    requires Attempted(world, s)
    ensures TraceOk(world, s.t) && |s.t.decisions| <= world.Limit() && s.t.protocolMessages == 0 && s.t.requests != []
  {
  }

  lemma UnderwayFacts(world: AttemptWorld, s: LoopState)
    requires Underway(world, s)
    ensures TraceOk(world, s.t) && |s.t.decisions| <= world.Limit() && s.t.protocolMessages == 0
    ensures s.t.transportRetries <= TRANSPORT_RETRY_MAX_ATTEMPTS
  {
  }

  lemma SideEffectsKeepTrace(world: AttemptWorld, t: AttemptTrace, t': AttemptTrace)
    requires TraceOk(world, t)
    requires t' == t.(protocolMessages := t'.protocolMessages, interruptedSaves := t'.interruptedSaves)
    ensures TraceOk(world, t')
  {
  }

  // ----- a whole turn -----

  const START := LoopState(AttemptTrace([], 0, [], [], 0, 0, 0), Initial, false, false, LightMode)

  lemma StartIsUnderway(world: AttemptWorld)
    ensures Underway(world, START) && Counted(world, START)
  {
  }

  /** All passes from `s` on. */
  ghost function LoopFrom(world: AttemptWorld, step: int, meta: RecoveryMeta, failures: nat, s: LoopState): Pass
    requires Underway(world, s)
    decreases world.Limit() + TRANSPORT_RETRY_MAX_ATTEMPTS - |s.t.attempts|
  {
    OnceKeeps(world, step, meta, failures, s);
    AttemptBound(world, s);
    var p := Once(world, step, meta, failures, s);
    if p.verdict.Some? then p else LoopFrom(world, step, meta, failures, p.state)
  }

  /** What a whole turn leaves behind. */
  ghost function TurnTrace(world: AttemptWorld, step: int, meta: RecoveryMeta, failures: nat): AttemptTrace {
    StartIsUnderway(world);
    LoopFrom(world, step, meta, failures, START).state.t
  }

  /** What the loop does, told by the events alone: one attempt for each overflow and each retry, and one that ends it. */
  function TurnOutcome(world: AttemptWorld, step: int, meta: RecoveryMeta, failures: nat, overflows: nat, retries: nat): AttemptOutcome
    requires overflows <= world.Limit() && retries <= TRANSPORT_RETRY_MAX_ATTEMPTS
    decreases world.Limit() + TRANSPORT_RETRY_MAX_ATTEMPTS - overflows - retries
  {
    if world.preparationThrows(overflows + retries) then AttemptThrew
    else
      match world.event(overflows + retries)
      case InputBlocked(message) => Terminal(Blocked(message, step))
      case Answered(response) => Responded(response)
      case event =>
        var failure := FailureOf(event);
        if !GoesOn(world, failure, overflows, retries) then Ending(failure, step, meta, failures)
        else if failure.error.contextWindowExceeded then TurnOutcome(world, step, meta, failures, overflows + 1, retries)
        else TurnOutcome(world, step, meta, failures, overflows, retries + 1)
  }

  /** Preparation `k` comes before attempt `k`, and has succeeded when it was made ahead. */
  ghost predicate Counted(world: AttemptWorld, s: LoopState) {
    && |s.t.requests| == |s.t.attempts| + (if s.prepared then 1 else 0)
    && (s.prepared ==> !world.preparationThrows(|s.t.attempts|))
  }

  lemma UnderwayCounts(world: AttemptWorld, s: LoopState)
    requires Underway(world, s)
    ensures |s.t.attempts| == |s.t.decisions| + s.t.transportRetries
    ensures |s.t.decisions| <= world.Limit() && s.t.transportRetries <= TRANSPORT_RETRY_MAX_ATTEMPTS
  {
  }

  /** The loop, with its flags and its preparations made ahead, has the outcome that the events tell. */
  lemma {:induction false} LoopIsTurn(world: AttemptWorld, step: int, meta: RecoveryMeta, failures: nat, s: LoopState)
    requires Underway(world, s) && Counted(world, s)
    ensures var p := LoopFrom(world, step, meta, failures, s);
            && |s.t.decisions| <= world.Limit() && s.t.transportRetries <= TRANSPORT_RETRY_MAX_ATTEMPTS
            && p.verdict == Some(TurnOutcome(world, step, meta, failures, |s.t.decisions|, s.t.transportRetries))
            && p.failures == FailuresAfter(p.verdict.value, failures, p.state.t.protocolMessages)
            && Noted(p.verdict.value, p.state.t.protocolMessages)
    decreases world.Limit() + TRANSPORT_RETRY_MAX_ATTEMPTS - |s.t.attempts|
  {
    UnderwayCounts(world, s);
    OnceKeeps(world, step, meta, failures, s);
    AttemptBound(world, s);
    OnceTurns(world, step, meta, failures, s);
    hide Underway, Counted, Once, TraceOk;
    var p := Once(world, step, meta, failures, s);
    if p.verdict == None {
      LoopIsTurn(world, step, meta, failures, p.state);
    }
  }

  /** The consecutive protocol failures after a turn: an answer clears them, a reported one counts. */
  function FailuresAfter(outcome: AttemptOutcome, failures: nat, protocolMessages: nat): nat {
    if outcome.Responded? then 0 else failures + protocolMessages
  }

  /** A missing tool result is reported in a message; a turn with an answer or an early end has none. */
  predicate Noted(outcome: AttemptOutcome, protocolMessages: nat) {
    match outcome
    case RecoveredProtocol => protocolMessages == 1
    case AttemptThrew => true
    case _ => protocolMessages == 0
  }

  /** One pass follows the events: it ends the turn as they say, or goes on to the next with the counts they say. */
  lemma OnceTurns(world: AttemptWorld, step: int, meta: RecoveryMeta, failures: nat, s: LoopState)
    requires Underway(world, s) && Counted(world, s)
    requires |s.t.decisions| <= world.Limit() && s.t.transportRetries <= TRANSPORT_RETRY_MAX_ATTEMPTS
    ensures var p := Once(world, step, meta, failures, s);
            var turn := TurnOutcome(world, step, meta, failures, |s.t.decisions|, s.t.transportRetries);
            if p.verdict.Some? then
              && p.verdict.value == turn && p.failures == FailuresAfter(turn, failures, p.state.t.protocolMessages)
              && Noted(turn, p.state.t.protocolMessages)
            else
              && Counted(world, p.state) && |p.state.t.decisions| <= world.Limit()
              && p.state.t.transportRetries <= TRANSPORT_RETRY_MAX_ATTEMPTS
              && turn == TurnOutcome(world, step, meta, failures, |p.state.t.decisions|, p.state.t.transportRetries)
  {
    hide Underway, TraceOk, AfterFailure, GoesOn, TurnOutcome, Asked, Attempting;
    UnderwayFacts(world, s);
    UnderwayCounts(world, s);
    TurnUnfolds(world, step, meta, failures, |s.t.decisions|, s.t.transportRetries);
    if |s.t.decisions| < world.Limit() {
      TurnUnfolds(world, step, meta, failures, |s.t.decisions| + 1, s.t.transportRetries);
    }
    var event := world.event(|s.t.attempts|);
    AttemptCounts(world, s, if event.Answered? || event.ProviderThrew? then 1 else 0);
    if !world.preparationThrows(|s.t.attempts|) && (event.InputHookThrew? || event.ProviderThrew?) {
      FailureTurns(
        world, FailureOf(event), step, meta, failures, Attempting(Asked(s), if event.ProviderThrew? then 1 else 0));
    }
  }

  lemma AttemptCounts(world: AttemptWorld, s: LoopState, calls: nat)
    requires Counted(world, s)
    ensures var made := Attempting(Asked(s), calls);
            && made.t.decisions == s.t.decisions && made.t.transportRetries == s.t.transportRetries
            && made.t.protocolMessages == s.t.protocolMessages == Asked(s).t.protocolMessages && !made.prepared
            && |made.t.requests| == |made.t.attempts| == |s.t.attempts| + 1
            && Asked(s).t.attempts == s.t.attempts
            && (!s.prepared ==> |s.t.requests| == |s.t.attempts|)
  {
  }

  lemma TurnUnfolds(world: AttemptWorld, step: int, meta: RecoveryMeta, failures: nat, overflows: nat, retries: nat)
    requires overflows <= world.Limit() && retries <= TRANSPORT_RETRY_MAX_ATTEMPTS
    ensures var turn, event := TurnOutcome(world, step, meta, failures, overflows, retries), world.event(overflows + retries);
            if world.preparationThrows(overflows + retries) then turn == AttemptThrew
            else if event.InputBlocked? then turn == Terminal(Blocked(event.message, step))
            else if event.Answered? then turn == Responded(event.response)
            else if !GoesOn(world, FailureOf(event), overflows, retries) then
              turn == Ending(FailureOf(event), step, meta, failures)
            else if FailureOf(event).error.contextWindowExceeded then
              overflows < world.Limit() && turn == TurnOutcome(world, step, meta, failures, overflows + 1, retries)
            else
              retries < TRANSPORT_RETRY_MAX_ATTEMPTS && turn == TurnOutcome(world, step, meta, failures, overflows, retries + 1)
  {
  }

  lemma FailureTurns(world: AttemptWorld, failure: Failure, step: int, meta: RecoveryMeta, failures: nat, s: LoopState)
    requires |s.t.decisions| <= world.Limit() && s.t.transportRetries <= TRANSPORT_RETRY_MAX_ATTEMPTS
    requires |s.t.requests| == |s.t.attempts| == |s.t.decisions| + s.t.transportRetries + 1
    requires !s.prepared && s.t.protocolMessages == 0
    ensures var p := AfterFailure(world, failure, step, meta, failures, s);
            var overflows, retries := |s.t.decisions|, s.t.transportRetries;
            if !GoesOn(world, failure, overflows, retries) then
              && p.verdict == Some(Ending(failure, step, meta, failures))
              && p.failures == failures + p.state.t.protocolMessages
              && Noted(Ending(failure, step, meta, failures), p.state.t.protocolMessages)
            else if failure.error.contextWindowExceeded then
              && |p.state.t.decisions| == overflows + 1 <= world.Limit() && p.state.t.transportRetries == retries
              && p.failures == failures && p.state.t.protocolMessages == 0
              && (if world.preparationThrows(overflows + 1 + retries) then p.verdict == Some(AttemptThrew)
                  else p.verdict == None && Counted(world, p.state))
            else
              && |p.state.t.decisions| == overflows && p.state.t.transportRetries == retries + 1 <= TRANSPORT_RETRY_MAX_ATTEMPTS
              && p.verdict == None && Counted(world, p.state)
  {
  }

  /** What is true of the whole loop, whatever it meets. */
  lemma {:induction false} LoopKeeps(world: AttemptWorld, step: int, meta: RecoveryMeta, failures: nat, s: LoopState)
    requires Underway(world, s)
    ensures var p := LoopFrom(world, step, meta, failures, s);
            && TraceOk(world, p.state.t) && p.state.t.protocolMessages <= 1
            && |p.state.t.attempts| <= world.Limit() + TRANSPORT_RETRY_MAX_ATTEMPTS + 1
            && (|p.state.t.decisions| > world.Limit() ==> p.verdict == Some(AttemptThrew))
    decreases world.Limit() + TRANSPORT_RETRY_MAX_ATTEMPTS - |s.t.attempts|
  {
    OnceKeeps(world, step, meta, failures, s);
    AttemptBound(world, s);
    hide Underway, Once, TraceOk;
    var p := Once(world, step, meta, failures, s);
    if p.verdict == None {
      LoopKeeps(world, step, meta, failures, p.state);
    }
  }

  /**
   * Asks the provider until it answers or the turn ends. The events decide the outcome and the whole trace. For every behaviour
   * of hooks, provider and preparations there are at most `limit + 3` attempts, the overflow decisions
   * climb the ladder, the stages only advance, and a completion is reported exactly for a
   * terminal outcome.
   */
  method RunAgentLlmAttemptLoop(host: CompletionHost, world: AttemptWorld, step: int, meta: RecoveryMeta, failures: nat)
    returns (outcome: AttemptOutcome, failures': nat, t: AttemptTrace)
    modifies host`completions
    ensures outcome == TurnOutcome(world, step, meta, failures, 0, 0)
    ensures failures' == FailuresAfter(outcome, failures, t.protocolMessages)
    ensures t == TurnTrace(world, step, meta, failures)
    ensures exists last: nat :: ToldAtEnd(world, t, last)
    ensures TraceOk(world, t) && t.protocolMessages <= 1
    ensures |t.attempts| <= world.Limit() + TRANSPORT_RETRY_MAX_ATTEMPTS + 1
    ensures host.completions == old(host.completions) + if outcome.Terminal? then [outcome.result] else []
    ensures |t.decisions| > world.Limit() ==> outcome == AttemptThrew
  {
    hide *;
    StartIsUnderway(world);
    StartCounts(world, step, meta, failures);
    LoopIsTurn(world, step, meta, failures, START);
    LoopKeeps(world, step, meta, failures, START);
    StartIsTold(world);
    LoopTold(world, step, meta, failures, START);
    var s := START;
    failures' := failures;
    while true
      invariant Underway(world, s) && failures' == failures
      invariant LoopFrom(world, step, meta, failures, s) == LoopFrom(world, step, meta, failures, START)
      invariant host.completions == old(host.completions)
      decreases world.Limit() + TRANSPORT_RETRY_MAX_ATTEMPTS - |s.t.attempts|
    {
      AttemptBound(world, s);
      UnderwayCounts(world, s);
      LoopUnfolds(world, step, meta, failures, s);
      var verdict, s', f := AttemptOnce(host, world, step, meta, failures, s);
      failures' := f;
      if verdict.Some? {
        return verdict.value, failures', s'.t;
      }
      s := s';
    }
  }

  lemma StartCounts(world: AttemptWorld, step: int, meta: RecoveryMeta, failures: nat)
    ensures START.t.decisions == [] && START.t.transportRetries == 0 && Underway(world, START)
    ensures TurnTrace(world, step, meta, failures) == LoopFrom(world, step, meta, failures, START).state.t
  {
    StartIsUnderway(world);
    hide LoopFrom;
  }

  lemma LoopUnfolds(world: AttemptWorld, step: int, meta: RecoveryMeta, failures: nat, s: LoopState)
    requires Underway(world, s)
    ensures var p := Once(world, step, meta, failures, s);
            if p.verdict.Some? then LoopFrom(world, step, meta, failures, s) == p
            else
              && Underway(world, p.state) && |p.state.t.attempts| == |s.t.attempts| + 1 && p.failures == failures
              && LoopFrom(world, step, meta, failures, s) == LoopFrom(world, step, meta, failures, p.state)
  {
    hide Underway, TraceOk, Charged;
    OnceKeeps(world, step, meta, failures, s);
    AttemptBound(world, s);
  }

  /** What callers of a turn rely on. */
  lemma TurnKeeps(world: AttemptWorld, step: int, meta: RecoveryMeta, failures: nat)
    ensures var t := TurnTrace(world, step, meta, failures);
            && TraceOk(world, t) && t.protocolMessages <= 1
            && |t.attempts| <= world.Limit() + TRANSPORT_RETRY_MAX_ATTEMPTS + 1
            && Noted(TurnOutcome(world, step, meta, failures, 0, 0), t.protocolMessages)
  {
    hide *;
    StartIsUnderway(world);
    StartCounts(world, step, meta, failures);
    LoopIsTurn(world, step, meta, failures, START);
    LoopKeeps(world, step, meta, failures, START);
  }

  /** A turn ends early only because a hook blocked it or the run was cancelled, and a first protocol failure only is recovered. */
  lemma {:induction false} TurnResult(world: AttemptWorld, step: int, meta: RecoveryMeta, failures: nat, overflows: nat, retries: nat)
    requires overflows <= world.Limit() && retries <= TRANSPORT_RETRY_MAX_ATTEMPTS
    ensures var turn := TurnOutcome(world, step, meta, failures, overflows, retries);
            && (turn.Terminal? ==> turn.result == Cancelled(step, meta) || exists message :: turn.result == Blocked(message, step))
            && (turn == RecoveredProtocol ==> failures + 1 < PROTOCOL_FAILURE_ESCALATE_AFTER)
    decreases world.Limit() + TRANSPORT_RETRY_MAX_ATTEMPTS - overflows - retries
  {
    hide TurnOutcome, GoesOn;
    TurnUnfolds(world, step, meta, failures, overflows, retries);
    var event := world.event(overflows + retries);
    if event.InputHookThrew? || event.ProviderThrew? {
      if overflows < world.Limit() {
        TurnResult(world, step, meta, failures, overflows + 1, retries);
      }
      if retries < TRANSPORT_RETRY_MAX_ATTEMPTS {
        TurnResult(world, step, meta, failures, overflows, retries + 1);
      }
    }
  }

  // ----- what the events say about the outcome -----

  /** The overflows and retries that the first `k` events amount to, as long as they let the loop go on. */
  function Counts(world: AttemptWorld, k: nat): Option<(nat, nat)> {
    if k == 0 then Some((0, 0))
    else
      var (overflows, retries) :- Counts(world, k - 1);
      var event := world.event(k - 1);
      if world.preparationThrows(k - 1) || event.InputBlocked? || event.Answered? then None
      else if !GoesOn(world, FailureOf(event), overflows, retries) then None
      else if FailureOf(event).error.contextWindowExceeded then Some((overflows + 1, retries))
      else Some((overflows, retries + 1))
  }

  lemma {:induction false} CountsBounded(world: AttemptWorld, k: nat)
    requires Counts(world, k).Some?
    ensures var (overflows, retries) := Counts(world, k).value;
            overflows <= world.Limit() && retries <= TRANSPORT_RETRY_MAX_ATTEMPTS && overflows + retries == k
  {
    if k > 0 {
      CountsBounded(world, k - 1);
    }
  }

  /** The outcome is the same told from any event that is come to. */
  lemma {:induction false} TurnFrom(world: AttemptWorld, step: int, meta: RecoveryMeta, failures: nat, k: nat)
    requires Counts(world, k).Some?
    ensures var (overflows, retries) := Counts(world, k).value;
            && overflows <= world.Limit() && retries <= TRANSPORT_RETRY_MAX_ATTEMPTS && overflows + retries == k
            && TurnOutcome(world, step, meta, failures, 0, 0) == TurnOutcome(world, step, meta, failures, overflows, retries)
  {
    CountsBounded(world, k);
    if k > 0 {
      TurnFrom(world, step, meta, failures, k - 1);
    }
  }

  /** Attempt `k` is come to, and none follows it. */
  predicate IsLast(world: AttemptWorld, k: nat) {
    Counts(world, k).Some? && Counts(world, k + 1) == None
  }

  lemma LastExists(world: AttemptWorld, k: nat) returns (last: nat)
    requires Counts(world, k).Some?
    ensures k <= last && IsLast(world, last)
    decreases world.Limit() + TRANSPORT_RETRY_MAX_ATTEMPTS - k
  {
    CountsBounded(world, k);
    if Counts(world, k + 1) == None {
      return k;
    }
    CountsBounded(world, k + 1);
    last := LastExists(world, k + 1);
  }

  lemma {:induction false} CountsBefore(world: AttemptWorld, i: nat, k: nat)
    requires Counts(world, k).Some? && i <= k
    ensures Counts(world, i).Some?
  {
    if i < k {
      CountsBefore(world, i, k - 1);
    }
  }

  /** Attempt `k` fails with a context overflow, in a run that goes on and for no missing tool result. */
  predicate OverflowAt(world: AttemptWorld, k: nat) {
    var event := world.event(k);
    && (event.InputHookThrew? || event.ProviderThrew?)
    && !event.aborted && !event.error.toolResultIdNotFound && event.error.contextWindowExceeded
  }

  /** Attempt `k` fails with a transport error before it showed anything. */
  predicate EarlyTransportAt(world: AttemptWorld, k: nat) {
    var event := world.event(k);
    && (event.InputHookThrew? || (event.ProviderThrew? && !event.streamedVisibleOutput))
    && !event.aborted && !event.error.toolResultIdNotFound && !event.error.contextWindowExceeded
    && event.error.retriableTransport
  }

  /** How many of the first `k` attempts fail with an overflow. */
  function OverflowsBefore(world: AttemptWorld, k: nat): (n: nat)
    ensures n <= k
  {
    if k == 0 then 0 else OverflowsBefore(world, k - 1) + if OverflowAt(world, k - 1) then 1 else 0
  }

  /**
   * An attempt is come to exactly when every preparation before it succeeds and every attempt before it fails with an
   * overflow or an early transport error, of which there are no more than the limit and no more than two.
   */
  lemma {:induction false} CountsIff(world: AttemptWorld, k: nat)
    ensures Counts(world, k).Some? <==>
              && (forall j: nat :: j < k ==>
                    !world.preparationThrows(j) && (OverflowAt(world, j) || EarlyTransportAt(world, j)))
              && OverflowsBefore(world, k) <= Max(1, world.maxErrorsBeforeTrim)
              && k - OverflowsBefore(world, k) <= 2
    ensures Counts(world, k).Some? ==> Counts(world, k).value == (OverflowsBefore(world, k), k - OverflowsBefore(world, k))
  {
    if k > 0 {
      CountsIff(world, k - 1);
      hide OverflowAt, EarlyTransportAt, GoesOn, FailureOf;
      GoesOnIff(world, k - 1, OverflowsBefore(world, k - 1), k - 1 - OverflowsBefore(world, k - 1));
    }
  }

  lemma GoesOnIff(world: AttemptWorld, k: nat, overflows: nat, retries: nat)
    ensures var event := world.event(k);
            && (!event.InputHookThrew? && !event.ProviderThrew? ==> !OverflowAt(world, k) && !EarlyTransportAt(world, k))
            && (event.InputHookThrew? || event.ProviderThrew? ==>
                  && (GoesOn(world, FailureOf(event), overflows, retries)
                      <==> (OverflowAt(world, k) && overflows < Max(1, world.maxErrorsBeforeTrim))
                           || (EarlyTransportAt(world, k) && retries < 2))
                  && (GoesOn(world, FailureOf(event), overflows, retries) ==>
                        (FailureOf(event).error.contextWindowExceeded <==> OverflowAt(world, k))))
  {
  }

  /** An attempt that fails after it showed output, other than by an overflow, is never tried again. */
  lemma VisibleFailureIsLast(world: AttemptWorld, k: nat)
    requires Counts(world, k).Some? && !world.preparationThrows(k) && world.event(k).ProviderThrew?
    requires world.event(k).streamedVisibleOutput && !world.event(k).error.contextWindowExceeded
    ensures IsLast(world, k)
    ensures forall step, meta, failures ::
              !world.event(k).aborted && !world.event(k).error.toolResultIdNotFound ==>
                TurnOutcome(world, step, meta, failures, 0, 0) == AttemptThrew
  {
    hide TurnOutcome;
    CountsIff(world, k + 1);
    forall step, meta, failures | !world.event(k).aborted && !world.event(k).error.toolResultIdNotFound
      ensures TurnOutcome(world, step, meta, failures, 0, 0) == AttemptThrew
    {
      OutcomeOfLast(world, step, meta, failures, k);
    }
  }

  /**
   * How the last attempt ends the turn: a failed preparation throws; a block or an answer is passed on; a failure
   * ends in a cancellation, in a report of the first missing tool result in a row, or in a throw.
   */
  lemma OutcomeOfLast(world: AttemptWorld, step: int, meta: RecoveryMeta, failures: nat, k: nat)
    requires IsLast(world, k)
    ensures var turn, event := TurnOutcome(world, step, meta, failures, 0, 0), world.event(k);
            if world.preparationThrows(k) then turn == AttemptThrew
            else if event.InputBlocked? then turn == Terminal(RunResult(event.message, HookBlocked, step + 1, None))
            else if event.Answered? then turn == Responded(event.response)
            else if event.aborted then
              turn == Terminal(RunResult("Task cancelled by user.", CancelledByUser, step, Some(meta)))
            else if event.error.toolResultIdNotFound && failures == 0 then turn == RecoveredProtocol
            else turn == AttemptThrew
  {
    hide GoesOn, TurnOutcome;
    TurnFrom(world, step, meta, failures, k);
    var (overflows, retries) := Counts(world, k).value;
    TurnUnfolds(world, step, meta, failures, overflows, retries);
  }

  /** The turn has an answer exactly when an answer is come to: every event before it let the loop go on. */
  lemma AnsweredIff(world: AttemptWorld, step: int, meta: RecoveryMeta, failures: nat, response: Response)
    ensures TurnOutcome(world, step, meta, failures, 0, 0) == Responded(response)
            <==> exists k: nat :: Counts(world, k).Some? && !world.preparationThrows(k) && world.event(k) == Answered(response)
  {
    hide Counts, TurnOutcome;
    NoneYet(world);
    var last := LastExists(world, 0);
    OutcomeOfLast(world, step, meta, failures, last);
    forall k: nat | Counts(world, k).Some? && !world.preparationThrows(k) && world.event(k) == Answered(response)
      ensures k == last
    {
      AnswerIsLast(world, k);
      LastUnique(world, k, last);
    }
  }

  lemma NoneYet(world: AttemptWorld)
    ensures Counts(world, 0) == Some((0, 0))
  {
  }

  lemma AnswerIsLast(world: AttemptWorld, k: nat)
    requires Counts(world, k).Some? && world.event(k).Answered?
    ensures IsLast(world, k)
  {
    hide GoesOn;
  }

  lemma LastUnique(world: AttemptWorld, i: nat, k: nat)
    requires IsLast(world, i) && IsLast(world, k)
    ensures i == k
  {
    hide Counts;
    if i < k {
      CountsBefore(world, i + 1, k);
    } else if k < i {
      CountsBefore(world, k + 1, i);
    }
  }

  // ----- what the events say about everything else the loop did -----

  /** The stream of attempt `k` is broken off: something was shown, and then the transport failed. */
  predicate BreaksOff(world: AttemptWorld, k: nat) {
    var event := world.event(k);
    && event.ProviderThrew? && event.streamedVisibleOutput && event.error.retriableTransport
    && !event.aborted && !event.error.toolResultIdNotFound && !event.error.contextWindowExceeded
  }

  /** Attempt `k` fails for a missing tool result, in a run that goes on. */
  predicate MissesResult(world: AttemptWorld, k: nat) {
    var event := world.event(k);
    (event.InputHookThrew? || event.ProviderThrew?) && !event.aborted && event.error.toolResultIdNotFound
  }

  /** How many of the first `k` attempts get as far as the provider. */
  function AskedBefore(world: AttemptWorld, k: nat): nat {
    if k == 0 then 0
    else AskedBefore(world, k - 1) + if world.event(k - 1).Answered? || world.event(k - 1).ProviderThrew? then 1 else 0
  }

  /**
   * Preparation `k`: light at first; right after an overflow that is not yet the last before the trim, forced and
   * aggressive with at least one round kept and no more than the cap; otherwise without compression.
   */
  function RequestAt(world: AttemptWorld, k: nat): PrepareRequest {
    if k == 0 then PrepareRequest(LightMode, false, None)
    else if OverflowAt(world, k - 1) && OverflowsBefore(world, k) < Max(1, world.maxErrorsBeforeTrim) then
      PrepareRequest(AggressiveMode, true, Some(Max(1, Min(world.keepLlmRounds, world.aggressiveKeepCap))))
    else PrepareRequest(DisabledMode, false, None)
  }

  /** Decision `i`: compress until the limit, then trim, then give up. */
  function DecisionAt(world: AttemptWorld, i: nat): OverflowDecision {
    if i < Max(1, world.maxErrorsBeforeTrim) - 1 then RetryWithForcedCompress
    else if i == Max(1, world.maxErrorsBeforeTrim) - 1 then RetryWithForcedTrim
    else Abort
  }

  ghost predicate Lists(world: AttemptWorld, t: AttemptTrace, requests: nat, decisions: nat) {
    && |t.requests| == requests && (forall j: nat :: j < requests ==> t.requests[j] == RequestAt(world, j))
    && |t.decisions| == decisions && forall i: nat :: i < decisions ==> t.decisions[i] == DecisionAt(world, i)
  }

  /** Between attempts, `k` of them made: what the trace lists is told by the events. */
  ghost predicate ToldSoFar(world: AttemptWorld, s: LoopState) {
    var k := |s.t.attempts|;
    && Counts(world, k).Some? && OverflowsBefore(world, k) == |s.t.decisions| && s.t.transportRetries == k - |s.t.decisions|
    && Lists(world, s.t, k + (if s.prepared then 1 else 0), OverflowsBefore(world, k))
    && s.t.providerCalls == AskedBefore(world, k)
    && s.t.interruptedSaves == 0 && s.t.protocolMessages == 0
    && (s.prepared ==> !world.preparationThrows(k))
    && (!s.prepared ==> RequestAt(world, k) == PrepareRequest(s.mode, false, None))
  }

  /** The trace of a turn whose last attempt is `k`. */
  ghost predicate Told(world: AttemptWorld, t: AttemptTrace, k: nat) {
    var made := if world.preparationThrows(k) then k else k + 1;
    && |t.attempts| == made && t.providerCalls == AskedBefore(world, made)
    && Lists(world, t, k + 1, OverflowsBefore(world, made))
    && t.transportRetries == k - OverflowsBefore(world, k)
    && t.interruptedSaves == (if made == k + 1 && BreaksOff(world, k) then 1 else 0)
    && t.protocolMessages == (if made == k + 1 && MissesResult(world, k) then 1 else 0)
  }

  /** Right after attempt `k` was made and before its failure is judged. */
  ghost predicate ToldMade(world: AttemptWorld, s: LoopState, k: nat) {
    && |s.t.attempts| == k + 1 && !s.prepared && s.mode == DisabledMode && !world.preparationThrows(k)
    && Counts(world, k).Some? && OverflowsBefore(world, k) == |s.t.decisions| && s.t.transportRetries == k - |s.t.decisions|
    && Lists(world, s.t, k + 1, OverflowsBefore(world, k)) && s.t.providerCalls == AskedBefore(world, k + 1)
    && s.t.interruptedSaves == 0 && s.t.protocolMessages == 0
  }

  ghost predicate ToldAtEnd(world: AttemptWorld, t: AttemptTrace, k: nat) {
    IsLast(world, k) && Told(world, t, k)
  }

  lemma OneMoreListed(world: AttemptWorld, t: AttemptTrace, requests: nat, decisions: nat)
    requires Lists(world, t, requests, decisions)
    ensures Lists(world, t.(requests := t.requests + [RequestAt(world, requests)]), requests + 1, decisions)
    ensures Lists(world, t.(decisions := t.decisions + [DecisionAt(world, decisions)]), requests, decisions + 1)
  {
    hide RequestAt, DecisionAt;
  }

  lemma AskedIsTold(world: AttemptWorld, s: LoopState)
    requires ToldSoFar(world, s)
    ensures var k := |s.t.attempts|;
            && Lists(world, Asked(s).t, k + 1, OverflowsBefore(world, k))
            && Asked(s).t == s.t.(requests := Asked(s).t.requests)
  {
    hide Counts, OverflowsBefore, RequestAt, DecisionAt, Lists, AskedBefore;
    if !s.prepared {
      OneMoreListed(world, s.t, |s.t.attempts|, OverflowsBefore(world, |s.t.attempts|));
    }
  }

  lemma MadeIsTold(world: AttemptWorld, s: LoopState)
    requires ToldSoFar(world, s) && !world.preparationThrows(|s.t.attempts|)
    ensures var k := |s.t.attempts|;
            var calls := if world.event(k).Answered? || world.event(k).ProviderThrew? then 1 else 0;
            ToldMade(world, Attempting(Asked(s), calls), k)
  {
    hide Counts, OverflowsBefore, RequestAt, DecisionAt, Asked;
    AskedIsTold(world, s);
  }

  lemma PreparationFailsTold(world: AttemptWorld, s: LoopState)
    requires ToldSoFar(world, s) && world.preparationThrows(|s.t.attempts|)
    ensures ToldAtEnd(world, Asked(s).t, |s.t.attempts|)
  {
    AskedIsTold(world, s);
    CountsIff(world, |s.t.attempts| + 1);
    hide OverflowsBefore, RequestAt, DecisionAt, Asked, OverflowAt, EarlyTransportAt, Counts, Lists, AskedBefore;
  }

  /** A block or an answer. */
  lemma PassedOnTold(world: AttemptWorld, s: LoopState, k: nat)
    requires ToldMade(world, s, k) && (world.event(k).InputBlocked? || world.event(k).Answered?)
    ensures ToldAtEnd(world, s.t, k)
  {
    CountsIff(world, k + 1);
    hide RequestAt, DecisionAt, Counts, Lists, AskedBefore;
  }

  /** The trace behind an overflow: the next decision, and the next preparation unless it is to give up. */
  lemma OverflowLists(world: AttemptWorld, s: LoopState, k: nat)
    requires ToldMade(world, s, k) && OverflowAt(world, k)
    ensures var n, s' := OverflowsBefore(world, k), Charged(world, FailureOf(world.event(k)), s);
            && OverflowsBefore(world, k + 1) == n + 1 && n <= world.Limit()
            && Lists(world, s'.t, if n < world.Limit() then k + 2 else k + 1, n + 1)
            && s'.t == s.t.(requests := s'.t.requests, decisions := s'.t.decisions)
            && s'.prepared == (n < world.Limit()) && s'.mode == s.mode
  {
    var n := OverflowsBefore(world, k);
    CountsIff(world, k);
    OneMoreListed(world, s.t, k + 1, n);
    OneMoreListed(world, s.t.(decisions := s.t.decisions + [DecisionAt(world, n)]), k + 1, n + 1);
    hide Counts, Lists, AskedBefore;
  }

  lemma OverflowTold(world: AttemptWorld, step: int, meta: RecoveryMeta, failures: nat, s: LoopState, k: nat)
    requires ToldMade(world, s, k) && OverflowAt(world, k)
    ensures var p := AfterFailure(world, FailureOf(world.event(k)), step, meta, failures, s);
            if p.verdict == None then ToldSoFar(world, p.state) && |p.state.t.attempts| == k + 1
            else ToldAtEnd(world, p.state.t, k) || ToldAtEnd(world, p.state.t, k + 1)
  {
    OverflowLists(world, s, k);
    CountsIff(world, k);
    CountsIff(world, k + 1);
    CountsIff(world, k + 2);
    RequestsCounted(world, s, k);
    NotBroken(world, k);
    hide Counts, Lists, AskedBefore, RequestAt, DecisionAt, Charged, BreaksOff, MissesResult, EarlyTransportAt, OverflowsBefore;
    GoesOnIff(world, k, OverflowsBefore(world, k), k - OverflowsBefore(world, k));
  }

  lemma RequestsCounted(world: AttemptWorld, s: LoopState, k: nat)
    requires ToldMade(world, s, k)
    ensures |s.t.requests| == k + 1 && |s.t.decisions| == OverflowsBefore(world, k)
  {
  }

  lemma NotBroken(world: AttemptWorld, k: nat)
    requires OverflowAt(world, k)
    ensures !BreaksOff(world, k) && !MissesResult(world, k) && !EarlyTransportAt(world, k)
  {
  }

  lemma FailureTold(world: AttemptWorld, step: int, meta: RecoveryMeta, failures: nat, s: LoopState, k: nat)
    requires ToldMade(world, s, k) && (world.event(k).InputHookThrew? || world.event(k).ProviderThrew?)
    ensures var p := AfterFailure(world, FailureOf(world.event(k)), step, meta, failures, s);
            if p.verdict == None then ToldSoFar(world, p.state) && |p.state.t.attempts| == k + 1
            else ToldAtEnd(world, p.state.t, k) || ToldAtEnd(world, p.state.t, k + 1)
  {
    if OverflowAt(world, k) {
      OverflowTold(world, step, meta, failures, s, k);
    } else {
      CountsIff(world, k);
      CountsIff(world, k + 1);
      GoesOnIff(world, k, OverflowsBefore(world, k), k - OverflowsBefore(world, k));
      hide Counts, Lists, AskedBefore, DecisionAt;
    }
  }

  /** One pass: the trace stays told by the events, or is that of the last attempt. */
  lemma OnceTold(world: AttemptWorld, step: int, meta: RecoveryMeta, failures: nat, s: LoopState)
    requires ToldSoFar(world, s)
    ensures var p, k := Once(world, step, meta, failures, s), |s.t.attempts|;
            if p.verdict == None then ToldSoFar(world, p.state) && |p.state.t.attempts| == k + 1
            else ToldAtEnd(world, p.state.t, k) || ToldAtEnd(world, p.state.t, k + 1)
  {
    var k := |s.t.attempts|;
    PreparedFacts(world, s);
    hide ToldSoFar, ToldMade, ToldAtEnd, Asked, Attempting, AfterFailure;
    if world.preparationThrows(k) {
      PreparationFailsTold(world, s);
    } else {
      MadeIsTold(world, s);
      var event := world.event(k);
      var made := Attempting(Asked(s), if event.Answered? || event.ProviderThrew? then 1 else 0);
      if event.InputBlocked? || event.Answered? {
        PassedOnTold(world, made, k);
      } else {
        FailureTold(world, step, meta, failures, made, k);
      }
    }
  }

  lemma PreparedFacts(world: AttemptWorld, s: LoopState)
    requires ToldSoFar(world, s)
    ensures |s.t.requests| == |s.t.attempts| + (if s.prepared then 1 else 0)
    ensures s.prepared ==> !world.preparationThrows(|s.t.attempts|) && Asked(s) == s
    ensures !s.prepared ==> Asked(s) == Requested(s, PrepareRequest(s.mode, false, None))
  {
  }

  lemma {:induction false} LoopTold(world: AttemptWorld, step: int, meta: RecoveryMeta, failures: nat, s: LoopState)
    requires Underway(world, s) && ToldSoFar(world, s)
    ensures exists last: nat :: ToldAtEnd(world, LoopFrom(world, step, meta, failures, s).state.t, last)
    decreases world.Limit() + TRANSPORT_RETRY_MAX_ATTEMPTS - |s.t.attempts|
  {
    hide *;
    AttemptBound(world, s);
    LoopUnfolds(world, step, meta, failures, s);
    OnceTold(world, step, meta, failures, s);
    var p := Once(world, step, meta, failures, s);
    if p.verdict == None {
      LoopTold(world, step, meta, failures, p.state);
    }
  }

  /**
   * The whole trace of a turn is told by its events: attempts, provider calls, preparations and decisions in order,
   * retries, one saved stream exactly when the last attempt's is broken off, one report exactly when it misses a result.
   */
  lemma TurnIsTold(world: AttemptWorld, step: int, meta: RecoveryMeta, failures: nat, last: nat)
    requires IsLast(world, last)
    ensures Told(world, TurnTrace(world, step, meta, failures), last)
  {
    StartIsTold(world);
    StartIsUnderway(world);
    StartCounts(world, step, meta, failures);
    hide *;
    LoopTold(world, step, meta, failures, START);
    var k: nat :| ToldAtEnd(world, TurnTrace(world, step, meta, failures), k);
    EndIsLast(world, TurnTrace(world, step, meta, failures), k);
    LastUnique(world, k, last);
  }

  lemma StartIsTold(world: AttemptWorld)
    ensures ToldSoFar(world, START)
  {
  }

  lemma EndIsLast(world: AttemptWorld, t: AttemptTrace, k: nat)
    requires ToldAtEnd(world, t, k)
    ensures IsLast(world, k) && Told(world, t, k)
  {
  }
}
