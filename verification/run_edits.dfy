/**
 * What a run does to the stored history: the edits of `RunHistory`, generated step by step from what the run
 * of `AgentRun` meets (`runWithResult` of src/agent/Agent.ts and the attempt loop it calls).
 */
module RunEdits {
  import opened Messages
  import opened Numbers
  import opened ToolProtocol
  import opened ContextOverflow
  import opened Store
  import opened ToolCalls
  import opened HistoryReduction
  import opened RunHistory
  import opened HistoryCheckpoints
  import Attempts = LlmAttempts
  import Runs = AgentRun

  // ----- what a run meets, with the texts -----

  /** What one attempt meets. `streamed` is what was shown of an answer that then failed. */
  datatype AttemptContent = AttemptContent(
    budget: Budget, preparationThrows: bool, hook: InputHook, replies: bool, error: Attempts.ProviderError,
    streamed: Option<string>, aborted: bool)

  /** What one step meets. */
  datatype StepContent = StepContent(
    startHookThrows: bool,
    startBlocked: Option<string>,
    abortedAtStart: bool,
    attempt: nat -> AttemptContent,
    protocolNote: string,
    answer: ProviderAnswer,
    finishReason: Option<string>,
    progressOnlyText: bool,
    responseHookThrows: bool,
    compressor: CompressorAnswer,
    progressNote: string)

  function ResponseOf(c: StepContent): Attempts.Response {
    Attempts.Response(c.answer.content, c.finishReason, c.answer.calls != [], c.progressOnlyText)
  }

  function EventOf(c: StepContent, k: nat): Attempts.AttemptEvent {
    var a := c.attempt(k);
    match a.hook
    case BlockInput(message) => Attempts.InputBlocked(message)
    case ThrowFromHook(_) => Attempts.InputHookThrew(a.error, a.aborted)
    case _ =>
      if a.replies then Attempts.Answered(ResponseOf(c))
      else Attempts.ProviderThrew(a.error, a.streamed.Some?, a.aborted)
  }

  function PhaseOf(answer: ProviderAnswer): Runs.ToolPhase {
    if answer.calls == [] then Runs.ToolsCompleted(false)
    else
      match RunFate(answer.scripts, |answer.calls|)
      case Completed(forced) => Runs.ToolsCompleted(forced)
      case Cancelled => Runs.ToolsCancelled
      case RunThrew => Runs.ToolsThrew
  }

  /** The step as the run sees it. */
  function ScriptOf(c: StepContent): Runs.StepScript {
    Runs.StepScript(
      c.startHookThrows, c.startBlocked, c.abortedAtStart, (k: nat) => EventOf(c, k),
      (k: nat) => c.attempt(k).preparationThrows,
      c.responseHookThrows, PhaseOf(c.answer))
  }

  function Scripts(contents: nat -> StepContent): nat -> Runs.StepScript {
    (i: nat) => ScriptOf(contents(i))
  }

  // ----- the edits -----

  function Precompress(request: Attempts.PrepareRequest, budget: Budget): PrecompressRequest {
    PrecompressRequest(
      match request.mode case LightMode => Light case AggressiveMode => Aggressive case DisabledMode => Disabled,
      request.force, request.keepLlmRounds, budget)
  }

  const FIRST := Attempts.PrepareRequest(Attempts.LightMode, false, None)
  const AGAIN := Attempts.PrepareRequest(Attempts.DisabledMode, false, None)

  /** What a failure that ends the turn leaves in the history. */
  function EndingEdits(c: StepContent, k: nat, failure: Attempts.Failure): seq<Edit> {
    if failure.aborted then []
    else if failure.error.toolResultIdNotFound then [ProtocolFailed(c.protocolNote)]
    else if !failure.error.contextWindowExceeded && failure.streamedVisibleOutput && failure.error.retriableTransport then
      [StreamInterrupted(if c.attempt(k).streamed.Some? then c.attempt(k).streamed.value else "")]
    else []
  }

  /** The edits of a turn's attempts, from the one behind so many overflows and retries on. */
  function TurnEdits(
    world: Attempts.AttemptWorld, c: StepContent, overflows: nat, retries: nat, request: Attempts.PrepareRequest): (edits: seq<Edit>)
    requires overflows <= world.Limit() && retries <= Attempts.TRANSPORT_RETRY_MAX_ATTEMPTS
    decreases world.Limit() + Attempts.TRANSPORT_RETRY_MAX_ATTEMPTS - overflows - retries
  {
    var k := overflows + retries;
    var attempt := Attempt(Precompress(request, c.attempt(k).budget), c.attempt(k).hook);
    var event := world.event(k);
    if world.preparationThrows(k) || event.InputBlocked? || event.Answered? then [attempt]
    else
      var failure := Attempts.FailureOf(event);
      if !Attempts.GoesOn(world, failure, overflows, retries) then [attempt] + EndingEdits(c, k, failure)
      else if !failure.error.contextWindowExceeded then [attempt] + TurnEdits(world, c, overflows, retries + 1, AGAIN)
      else if overflows + 1 < world.Limit() then
        [attempt] + TurnEdits(world, c, overflows + 1, retries, world.AggressiveRequest())
      else [attempt, TrimForced] + TurnEdits(world, c, overflows + 1, retries, AGAIN)
  }

  /** What follows a stored answer: the recovery from a cut-off, or the reminder after a mere announcement. */
  function RecoveryEdits(agent: Runs.Agent, c: StepContent, s: Runs.RunState): seq<Edit> {
    if PhaseOf(c.answer) != Runs.ToolsCompleted(false) then []
    else if c.finishReason == Some("max_tokens") then [CutOff(s.step + 1, s.attempt, c.compressor)]
    else if agent.progressOnlyRecoveryEnabled && Runs.ShouldRecoverProgressOnly(ResponseOf(c))
            && s.progressStops < Attempts.PROGRESS_ONLY_MAX_ATTEMPTS then [ProgressOnly(c.progressNote)]
    else []
  }

  /** What an answer does: it is stored with its tool phase, unless the response hook throws. */
  function AnswerEdits(agent: Runs.Agent, c: StepContent, s: Runs.RunState): seq<Edit> {
    if c.responseHookThrows then [] else [Answered(c.answer)] + RecoveryEdits(agent, c, s)
  }

  function StepEdits(agent: Runs.Agent, c: StepContent, s: Runs.RunState): seq<Edit> {
    if c.startHookThrows || c.startBlocked.Some? || c.abortedAtStart then []
    else
      TurnEdits(agent.World(ScriptOf(c)), c, 0, 0, FIRST)
      + if agent.TurnOf(ScriptOf(c), s).Responded? then AnswerEdits(agent, c, s) else []
  }

  /** The edits of a run, from the head of an iteration on. */
  ghost function EditsFrom(agent: Runs.Agent, contents: nat -> StepContent, s: Runs.RunState): seq<Edit>
    requires Runs.AtHead(s, agent.maxTokensLimit, agent.CallsPerTurn())
    decreases agent.maxSteps - s.step
  {
    if s.step >= agent.maxSteps then []
    else
      agent.RunUnfolds(Scripts(contents), s);
      var end := agent.StepOf(Scripts(contents)(s.step), s);
      StepEdits(agent, contents(s.step), s) + if end.outcome.Some? then [] else EditsFrom(agent, contents, end.state)
  }

  /** The edits of a whole run of a configured agent. */
  ghost function RunEdits(agent: Runs.Agent, prompt: string, contents: nat -> StepContent): seq<Edit> {
    agent.FirstAtHead();
    [RunStarts(prompt)] + EditsFrom(agent, contents, Runs.First())
  }

  // ----- counting edits -----

  function Count(edits: seq<Edit>, kind: Edit -> bool): nat {
    if edits == [] then 0 else (if kind(edits[0]) then 1 else 0) + Count(edits[1..], kind)
  }

  lemma {:induction false} CountConcat(a: seq<Edit>, b: seq<Edit>, kind: Edit -> bool)
    ensures Count(a + b, kind) == Count(a, kind) + Count(b, kind)
  {
    if a == [] {
      assert a + b == b;
    } else {
      assert (a + b)[0] == a[0] && (a + b)[1..] == a[1..] + b;
      CountConcat(a[1..], b, kind);
    }
  }

  predicate IsAttempt(e: Edit) { e.Attempt? }
  predicate IsReport(e: Edit) { e.ProtocolFailed? }
  predicate IsCutOff(e: Edit) { e.CutOff? }
  predicate IsReminder(e: Edit) { e.ProgressOnly? }

  /** The preparations that the attempts among the edits ask for. */
  function Asked(edits: seq<Edit>): seq<Attempts.PrepareRequest> {
    if edits == [] then []
    else
      (if edits[0].Attempt? then [RequestOf(edits[0].request)] else []) + Asked(edits[1..])
  }

  function RequestOf(r: PrecompressRequest): Attempts.PrepareRequest {
    Attempts.PrepareRequest(
      match r.mode case Light => Attempts.LightMode case Aggressive => Attempts.AggressiveMode case Disabled => Attempts.DisabledMode,
      r.forced, r.override)
  }

  lemma RequestsMatch(request: Attempts.PrepareRequest, budget: Budget)
    ensures RequestOf(Precompress(request, budget)) == request
  {
  }

  // ----- the edits of a turn are what its loop does -----

  /** The preparation that the next attempt uses, and those before it. */
  function Coming(s: Attempts.LoopState): Attempts.PrepareRequest
    requires s.prepared ==> s.t.requests != []
  {
    if s.prepared then s.t.requests[|s.t.requests| - 1] else Attempts.PrepareRequest(s.mode, false, None)
  }

  function Earlier(s: Attempts.LoopState): seq<Attempts.PrepareRequest>
    requires s.prepared ==> s.t.requests != []
  {
    if s.prepared then s.t.requests[..|s.t.requests| - 1] else s.t.requests
  }

  /** The edits tell what the loop added: the preparations asked for and the missing results reported. */
  ghost predicate Tells(edits: seq<Edit>, before: seq<Attempts.PrepareRequest>, t: Attempts.AttemptTrace) {
    && t.requests == before + Asked(edits)
    && t.protocolMessages == Count(edits, IsReport)
    && Count(edits, IsCutOff) == Count(edits, IsReminder) == 0
    && forall e :: e in edits ==> e.Attempt? || e.TrimForced? || e.ProtocolFailed? || e.StreamInterrupted?
  }

  lemma {:induction false} LoopEdits(
    world: Attempts.AttemptWorld, c: StepContent, step: int, meta: Attempts.RecoveryMeta, failures: nat, s: Attempts.LoopState)
    requires Attempts.Underway(world, s) && Attempts.Counted(world, s)
    ensures |s.t.decisions| <= world.Limit() && s.t.transportRetries <= Attempts.TRANSPORT_RETRY_MAX_ATTEMPTS
    ensures s.prepared ==> s.t.requests != []
    ensures var edits := TurnEdits(world, c, |s.t.decisions|, s.t.transportRetries, Coming(s));
            Tells(edits, Earlier(s), Attempts.LoopFrom(world, step, meta, failures, s).state.t)
    decreases world.Limit() + Attempts.TRANSPORT_RETRY_MAX_ATTEMPTS - |s.t.attempts|
  {
    hide *;
    Attempts.UnderwayCounts(world, s);
    Attempts.UnderwayFacts(world, s);
    Attempts.AttemptBound(world, s);
    CountedHasRequest(world, s);
    Attempts.LoopUnfolds(world, step, meta, failures, s);
    Attempts.OnceTurns(world, step, meta, failures, s);
    OnceEdits(world, c, step, meta, failures, s);
    var p := Attempts.Once(world, step, meta, failures, s);
    if p.verdict == None {
      LoopEdits(world, c, step, meta, failures, p.state);
      var rest := TurnEdits(world, c, |p.state.t.decisions|, p.state.t.transportRetries, Coming(p.state));
      var edits := TurnEdits(world, c, |s.t.decisions|, s.t.transportRetries, Coming(s));
      TellsMore(edits, rest, Coming(s), Earlier(s), Attempts.LoopFrom(world, step, meta, failures, s).state.t);
    }
  }

  /** The edits of one attempt that goes on come first: the attempt itself, and a forced trim at the limit. */
  ghost predicate GoesFirst(edits: seq<Edit>, rest: seq<Edit>, request: Attempts.PrepareRequest) {
    && edits != [] && edits[0].Attempt? && RequestOf(edits[0].request) == request
    && (edits == [edits[0]] + rest || edits == [edits[0], TrimForced] + rest)
  }

  lemma TellsMore(
    edits: seq<Edit>, rest: seq<Edit>, request: Attempts.PrepareRequest, before: seq<Attempts.PrepareRequest>, t: Attempts.AttemptTrace)
    requires GoesFirst(edits, rest, request) && Tells(rest, before + [request], t)
    ensures Tells(edits, before, t)
  {
    if edits == [edits[0]] + rest {
      assert edits[1..] == rest;
    } else {
      assert edits[1..][0] == TrimForced && edits[1..][1..] == rest;
    }
    assert before + [request] + Asked(rest) == before + ([request] + Asked(rest));
  }

  lemma MadeRequests(s: Attempts.LoopState, calls: nat)
    requires s.prepared ==> s.t.requests != []
    ensures var made := Attempts.Attempting(Attempts.Asked(s), calls);
            && made.t.requests == Earlier(s) + [Coming(s)] && made.mode == Attempts.DisabledMode && !made.prepared
            && made.t.decisions == s.t.decisions && made.t.transportRetries == s.t.transportRetries
            && made.t.protocolMessages == s.t.protocolMessages
    ensures Attempts.Asked(s).t.requests == Earlier(s) + [Coming(s)]
    ensures Attempts.Asked(s).t.protocolMessages == s.t.protocolMessages
  {
  }

  lemma TellsOne(edits: seq<Edit>, request: Attempts.PrepareRequest, before: seq<Attempts.PrepareRequest>, t: Attempts.AttemptTrace)
    requires GoesFirst(edits, [], request) && t.requests == before + [request] && t.protocolMessages == 0
    ensures Tells(edits, before, t)
  {
    TellsNothing(before + [request], t);
    TellsMore(edits, [], request, before, t);
  }

  lemma TellsNothing(before: seq<Attempts.PrepareRequest>, t: Attempts.AttemptTrace)
    requires t.requests == before && t.protocolMessages == 0
    ensures Tells([], before, t)
  {
  }

  /** One pass and the edits of its attempt. */
  lemma OnceEdits(
    world: Attempts.AttemptWorld, c: StepContent, step: int, meta: Attempts.RecoveryMeta, failures: nat, s: Attempts.LoopState)
    requires |s.t.decisions| <= world.Limit() && s.t.transportRetries <= Attempts.TRANSPORT_RETRY_MAX_ATTEMPTS
    requires Attempts.Counted(world, s) && (s.prepared ==> s.t.requests != []) && s.t.protocolMessages == 0
    requires |s.t.attempts| == |s.t.decisions| + s.t.transportRetries
    ensures var p := Attempts.Once(world, step, meta, failures, s);
            var edits := TurnEdits(world, c, |s.t.decisions|, s.t.transportRetries, Coming(s));
            if p.verdict.Some? then Tells(edits, Earlier(s), p.state.t)
            else
              && |p.state.t.decisions| <= world.Limit() && p.state.t.transportRetries <= Attempts.TRANSPORT_RETRY_MAX_ATTEMPTS
              && (p.state.prepared ==> p.state.t.requests != []) && Earlier(p.state) == Earlier(s) + [Coming(s)]
              && GoesFirst(edits, TurnEdits(world, c, |p.state.t.decisions|, p.state.t.transportRetries, Coming(p.state)), Coming(s))
  {
    hide Tells, Attempts.Attempting, Attempts.Asked, Attempts.AfterFailure, TurnEdits, EndingEdits, GoesFirst, Attempts.GoesOn, Coming, Earlier;
    var k, event := |s.t.attempts|, world.event(|s.t.attempts|);
    var calls := if event.Answered? || event.ProviderThrew? then 1 else 0;
    MadeRequests(s, calls);
    var edits := TurnEdits(world, c, |s.t.decisions|, s.t.transportRetries, Coming(s));
    TurnEditsUnfold(world, c, |s.t.decisions|, s.t.transportRetries, Coming(s));
    if world.preparationThrows(k) || event.InputBlocked? || event.Answered? {
      FirstAlone(edits, Coming(s));
      TellsOne(edits, Coming(s), Earlier(s), Attempts.Once(world, step, meta, failures, s).state.t);
    } else {
      EarlierLength(world, s);
      FailureEdits(
        world, c, Attempts.FailureOf(event), step, meta, failures,
        Attempts.Attempting(Attempts.Asked(s), calls), Earlier(s), Coming(s), edits);
    }
  }

  lemma EarlierLength(world: Attempts.AttemptWorld, s: Attempts.LoopState)
    requires Attempts.Counted(world, s) && (s.prepared ==> s.t.requests != [])
    ensures |Earlier(s)| == |s.t.attempts|
  {
  }

  lemma TurnEditsUnfold(
    world: Attempts.AttemptWorld, c: StepContent, overflows: nat, retries: nat, request: Attempts.PrepareRequest)
    requires overflows <= world.Limit() && retries <= Attempts.TRANSPORT_RETRY_MAX_ATTEMPTS
    ensures var k, event := overflows + retries, world.event(overflows + retries);
            var edits := TurnEdits(world, c, overflows, retries, request);
            && edits != [] && edits[0].Attempt? && RequestOf(edits[0].request) == request
            && (world.preparationThrows(k) || event.InputBlocked? || event.Answered? ==> edits == [edits[0]] + [])
            && (!world.preparationThrows(k) && (event.InputHookThrew? || event.ProviderThrew?) ==>
                  var failure := Attempts.FailureOf(event);
                  if !Attempts.GoesOn(world, failure, overflows, retries) then
                    edits == [edits[0]] + EndingEdits(c, k, failure)
                  else if !failure.error.contextWindowExceeded then
                    retries < Attempts.TRANSPORT_RETRY_MAX_ATTEMPTS
                    && GoesFirst(edits, TurnEdits(world, c, overflows, retries + 1, AGAIN), request)
                  else
                    overflows < world.Limit()
                    && GoesFirst(edits, TurnEdits(world, c, overflows + 1, retries, AfterOverflow(world, overflows)), request))
  {
    hide EndingEdits;
    RequestsMatch(request, c.attempt(overflows + retries).budget);
  }

  /** The preparation asked for at once after an overflow. */
  function AfterOverflow(world: Attempts.AttemptWorld, overflows: nat): Attempts.PrepareRequest {
    if overflows + 1 < world.Limit() then world.AggressiveRequest() else AGAIN
  }

  lemma FailureEdits(
    world: Attempts.AttemptWorld, c: StepContent, failure: Attempts.Failure, step: int, meta: Attempts.RecoveryMeta,
    failures: nat, s: Attempts.LoopState, before: seq<Attempts.PrepareRequest>, request: Attempts.PrepareRequest, edits: seq<Edit>)
    requires |s.t.decisions| <= world.Limit() && s.t.transportRetries <= Attempts.TRANSPORT_RETRY_MAX_ATTEMPTS
    requires s.t.requests == before + [request] && !s.prepared && s.mode == Attempts.DisabledMode && s.t.protocolMessages == 0
    requires |before| == |s.t.decisions| + s.t.transportRetries
    requires var k := |s.t.decisions| + s.t.transportRetries;
             && !world.preparationThrows(k)
             && (world.event(k).InputHookThrew? || world.event(k).ProviderThrew?) && Attempts.FailureOf(world.event(k)) == failure
    requires edits == TurnEdits(world, c, |s.t.decisions|, s.t.transportRetries, request)
    ensures var p := Attempts.AfterFailure(world, failure, step, meta, failures, s);
            if p.verdict.Some? then Tells(edits, before, p.state.t)
            else
              && |p.state.t.decisions| <= world.Limit() && p.state.t.transportRetries <= Attempts.TRANSPORT_RETRY_MAX_ATTEMPTS
              && (p.state.prepared ==> p.state.t.requests != []) && Earlier(p.state) == before + [request]
              && GoesFirst(edits, TurnEdits(world, c, |p.state.t.decisions|, p.state.t.transportRetries, Coming(p.state)), request)
  {
    hide Tells, TurnEdits, EndingEdits, GoesFirst, Attempts.FailureOf;
    var overflows, retries := |s.t.decisions|, s.t.transportRetries;
    TurnEditsUnfold(world, c, overflows, retries, request);
    FailureAdds(world, failure, step, meta, failures, s, before, request);
    hide Attempts.AfterFailure, Attempts.GoesOn, AfterOverflow;
    var p := Attempts.AfterFailure(world, failure, step, meta, failures, s);
    if !Attempts.GoesOn(world, failure, overflows, retries) {
      EndingTells(c, overflows + retries, failure, edits, before, request, p.state.t);
    } else if failure.error.contextWindowExceeded && world.preparationThrows(overflows + retries + 1) {
      var next := AfterOverflow(world, overflows);
      var rest := TurnEdits(world, c, overflows + 1, retries, next);
      TurnEditsUnfold(world, c, overflows + 1, retries, next);
      FirstAlone(rest, next);
      TellsOne(rest, next, before + [request], p.state.t);
      TellsMore(edits, rest, request, before, p.state.t);
    }
  }

  lemma FirstAlone(edits: seq<Edit>, request: Attempts.PrepareRequest)
    requires edits != [] && edits[0].Attempt? && RequestOf(edits[0].request) == request && edits == [edits[0]] + []
    ensures GoesFirst(edits, [], request)
  {
  }

  /** What a failure adds to the loop's variables. */
  lemma FailureAdds(
    world: Attempts.AttemptWorld, failure: Attempts.Failure, step: int, meta: Attempts.RecoveryMeta,
    failures: nat, s: Attempts.LoopState, before: seq<Attempts.PrepareRequest>, request: Attempts.PrepareRequest)
    requires |s.t.decisions| <= world.Limit() && s.t.transportRetries <= Attempts.TRANSPORT_RETRY_MAX_ATTEMPTS
    requires s.t.requests == before + [request] && !s.prepared && s.mode == Attempts.DisabledMode && s.t.protocolMessages == 0
    requires |before| == |s.t.decisions| + s.t.transportRetries
    ensures var p := Attempts.AfterFailure(world, failure, step, meta, failures, s);
            var overflows, retries := |s.t.decisions|, s.t.transportRetries;
            if !Attempts.GoesOn(world, failure, overflows, retries) then
              && p.verdict.Some? && p.state.t.requests == before + [request]
              && p.state.t.protocolMessages == (if !failure.aborted && failure.error.toolResultIdNotFound then 1 else 0)
            else if failure.error.contextWindowExceeded then
              && |p.state.t.decisions| == overflows + 1 && p.state.t.transportRetries == retries && p.state.prepared
              && p.state.t.requests == before + [request] + [AfterOverflow(world, overflows)] && p.state.t.protocolMessages == 0
              && Earlier(p.state) == before + [request] && Coming(p.state) == AfterOverflow(world, overflows)
              && (p.verdict.Some? <==> world.preparationThrows(overflows + retries + 1))
            else
              && |p.state.t.decisions| == overflows && p.state.t.transportRetries == retries + 1 && !p.state.prepared
              && p.verdict == None && p.state.t.requests == before + [request]
              && Earlier(p.state) == before + [request] && Coming(p.state) == AGAIN
  {
  }

  lemma SingleEdit(e: Edit)
    ensures Asked([e]) == if e.Attempt? then [RequestOf(e.request)] else []
    ensures forall kind: Edit -> bool :: Count([e], kind) == if kind(e) then 1 else 0
  {
    assert [e][1..] == [];
    forall kind: Edit -> bool ensures Count([e], kind) == if kind(e) then 1 else 0 {
    }
  }

  lemma EndingTells(
    c: StepContent, k: nat, failure: Attempts.Failure, edits: seq<Edit>, before: seq<Attempts.PrepareRequest>,
    request: Attempts.PrepareRequest, t: Attempts.AttemptTrace)
    requires edits != [] && edits[0].Attempt? && RequestOf(edits[0].request) == request
    requires edits == [edits[0]] + EndingEdits(c, k, failure)
    requires t.requests == before + [request]
    requires t.protocolMessages == if !failure.aborted && failure.error.toolResultIdNotFound then 1 else 0
    ensures Tells(edits, before, t)
  {
    var rest := EndingEdits(c, k, failure);
    if rest == [] {
      TellsNothing(before + [request], t);
    } else {
      SingleEdit(rest[0]);
      assert rest == [rest[0]] && before + [request] + [] == before + [request];
    }
    assert Tells(rest, before + [request], t);
    hide Tells;
    TellsMore(edits, rest, request, before, t);
  }

  lemma CountedHasRequest(world: Attempts.AttemptWorld, s: Attempts.LoopState)
    requires Attempts.Counted(world, s)
    ensures s.prepared ==> s.t.requests != []
  {
  }

  /** A turn's edits tell what its whole loop did. */
  lemma TurnTells(world: Attempts.AttemptWorld, c: StepContent, step: int, meta: Attempts.RecoveryMeta, failures: nat)
    ensures Tells(TurnEdits(world, c, 0, 0, FIRST), [], Attempts.TurnTrace(world, step, meta, failures))
  {
    hide *;
    Attempts.StartIsUnderway(world);
    Attempts.StartCounts(world, step, meta, failures);
    LoopEdits(world, c, step, meta, failures, Attempts.START);
    StartComes();
  }

  lemma StartComes()
    ensures Coming(Attempts.START) == FIRST && Earlier(Attempts.START) == []
    ensures Attempts.START.t.decisions == [] && Attempts.START.t.transportRetries == 0
  {
  }

  lemma {:induction false} AttemptsBounded(
    world: Attempts.AttemptWorld, c: StepContent, overflows: nat, retries: nat, request: Attempts.PrepareRequest)
    requires overflows <= world.Limit() && retries <= Attempts.TRANSPORT_RETRY_MAX_ATTEMPTS
    ensures Count(TurnEdits(world, c, overflows, retries, request), IsAttempt)
            <= world.Limit() + Attempts.TRANSPORT_RETRY_MAX_ATTEMPTS + 1 - overflows - retries
    decreases world.Limit() + Attempts.TRANSPORT_RETRY_MAX_ATTEMPTS - overflows - retries
  {
    hide Count, TurnEdits, Attempts.GoesOn, Attempts.FailureOf, AfterOverflow;
    TurnEditsUnfold(world, c, overflows, retries, request);
    var edits := TurnEdits(world, c, overflows, retries, request);
    SingleEdit(edits[0]);
    SingleEdit(TrimForced);
    CountConcat([edits[0]], [TrimForced], IsAttempt);
    assert [edits[0]] + [TrimForced] == [edits[0], TrimForced];
    var k := overflows + retries;
    if !world.preparationThrows(k) && (world.event(k).InputHookThrew? || world.event(k).ProviderThrew?) {
      var failure := Attempts.FailureOf(world.event(k));
      if !Attempts.GoesOn(world, failure, overflows, retries) {
        EndingCounts(c, k, failure);
        CountConcat([edits[0]], EndingEdits(c, k, failure), IsAttempt);
      } else if !failure.error.contextWindowExceeded {
        var rest := TurnEdits(world, c, overflows, retries + 1, AGAIN);
        AttemptsBounded(world, c, overflows, retries + 1, AGAIN);
        CountConcat([edits[0]], rest, IsAttempt);
        CountConcat([edits[0], TrimForced], rest, IsAttempt);
      } else {
        var rest := TurnEdits(world, c, overflows + 1, retries, AfterOverflow(world, overflows));
        AttemptsBounded(world, c, overflows + 1, retries, AfterOverflow(world, overflows));
        CountConcat([edits[0]], rest, IsAttempt);
        CountConcat([edits[0], TrimForced], rest, IsAttempt);
      }
    } else {
      assert edits == [edits[0]];
    }
  }

  lemma EndingCounts(c: StepContent, k: nat, failure: Attempts.Failure)
    ensures Count(EndingEdits(c, k, failure), IsAttempt) == 0
  {
    var rest := EndingEdits(c, k, failure);
    if rest != [] {
      assert rest == [rest[0]];
      SingleEdit(rest[0]);
    }
  }

  // ----- a step -----

  /** Whichever attempt is answered, the answer is the step's. */
  lemma ReplyIsAnswer(agent: Runs.Agent, c: StepContent, s: Runs.RunState)
    ensures var turn := agent.TurnOf(ScriptOf(c), s); turn.Responded? ==> turn.response == ResponseOf(c)
  {
    hide Attempts.TurnOutcome, Attempts.Counts;
    var turn, world := agent.TurnOf(ScriptOf(c), s), agent.World(ScriptOf(c));
    if turn.Responded? {
      Attempts.AnsweredIff(world, s.step, s.Meta(), s.failures, turn.response);
      var k: nat :| world.event(k) == Attempts.Answered(turn.response);
      assert world.event(k) == EventOf(c, k);
    }
  }

  /** The counters that a step moves, and the edits it makes. */
  ghost predicate Counted(edits: seq<Edit>, s: Runs.RunState, s': Runs.RunState) {
    && s'.trace.protocolMessages == s.trace.protocolMessages + Count(edits, IsReport)
    && |s'.trace.maxTokensEvents| == |s.trace.maxTokensEvents| + Count(edits, IsCutOff)
    && s'.trace.progressPrompts == s.trace.progressPrompts + Count(edits, IsReminder)
  }

  lemma AnswerIsCounted(agent: Runs.Agent, c: StepContent, s: Runs.RunState, answered: Runs.RunState)
    requires answered.step == s.step && answered.attempt == s.attempt && answered.progressStops == s.progressStops
    ensures Counted(AnswerEdits(agent, c, s), answered, agent.AfterAnswerOf(ScriptOf(c), ResponseOf(c), answered).state)
    ensures Count(AnswerEdits(agent, c, s), IsAttempt) == 0
  {
    var first, rest := [Answered(c.answer)], RecoveryEdits(agent, c, s);
    if !c.responseHookThrows {
      RecoveryIsCounted(agent, c, s, answered);
    }
    hide Count, RecoveryEdits, PhaseOf;
    NoEdits();
    SingleEdit(first[0]);
    CountConcat(first, rest, IsReport);
    CountConcat(first, rest, IsCutOff);
    CountConcat(first, rest, IsReminder);
    CountConcat(first, rest, IsAttempt);
  }

  lemma RecoveryIsCounted(agent: Runs.Agent, c: StepContent, s: Runs.RunState, answered: Runs.RunState)
    requires answered.step == s.step && answered.attempt == s.attempt && answered.progressStops == s.progressStops
    requires !c.responseHookThrows
    ensures Counted(RecoveryEdits(agent, c, s), answered, agent.AfterAnswerOf(ScriptOf(c), ResponseOf(c), answered).state)
    ensures Count(RecoveryEdits(agent, c, s), IsAttempt) == 0
  {
    hide Count;
    NoEdits();
    var rest := RecoveryEdits(agent, c, s);
    if rest != [] {
      SingleEdit(rest[0]);
      assert rest == [rest[0]];
    }
  }

  lemma CountedThen(a: seq<Edit>, b: seq<Edit>, s: Runs.RunState, s': Runs.RunState, s'': Runs.RunState)
    requires Counted(a, s, s') && Counted(b, s', s'')
    ensures Counted(a + b, s, s'')
  {
    hide Count;
    CountConcat(a, b, IsReport);
    CountConcat(a, b, IsCutOff);
    CountConcat(a, b, IsReminder);
  }

  lemma AttemptsAreCounted(agent: Runs.Agent, c: StepContent, s: Runs.RunState)
    ensures var script := ScriptOf(c);
            var turn, attempted := TurnEdits(agent.World(script), c, 0, 0, FIRST), agent.Attempted(script, s);
            && Counted(turn, s, attempted) && Count(turn, IsAttempt) <= agent.CallsPerTurn()
            && attempted.step == s.step && attempted.attempt == s.attempt && attempted.progressStops == s.progressStops
  {
    hide Attempts.TurnOutcome, Attempts.TurnTrace, TurnEdits, Count, Asked;
    var world := agent.World(ScriptOf(c));
    TurnTells(world, c, s.step, s.Meta(), s.failures);
    AttemptsBounded(world, c, 0, 0, FIRST);
  }

  lemma StepIsCounted(agent: Runs.Agent, c: StepContent, s: Runs.RunState)
    ensures Counted(StepEdits(agent, c, s), s, agent.StepOf(ScriptOf(c), s).state)
    ensures Count(StepEdits(agent, c, s), IsAttempt) <= agent.CallsPerTurn()
  {
    hide Attempts.TurnOutcome, Attempts.TurnTrace, TurnEdits, Count, Counted, AnswerEdits;
    if c.startHookThrows || c.startBlocked.Some? || c.abortedAtStart {
      NothingCounted(s, agent.StepOf(ScriptOf(c), s).state);
    } else {
      var turn, answer := TurnEdits(agent.World(ScriptOf(c)), c, 0, 0, FIRST), AnswerEdits(agent, c, s);
      var attempted := agent.Attempted(ScriptOf(c), s);
      AttemptsAreCounted(agent, c, s);
      ReplyIsAnswer(agent, c, s);
      AnswerIsCounted(agent, c, s, attempted);
      CountConcat(turn, answer, IsAttempt);
      NoEdits();
      assert turn + [] == turn;
      if agent.TurnOf(ScriptOf(c), s).Responded? {
        CountedThen(turn, answer, s, attempted, agent.StepOf(ScriptOf(c), s).state);
      } else {
        NothingCounted(attempted, agent.StepOf(ScriptOf(c), s).state);
        CountedThen(turn, [], s, attempted, agent.StepOf(ScriptOf(c), s).state);
      }
    }
  }

  lemma NothingCounted(s: Runs.RunState, s': Runs.RunState)
    requires s'.trace.protocolMessages == s.trace.protocolMessages && s'.trace.maxTokensEvents == s.trace.maxTokensEvents
    requires s'.trace.progressPrompts == s.trace.progressPrompts
    ensures Counted([], s, s') && Count([], IsAttempt) == 0
  {
  }

  lemma NoEdits()
    ensures forall kind: Edit -> bool :: Count([], kind) == 0
  {
  }

  // ----- the whole run -----

  lemma EditsUnfold(agent: Runs.Agent, contents: nat -> StepContent, s: Runs.RunState)
    requires Runs.AtHead(s, agent.maxTokensLimit, agent.CallsPerTurn()) && 0 <= s.step
    ensures if s.step >= agent.maxSteps then EditsFrom(agent, contents, s) == []
            else
              var end := agent.StepOf(ScriptOf(contents(s.step)), s);
              if end.outcome.Some? then EditsFrom(agent, contents, s) == StepEdits(agent, contents(s.step), s)
              else
                && Runs.AtHead(end.state, agent.maxTokensLimit, agent.CallsPerTurn()) && end.state.step == s.step + 1
                && EditsFrom(agent, contents, s) == StepEdits(agent, contents(s.step), s) + EditsFrom(agent, contents, end.state)
  {
    hide StepEdits, Runs.Agent.StepOf;
    agent.RunUnfolds(Scripts(contents), s);
    if s.step < agent.maxSteps {
      assert StepEdits(agent, contents(s.step), s) + [] == StepEdits(agent, contents(s.step), s);
    }
  }

  /**
   * The counters of a run are the numbers of its edits: one report for each missing result, one reduction for
   * each cut-off answer, one reminder for each mere announcement; and the attempts are bounded by the steps.
   */
  lemma {:induction false} RunIsCounted(agent: Runs.Agent, contents: nat -> StepContent, s: Runs.RunState)
    requires Runs.AtHead(s, agent.maxTokensLimit, agent.CallsPerTurn()) && 0 <= s.step
    ensures var edits, end := EditsFrom(agent, contents, s), agent.RunFrom(Scripts(contents), s);
            && Counted(edits, s, end.state)
            && Count(edits, IsAttempt) <= (|end.state.trace.heads| - |s.trace.heads|) * agent.CallsPerTurn()
    decreases agent.maxSteps - s.step
  {
    hide Counted, Count, StepEdits, EditsFrom, Runs.AtHead, Runs.Agent.StepOf, Runs.Agent.RunFrom;
    agent.RunUnfolds(Scripts(contents), s);
    EditsUnfold(agent, contents, s);
    if s.step < agent.maxSteps {
      var c := contents(s.step);
      var end := agent.StepOf(ScriptOf(c), s);
      var calls, last := agent.CallsPerTurn(), agent.RunFrom(Scripts(contents), s).state;
      StepIsCounted(agent, c, s);
      StepHasHead(agent, c, s);
      if end.outcome == None {
        RunIsCounted(agent, contents, end.state);
        var rest := EditsFrom(agent, contents, end.state);
        CountedThen(StepEdits(agent, c, s), rest, s, end.state, last);
        CountConcat(StepEdits(agent, c, s), rest, IsAttempt);
        var done := |last.trace.heads| - |end.state.trace.heads|;
        assert (done + 1) * calls == done * calls + calls;
      }
    } else {
      NothingCounted(s, s);
    }
  }

  lemma StepHasHead(agent: Runs.Agent, c: StepContent, s: Runs.RunState)
    ensures |agent.StepOf(ScriptOf(c), s).state.trace.heads| == |s.trace.heads| + 1
  {
    hide Attempts.TurnOutcome, Attempts.TurnTrace;
  }

  /** Over a whole run, with the start of the run in front. */
  lemma WholeRunIsCounted(agent: Runs.Agent, prompt: string, contents: nat -> StepContent)
    ensures var edits, trace := RunEdits(agent, prompt, contents), agent.Run(Scripts(contents)).state.trace;
            && trace.protocolMessages == Count(edits, IsReport)
            && |trace.maxTokensEvents| == Count(edits, IsCutOff)
            && trace.progressPrompts == Count(edits, IsReminder)
            && Count(edits, IsAttempt) <= |trace.heads| * agent.CallsPerTurn() <= Max(0, agent.maxSteps) * agent.CallsPerTurn()
  {
    hide EditsFrom, Count, Runs.AtHead, Runs.Agent.RunFrom, Runs.Agent.CallsPerTurn;
    agent.RunStarts(Scripts(contents));
    RunIsCounted(agent, contents, Runs.First());
    agent.RunKeeps(Scripts(contents), Runs.First());
    agent.EndFacts(agent.Run(Scripts(contents)));
    var rest := EditsFrom(agent, contents, Runs.First());
    SingleEdit(RunStarts(prompt));
    CountConcat([RunStarts(prompt)], rest, IsReport);
    CountConcat([RunStarts(prompt)], rest, IsCutOff);
    CountConcat([RunStarts(prompt)], rest, IsReminder);
    CountConcat([RunStarts(prompt)], rest, IsAttempt);
  }

  lemma {:induction false} SentAtMost(s: Settings, hs: seq<Stored>, edits: seq<Edit>)
    requires |hs| == |edits| + 1
    ensures |SentAlong(s, hs, edits)| <= Count(edits, IsAttempt)
    decreases |edits|
  {
    hide Count, Sent;
    if edits != [] {
      var n := |edits| - 1;
      SentAtMost(s, hs[..|edits|], edits[..n]);
      assert edits == edits[..n] + [edits[n]];
      CountConcat(edits[..n], [edits[n]], IsAttempt);
      SingleEdit(edits[n]);
    } else {
      NoEdits();
    }
  }

  /** Whatever a run meets, it sends no more payloads than its steps allow attempts, and each obeys the protocol. */
  lemma PayloadsBounded(agent: Runs.Agent, s: Settings, hs: seq<Stored>, prompt: string, contents: nat -> StepContent)
    requires IsTrace(s, hs, RunEdits(agent, prompt, contents))
    ensures var sent := SentAlong(s, hs, RunEdits(agent, prompt, contents));
            && |sent| <= Max(0, agent.maxSteps) * agent.CallsPerTurn()
            && forall payload :: payload in sent ==> WellFormed(payload)
  {
    hide WellFormed, Edited, RunEdits, Count, SentAlong, Runs.Agent.Run, Runs.Agent.CallsPerTurn;
    var edits := RunEdits(agent, prompt, contents);
    WholeRunIsCounted(agent, prompt, contents);
    SentAtMost(s, hs, edits);
    SentObeys(s, hs, edits);
  }

  lemma {:induction false} SentObeys(s: Settings, hs: seq<Stored>, edits: seq<Edit>)
    requires |hs| == |edits| + 1
    ensures forall payload :: payload in SentAlong(s, hs, edits) ==> WellFormed(payload)
    decreases |edits|
  {
    hide WellFormed, Sent;
    if edits != [] {
      var n := |edits| - 1;
      SentObeys(s, hs[..|edits|], edits[..n]);
      if edits[n].Attempt? {
        SentIff(s, hs[n], edits[n].request, edits[n].hook, hs[|edits|].messages);
      }
    }
  }

  // ----- what the outcome of a run says about the history -----

  /** The run ended by itself: it threw nothing and was not cancelled. */
  predicate EndsByItself(outcome: Runs.RunOutcome) {
    outcome.Returned? && outcome.result.finishReason != Attempts.CancelledByUser
  }

  ghost predicate NoCutOff(edits: seq<Edit>) {
    forall e :: e in edits ==> !e.CutOff?
  }

  lemma {:induction false} NoneCounted(edits: seq<Edit>)
    ensures Count(edits, IsCutOff) == 0 <==> NoCutOff(edits)
  {
    if edits != [] {
      NoneCounted(edits[1..]);
      assert edits == [edits[0]] + edits[1..];
    }
  }

  /** A tool phase that completed has closed its bundle. */
  lemma CompletedCloses(answer: ProviderAnswer)
    requires UsableIds(answer.calls) && PhaseOf(answer).ToolsCompleted?
    ensures Harmless(Answered(answer))
  {
    hide UsableIds;
  }

  /** A step that does not end the run by a throw or a cancellation makes only harmless edits and reductions. */
  lemma StepIsHarmless(agent: Runs.Agent, c: StepContent, s: Runs.RunState)
    requires UsableIds(c.answer.calls)
    requires var end := agent.StepOf(ScriptOf(c), s); end.outcome == None || EndsByItself(end.outcome.value)
    ensures forall e :: e in StepEdits(agent, c, s) ==> Harmless(e) || e.CutOff?
  {
    hide Attempts.TurnOutcome, Attempts.TurnTrace, TurnEdits, UsableIds, Closes;
    if !c.startHookThrows && c.startBlocked == None && !c.abortedAtStart {
      var world := agent.World(ScriptOf(c));
      TurnTells(world, c, s.step, s.Meta(), s.failures);
      ReplyIsAnswer(agent, c, s);
      if agent.TurnOf(ScriptOf(c), s).Responded? && !c.responseHookThrows {
        assert PhaseOf(c.answer).ToolsCompleted?;
        CompletedCloses(c.answer);
      }
    }
  }

  lemma {:induction false} RunIsHarmless(agent: Runs.Agent, contents: nat -> StepContent, s: Runs.RunState)
    requires Runs.AtHead(s, agent.maxTokensLimit, agent.CallsPerTurn()) && 0 <= s.step
    requires forall i: nat :: UsableIds(contents(i).answer.calls)
    requires EndsByItself(agent.RunFrom(Scripts(contents), s).outcome)
    ensures forall e :: e in EditsFrom(agent, contents, s) ==> Harmless(e) || e.CutOff?
    decreases agent.maxSteps - s.step
  {
    hide StepEdits, EditsFrom, Runs.AtHead, Runs.Agent.StepOf, Runs.Agent.RunFrom, UsableIds, Harmless;
    agent.RunUnfolds(Scripts(contents), s);
    EditsUnfold(agent, contents, s);
    if s.step < agent.maxSteps {
      var end := agent.StepOf(ScriptOf(contents(s.step)), s);
      StepIsHarmless(agent, contents(s.step), s);
      if end.outcome == None {
        RunIsHarmless(agent, contents, end.state);
      }
    }
  }

  lemma HarmlessBreaksNothing(s: Settings, h: Stored, edit: Edit)
    requires Harmless(edit)
    ensures EffectOf(s, h, edit) != Breaks
  {
    hide WellFormed, Closes, IsCompressed;
  }

  /**
   * From the outcome of a run to the history it leaves: a run that ends by itself and met no cut-off answer
   * keeps a history that obeyed the protocol so throughout, as long as the answers' calls have usable ids.
   */
  lemma RunKeepsProtocol(agent: Runs.Agent, s: Settings, hs: seq<Stored>, prompt: string, contents: nat -> StepContent)
    requires IsTrace(s, hs, RunEdits(agent, prompt, contents)) && WellFormed(hs[0].messages)
    requires forall i: nat :: UsableIds(contents(i).answer.calls)
    requires var end := agent.Run(Scripts(contents)); EndsByItself(end.outcome) && end.state.trace.maxTokensEvents == []
    ensures forall k :: 0 <= k < |hs| ==> WellFormed(hs[k].messages)
  {
    hide WellFormed, Edited, EditsFrom, Count, UsableIds, Harmless, EffectOf, EndsByItself, Runs.AtHead, Runs.Agent.RunFrom;
    var edits := RunEdits(agent, prompt, contents);
    agent.RunStarts(Scripts(contents));
    RunIsHarmless(agent, contents, Runs.First());
    WholeRunIsCounted(agent, prompt, contents);
    NoneCounted(edits);
    StartIsHarmless(prompt);
    forall j: nat | j < |edits| ensures EffectOf(s, hs[j], edits[j]) != Breaks {
      assert edits[j] in edits;
      HarmlessBreaksNothing(s, hs[j], edits[j]);
    }
    OnlyHarmBreaks(s, hs, edits);
  }

  lemma StartIsHarmless(prompt: string)
    ensures Harmless(RunStarts(prompt))
  {
  }

  ghost predicate NoResets(edits: seq<Edit>) {
    forall e :: e in edits ==> !Resets(e)
  }

  lemma StepResetsNothing(agent: Runs.Agent, c: StepContent, s: Runs.RunState)
    ensures NoResets(StepEdits(agent, c, s))
  {
    hide Attempts.TurnOutcome, Attempts.TurnTrace, TurnEdits;
    TurnTells(agent.World(ScriptOf(c)), c, s.step, s.Meta(), s.failures);
  }

  lemma {:induction false} RunResetsOnce(agent: Runs.Agent, contents: nat -> StepContent, s: Runs.RunState)
    requires Runs.AtHead(s, agent.maxTokensLimit, agent.CallsPerTurn()) && 0 <= s.step
    ensures NoResets(EditsFrom(agent, contents, s))
    decreases agent.maxSteps - s.step
  {
    hide StepEdits, EditsFrom, Runs.AtHead, Runs.Agent.StepOf;
    EditsUnfold(agent, contents, s);
    if s.step < agent.maxSteps {
      var end := agent.StepOf(ScriptOf(contents(s.step)), s);
      StepResetsNothing(agent, contents(s.step), s);
      if end.outcome == None {
        RunResetsOnce(agent, contents, end.state);
      }
    }
  }

  lemma TraceTail(s: Settings, hs: seq<Stored>, edits: seq<Edit>)
    requires IsTrace(s, hs, edits) && edits != []
    ensures IsTrace(s, hs[1..], edits[1..]) && Edited(s, hs[0], edits[0], hs[1])
  {
    hide Edited;
    forall i: nat | i < |edits[1..]| ensures Edited(s, hs[1..][i], edits[1..][i], hs[1..][i + 1]) {
      assert Edited(s, hs[i + 1], edits[i + 1], hs[i + 2]);
    }
  }

  /**
   * A whole run gives no checkpoint id twice, whatever it meets, exactly when no message it finds carries the
   * first id; here on a history whose ids are different and not above one.
   */
  lemma RunKeepsIds(agent: Runs.Agent, s: Settings, hs: seq<Stored>, prompt: string, contents: nat -> StepContent)
    requires IsTrace(s, hs, RunEdits(agent, prompt, contents)) && Unique(hs[0].messages) && Covers(1, hs[0].messages)
    ensures (forall k :: 0 <= k < |hs| ==> Unique(hs[k].messages)) <==> Fresh(CheckpointId(1), hs[0].messages)
  {
    hide Edited, EditsFrom, Unique, Covers, CheckpointId, Fresh, Runs.AtHead;
    var edits := RunEdits(agent, prompt, contents);
    agent.FirstAtHead();
    RunResetsOnce(agent, contents, Runs.First());
    TraceTail(s, hs, edits);
    var rest := EditsFrom(agent, contents, Runs.First());
    assert edits[1..] == rest;
    ResetKeepsIdsIff(s, hs[0], prompt, hs[1]);
    if Fresh(CheckpointId(1), hs[0].messages) {
      forall k | 0 <= k < |hs| ensures Unique(hs[k].messages) {
        if k > 0 {
          assert forall j :: 0 <= j < k - 1 ==> rest[j] in rest;
          UniqueBetweenResets(s, hs[1..], rest, k - 1);
          assert hs[1..][k - 1] == hs[k];
        }
      }
    }
  }
}
