/**
 * What becomes of the stored history, and of everything sent to the provider, over any number
 * of runs. A run edits the history only in the ways listed here (src/agent/Agent.ts,
 * src/agent/AgentLlmAttemptService.ts, src/agent/TurnRecoveryOrchestrator.ts); the edits may
 * come in any order, so every order that a run can produce is covered.
 */
module RunHistory {
  import opened Messages
  import opened Text
  import opened ToolProtocol
  import opened WindowTrim
  import opened ContextOverflow
  import opened Precompress
  import opened Store
  import opened ToolCalls
  import opened HistoryReduction
  import AgentProfiles

  // ----- what is sent to the provider -----

  /** Sanitised, trimmed to the window, and sanitised again. */
  function PreparedForModel(messages: seq<Message>, options: TrimOptions, size: Message -> nat): seq<Message> {
    Sanitized(Trimmed(Sanitized(messages).messages, options, size).messages).messages
  }

  method PrepareMessagesForModel(messages: seq<Message>, options: TrimOptions, size: Message -> nat)
    returns (prepared: seq<Message>)
    ensures prepared == PreparedForModel(messages, options, size)
    ensures WellFormed(prepared) && Canonical(prepared)
    ensures Canonical(messages) && TotalChars(size, messages) <= options.maxTotalChars ==> prepared == messages
  {
    hide WellFormed, Canonical, TotalChars;
    var before, _ := SanitizeMessagesForToolProtocol(messages);
    var trimmed := TrimMessagesForContextWindow(before.messages, options, size);
    var after, _ := SanitizeMessagesForToolProtocol(trimmed.messages);
    SanitizeFixpointIff(messages);
    SanitizedIsWellFormed(trimmed.messages);
    SanitizedIsCanonical(trimmed.messages);
    SanitizeFixpointIff(trimmed.messages);
    prepared := after.messages;
  }

  /** Each message with the content that the projection shows of it. */
  function Rendered(ms: seq<Message>, render: Message -> string): (r: seq<Message>)
    ensures |r| == |ms| && forall i :: 0 <= i < |ms| ==> r[i] == ms[i].(content := render(ms[i]))
  {
    seq(|ms|, i requires 0 <= i < |ms| => ms[i].(content := render(ms[i])))
  }

  /** The payload made of the stored messages. */
  function Projected(
    messages: seq<Message>, systemPrompt: string, options: TrimOptions, size: Message -> nat, render: Message -> string): seq<Message>
  {
    var prompt := if systemPrompt == "" then [] else [Plain(System, systemPrompt)];
    Body(PreparedForModel(prompt + Sanitized(Rendered(messages, render)).messages, options, size))
  }

  lemma ProjectedObeys(
    messages: seq<Message>, systemPrompt: string, options: TrimOptions, size: Message -> nat, render: Message -> string)
    ensures WellFormed(Projected(messages, systemPrompt, options, size, render))
  {
    hide WellFormed, Sanitized, Trimmed;
    var prompt := if systemPrompt == "" then [] else [Plain(System, systemPrompt)];
    var withSystem := prompt + Sanitized(Rendered(messages, render)).messages;
    SanitizedIsWellFormed(Trimmed(Sanitized(withSystem).messages, options, size).messages);
    BodyWellFormed(PreparedForModel(withSystem, options, size));
  }

  /** The payload obeys the protocol whatever is stored, and is just that when it is canonical, shown in full, and fits. */
  method ProjectForProvider(
    messages: seq<Message>, systemPrompt: string, options: TrimOptions, size: Message -> nat, render: Message -> string)
    returns (payload: seq<Message>)
    ensures payload == Projected(messages, systemPrompt, options, size, render)
    ensures WellFormed(payload)
    ensures var prompt := if systemPrompt == "" then [] else [Plain(System, systemPrompt)];
            Canonical(messages) && Rendered(messages, render) == messages && !HasSystem(messages)
            && TotalChars(size, prompt + messages) <= options.maxTotalChars
            ==> payload == messages
  {
    hide WellFormed, Canonical, TotalChars, PreparedForModel;
    var prompt := if systemPrompt == "" then [] else [Plain(System, systemPrompt)];
    var sanitized, _ := SanitizeMessagesForToolProtocol(Rendered(messages, render));
    SanitizeFixpointIff(messages);
    var withSystem := prompt + sanitized.messages;
    if Canonical(messages) {
      PromptIsCanonical(prompt, messages);
    }
    var prepared := PrepareMessagesForModel(withSystem, options, size);
    BodyWellFormed(prepared);
    payload := Body(prepared);
    if sanitized.messages == messages && prepared == withSystem && !HasSystem(messages) {
      assert payload == messages;
    }
  }

  lemma PromptIsCanonical(prompt: seq<Message>, messages: seq<Message>)
    requires Canonical(messages) && |prompt| <= 1 && forall m :: m in prompt ==> m.role == System
    ensures Canonical(prompt + messages)
  {
    if prompt == [] {
      assert prompt + messages == messages;
    } else {
      assert (prompt + messages)[1..] == messages;
    }
  }

  /**
   * What the input hook answers: nothing, other messages, or another text for the last user message; or it
   * blocks the input or throws, and nothing is sent.
   */
  datatype InputHook =
    | KeepInput
    | ReplaceMessages(messages: seq<Message>)
    | ReplaceInput(text: string)
    | BlockInput(message: string)
    | ThrowFromHook(error: string)
  {
    predicate Passes() {
      !BlockInput? && !ThrowFromHook?
    }
  }

  function Patched(patch: InputHook, contentMessages: seq<Message>): seq<Message>
    requires patch.Passes()
  {
    match patch
    case KeepInput => contentMessages
    case ReplaceMessages(messages) => messages
    case ReplaceInput(text) =>
      var at := AgentProfiles.LatestUser(contentMessages);
      if at < 0 then contentMessages + [Plain(User, text)]
      else contentMessages[at := contentMessages[at].(content := text)]
  }

  /** Another text for a user message neither helps nor harms the protocol. */
  lemma PatchedKeeps(patch: InputHook, contentMessages: seq<Message>)
    requires patch.Passes() && !patch.ReplaceMessages?
    ensures WellFormed(Patched(patch, contentMessages)) <==> WellFormed(contentMessages)
  {
    hide WellFormed;
    if patch.ReplaceInput? {
      if AgentProfiles.LatestUser(contentMessages) >= 0 {
        SameFieldsSameProtocol(contentMessages, Patched(patch, contentMessages));
      } else {
        WellFormedSingle(Plain(User, patch.text));
        JoinWellFormedIff(contentMessages, [Plain(User, patch.text)]);
      }
    }
  }

  method ApplyInputHookModified(patch: InputHook, contentMessages: seq<Message>) returns (r: seq<Message>)
    requires patch.Passes()
    ensures r == Patched(patch, contentMessages)
    ensures !patch.ReplaceMessages? ==> (WellFormed(r) <==> WellFormed(contentMessages))
  {
    hide WellFormed;
    if !patch.ReplaceMessages? {
      PatchedKeeps(patch, contentMessages);
    }
    match patch {
      case KeepInput => r := contentMessages;
      case ReplaceMessages(messages) => r := messages;
      case ReplaceInput(text) =>
        var lastUserIndex := AgentProfiles.FindLatestUser(contentMessages);
        if lastUserIndex >= 0 {
          r := contentMessages[lastUserIndex := contentMessages[lastUserIndex].(content := text)];
        } else {
          r := contentMessages + [Plain(User, text)];
        }
    }
  }

  /** The last check before the request; system messages travel separately. */
  method CheckedPayload(prepared: seq<Message>) returns (sent: Option<seq<Message>>)
    ensures sent.Some? <==> WellFormed(prepared)
    ensures sent.Some? ==> sent.value == WithoutSystem(prepared) && WellFormed(sent.value)
  {
    var error := AssertReplaySafeToolProtocol(prepared);
    if error.Some? {
      return None;
    }
    WithoutSystemWellFormed(prepared);
    sent := Some(WithoutSystem(prepared));
  }

  // ----- the edits of a run -----

  /** A provider's answer with its tool phase. */
  datatype ProviderAnswer = ProviderAnswer(
    content: string, calls: seq<ToolCall>, scripts: nat -> CallScript, runningInput: Option<string>)

  /** Everything a run does to the stored history, with what it meets outside. */
  datatype Edit =
    | RunStarts(prompt: string)
    | RunRefused
    | Attempt(request: PrecompressRequest, hook: InputHook)
    | TrimForced
    | ProtocolFailed(note: string)
    | StreamInterrupted(content: string)
    | Answered(answer: ProviderAnswer)
    | CutOff(step: int, previousAttempt: nat, compressor: CompressorAnswer)
    | ProgressOnly(note: string)
    | SummaryAsked(summary: SummaryRequest)

  /** What stays the same over all runs. */
  datatype Settings = Settings(
    precompress: PrecompressSettings, host: CompressionHost, window: TrimOptions, render: Message -> string,
    forcedTrim: TrimOptions, recoveryTrim: TrimOptions, size: Message -> nat, maxRecoveries: nat)

  /** The assistant turn of an answer as it is stored; a turn with calls carries a checkpoint. */
  function Turn(h: Stored, answer: ProviderAnswer): Message {
    var turn := Plain(Assistant, answer.content).(toolCalls := answer.calls);
    if answer.calls == [] then turn
    else turn.(checkpointId := Some(CheckpointId(h.checkpointCounter + 1)), checkpointReason := Some("assistant_toolcall"))
  }

  // ----- the history after an edit -----

  /** After an attempt: profile references normalised, and the older part compressed when that is due. */
  ghost predicate Attempted(s: Settings, h: Stored, request: PrecompressRequest, h': Stored) {
    var ms := AgentProfiles.NormalizedHistory(h.messages);
    && h'.pending == h.pending
    && (if IsCompressed(s, h, request) then
          h'.checkpointCounter == h.checkpointCounter + 1
          && exists older, tail, chunks ::
               Compresses(s.host, s.precompress, request, ms, older, tail, chunks)
               && h'.messages == Sanitized(Around(ms, Outcome(s.host, chunks), h'.checkpointCounter, tail)).messages
        else h'.messages == ms && h'.checkpointCounter == h.checkpointCounter)
  }

  /** The compressor throws while the history is prepared, and the attempt ends with that. */
  ghost predicate CompressorThrows(s: Settings, h: Stored, request: PrecompressRequest) {
    exists older, tail, chunks ::
      && Tries(s.host, s.precompress, request, AgentProfiles.NormalizedHistory(h.messages), older, tail, chunks)
      && OutcomeOf(Outcome(s.host, chunks)) == CompressionThrew
  }

  ghost predicate IsCompressed(s: Settings, h: Stored, request: PrecompressRequest) {
    exists older, tail, chunks ::
      Compresses(s.host, s.precompress, request, AgentProfiles.NormalizedHistory(h.messages), older, tail, chunks)
  }

  /** With the turn of an answer stored. */
  function WithTurn(h: Stored, answer: ProviderAnswer): Stored {
    h.(messages := h.messages + [Turn(h, answer)],
       checkpointCounter := h.checkpointCounter + if answer.calls == [] then 0 else 1)
  }

  /** After an answer and its tool phase. */
  function AnsweredBy(h: Stored, answer: ProviderAnswer): Stored {
    ToolPhase(WithTurn(h, answer), answer.calls, answer.scripts, answer.runningInput)
  }

  /** Every call has its result and the ids are usable. */
  predicate Closes(answer: ProviderAnswer) {
    Delivered(answer.scripts, |answer.calls|) == |answer.calls| && UsableIds(answer.calls)
  }

  /** After a cut-off answer: compacted, compressed or trimmed, and asked to continue while attempts remain. */
  function CutDown(s: Settings, h: Stored, previousAttempt: nat, compressor: CompressorAnswer): Stored {
    h.(messages :=
      Recovered(Compacted(h.messages).messages, compressor, s.recoveryTrim, s.size)
      + if previousAttempt < s.maxRecoveries then [ContinuationPrompt(previousAttempt + 1, s.maxRecoveries)] else [])
  }

  /** `h'` is what the edit makes of `h`. */
  ghost predicate Edited(s: Settings, h: Stored, edit: Edit, h': Stored) {
    match edit
    case RunStarts(prompt) => h' == Stored(h.messages + [UserMessage(prompt, 1)], 1, None)
    case RunRefused => h' == Stored(h.messages, 0, None)
    case Attempt(request, _) => Attempted(s, h, request, h')
    case TrimForced => h' == h.(messages := Sanitized(Trimmed(h.messages, s.forcedTrim, s.size).messages).messages)
    case ProtocolFailed(note) => h' == h.(messages := h.messages + [Plain(User, note)])
    case StreamInterrupted(content) =>
      h' == if Trim(content) == "" then h else h.(messages := h.messages + [Plain(Assistant, content)])
    case Answered(answer) => h' == AnsweredBy(h, answer)
    case CutOff(_, previousAttempt, compressor) => h' == CutDown(s, h, previousAttempt, compressor)
    case ProgressOnly(note) => h' == h.(messages := h.messages + [Plain(User, note)])
    case SummaryAsked(summary) => h' == if AmongLatest(h.messages, summary.checkpointId) then h.(pending := Some(summary)) else h
  }

  // ----- what an edit means for the protocol -----

  datatype Effect = Keeps | Repairs | Breaks

  /** What the edit does to this history, told beforehand from the history and what the edit meets. */
  ghost function EffectOf(s: Settings, h: Stored, edit: Edit): Effect {
    match edit
    case Attempt(request, _) => if IsCompressed(s, h, request) then Repairs else Keeps
    case TrimForced => Repairs
    case Answered(answer) =>
      if answer.calls == [] then Keeps
      else if Summarises(WithTurn(h, answer).messages, answer.calls, answer.scripts, h.pending) then Repairs
      else if Closes(answer) then Keeps
      else Breaks
    case CutOff(_, _, compressor) =>
      if WellFormed(h.messages) then
        if RecoveryCuts(h.messages, compressor, s.recoveryTrim, s.size) then Breaks else Keeps
      else if WellFormed(RecoveryKeeps(Compacted(h.messages).messages, compressor, s.recoveryTrim, s.size)) then Repairs
      else Keeps
    case _ => Keeps
  }

  /** The effect is right: what it says is what became of the protocol. */
  lemma EffectIsRight(s: Settings, h: Stored, edit: Edit, h': Stored)
    requires Edited(s, h, edit, h')
    ensures match EffectOf(s, h, edit)
            case Keeps => WellFormed(h'.messages) <==> WellFormed(h.messages)
            case Repairs => WellFormed(h'.messages)
            case Breaks => !WellFormed(h'.messages)
  {
    hide WellFormed, Sanitized, Compacted, Recovered, RecoveryKeeps, RecoveryCuts, Trimmed, Progress, Compresses, Around;
    hide AgentProfiles.NormalizedHistory, Summarises, Closes, Outcome, ContinuationPrompt, AnsweredBy, WithTurn;
    match edit {
      case RunStarts(prompt) =>
        PlainAppended(h.messages, UserMessage(prompt, 1));
      case RunRefused =>
      case Attempt(request, _) =>
        AttemptedEffect(s, h, request, h');
      case TrimForced =>
        SanitizedIsWellFormed(Trimmed(h.messages, s.forcedTrim, s.size).messages);
      case ProtocolFailed(note) =>
        PlainAppended(h.messages, Plain(User, note));
      case StreamInterrupted(content) =>
        PlainAppended(h.messages, Plain(Assistant, content));
      case Answered(answer) =>
        AnswerEffect(h, answer);
      case CutOff(_, previousAttempt, compressor) =>
        CutDownEffect(s, h, previousAttempt, compressor);
      case ProgressOnly(note) =>
        PlainAppended(h.messages, Plain(User, note));
      case SummaryAsked(_) =>
    }
  }

  lemma AnswerEffect(h: Stored, answer: ProviderAnswer)
    ensures var after, turn := AnsweredBy(h, answer), WithTurn(h, answer);
            if answer.calls != [] && Summarises(turn.messages, answer.calls, answer.scripts, h.pending) then
              WellFormed(after.messages)
            else
              WellFormed(after.messages) <==> WellFormed(h.messages) && (answer.calls == [] || Closes(answer))
  {
    hide WellFormed, Summarises, Delivered, UsableIds;
    var turn := WithTurn(h, answer);
    if answer.calls == [] {
      PlainAppended(h.messages, Turn(h, answer));
    } else {
      assert turn.messages[..|turn.messages| - 1] == h.messages;
      hide ToolPhase;
      ToolPhaseWellFormedIff(turn, answer.calls, answer.scripts, answer.runningInput);
    }
  }

  lemma AttemptedEffect(s: Settings, h: Stored, request: PrecompressRequest, h': Stored)
    requires Attempted(s, h, request, h')
    ensures if IsCompressed(s, h, request) then WellFormed(h'.messages)
            else WellFormed(h'.messages) <==> WellFormed(h.messages)
  {
    hide WellFormed, Sanitized, Compresses, Around, AgentProfiles.NormalizedHistory, Outcome;
    var ms := AgentProfiles.NormalizedHistory(h.messages);
    ProfilesKeepProtocol(h.messages);
    if IsCompressed(s, h, request) {
      var older, tail, chunks :|
        Compresses(s.host, s.precompress, request, ms, older, tail, chunks)
        && h'.messages == Sanitized(Around(ms, Outcome(s.host, chunks), h'.checkpointCounter, tail)).messages;
      SanitizedIsWellFormed(Around(ms, Outcome(s.host, chunks), h'.checkpointCounter, tail));
    }
  }

  lemma CutDownEffect(s: Settings, h: Stored, previousAttempt: nat, compressor: CompressorAnswer)
    ensures var after := CutDown(s, h, previousAttempt, compressor).messages;
            if WellFormed(h.messages) then
              WellFormed(after) <==> !RecoveryCuts(h.messages, compressor, s.recoveryTrim, s.size)
            else
              WellFormed(after)
              <==> WellFormed(RecoveryKeeps(Compacted(h.messages).messages, compressor, s.recoveryTrim, s.size))
  {
    hide WellFormed, Compacted, Recovered, RecoveryKeeps, RecoveryCuts, ContinuationPrompt;
    var recovered := Recovered(Compacted(h.messages).messages, compressor, s.recoveryTrim, s.size);
    PromptKeepsProtocol(recovered, previousAttempt + 1, s.maxRecoveries);
    assert recovered + [] == recovered;
    RecoveryKeepsIff(Compacted(h.messages).messages, compressor, s.recoveryTrim, s.size);
    if WellFormed(h.messages) {
      RecoveryWellFormedIff(h.messages, compressor, s.recoveryTrim, s.size);
    }
  }

  lemma PlainAppended(ms: seq<Message>, m: Message)
    requires m.role != Tool && !Calling(m)
    ensures WellFormed(ms + [m]) <==> WellFormed(ms)
  {
    hide WellFormed;
    WellFormedSingle(m);
    JoinWellFormedIff(ms, [m]);
  }

  lemma ProfilesKeepProtocol(ms: seq<Message>)
    ensures WellFormed(AgentProfiles.NormalizedHistory(ms)) <==> WellFormed(ms)
  {
    hide WellFormed, AgentProfiles.Canonical;
    SameFieldsSameProtocol(ms, AgentProfiles.NormalizedHistory(ms));
  }

  // ----- performing the edits -----

  /** The agent as far as it edits the history. */
  class Session {
    const store: MessageStore
    const handler: ContextOverflowHandler
    const recovery: MaxTokensRecoveryService
    const settings: Settings

    constructor (store: MessageStore, handler: ContextOverflowHandler, recovery: MaxTokensRecoveryService, settings: Settings)
      requires recovery.messageStore == store && recovery.contextOverflowHandler == handler && settings.host.Valid()
      requires handler.forcedTrimOptions == settings.forcedTrim && handler.recoveryTrimOptions == settings.recoveryTrim
      requires handler.size == settings.size && recovery.maxAttempts == settings.maxRecoveries
      ensures this.store == store && this.settings == settings && Valid()
    {
      this.store, this.handler, this.recovery, this.settings := store, handler, recovery, settings;
    }

    ghost predicate Valid() {
      && recovery.messageStore == store && recovery.contextOverflowHandler == handler && settings.host.Valid()
      && handler.forcedTrimOptions == settings.forcedTrim && handler.recoveryTrimOptions == settings.recoveryTrim
      && handler.size == settings.size && recovery.maxAttempts == settings.maxRecoveries
    }

    /**
     * One attempt: profile references normalised, the history precompressed if asked, the payload
     * projected, and patched by a hook and checked. Nothing is sent if the compressor or the hook throws, the
     * hook blocks, or it puts in messages of its own that break the protocol.
     */
    method PrepareAttempt(request: PrecompressRequest, hook: InputHook) returns (sent: Option<seq<Message>>)
      requires Valid()
      modifies store`messages, store`checkpointCounter
      ensures Attempted(settings, old(store.State()), request, store.State())
      ensures sent == Sent(settings, old(store.State()), request, hook, store.messages)
      ensures sent.Some? <==>
                && !CompressorThrows(settings, old(store.State()), request)
                && !hook.BlockInput? && !hook.ThrowFromHook?
                && (hook.ReplaceMessages? ==> WellFormed(hook.messages))
      ensures sent.Some? ==> WellFormed(sent.value) && forall m :: m in sent.value ==> m.role != System
    {
      hide WellFormed, Sanitized, SystemPart, Body, AgentProfiles.NormalizedHistory, Around, SplitOff, ChunksFor, Outcome;
      hide AgentProfiles.IsLastReference, AgentProfiles.IsNormalized, Covers, Attempted, Projected, CompressorThrows;
      hide KeepsRounds, SummaryStands;
      ghost var h := store.State();
      var _, _ := AgentProfiles.NormalizeAgentProfileMessagesInPlace(store);
      var outcome, older, tail, chunks := ApplyPrecompressIfNeeded(store, settings.host, settings.precompress, request);
      AttemptedBy(settings, h, request, store.State(), outcome, older, tail, chunks);
      SentIff(settings, h, request, hook, store.messages);
      if outcome == CompressionThrew {
        return None;
      }
      var systemPrompt := if HasSystem(store.messages) then store.messages[0].content else "";
      var payload := ProjectForProvider(
        Body(store.messages), systemPrompt, settings.window, settings.precompress.size, settings.render);
      if !hook.Passes() {
        return None;
      }
      var patched := ApplyInputHookModified(hook, payload);
      sent := CheckedPayload(patched);
    }

    /** The assistant turn of an answer, stored, and its tool phase. */
    method StoreAnswer(answer: ProviderAnswer)
      modifies store
      ensures store.State() == AnsweredBy(old(store.State()), answer)
    {
      hide WellFormed, ToolPhase, RunFate, LeftWithInput, ComesTo;
      ghost var h := store.State();
      var assistant := Plain(Assistant, answer.content).(toolCalls := answer.calls);
      if answer.calls != [] {
        assistant := store.WithCheckpointMetadata(assistant, "assistant_toolcall");
      }
      store.messages := store.messages + [assistant];
      assert store.State() == WithTurn(h, answer);
      var _ := ExecuteAgentToolCallsForTurn(store, answer.calls, answer.scripts, answer.runningInput);
    }

    /** One edit, and what it sends, if anything. */
    method Perform(edit: Edit) returns (sent: Option<seq<Message>>)
      requires Valid()
      modifies store
      ensures Edited(settings, old(store.State()), edit, store.State())
      ensures sent == SentBy(settings, old(store.State()), edit, store.State())
      ensures sent.Some? ==> edit.Attempt? && WellFormed(sent.value) && forall m :: m in sent.value ==> m.role != System
    {
      hide WellFormed, Attempted, AnsweredBy, Compacted, Recovered, RecoveryCuts, Sanitized, Trimmed, LatestCheckpoints;
      hide ContinuationPrompt, RecoveryMode, Sent, RecoveryIs, ListsLatest, CarriedAt;
      sent := None;
      match edit {
        case RunStarts(prompt) =>
          store.ResetRunState();
          store.AddUserMessage(prompt);
        case RunRefused =>
          store.ResetRunState();
        case Attempt(request, hook) =>
          sent := PrepareAttempt(request, hook);
        case TrimForced =>
          var trimmed := handler.ApplyForcedTrim(store.messages);
          store.messages := trimmed.messages;
        case ProtocolFailed(note) =>
          store.messages := store.messages + [Plain(User, note)];
        case StreamInterrupted(content) =>
          assert store.messages + [] == store.messages;
          var saved := store.SaveInterruptedStreamCheckpoint(content);
        case Answered(answer) =>
          StoreAnswer(answer);
        case CutOff(step, previousAttempt, compressor) =>
          var _, _, _ := recovery.HandleMaxTokensRecovery(step, previousAttempt, compressor);
        case ProgressOnly(note) =>
          store.messages := store.messages + [Plain(User, note)];
        case SummaryAsked(summary) =>
          var accepted, available := store.EnqueueSummaryApply(summary);
      }
    }

    /**
     * Any sequence of edits. Whatever came before and however hooks, tools and compressors behave, each
     * payload that is sent obeys the protocol, and the history goes from state to state as the edits say.
     */
    method PerformAll(edits: seq<Edit>) returns (sent: seq<seq<Message>>, ghost hs: seq<Stored>)
      requires Valid()
      modifies store
      ensures IsTrace(settings, hs, edits) && hs[0] == old(store.State()) && hs[|edits|] == store.State()
      ensures sent == SentAlong(settings, hs, edits)
      ensures forall payload :: payload in sent ==> WellFormed(payload) && forall m :: m in payload ==> m.role != System
    {
      hide WellFormed, Edited, SentAlong, SentBy;
      sent, hs := [], [store.State()];
      NothingSent(settings, hs);
      for i := 0 to |edits|
        invariant |hs| == i + 1 && hs[0] == old(store.State()) && hs[i] == store.State()
        invariant IsTrace(settings, hs, edits[..i]) && sent == SentAlong(settings, hs, edits[..i])
        invariant forall payload :: payload in sent ==> WellFormed(payload) && forall m :: m in payload ==> m.role != System
      {
        var payload := Perform(edits[i]);
        TraceExtended(settings, hs, edits[..i], edits[i], store.State());
        SentExtended(settings, hs, edits[..i], edits[i], store.State());
        assert edits[..i + 1] == edits[..i] + [edits[i]];
        if payload.Some? {
          sent := sent + [payload.value];
        }
        hs := hs + [store.State()];
      }
      assert edits[..|edits|] == edits;
    }
  }

  /** The states of a store, one before each edit and one at the end. */
  ghost predicate IsTrace(s: Settings, hs: seq<Stored>, edits: seq<Edit>) {
    |hs| == |edits| + 1 && forall i: nat :: i < |edits| ==> Edited(s, hs[i], edits[i], hs[i + 1])
  }

  /**
   * What an attempt on `h` sends when the store then holds `ms`: nothing if the compressor throws, the hook
   * blocks or throws, or the payload breaks the protocol.
   */
  ghost function Sent(s: Settings, h: Stored, request: PrecompressRequest, hook: InputHook, ms: seq<Message>): Option<seq<Message>> {
    if CompressorThrows(s, h, request) || !hook.Passes() then None
    else
      var systemPrompt := if HasSystem(ms) then ms[0].content else "";
      var patched := Patched(hook, Projected(Body(ms), systemPrompt, s.window, s.precompress.size, s.render));
      if WellFormed(patched) then Some(WithoutSystem(patched)) else None
  }

  ghost function SentBy(s: Settings, h: Stored, edit: Edit, h': Stored): Option<seq<Message>> {
    if edit.Attempt? then Sent(s, h, edit.request, edit.hook, h'.messages) else None
  }

  /**
   * An attempt is sent exactly when neither compressor nor hook throws, the hook does not block, and messages
   * that the hook puts in obey the protocol; and then what is sent obeys it.
   */
  lemma SentIff(s: Settings, h: Stored, request: PrecompressRequest, hook: InputHook, ms: seq<Message>)
    ensures var sent := Sent(s, h, request, hook, ms);
            && (sent.Some? <==>
                  && !CompressorThrows(s, h, request)
                  && !hook.BlockInput? && !hook.ThrowFromHook?
                  && (hook.ReplaceMessages? ==> WellFormed(hook.messages)))
            && (sent.Some? ==> WellFormed(sent.value) && forall m :: m in sent.value ==> m.role != System)
  {
    hide WellFormed, CompressorThrows, PreparedForModel, WithoutSystem;
    if !CompressorThrows(s, h, request) && hook.Passes() {
      var systemPrompt := if HasSystem(ms) then ms[0].content else "";
      var payload := Projected(Body(ms), systemPrompt, s.window, s.precompress.size, s.render);
      ProjectedObeys(Body(ms), systemPrompt, s.window, s.precompress.size, s.render);
      var patched := Patched(hook, payload);
      if !hook.ReplaceMessages? {
        PatchedKeeps(hook, payload);
      }
      if WellFormed(patched) {
        WithoutSystemWellFormed(patched);
        NoSystemLeft(patched);
      }
    }
  }

  /** Everything sent on the way. */
  ghost function SentAlong(s: Settings, hs: seq<Stored>, edits: seq<Edit>): seq<seq<Message>>
    requires |hs| == |edits| + 1
    decreases |edits|
  {
    if edits == [] then []
    else
      var n := |edits| - 1;
      var earlier := SentAlong(s, hs[..|edits|], edits[..n]);
      match SentBy(s, hs[n], edits[n], hs[|edits|])
      case None => earlier
      case Some(payload) => earlier + [payload]
  }

  lemma NothingSent(s: Settings, hs: seq<Stored>)
    requires |hs| == 1
    ensures SentAlong(s, hs, []) == []
  {
  }

  lemma SentExtended(s: Settings, hs: seq<Stored>, edits: seq<Edit>, edit: Edit, h': Stored)
    requires |hs| == |edits| + 1
    ensures var payload := SentBy(s, hs[|edits|], edit, h');
            SentAlong(s, hs + [h'], edits + [edit])
            == SentAlong(s, hs, edits) + (if payload.Some? then [payload.value] else [])
  {
    hide SentBy;
    assert (hs + [h'])[..|hs|] == hs && (edits + [edit])[..|edits|] == edits;
  }

  lemma TraceExtended(s: Settings, hs: seq<Stored>, edits: seq<Edit>, edit: Edit, h': Stored)
    requires IsTrace(s, hs, edits) && Edited(s, hs[|edits|], edit, h')
    ensures IsTrace(s, hs + [h'], edits + [edit])
  {
    hide Edited;
  }

  lemma AttemptedBy(
    s: Settings, h: Stored, request: PrecompressRequest, h': Stored,
    outcome: PrecompressOutcome, older: seq<Message>, tail: seq<Message>, chunks: seq<seq<Message>>)
    requires var ms := AgentProfiles.NormalizedHistory(h.messages);
      && h'.pending == h.pending
      && (outcome != NotNeeded ==> SplitOff(Body(ms), request.KeepRounds(s.precompress), older, tail))
      && (outcome != NotNeeded && |older| > 2 ==> ChunksFor(s.host, older, s.precompress.size, s.precompress.chunkChars, chunks))
      && outcome == (if !request.Triggers() then NotNeeded
                     else if |older| <= 2 || chunks == [] then Skipped
                     else OutcomeOf(Outcome(s.host, chunks)))
      && (!outcome.Applied? ==> h'.messages == ms && h'.checkpointCounter == h.checkpointCounter)
      && (outcome.Applied? ==>
            h'.checkpointCounter == h.checkpointCounter + 1
            && h'.messages == Sanitized(Around(ms, outcome.result, h'.checkpointCounter, tail)).messages)
    ensures Attempted(s, h, request, h') && (outcome == CompressionThrew <==> CompressorThrows(s, h, request))
  {
    hide SplitOff, ChunksFor, Outcome, Sanitized, Around, AgentProfiles.NormalizedHistory, Body, ShouldTriggerPrecompress;
    var ms := AgentProfiles.NormalizedHistory(h.messages);
    forall older', tail', chunks' | Tries(s.host, s.precompress, request, ms, older', tail', chunks')
      ensures older' == older && tail' == tail && chunks' == chunks
    {
      TriesUnique(s.host, s.precompress, request, ms, older', tail', chunks', older, tail, chunks);
    }
    if outcome.Applied? {
      assert Compresses(s.host, s.precompress, request, ms, older, tail, chunks);
    } else if outcome == CompressionThrew {
      assert Tries(s.host, s.precompress, request, ms, older, tail, chunks);
    }
  }

  lemma {:induction false} NoSystemLeft(ms: seq<Message>)
    ensures forall m :: m in WithoutSystem(ms) ==> m.role != System
  {
    if ms != [] {
      NoSystemLeft(ms[1..]);
    }
  }

  // ----- what can break the stored history, and what repairs it -----

  /** None of the edits from `from` on and before `to` breaks the history it meets. */
  ghost predicate NoneBreaks(s: Settings, hs: seq<Stored>, edits: seq<Edit>, from: nat, to: nat)
    requires IsTrace(s, hs, edits) && to <= |edits|
  {
    forall j: nat :: from <= j < to ==> EffectOf(s, hs[j], edits[j]) != Breaks
  }

  /** Edit `i` repairs the history, and nothing before `to` breaks it again. */
  ghost predicate RepairedFor(s: Settings, hs: seq<Stored>, edits: seq<Edit>, i: nat, to: nat)
    requires IsTrace(s, hs, edits) && to <= |edits|
  {
    i < to && EffectOf(s, hs[i], edits[i]) == Repairs && NoneBreaks(s, hs, edits, i, to)
  }

  /**
   * Over any edits, from any history: it obeys the protocol exactly when it did so at first or was repaired
   * and no edit broke it since.
   */
  lemma {:induction false} StandsIff(s: Settings, hs: seq<Stored>, edits: seq<Edit>, k: nat)
    requires IsTrace(s, hs, edits) && k <= |edits|
    ensures WellFormed(hs[k].messages)
            <==> (WellFormed(hs[0].messages) && NoneBreaks(s, hs, edits, 0, k))
                 || exists i: nat :: RepairedFor(s, hs, edits, i, k)
  {
    hide WellFormed, EffectOf, Edited;
    if k > 0 {
      var n := k - 1;
      StandsIff(s, hs, edits, n);
      assert Edited(s, hs[n], edits[n], hs[n + 1]);
      EffectIsRight(s, hs[n], edits[n], hs[k]);
      match EffectOf(s, hs[n], edits[n])
      case Keeps =>
        KeptOnce(s, hs, edits, n, k);
      case Repairs =>
        assert RepairedFor(s, hs, edits, n, k);
      case Breaks =>
        assert forall i: nat :: RepairedFor(s, hs, edits, i, k) ==> i <= n;
    }
  }

  lemma KeptOnce(s: Settings, hs: seq<Stored>, edits: seq<Edit>, n: nat, k: nat)
    requires IsTrace(s, hs, edits) && k == n + 1 <= |edits| && EffectOf(s, hs[n], edits[n]) == Keeps
    ensures NoneBreaks(s, hs, edits, 0, k) <==> NoneBreaks(s, hs, edits, 0, n)
    ensures (exists i: nat :: RepairedFor(s, hs, edits, i, k)) <==> exists i: nat :: RepairedFor(s, hs, edits, i, n)
  {
    hide EffectOf, Edited;
    if i: nat :| RepairedFor(s, hs, edits, i, k) {
      assert i != n;
      assert RepairedFor(s, hs, edits, i, n);
    }
    if i: nat :| RepairedFor(s, hs, edits, i, n) {
      assert RepairedFor(s, hs, edits, i, k);
    }
  }

  /** A history that obeyed the protocol does so throughout exactly when no edit broke it. */
  lemma OnlyHarmBreaks(s: Settings, hs: seq<Stored>, edits: seq<Edit>)
    requires IsTrace(s, hs, edits) && WellFormed(hs[0].messages)
    ensures (forall k :: 0 <= k < |hs| ==> WellFormed(hs[k].messages)) <==> NoneBreaks(s, hs, edits, 0, |edits|)
  {
    hide WellFormed, EffectOf, Edited;
    if NoneBreaks(s, hs, edits, 0, |edits|) {
      forall k | 0 <= k < |hs| ensures WellFormed(hs[k].messages) {
        StandsIff(s, hs, edits, k);
      }
    } else {
      var j: nat :| j < |edits| && EffectOf(s, hs[j], edits[j]) == Breaks;
      assert Edited(s, hs[j], edits[j], hs[j + 1]);
      EffectIsRight(s, hs[j], edits[j], hs[j + 1]);
    }
  }

  /** An edit that breaks no history at all: no cut-off answer, and every call with its result. */
  predicate Harmless(edit: Edit) {
    match edit
    case Answered(answer) => answer.calls == [] || Closes(answer)
    case CutOff(_, _, _) => false
    case _ => true
  }

  /** A forced trim makes up for everything before it, as long as only harmless edits follow. */
  lemma RepairForgets(s: Settings, hs: seq<Stored>, edits: seq<Edit>, i: nat)
    requires IsTrace(s, hs, edits) && i < |edits| && edits[i] == TrimForced
    requires forall j :: i < j < |edits| ==> Harmless(edits[j])
    ensures WellFormed(hs[|edits|].messages)
  {
    hide WellFormed, Edited;
    assert RepairedFor(s, hs, edits, i, |edits|);
    StandsIff(s, hs, edits, |edits|);
  }

  /** An edit that repairs no history: nothing trimmed, compressed, summarised or reduced. */
  predicate Quiet(edit: Edit) {
    match edit
    case Attempt(request, _) => !request.Triggers()
    case TrimForced => false
    case Answered(answer) => answer.calls == [] || FirstStopped(answer.scripts, |answer.calls|) < |answer.calls|
    case CutOff(_, _, _) => false
    case _ => true
  }

  /**
   * An answer of which some call never got its result leaves an open bundle, and later runs, notes, answers
   * and attempts leave it open: the stored history then breaks the protocol throughout.
   */
  lemma OpenBundleStays(s: Settings, hs: seq<Stored>, edits: seq<Edit>)
    requires IsTrace(s, hs, edits) && edits != [] && edits[0].Answered?
    requires var answer := edits[0].answer; Delivered(answer.scripts, |answer.calls|) < |answer.calls|
    requires forall j :: 0 < j < |edits| ==> Quiet(edits[j])
    ensures forall k :: 0 < k < |hs| ==> !WellFormed(hs[k].messages)
  {
    assert EffectOf(s, hs[0], edits[0]) == Breaks;
    assert Edited(s, hs[0], edits[0], hs[1]);
    hide WellFormed, Edited, Compresses, Summarised, Closes;
    forall k | 0 < k < |hs| ensures !WellFormed(hs[k].messages) {
      StandsIff(s, hs, edits, k);
      forall i: nat | i < k ensures !RepairedFor(s, hs, edits, i, k) {
        if i > 0 {
          QuietRepairsNothing(s, hs[i], edits[i]);
        }
      }
    }
  }

  lemma QuietRepairsNothing(s: Settings, h: Stored, edit: Edit)
    requires Quiet(edit)
    ensures EffectOf(s, h, edit) != Repairs
  {
    hide WellFormed, Closes, AgentProfiles.NormalizedHistory;
  }
}
