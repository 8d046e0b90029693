/**
 * Running the tool calls of one answer: hooks may block, rename or rewrite a call, the run may
 * be cancelled between calls, and each executed or blocked call leaves one tool message
 * (src/agent/AgentToolCallService.ts, src/agent/AgentHookEffectApplier.ts).
 */
module ToolCalls {
  import opened Messages
  import opened Text
  import opened ToolProtocol
  import opened Store

  // ----- what hooks and tools answer -----

  /** A hook's changes; `args` is the first of its three argument fields that is set, if it is an object. */
  datatype HookPatch = NoPatch | Patch(toolName: Option<string>, name: Option<string>, args: Option<Args>)

  datatype HookAnswer = HookThrew | Blocked(content: string) | Proceed(patch: HookPatch)

  datatype Execution = Succeeded(content: string) | Errored(error: string) | ExecutionThrew

  /**
   * Everything outside the agent that one call meets. `materialized` is the final content of a
   * successful result, or nothing when storing it throws.
   */
  datatype CallScript = CallScript(
    abortedBefore: bool,
    hook: HookAnswer,
    abortedAfter: bool,
    execution: Execution,
    materialized: Option<string>,
    afterHookThrows: bool,
    completesTurn: bool)

  function NonBlank(s: Option<string>): Option<string> {
    if s.Some? && Trim(s.value) != "" then Some(Trim(s.value)) else None
  }

  /** The call that is executed: a patch may rename it and replace its arguments, never its id. */
  function ApplyBeforeToolCallHook(patch: HookPatch, call: ToolCall): (r: ToolCall)
    ensures r.id == call.id
  {
    match patch
    case NoPatch => call
    case Patch(toolName, name, args) =>
      call.(
        name := if NonBlank(toolName).Some? then NonBlank(toolName).value
                else if NonBlank(name).Some? then NonBlank(name).value
                else call.name,
        args := if args.Some? then args.value else call.args)
  }

  function ResultMessage(id: string, name: string, content: string): Message {
    Message(Tool, content, [], id, Some(name), None, None)
  }

  /** Every call with the given id becomes `effective`. */
  function ReplaceCall(calls: seq<ToolCall>, id: string, effective: ToolCall): (r: seq<ToolCall>)
    ensures |r| == |calls|
    ensures forall k :: 0 <= k < |calls| ==> r[k] == if calls[k].id == id then effective else calls[k]
  {
    seq(|calls|, k requires 0 <= k < |calls| => if calls[k].id == id then effective else calls[k])
  }

  /** The same calls as far as the protocol can tell: same ids, in the same order. */
  ghost predicate SameIds(a: seq<ToolCall>, b: seq<ToolCall>) {
    |a| == |b| && forall k :: 0 <= k < |a| ==> a[k].id == b[k].id
  }

  function WithoutSystem(ms: seq<Message>): seq<Message> {
    if ms == [] then []
    else if ms[0].role == System then WithoutSystem(ms[1..])
    else [ms[0]] + WithoutSystem(ms[1..])
  }

  // ----- the history during the run of calls -----

  /**
   * `ms` is `before`, whose last message is the assistant turn with the calls, with the turn's
   * calls possibly rewritten and the results of the first calls appended.
   */
  ghost predicate Progress(before: seq<Message>, calls: seq<ToolCall>, ms: seq<Message>, done: nat) {
    && before != [] && done <= |calls|
    && |ms| == |before| + done
    && (forall i :: 0 <= i < |before| - 1 ==> ms[i] == before[i])
    && ms[|before| - 1] == before[|before| - 1].(toolCalls := ms[|before| - 1].toolCalls)
    && SameIds(ms[|before| - 1].toolCalls, calls)
    && forall i :: |before| <= i < |ms| ==> ms[i].role == Tool && ms[i].toolCallId == calls[i - |before|].id
  }

  /** The call as it is executed and persisted; a blocked call stays as it was asked. */
  function EffectiveCall(call: ToolCall, script: CallScript): ToolCall {
    if script.hook.Proceed? then ApplyBeforeToolCallHook(script.hook.patch, call) else call
  }

  /** The tool message of a call that ran to its end. */
  function ResultOf(call: ToolCall, script: CallScript): Message {
    var name := EffectiveCall(call, script).name;
    if script.hook.Blocked? then ResultMessage(call.id, name, script.hook.content)
    else if script.execution.Succeeded? && script.materialized.Some? then
      ResultMessage(call.id, name, script.materialized.value)
    else if script.execution.Errored? then ResultMessage(call.id, name, "Error: " + script.execution.error)
    else ResultMessage(call.id, name, "")
  }

  /** The persisted calls and the results are those of the first `done` scripts. */
  ghost predicate Recorded(
    before: seq<Message>, calls: seq<ToolCall>, ms: seq<Message>, done: nat, scripts: nat -> CallScript)
    requires Progress(before, calls, ms, done)
  {
    && (forall i :: |before| <= i < |ms| ==> ms[i] == ResultOf(calls[i - |before|], scripts(i - |before|)))
    && (UsableIds(calls) ==>
          forall k :: 0 <= k < |calls| ==>
            ms[|before| - 1].toolCalls[k] == if k < done then EffectiveCall(calls[k], scripts(k)) else calls[k])
  }

  predicate UsableIds(calls: seq<ToolCall>) {
    "" !in CallIds(calls) && Distinct(CallIds(calls))
  }

  datatype RunOutcome = Completed(forcedTurnCompletion: bool) | Cancelled | RunThrew

  /** A checkpoint handed out during the run and the number of calls done at that moment. */
  datatype Snapshot = Snapshot(messages: seq<Message>, done: nat)

  /** `s` shows the history right after a blocked call. */
  ghost predicate BlockedSnapshot(
    before: seq<Message>, calls: seq<ToolCall>, scripts: nat -> CallScript, s: Snapshot, done: nat)
  {
    && 0 < s.done <= done && scripts(s.done - 1).hook.Blocked?
    && exists ms :: Progress(before, calls, ms, s.done) && Recorded(before, calls, ms, s.done, scripts)
                    && s.messages == WithoutSystem(ms)
  }

  datatype CallOutcome = CallDone | CallCancelled | CallThrew(pushed: bool)

  /** How a call ends, by what it meets: the first that applies of cancelled, hook threw, blocked, cancelled, threw. */
  function Fate(script: CallScript): CallOutcome {
    if script.abortedBefore then CallCancelled
    else if script.hook.HookThrew? then CallThrew(false)
    else if script.hook.Blocked? then CallDone
    else if script.abortedAfter then CallCancelled
    else if script.execution.ExecutionThrew? then CallThrew(false)
    else if (script.execution.Succeeded? && script.materialized == None) || script.afterHookThrows then CallThrew(true)
    else CallDone
  }

  /** The call asks for the turn to be completed. */
  predicate Forces(script: CallScript) {
    script.hook.Proceed? && script.execution.Succeeded? && script.completesTurn
  }

  /** The first of `n` calls that does not run to its end, or `n`. */
  function FirstStopped(scripts: nat -> CallScript, n: nat): (k: nat)
    ensures k <= n && (k < n ==> Fate(scripts(k)) != CallDone)
    ensures forall i: nat :: i < k ==> Fate(scripts(i)) == CallDone
  {
    if n == 0 then 0
    else
      var k := FirstStopped(scripts, n - 1);
      if k < n - 1 || Fate(scripts(k)) != CallDone then k else n
  }

  /** How many results the calls leave: those that ran to their end, and one that failed behind its result. */
  function Delivered(scripts: nat -> CallScript, n: nat): nat {
    var k := FirstStopped(scripts, n);
    if k < n && Fate(scripts(k)) == CallThrew(true) then k + 1 else k
  }

  /** The outcome of the whole run of calls. */
  function RunFate(scripts: nat -> CallScript, n: nat): RunOutcome {
    var k := FirstStopped(scripts, n);
    if k == n then Completed(exists i: nat :: i < n && Forces(scripts(i)))
    else if Fate(scripts(k)) == CallCancelled then Cancelled
    else RunThrew
  }

  /** The blocked ones among the first `n` calls. */
  function BlockedCalls(scripts: nat -> CallScript, n: nat): seq<nat> {
    if n == 0 then [] else BlockedCalls(scripts, n - 1) + (if scripts(n - 1).hook.Blocked? then [n - 1] else [])
  }

  /** What is stored of the tool's answer, or of the error in its place. */
  function Delivery(script: CallScript): string {
    match script.execution
    case Succeeded(content) => if script.materialized.Some? then script.materialized.value else content
    case Errored(error) => "Error: " + error
    case ExecutionThrew => ""
  }

  /** The history after one call; message `at` is the assistant turn with the calls. */
  function CallLeaves(ms: seq<Message>, at: nat, call: ToolCall, script: CallScript): (r: seq<Message>)
    requires at < |ms|
    ensures at < |r|
  {
    if script.abortedBefore || script.hook.HookThrew? then ms
    else if script.hook.Blocked? then ms + [ResultMessage(call.id, call.name, script.hook.content)]
    else
      var effective := EffectiveCall(call, script);
      var rewritten := WithRewrittenCall(ms, at, call.id, effective);
      if script.abortedAfter || script.execution.ExecutionThrew? then rewritten
      else rewritten + [ResultMessage(effective.id, effective.name, Delivery(script))]
  }

  /** The history after the first `n` calls. */
  function CallsLeave(ms: seq<Message>, at: nat, calls: seq<ToolCall>, scripts: nat -> CallScript, n: nat): (r: seq<Message>)
    requires at < |ms| && n <= |calls|
    ensures at < |r|
  {
    if n == 0 then ms else CallLeaves(CallsLeave(ms, at, calls, scripts, n - 1), at, calls[n - 1], scripts(n - 1))
  }

  /** How many calls are begun. */
  function Begun(scripts: nat -> CallScript, n: nat): (k: nat)
    ensures k <= n
  {
    if FirstStopped(scripts, n) < n then FirstStopped(scripts, n) + 1 else n
  }

  /** The history after the whole run of calls. */
  function CallsLeft(ms: seq<Message>, calls: seq<ToolCall>, scripts: nat -> CallScript): seq<Message>
    requires ms != []
  {
    CallsLeave(ms, |ms| - 1, calls, scripts, Begun(scripts, |calls|))
  }

  /** One call keeps the shape of the history, and adds the right result when it runs to its end. */
  lemma CallKeeps(before: seq<Message>, calls: seq<ToolCall>, ms: seq<Message>, done: nat, scripts: nat -> CallScript)
    requires done < |calls|
    requires Progress(before, calls, ms, done) && Recorded(before, calls, ms, done, scripts)
    ensures before != [] && |ms| == |before| + done
    ensures var next, outcome := CallLeaves(ms, |before| - 1, calls[done], scripts(done)), Fate(scripts(done));
            && (outcome == CallDone ==>
                  Progress(before, calls, next, done + 1) && Recorded(before, calls, next, done + 1, scripts))
            && (outcome == CallCancelled || outcome == CallThrew(false) ==> Progress(before, calls, next, done))
            && (outcome == CallThrew(true) ==> Progress(before, calls, next, done + 1))
  {
    hide Recorded, Progress, ResultOf, Rewritten;
    ProgressShape(before, calls, ms, done);
    var script, call := scripts(done), calls[done];
    if script.abortedBefore || script.hook.HookThrew? {
    } else if script.hook.Blocked? {
      BlockedResult(call, script);
      AppendResult(before, calls, ms, done, ResultOf(call, script), scripts);
    } else {
      var effective := EffectiveCall(call, script);
      RewriteCalls(before, calls, ms, done, effective, scripts);
      var unfinished := WithRewrittenCall(ms, |before| - 1, call.id, effective);
      if !script.abortedAfter && !script.execution.ExecutionThrew? {
        var result := ResultMessage(effective.id, effective.name, Delivery(script));
        AppendedProgress(before, calls, unfinished, done, result);
        if script.execution.Succeeded? ==> script.materialized.Some? {
          ExecutedResult(call, script, result);
          AppendRewritten(before, calls, unfinished, done, result, scripts);
        }
      }
    }
  }

  /** The call is handed to its tool. */
  predicate IsExecuted(script: CallScript) {
    !script.abortedBefore && script.hook.Proceed? && !script.abortedAfter
  }

  /** One call: its hook, its execution, and the storing of its result. */
  method RunCall(store: MessageStore, ghost before: seq<Message>, calls: seq<ToolCall>, done: nat, scripts: nat -> CallScript)
    returns (outcome: CallOutcome, executed: seq<ToolCall>)
    requires done < |calls|
    requires before != [] && |store.messages| == |before| + done
    modifies store`messages
    ensures outcome == Fate(scripts(done))
    ensures store.messages == CallLeaves(old(store.messages), |before| - 1, calls[done], scripts(done))
    ensures |executed| == if IsExecuted(scripts(done)) then 1 else 0
    ensures executed != [] ==> AsPatched(calls[done], scripts(done), executed[0])
  {
    var script := scripts(done);
    var toolCall := calls[done];
    if script.abortedBefore {
      return CallCancelled, [];
    }
    match script.hook {
      case HookThrew =>
        return CallThrew(false), [];
      case Blocked(content) =>
        var blocked := ResultMessage(toolCall.id, toolCall.name, content);
        store.messages := store.messages + [blocked];
        return CallDone, [];
      case Proceed(patch) =>
        var effective := ApplyBeforeToolCallHook(patch, toolCall);
        store.messages := WithRewrittenCall(store.messages, |store.messages| - done - 1, toolCall.id, effective);
        if script.abortedAfter {
          return CallCancelled, [];
        }
        PatchedIs(toolCall, script);
        executed := [effective];
        if script.execution.ExecutionThrew? {
          return CallThrew(false), executed;
        }
        var raw := if script.execution.Succeeded? then script.execution.content else "Error: " + script.execution.error;
        var result := ResultMessage(effective.id, effective.name, raw);
        ghost var unfinished := store.messages;
        store.messages := store.messages + [result];
        if script.execution.Succeeded? {
          if script.materialized == None {
            return CallThrew(true), executed;
          }
          result := result.(content := script.materialized.value);
          store.messages := store.messages[|store.messages| - 1 := result];
          assert store.messages == unfinished + [result];
        }
        return if script.afterHookThrows then CallThrew(true) else CallDone, executed;
    }
  }

  lemma ProgressShape(before: seq<Message>, calls: seq<ToolCall>, ms: seq<Message>, done: nat)
    requires Progress(before, calls, ms, done)
    ensures |ms| == |before| + done && before != []
  {
  }

  lemma BlockedResult(call: ToolCall, script: CallScript)
    requires script.hook.Blocked?
    ensures ResultOf(call, script) == ResultMessage(call.id, call.name, script.hook.content)
  {
  }

  lemma ExecutedResult(call: ToolCall, script: CallScript, result: Message)
    requires script.hook.Proceed? && !script.execution.ExecutionThrew?
    requires script.execution.Succeeded? ==> script.materialized.Some?
    requires result == ResultMessage(call.id, EffectiveCall(call, script).name,
                                     if script.execution.Succeeded? then script.materialized.value
                                     else "Error: " + script.execution.error)
    ensures result == ResultOf(call, script)
  {
  }

  /** The checkpoints of a run: one for each blocked call, showing the history right after it. */
  ghost predicate BlockedSnapshots(
    before: seq<Message>, calls: seq<ToolCall>, scripts: nat -> CallScript, snapshots: seq<Snapshot>, done: nat)
  {
    && |snapshots| == |BlockedCalls(scripts, done)|
    && forall i :: 0 <= i < |snapshots| ==>
         snapshots[i].done == BlockedCalls(scripts, done)[i] + 1
         && BlockedSnapshot(before, calls, scripts, snapshots[i], done)
  }

  lemma SnapshotsUnblocked(
    before: seq<Message>, calls: seq<ToolCall>, scripts: nat -> CallScript, snapshots: seq<Snapshot>, done: nat)
    requires BlockedSnapshots(before, calls, scripts, snapshots, done) && !scripts(done).hook.Blocked?
    ensures BlockedSnapshots(before, calls, scripts, snapshots, done + 1)
  {
    hide Progress, Recorded;
    assert BlockedCalls(scripts, done + 1) == BlockedCalls(scripts, done);
  }

  lemma SnapshotAdded(
    before: seq<Message>, calls: seq<ToolCall>, scripts: nat -> CallScript, snapshots: seq<Snapshot>, done: nat, ms: seq<Message>)
    requires BlockedSnapshots(before, calls, scripts, snapshots, done) && scripts(done).hook.Blocked?
    requires Progress(before, calls, ms, done + 1) && Recorded(before, calls, ms, done + 1, scripts)
    ensures BlockedSnapshots(before, calls, scripts, snapshots + [Snapshot(WithoutSystem(ms), done + 1)], done + 1)
  {
    hide Progress, Recorded, WithoutSystem;
    assert BlockedCalls(scripts, done + 1) == BlockedCalls(scripts, done) + [done];
    assert BlockedSnapshot(before, calls, scripts, Snapshot(WithoutSystem(ms), done + 1), done + 1);
  }

  // ----- the run of calls in the terms of hooks and tools -----

  /** `name` is the first of the patch's two names that is not blank, trimmed, and the old one if both are. */
  predicate NamedBy(patch: HookPatch, old': string, name: string) {
    if patch.Patch? && patch.toolName.Some? && Trim(patch.toolName.value) != "" then name == Trim(patch.toolName.value)
    else if patch.Patch? && patch.name.Some? && Trim(patch.name.value) != "" then name == Trim(patch.name.value)
    else name == old'
  }

  /** `call` is the asked one with the changes of its hook: another name, other arguments, never another id. */
  predicate AsPatched(asked: ToolCall, script: CallScript, call: ToolCall) {
    && call.id == asked.id
    && (script.hook.Proceed? ==>
          && NamedBy(script.hook.patch, asked.name, call.name)
          && call.args == (if script.hook.patch.Patch? && script.hook.patch.args.Some? then script.hook.patch.args.value else asked.args))
    && (!script.hook.Proceed? ==> call == asked)
  }

  /** The result message of a call that ran to its end, under the name it was executed by. */
  predicate IsResultOf(asked: ToolCall, script: CallScript, m: Message) {
    && m.role == Tool && m.toolCallId == asked.id && m.toolCalls == [] && m.checkpointId == None
    && m.name.Some?
    && (if script.hook.Proceed? then NamedBy(script.hook.patch, asked.name, m.name.value) else m.name.value == asked.name)
    && match script.hook
       case Blocked(content) => m.content == content
       case Proceed(_) =>
         (script.execution.Succeeded? ==> script.materialized == Some(m.content))
         && (script.execution.Errored? ==> m.content == "Error: " + script.execution.error)
       case HookThrew => true
  }

  /** The call runs to its end: nothing cancels it, and neither hooks nor tool nor storing its result throws. */
  predicate RunsThrough(script: CallScript) {
    && !script.abortedBefore
    && (script.hook.Blocked?
        || (script.hook.Proceed? && !script.abortedAfter && !script.execution.ExecutionThrew? && !script.afterHookThrows
            && (script.execution.Succeeded? ==> script.materialized.Some?)))
  }

  /** The run is cancelled at the call. */
  predicate IsCancelled(script: CallScript) {
    script.abortedBefore || (script.hook.Proceed? && script.abortedAfter)
  }

  /** The call is behind only such as ran to their end. */
  predicate ComesTo(scripts: nat -> CallScript, k: nat) {
    forall i: nat :: i < k ==> RunsThrough(scripts(i))
  }

  lemma FateMeans(script: CallScript)
    ensures Fate(script) == CallDone <==> RunsThrough(script)
    ensures Fate(script) == CallCancelled <==> IsCancelled(script)
    ensures Fate(script) == CallThrew(true) <==>
              && !script.abortedBefore && script.hook.Proceed? && !script.abortedAfter && !script.execution.ExecutionThrew?
              && ((script.execution.Succeeded? && script.materialized == None) || script.afterHookThrows)
  {
  }

  /** A run of calls completes exactly when every call runs to its end, and is cancelled exactly when the first that does not is. */
  lemma RunFateIff(scripts: nat -> CallScript, n: nat)
    ensures RunFate(scripts, n).Completed? <==> ComesTo(scripts, n)
    ensures RunFate(scripts, n) == Cancelled <==> exists k: nat :: k < n && ComesTo(scripts, k) && IsCancelled(scripts(k))
    ensures RunFate(scripts, n) == Completed(true) <==>
              && ComesTo(scripts, n)
              && exists k: nat :: k < n && scripts(k).hook.Proceed? && scripts(k).execution.Succeeded? && scripts(k).completesTurn
    ensures RunFate(scripts, n).Completed? ==> Delivered(scripts, n) == n
  {
    hide Fate, RunsThrough, IsCancelled;
    forall k: nat ensures Fate(scripts(k)) == CallDone <==> RunsThrough(scripts(k))
                  ensures Fate(scripts(k)) == CallCancelled <==> IsCancelled(scripts(k))
                  ensures Forces(scripts(k)) <==> scripts(k).hook.Proceed? && scripts(k).execution.Succeeded? && scripts(k).completesTurn
    {
      FateMeans(scripts(k));
    }
    var first := FirstStopped(scripts, n);
    if first < n {
      assert ComesTo(scripts, first) && !RunsThrough(scripts(first));
      forall k: nat | k < n && ComesTo(scripts, k) && IsCancelled(scripts(k)) ensures k == first {
        CancelledStops(scripts(k));
      }
    }
  }

  lemma CancelledStops(script: CallScript)
    ensures IsCancelled(script) ==> !RunsThrough(script)
  {
  }

  lemma PatchedIs(asked: ToolCall, script: CallScript)
    ensures AsPatched(asked, script, EffectiveCall(asked, script))
  {
  }

  lemma ResultIs(asked: ToolCall, script: CallScript)
    requires RunsThrough(script)
    ensures IsResultOf(asked, script, ResultOf(asked, script))
  {
  }

  /** What a completed run of calls leaves behind the turn, told from what the hooks and tools answered. */
  ghost predicate LeftAsScripted(before: seq<Message>, calls: seq<ToolCall>, scripts: nat -> CallScript, ms: seq<Message>) {
    && before != [] && |ms| == |before| + |calls|
    && (forall k :: 0 <= k < |before| - 1 ==> ms[k] == before[k])
    && (forall k: nat :: k < |calls| ==> IsResultOf(calls[k], scripts(k), ms[|before| + k]))
    && (UsableIds(calls) ==>
          && |ms[|before| - 1].toolCalls| == |calls|
          && forall k: nat :: k < |calls| ==> AsPatched(calls[k], scripts(k), ms[|before| - 1].toolCalls[k]))
  }

  lemma RecordedIsAsScripted(before: seq<Message>, calls: seq<ToolCall>, scripts: nat -> CallScript, ms: seq<Message>)
    requires Progress(before, calls, ms, |calls|) && Recorded(before, calls, ms, |calls|, scripts) && ComesTo(scripts, |calls|)
    ensures LeftAsScripted(before, calls, scripts, ms)
  {
    hide ResultOf, EffectiveCall, RunsThrough, IsResultOf, AsPatched, UsableIds;
    forall k: nat | k < |calls| ensures IsResultOf(calls[k], scripts(k), ms[|before| + k]) {
      ResultIs(calls[k], scripts(k));
      assert ms[|before| + k] == ResultOf(calls[k], scripts(k));
    }
    if UsableIds(calls) {
      forall k: nat | k < |calls| ensures AsPatched(calls[k], scripts(k), ms[|before| - 1].toolCalls[k]) {
        PatchedIs(calls[k], scripts(k));
      }
    }
  }

  /** The calls handed to the tools among the first `n`: each as its hook patched it. */
  ghost predicate ExecutedAsScripted(calls: seq<ToolCall>, scripts: nat -> CallScript, executed: seq<ToolCall>, n: nat)
    requires n <= |calls|
  {
    && |executed| == |ExecutedAt(scripts, n)|
    && forall i :: 0 <= i < |executed| ==> AsPatched(calls[ExecutedAt(scripts, n)[i]], scripts(ExecutedAt(scripts, n)[i]), executed[i])
  }

  /** Which of the first `n` calls are handed to a tool. */
  function ExecutedAt(scripts: nat -> CallScript, n: nat): (at: seq<nat>)
    ensures forall i :: 0 <= i < |at| ==> at[i] < n
  {
    if n == 0 then []
    else
      ExecutedAt(scripts, n - 1)
      + if IsExecuted(scripts(n - 1)) then [n - 1] else []
  }

  /**
   * The loop over the calls. It completes exactly when no call is cancelled or throws; otherwise it
   * stops at the first that does. The history grew by exactly one result for each call before, in call
   * order and with matching ids. One checkpoint is handed out for each blocked call.
   */
  method RunToolCalls(store: MessageStore, calls: seq<ToolCall>, scripts: nat -> CallScript)
    returns (outcome: RunOutcome, done: nat, snapshots: seq<Snapshot>, executed: seq<ToolCall>)
    requires store.messages != [] && Calling(store.messages[|store.messages| - 1])
    requires store.messages[|store.messages| - 1].toolCalls == calls
    modifies store`messages
    ensures outcome == RunFate(scripts, |calls|) && done == Delivered(scripts, |calls|)
    ensures store.messages == CallsLeft(old(store.messages), calls, scripts)
    ensures Progress(old(store.messages), calls, store.messages, done)
    ensures outcome.Completed? ==> Recorded(old(store.messages), calls, store.messages, done, scripts)
    ensures outcome.Completed? ==> LeftAsScripted(old(store.messages), calls, scripts, store.messages)
    ensures ExecutedAsScripted(calls, scripts, executed, Begun(scripts, |calls|))
    ensures BlockedSnapshots(old(store.messages), calls, scripts, snapshots, FirstStopped(scripts, |calls|))
  {
    hide *;
    ghost var before := store.messages;
    var forced := false;
    snapshots := [];
    done, executed := 0, [];
    NothingRan(before, calls, scripts);
    NothingExecuted(calls, scripts);
    while done < |calls|
      invariant Ran(before, calls, scripts, store.messages, snapshots, done, forced) && done <= |calls|
      invariant before != [] && store.messages == CallsLeave(before, |before| - 1, calls, scripts, done)
      invariant ExecutedAsScripted(calls, scripts, executed, done)
    {
      var script := scripts(done);
      RanFacts(before, calls, scripts, store.messages, snapshots, done, forced);
      CallKeeps(before, calls, store.messages, done, scripts);
      OneMoreCall(before, calls, scripts, done);
      var call, ran := RunCall(store, before, calls, done, scripts);
      OneMoreExecuted(calls, scripts, executed, done, ran);
      executed := executed + ran;
      match call {
        case CallCancelled =>
          return Cancelled, done, snapshots, executed;
        case CallThrew(pushed) =>
          return RunThrew, if pushed then done + 1 else done, snapshots, executed;
        case CallDone =>
          RanOneMore(before, calls, scripts, store.messages, snapshots, done, forced);
          done := done + 1;
          if script.hook.Blocked? {
            snapshots := snapshots + [Snapshot(WithoutSystem(store.messages), done)];
          } else {
            forced := forced || (script.execution.Succeeded? && script.completesTurn);
          }
      }
    }
    RanAll(before, calls, scripts, store.messages, snapshots, forced);
    AllCallsLeft(before, calls, scripts);
    RunFateIff(scripts, |calls|);
    CompletedIs(forced);
    RecordedIsAsScripted(before, calls, scripts, store.messages);
    return Completed(forced), done, snapshots, executed;
  }

  lemma CompletedIs(forced: bool)
    ensures Completed(forced).Completed?
  {
  }

  lemma NothingExecuted(calls: seq<ToolCall>, scripts: nat -> CallScript)
    ensures ExecutedAsScripted(calls, scripts, [], 0)
  {
  }

  lemma OneMoreExecuted(calls: seq<ToolCall>, scripts: nat -> CallScript, executed: seq<ToolCall>, done: nat, ran: seq<ToolCall>)
    requires done < |calls| && ExecutedAsScripted(calls, scripts, executed, done)
    requires |ran| == if IsExecuted(scripts(done)) then 1 else 0
    requires ran != [] ==> AsPatched(calls[done], scripts(done), ran[0])
    ensures ExecutedAsScripted(calls, scripts, executed + ran, done + 1)
  {
    hide AsPatched;
    assert ExecutedAt(scripts, done + 1) == ExecutedAt(scripts, done) + (if ran == [] then [] else [done]);
  }

  /** The first `done` calls ran to their end, with what they left so far. */
  ghost predicate Ran(
    before: seq<Message>, calls: seq<ToolCall>, scripts: nat -> CallScript, ms: seq<Message>, snapshots: seq<Snapshot>,
    done: nat, forced: bool)
  {
    && done <= |calls|
    && Progress(before, calls, ms, done) && Recorded(before, calls, ms, done, scripts)
    && BlockedSnapshots(before, calls, scripts, snapshots, done)
    && (forall i: nat :: i < done ==> Fate(scripts(i)) == CallDone)
    && (forced <==> exists i: nat :: i < done && Forces(scripts(i)))
  }

  lemma NothingRan(before: seq<Message>, calls: seq<ToolCall>, scripts: nat -> CallScript)
    requires before != [] && before[|before| - 1].toolCalls == calls
    ensures Ran(before, calls, scripts, before, [], 0, false)
    ensures CallsLeave(before, |before| - 1, calls, scripts, 0) == before
  {
    hide Forces, UsableIds;
  }

  lemma RanFacts(
    before: seq<Message>, calls: seq<ToolCall>, scripts: nat -> CallScript, ms: seq<Message>, snapshots: seq<Snapshot>,
    done: nat, forced: bool)
    requires Ran(before, calls, scripts, ms, snapshots, done, forced) && done < |calls|
    ensures Progress(before, calls, ms, done) && Recorded(before, calls, ms, done, scripts)
    ensures BlockedSnapshots(before, calls, scripts, snapshots, done)
    ensures forall i: nat :: i < done ==> Fate(scripts(i)) == CallDone
    ensures forced <==> exists i: nat :: i < done && Forces(scripts(i))
    ensures Fate(scripts(done)) != CallDone ==>
              && FirstStopped(scripts, |calls|) == done && Begun(scripts, |calls|) == done + 1
              && RunFate(scripts, |calls|) == (if Fate(scripts(done)) == CallCancelled then Cancelled else RunThrew)
              && Delivered(scripts, |calls|) == if Fate(scripts(done)) == CallThrew(true) then done + 1 else done
  {
    hide Progress, Recorded, BlockedSnapshots, Forces;
    StoppedAt(scripts, |calls|, done);
  }

  lemma RanAll(
    before: seq<Message>, calls: seq<ToolCall>, scripts: nat -> CallScript, ms: seq<Message>, snapshots: seq<Snapshot>,
    forced: bool)
    requires Ran(before, calls, scripts, ms, snapshots, |calls|, forced)
    ensures Progress(before, calls, ms, |calls|) && Recorded(before, calls, ms, |calls|, scripts)
    ensures BlockedSnapshots(before, calls, scripts, snapshots, |calls|)
    ensures FirstStopped(scripts, |calls|) == Delivered(scripts, |calls|) == Begun(scripts, |calls|) == |calls|
    ensures RunFate(scripts, |calls|) == Completed(forced)
  {
    hide Progress, Recorded, BlockedSnapshots, Forces, Fate;
    NoneStopped(scripts, |calls|, forced);
  }

  lemma RanOneMore(
    before: seq<Message>, calls: seq<ToolCall>, scripts: nat -> CallScript, ms': seq<Message>, snapshots: seq<Snapshot>,
    done: nat, forced: bool)
    requires done < |calls| && BlockedSnapshots(before, calls, scripts, snapshots, done)
    requires forall i: nat :: i < done ==> Fate(scripts(i)) == CallDone
    requires forced <==> exists i: nat :: i < done && Forces(scripts(i))
    requires Fate(scripts(done)) == CallDone
    requires Progress(before, calls, ms', done + 1) && Recorded(before, calls, ms', done + 1, scripts)
    ensures var script := scripts(done);
            if script.hook.Blocked? then
              Ran(before, calls, scripts, ms', snapshots + [Snapshot(WithoutSystem(ms'), done + 1)], done + 1, forced)
            else
              Ran(before, calls, scripts, ms', snapshots, done + 1,
                  forced || (script.execution.Succeeded? && script.completesTurn))
  {
    hide Progress, Recorded, BlockedSnapshots, WithoutSystem;
    ForcedExtends(scripts, done, forced);
    if scripts(done).hook.Blocked? {
      SnapshotAdded(before, calls, scripts, snapshots, done, ms');
      BlockedForcesNot(scripts(done));
    } else {
      SnapshotsUnblocked(before, calls, scripts, snapshots, done);
      DoneForces(scripts(done));
    }
    hide Fate, Forces;
  }

  lemma OneMoreCall(before: seq<Message>, calls: seq<ToolCall>, scripts: nat -> CallScript, done: nat)
    requires before != [] && done < |calls|
    ensures var at := |before| - 1;
            && CallsLeave(before, at, calls, scripts, done + 1)
               == CallLeaves(CallsLeave(before, at, calls, scripts, done), at, calls[done], scripts(done))
            && (Begun(scripts, |calls|) == done + 1 ==>
                  CallsLeft(before, calls, scripts) == CallsLeave(before, at, calls, scripts, done + 1))
  {
    hide CallLeaves;
  }

  lemma AllCallsLeft(before: seq<Message>, calls: seq<ToolCall>, scripts: nat -> CallScript)
    requires before != [] && Begun(scripts, |calls|) == |calls|
    ensures CallsLeft(before, calls, scripts) == CallsLeave(before, |before| - 1, calls, scripts, |calls|)
  {
  }

  lemma StoppedAt(scripts: nat -> CallScript, n: nat, k: nat)
    requires k < n && forall i: nat :: i < k ==> Fate(scripts(i)) == CallDone
    ensures Fate(scripts(k)) != CallDone ==>
              && FirstStopped(scripts, n) == k
              && RunFate(scripts, n) == (if Fate(scripts(k)) == CallCancelled then Cancelled else RunThrew)
              && Delivered(scripts, n) == if Fate(scripts(k)) == CallThrew(true) then k + 1 else k
  {
    hide Fate;
    var first := FirstStopped(scripts, n);
    if first < k {
      assert false;
    }
  }

  lemma NoneStopped(scripts: nat -> CallScript, n: nat, forced: bool)
    requires forall i: nat :: i < n ==> Fate(scripts(i)) == CallDone
    requires forced <==> exists i: nat :: i < n && Forces(scripts(i))
    ensures FirstStopped(scripts, n) == Delivered(scripts, n) == n && RunFate(scripts, n) == Completed(forced)
  {
    hide Fate, Forces;
  }

  lemma DoneForces(script: CallScript)
    requires Fate(script) == CallDone && !script.hook.Blocked?
    ensures Forces(script) <==> script.execution.Succeeded? && script.completesTurn
  {
  }

  lemma BlockedForcesNot(script: CallScript)
    requires script.hook.Blocked?
    ensures !Forces(script)
  {
  }

  lemma ForcedExtends(scripts: nat -> CallScript, n: nat, forced: bool)
    requires forced <==> exists i: nat :: i < n && Forces(scripts(i))
    ensures forced || Forces(scripts(n)) <==> exists i: nat :: i < n + 1 && Forces(scripts(i))
  {
    hide Forces;
    if Forces(scripts(n)) {
      assert n < n + 1;
    }
  }

  function WithRewrittenCall(ms: seq<Message>, at: nat, id: string, effective: ToolCall): seq<Message>
    requires at < |ms|
  {
    ms[at := ms[at].(toolCalls := ReplaceCall(ms[at].toolCalls, id, effective))]
  }

  lemma AppendedProgress(before: seq<Message>, calls: seq<ToolCall>, ms: seq<Message>, done: nat, result: Message)
    requires Progress(before, calls, ms, done) && done < |calls|
    requires result.role == Tool && result.toolCallId == calls[done].id
    ensures Progress(before, calls, ms + [result], done + 1)
  {
  }

  lemma AppendResult(
    before: seq<Message>, calls: seq<ToolCall>, ms: seq<Message>, done: nat, result: Message, scripts: nat -> CallScript)
    requires Progress(before, calls, ms, done) && done < |calls| && Recorded(before, calls, ms, done, scripts)
    requires scripts(done).hook.Blocked? && result == ResultOf(calls[done], scripts(done))
    ensures Progress(before, calls, ms + [result], done + 1)
    ensures Recorded(before, calls, ms + [result], done + 1, scripts)
  {
    hide ResultOf, SameIds;
    ResultOfFields(calls[done], scripts(done));
    AppendedProgress(before, calls, ms, done, result);
  }

  lemma ResultOfFields(call: ToolCall, script: CallScript)
    ensures ResultOf(call, script).role == Tool && ResultOf(call, script).toolCallId == call.id
  {
  }

  /** The persisted call `done` already is the effective one when its result arrives. */
  ghost predicate Rewritten(
    before: seq<Message>, calls: seq<ToolCall>, ms: seq<Message>, done: nat, scripts: nat -> CallScript)
    requires Progress(before, calls, ms, done) && done < |calls|
  {
    && (forall i :: |before| <= i < |ms| ==> ms[i] == ResultOf(calls[i - |before|], scripts(i - |before|)))
    && (UsableIds(calls) ==>
          forall k :: 0 <= k < |calls| ==>
            ms[|before| - 1].toolCalls[k] == if k <= done then EffectiveCall(calls[k], scripts(k)) else calls[k])
  }

  lemma AppendRewritten(
    before: seq<Message>, calls: seq<ToolCall>, ms: seq<Message>, done: nat, result: Message, scripts: nat -> CallScript)
    requires Progress(before, calls, ms, done) && done < |calls| && Rewritten(before, calls, ms, done, scripts)
    requires result == ResultOf(calls[done], scripts(done))
    ensures Progress(before, calls, ms + [result], done + 1)
    ensures Recorded(before, calls, ms + [result], done + 1, scripts)
  {
    hide ResultOf, SameIds, EffectiveCall;
    ResultOfFields(calls[done], scripts(done));
    AppendedProgress(before, calls, ms, done, result);
  }

  lemma RewriteCalls(
    before: seq<Message>, calls: seq<ToolCall>, ms: seq<Message>, done: nat, effective: ToolCall, scripts: nat -> CallScript)
    requires Progress(before, calls, ms, done) && done < |calls| && Recorded(before, calls, ms, done, scripts)
    requires scripts(done).hook.Proceed? && effective == EffectiveCall(calls[done], scripts(done))
    ensures var next := WithRewrittenCall(ms, |before| - 1, calls[done].id, effective);
            Progress(before, calls, next, done) && Rewritten(before, calls, next, done, scripts)
  {
    hide ResultOf;
    var at := |before| - 1;
    var next := WithRewrittenCall(ms, at, calls[done].id, effective);
    assert SameIds(next[at].toolCalls, calls);
    if UsableIds(calls) {
      forall k | 0 <= k < |calls| && k != done ensures calls[k].id != calls[done].id {
        assert CallIds(calls)[k] != CallIds(calls)[done];
      }
    }
  }

  // ----- what the progress means for the protocol -----

  /**
   * A run over calls with distinct usable ids leaves the history well-formed exactly when every
   * call has its result. With unusable ids the history is never well-formed.
   */
  lemma ProgressWellFormedIff(before: seq<Message>, calls: seq<ToolCall>, ms: seq<Message>, done: nat)
    requires Progress(before, calls, ms, done) && calls != []
    requires before[|before| - 1].role == Assistant && WellFormed(before[..|before| - 1])
    ensures WellFormed(ms) <==> done == |calls| && UsableIds(calls)
  {
    var at := |before| - 1;
    var front, bundle := before[..at], ms[at..];
    assert ms == front + bundle;
    BundleClosedIff(before, calls, ms, done);
    if WellFormed(bundle) {
      WellFormedConcat(front, bundle);
    }
    if WellFormed(ms) {
      WellFormedSplit(front, bundle);
    }
  }

  lemma BundleClosedIff(before: seq<Message>, calls: seq<ToolCall>, ms: seq<Message>, done: nat)
    requires Progress(before, calls, ms, done) && calls != [] && before[|before| - 1].role == Assistant
    ensures var bundle := ms[|before| - 1..];
            && bundle[0].role == Assistant
            && (WellFormed(bundle) <==> done == |calls| && UsableIds(calls))
  {
    var bundle := ms[|before| - 1..];
    var rewritten := bundle[0].toolCalls;
    assert CallIds(rewritten) == CallIds(calls);
    var results := bundle[1..];
    assert |results| == done;
    assert forall i :: 0 <= i < done ==> results[i] == ms[i + |before|];
    assert AllTools(results);
    if done == |calls| {
      assert bundle[1..|calls| + 1] == results;
      assert ResultIds(results) == CallIds(calls);
      assert bundle[|calls| + 1..] == [];
      assert Answers(rewritten, results) <==> UsableIds(calls);
    }
  }

  /**
   * The checkpoint handed out after a blocked call is replay-safe exactly when the blocked call
   * is the last one; otherwise it shows an open bundle.
   */
  lemma BlockedCheckpointSafeIff(before: seq<Message>, calls: seq<ToolCall>, ms: seq<Message>, done: nat)
    requires Progress(before, calls, ms, done) && UsableIds(calls) && 0 < done
    requires before[|before| - 1].role == Assistant && WellFormed(before[..|before| - 1])
    ensures WellFormed(WithoutSystem(ms)) <==> done == |calls|
  {
    var at := |before| - 1;
    ProgressWithoutSystem(before, calls, ms, done);
    WithoutSystemWellFormed(before[..at]);
    ProgressWellFormedIff(WithoutSystem(before), calls, WithoutSystem(ms), done);
  }

  lemma {:induction false} WithoutSystemConcat(a: seq<Message>, b: seq<Message>)
    ensures WithoutSystem(a + b) == WithoutSystem(a) + WithoutSystem(b)
  {
    if a == [] {
      assert a + b == b;
    } else {
      assert (a + b)[1..] == a[1..] + b;
      WithoutSystemConcat(a[1..], b);
    }
  }

  lemma {:induction false} WithoutSystemIdentity(ms: seq<Message>)
    requires forall i :: 0 <= i < |ms| ==> ms[i].role != System
    ensures WithoutSystem(ms) == ms
  {
    if ms != [] {
      WithoutSystemIdentity(ms[1..]);
    }
  }

  lemma {:induction false} WithoutSystemWellFormed(ms: seq<Message>)
    requires WellFormed(ms)
    ensures WellFormed(WithoutSystem(ms))
    decreases |ms|
  {
    if ms != [] {
      if Calling(ms[0]) {
        var n := |ms[0].toolCalls| + 1;
        WellFormedBundle(ms);
        ClosedBundleTools(ms);
        WithoutSystemWellFormed(ms[n..]);
        assert ms == ms[..n] + ms[n..];
        WithoutSystemConcat(ms[..n], ms[n..]);
        assert forall i :: 0 < i < n ==> ms[i] == ms[1..][i - 1];
        WithoutSystemIdentity(ms[..n]);
        WellFormedSplit(ms[..n], ms[n..]);
        if ms[n..] != [] {
          WellFormedStart(ms[n..]);
        }
        WellFormedConcat(ms[..n], WithoutSystem(ms[n..]));
      } else {
        WellFormedHead(ms);
        WithoutSystemWellFormed(ms[1..]);
        if ms[0].role != System {
          WellFormedSingle(ms[0]);
          WellFormedConcat([ms[0]], WithoutSystem(ms[1..]));
        }
      }
    }
  }

  lemma ProgressWithoutSystem(before: seq<Message>, calls: seq<ToolCall>, ms: seq<Message>, done: nat)
    requires Progress(before, calls, ms, done) && before[|before| - 1].role == Assistant
    ensures WithoutSystem(before) == WithoutSystem(before[..|before| - 1]) + [before[|before| - 1]]
    ensures Progress(WithoutSystem(before), calls, WithoutSystem(ms), done)
  {
    hide WithoutSystem;
    var at := |before| - 1;
    var front := WithoutSystem(before[..at]);
    assert before == before[..at] + [before[at]];
    WithoutSystemConcat(before[..at], [before[at]]);
    WithoutSystemIdentity([before[at]]);
    assert ms == before[..at] + ms[at..];
    WithoutSystemConcat(before[..at], ms[at..]);
    forall i | 0 <= i < |ms[at..]| ensures ms[at..][i].role != System {
      assert ms[at..][i] == ms[at + i];
    }
    WithoutSystemIdentity(ms[at..]);
    ProgressBehind(before, calls, ms, done, front);
  }

  /** The progress is the same behind another front. */
  lemma ProgressBehind(before: seq<Message>, calls: seq<ToolCall>, ms: seq<Message>, done: nat, front: seq<Message>)
    requires Progress(before, calls, ms, done)
    ensures Progress(front + [before[|before| - 1]], calls, front + ms[|before| - 1..], done)
  {
    hide SameIds;
    var at := |before| - 1;
    var after := front + ms[at..];
    assert after[|front|] == ms[at];
    forall i | |front| < i < |after| ensures after[i].role == Tool && after[i].toolCallId == calls[i - (|front| + 1)].id {
      assert after[i] == ms[i - |front| + at];
    }
  }

  // ----- the whole tool phase of a turn -----

  /** A waiting summary is applied at the end of these calls: they all ran to their end and its checkpoint is there. */
  predicate Summarises(
    ms: seq<Message>, calls: seq<ToolCall>, scripts: nat -> CallScript, request: Option<SummaryRequest>)
  {
    && calls != [] && FirstStopped(scripts, |calls|) == |calls|
    && request.Some? && LastWithCheckpoint(ms, request.value.checkpointId) >= 0
  }

  /** A store after the tool phase: the calls, then a waiting summary, then an input queued while the agent ran. */
  function ToolPhase(h: Stored, calls: seq<ToolCall>, scripts: nat -> CallScript, runningInput: Option<string>): Stored
    requires calls != [] ==> h.messages != []
  {
    if calls == [] then h
    else
      var left := h.(messages := CallsLeft(h.messages, calls, scripts));
      match RunFate(scripts, |calls|)
      case Completed(forced) => if forced then SummaryApplied(left) else InputConsumed(SummaryApplied(left), runningInput)
      case _ => left
  }

  function InputConsumed(h: Stored, runningInput: Option<string>): Stored {
    var prompt := NonBlank(runningInput);
    if prompt.Some? then UserAdded(h, prompt.value) else h
  }

  /** `h` ends with the assistant turn that has the calls. */
  predicate HasTurn(h: Stored, calls: seq<ToolCall>) {
    h.messages != [] && Calling(h.messages[|h.messages| - 1]) && h.messages[|h.messages| - 1].toolCalls == calls
  }

  /**
   * An applied summary leaves a history that obeys the protocol; otherwise the history obeys it exactly when
   * it did before the turn, every call has its result, and the ids are usable.
   */
  lemma ToolPhaseWellFormedIff(h: Stored, calls: seq<ToolCall>, scripts: nat -> CallScript, runningInput: Option<string>)
    requires calls != [] && HasTurn(h, calls)
    ensures var after := ToolPhase(h, calls, scripts, runningInput);
            if Summarises(h.messages, calls, scripts, h.pending) then WellFormed(after.messages)
            else WellFormed(after.messages)
                 <==> WellFormed(h.messages[..|h.messages| - 1])
                      && Delivered(scripts, |calls|) == |calls| && UsableIds(calls)
  {
    hide WellFormed, CallsLeave, CallsLeft, FirstStopped, Forces, UsableIds, Recorded, Progress, LastWithCheckpoint;
    hide Sanitized, Summarised, SummaryAnchor;
    var before := h.messages;
    var left := h.(messages := CallsLeft(before, calls, scripts));
    CallsLeftKeeps(before, calls, scripts);
    RanWellFormedIff(before, calls, left.messages, Delivered(scripts, |calls|));
    if RunFate(scripts, |calls|).Completed? {
      if h.pending.Some? {
        SameLastCheckpoint(before, calls, left.messages, scripts, h.pending.value.checkpointId);
      }
      SummaryEffect(left);
      InputHarmless(SummaryApplied(left), runningInput);
    }
  }

  lemma SummaryEffect(h: Stored)
    ensures if h.pending.Some? && LastWithCheckpoint(h.messages, h.pending.value.checkpointId) >= 0
            then WellFormed(SummaryApplied(h).messages) else SummaryApplied(h).messages == h.messages
  {
    hide Sanitized, WellFormed;
    if h.pending.Some? && LastWithCheckpoint(h.messages, h.pending.value.checkpointId) >= 0 {
      var request := h.pending.value;
      SanitizedIsWellFormed(
        Summarised(h.messages, LastWithCheckpoint(h.messages, request.checkpointId), KeepRecent(request))
        + [SummaryAnchor(request, CheckpointId(h.checkpointCounter + 1))]);
    }
  }

  lemma InputHarmless(h: Stored, runningInput: Option<string>)
    ensures WellFormed(InputConsumed(h, runningInput).messages) <==> WellFormed(h.messages)
  {
    hide WellFormed;
    var prompt := NonBlank(runningInput);
    if prompt.Some? {
      var message := UserMessage(prompt.value, h.checkpointCounter + 1);
      JoinWellFormedIff(h.messages, [message]);
      WellFormedSingle(message);
    }
  }

  lemma NothingBegun(before: seq<Message>, calls: seq<ToolCall>, scripts: nat -> CallScript)
    requires before != [] && before[|before| - 1].toolCalls == calls
    ensures CallsLeave(before, |before| - 1, calls, scripts, 0) == before
    ensures Progress(before, calls, before, 0) && Recorded(before, calls, before, 0, scripts)
  {
    hide UsableIds;
  }

  lemma {:induction false} CallsLeaveKeeps(before: seq<Message>, calls: seq<ToolCall>, scripts: nat -> CallScript, n: nat)
    requires before != [] && before[|before| - 1].toolCalls == calls && n <= FirstStopped(scripts, |calls|)
    ensures var ms := CallsLeave(before, |before| - 1, calls, scripts, n);
            Progress(before, calls, ms, n) && Recorded(before, calls, ms, n, scripts)
  {
    hide *;
    if n == 0 {
      NothingBegun(before, calls, scripts);
    } else {
      CallsLeaveKeeps(before, calls, scripts, n - 1);
      OneMoreCall(before, calls, scripts, n - 1);
      CallKeeps(before, calls, CallsLeave(before, |before| - 1, calls, scripts, n - 1), n - 1, scripts);
    }
  }

  /** The history after the calls: one result for each that delivered one, and the right ones when all ran to their end. */
  lemma CallsLeftKeeps(before: seq<Message>, calls: seq<ToolCall>, scripts: nat -> CallScript)
    requires before != [] && before[|before| - 1].toolCalls == calls
    ensures var ms := CallsLeft(before, calls, scripts);
            && Progress(before, calls, ms, Delivered(scripts, |calls|))
            && (FirstStopped(scripts, |calls|) == |calls| ==> Recorded(before, calls, ms, |calls|, scripts))
  {
    hide Progress, Recorded, Fate, CallLeaves;
    var k := FirstStopped(scripts, |calls|);
    CallsLeaveKeeps(before, calls, scripts, k);
    if k < |calls| {
      CallKeeps(before, calls, CallsLeave(before, |before| - 1, calls, scripts, k), k, scripts);
    }
  }

  /** Before the first call that does not run to its end, every call has its result, whatever happens then. */
  lemma StoppedLeaves(before: seq<Message>, calls: seq<ToolCall>, scripts: nat -> CallScript, k: nat)
    requires before != [] && before[|before| - 1].toolCalls == calls && k < |calls| && ComesTo(scripts, k + 1)
    ensures var ms := CallsLeft(before, calls, scripts);
            |before| + k < |ms| && IsResultOf(calls[k], scripts(k), ms[|before| + k])
  {
    hide *;
    var first := FirstStopped(scripts, |calls|);
    StopsBehind(scripts, |calls|, k);
    var ms := CallsLeave(before, |before| - 1, calls, scripts, first);
    CallsLeaveKeeps(before, calls, scripts, first);
    RecordedAt(before, calls, ms, first, scripts, k);
    LeftBehind(before, calls, scripts);
    if first < |calls| {
      CallKeepsEarlier(ms, |before| - 1, calls[first], scripts(first), |before| + k);
    }
  }

  lemma StopsBehind(scripts: nat -> CallScript, n: nat, k: nat)
    requires k < n && ComesTo(scripts, k + 1)
    ensures k < FirstStopped(scripts, n) && RunsThrough(scripts(k))
  {
    hide Fate, RunsThrough;
    var first := FirstStopped(scripts, n);
    assert RunsThrough(scripts(k));
    if first <= k {
      FateMeans(scripts(first));
      assert false;
    }
  }

  lemma RecordedAt(before: seq<Message>, calls: seq<ToolCall>, ms: seq<Message>, done: nat, scripts: nat -> CallScript, k: nat)
    requires Progress(before, calls, ms, done) && Recorded(before, calls, ms, done, scripts) && k < done && RunsThrough(scripts(k))
    ensures before != [] && |ms| == |before| + done && IsResultOf(calls[k], scripts(k), ms[|before| + k])
  {
    hide ResultOf, RunsThrough, IsResultOf, UsableIds;
    ResultIs(calls[k], scripts(k));
    assert ms[|before| + k] == ResultOf(calls[k], scripts(k));
  }

  lemma LeftBehind(before: seq<Message>, calls: seq<ToolCall>, scripts: nat -> CallScript)
    requires before != []
    ensures var at, first := |before| - 1, FirstStopped(scripts, |calls|);
            CallsLeft(before, calls, scripts)
            == if first < |calls| then CallLeaves(CallsLeave(before, at, calls, scripts, first), at, calls[first], scripts(first))
               else CallsLeave(before, at, calls, scripts, first)
  {
    hide CallLeaves;
  }

  lemma CallKeepsEarlier(ms: seq<Message>, at: nat, call: ToolCall, script: CallScript, i: nat)
    requires at < |ms| && i < |ms| && i != at
    ensures i < |CallLeaves(ms, at, call, script)| && CallLeaves(ms, at, call, script)[i] == ms[i]
  {
  }

  /** The results as scripted behind `before`, then the input unless it is blank or a tool completes the turn. */
  ghost predicate LeftWithInput(
    before: seq<Message>, calls: seq<ToolCall>, scripts: nat -> CallScript, runningInput: Option<string>, ms: seq<Message>)
  {
    var n := |before| + |calls|;
    var said := runningInput.Some? && Trim(runningInput.value) != ""
                && !exists k: nat :: k < |calls| && scripts(k).hook.Proceed? && scripts(k).execution.Succeeded?
                                     && scripts(k).completesTurn;
    && |ms| == n + (if said then 1 else 0) && LeftAsScripted(before, calls, scripts, ms[..n])
    && (said ==> ms[n].role == User && ms[n].content == Trim(runningInput.value) && ms[n].toolCalls == [])
  }

  /**
   * A completed tool phase without a summary, in the terms of hooks and tools: the results as scripted, then the
   * waiting input without the blanks around it, unless that is blank or a tool completes the turn.
   */
  lemma ToolPhaseLeaves(h: Stored, calls: seq<ToolCall>, scripts: nat -> CallScript, runningInput: Option<string>)
    requires calls != [] && HasTurn(h, calls) && ComesTo(scripts, |calls|)
    requires !Summarises(h.messages, calls, scripts, h.pending)
    ensures LeftWithInput(h.messages, calls, scripts, runningInput, ToolPhase(h, calls, scripts, runningInput).messages)
  {
    hide LeftAsScripted, CallsLeft, Progress, Recorded, RunFate, Delivered, FirstStopped, ComesTo, LastWithCheckpoint, Sanitized;
    RunFateIff(scripts, |calls|);
    var left := CallsLeft(h.messages, calls, scripts);
    CallsLeftKeeps(h.messages, calls, scripts);
    AllRun(scripts, |calls|);
    RecordedIsAsScripted(h.messages, calls, scripts, left);
    LeftLength(h.messages, calls, scripts, left);
    if h.pending.Some? {
      SameLastCheckpoint(h.messages, calls, left, scripts, h.pending.value.checkpointId);
    }
    var ms := ToolPhase(h, calls, scripts, runningInput).messages;
    assert ms[..|left|] == left;
  }

  lemma AllRun(scripts: nat -> CallScript, n: nat)
    requires ComesTo(scripts, n)
    ensures FirstStopped(scripts, n) == n
  {
    hide RunsThrough, Fate;
    var first := FirstStopped(scripts, n);
    if first < n {
      FateMeans(scripts(first));
      assert false;
    }
  }

  lemma LeftLength(before: seq<Message>, calls: seq<ToolCall>, scripts: nat -> CallScript, ms: seq<Message>)
    requires LeftAsScripted(before, calls, scripts, ms)
    ensures |ms| == |before| + |calls|
  {
  }

  /** What the calls meet decides the outcome and what the store holds afterwards. */
  method ExecuteAgentToolCallsForTurn(
    store: MessageStore, calls: seq<ToolCall>, scripts: nat -> CallScript, runningInput: Option<string>)
    returns (outcome: RunOutcome)
    requires calls != [] ==> HasTurn(store.State(), calls)
    modifies store
    ensures outcome == if calls == [] then Completed(false) else RunFate(scripts, |calls|)
    ensures store.State() == ToolPhase(old(store.State()), calls, scripts, runningInput)
    ensures calls != [] && ComesTo(scripts, |calls|)
            && !Summarises(old(store.messages), calls, scripts, old(store.pendingSummaryApplyRequest)) ==>
              LeftWithInput(old(store.messages), calls, scripts, runningInput, store.messages)
  {
    ghost var h := store.State();
    if calls != [] && ComesTo(scripts, |calls|) && !Summarises(h.messages, calls, scripts, h.pending) {
      ToolPhaseLeaves(h, calls, scripts, runningInput);
    }
    hide ComesTo, Summarises, LeftWithInput, LeftAsScripted, ExecutedAsScripted, SummaryLeaves;
    hide WellFormed, Progress, Recorded, CallsLeft, RunFate, BlockedSnapshots, SummaryApplied, Delivered;
    if calls == [] {
      return Completed(false);
    }
    var ran, _, _, _ := RunToolCalls(store, calls, scripts);
    outcome := ran;
    if !outcome.Completed? {
      return;
    }
    store.ApplyPendingSummaryIfNeeded();
    if !outcome.forcedTurnCompletion {
      ConsumeRunningInput(store, runningInput);
    }
  }

  /** Results carry no checkpoint, so the calls do not move the last message that carries one. */
  lemma SameLastCheckpoint(before: seq<Message>, calls: seq<ToolCall>, ms: seq<Message>, scripts: nat -> CallScript, id: string)
    requires Progress(before, calls, ms, |calls|) && Recorded(before, calls, ms, |calls|, scripts)
    ensures LastWithCheckpoint(ms, id) == LastWithCheckpoint(before, id)
  {
    forall i | |before| <= i < |ms| ensures ms[i].checkpointId == None {
      assert ms[i] == ResultOf(calls[i - |before|], scripts(i - |before|));
    }
    hide ResultOf, SameIds;
    LastCheckpointKept(before, ms, id);
  }

  lemma {:induction false} LastCheckpointKept(before: seq<Message>, ms: seq<Message>, id: string)
    requires |before| <= |ms|
    requires forall i :: 0 <= i < |before| ==> ms[i].checkpointId == before[i].checkpointId
    requires forall i :: |before| <= i < |ms| ==> ms[i].checkpointId == None
    ensures LastWithCheckpoint(ms, id) == LastWithCheckpoint(before, id)
    decreases |ms|
  {
    if ms != [] {
      var n := |ms| - 1;
      LastCheckpointKept(if n < |before| then before[..n] else before, ms[..n], id);
    }
  }

  lemma RanWellFormedIff(before: seq<Message>, calls: seq<ToolCall>, ms: seq<Message>, done: nat)
    requires Progress(before, calls, ms, done) && calls != [] && before[|before| - 1].role == Assistant
    ensures WellFormed(ms) <==> WellFormed(before[..|before| - 1]) && done == |calls| && UsableIds(calls)
  {
    hide WellFormed;
    var at := |before| - 1;
    if WellFormed(before[..at]) {
      ProgressWellFormedIff(before, calls, ms, done);
    } else if WellFormed(ms) {
      assert ms == ms[..at] + ms[at..];
      assert ms[..at] == before[..at];
      assert ms[at..][0].role == Assistant;
      WellFormedSplit(ms[..at], ms[at..]);
    }
  }

  /** An input that waited is appended as a user message unless it is blank. */
  method ConsumeRunningInput(store: MessageStore, runningInput: Option<string>)
    modifies store`messages, store`checkpointCounter
    ensures old(store.messages) <= store.messages && |store.messages| <= |old(store.messages)| + 1
    ensures WellFormed(old(store.messages)) <==> WellFormed(store.messages)
    ensures store.State() == InputConsumed(old(store.State()), runningInput)
  {
    hide WellFormed;
    InputHarmless(store.State(), runningInput);
    var prompt := NonBlank(runningInput);
    if prompt.Some? {
      store.AddUserMessage(prompt.value);
    }
  }
}
