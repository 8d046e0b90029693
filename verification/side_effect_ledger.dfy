/**
 * After an interrupted turn: which messages came after the last replay checkpoint, and which
 * mutating tool operations they record (src/interrupted-turn-recovery.ts). Entry ids and
 * timestamps are left out; which results are worth recording is a parameter.
 */
module SideEffectLedger {
  import opened Messages
  import opened Text
  import opened ToolProtocol
  import opened ToolCalls

  datatype LedgerEntry = LedgerEntry(
    toolName: string, toolCallId: Option<string>, args: Option<Args>, resultSuccess: bool, resultSummary: string)

  datatype Policy = Policy(inferSuccess: string -> bool, persists: (string, bool, Option<Args>) -> bool)

  const SUMMARY_CHARS := 240

  // ----- the fold -----

  /** The calls of a turn by raw id; of two calls with one id the later counts. */
  function ActiveCalls(calls: seq<ToolCall>): map<string, ToolCall> {
    if calls == [] then map[]
    else ActiveCalls(calls[..|calls| - 1])[calls[|calls| - 1].id := calls[|calls| - 1]]
  }

  /** What a tool result would be recorded as when the calls in `active` are outstanding. */
  function Candidate(m: Message, active: map<string, ToolCall>, policy: Policy): LedgerEntry {
    var id := Trim(m.toolCallId);
    var matched := if id != "" && id in active then Some(active[id]) else None;
    var content := Truncate(m.content, SUMMARY_CHARS);
    LedgerEntry(
      if matched.Some? then matched.value.name else if m.name.Some? then m.name.value else "(unknown)",
      if id == "" then None else Some(id),
      if matched.Some? then Some(matched.value.args) else None,
      policy.inferSuccess(content),
      content)
  }

  predicate Persists(policy: Policy, e: LedgerEntry) {
    policy.persists(e.toolName, e.resultSuccess, e.args)
  }

  /** The entry it gives, if it is worth recording. */
  function EntryOf(m: Message, active: map<string, ToolCall>, policy: Policy): Option<LedgerEntry> {
    var entry := Candidate(m, active, policy);
    if Persists(policy, entry) then Some(entry) else None
  }

  /** The outstanding calls after `ms`. */
  function Carried(ms: seq<Message>, active: map<string, ToolCall>): map<string, ToolCall> {
    if ms == [] then active
    else Carried(ms[1..], if Calling(ms[0]) then ActiveCalls(ms[0].toolCalls) else active)
  }

  /** The entries of `ms` when the calls in `active` are outstanding before it. */
  function LedgerFrom(ms: seq<Message>, active: map<string, ToolCall>, policy: Policy): seq<LedgerEntry> {
    if ms == [] then []
    else if Calling(ms[0]) then LedgerFrom(ms[1..], ActiveCalls(ms[0].toolCalls), policy)
    else if ms[0].role != Tool then LedgerFrom(ms[1..], active, policy)
    else
      var entry := EntryOf(ms[0], active, policy);
      (if entry.Some? then [entry.value] else []) + LedgerFrom(ms[1..], active, policy)
  }

  method BuildSideEffectLedgerFromPreview(previewMessages: seq<Message>, policy: Policy) returns (entries: seq<LedgerEntry>)
    ensures entries == LedgerFrom(previewMessages, map[], policy)
    ensures exists at :: Records(previewMessages, policy, 0, at, entries)
  {
    LedgerIsRecorded(previewMessages, policy);
    hide EntryOf, ActiveCalls, Records;
    entries := [];
    var activeToolCalls: map<string, ToolCall> := map[];
    assert previewMessages[0..] == previewMessages;
    for i := 0 to |previewMessages|
      invariant entries + LedgerFrom(previewMessages[i..], activeToolCalls, policy)
             == LedgerFrom(previewMessages, map[], policy)
    {
      var message := previewMessages[i];
      assert previewMessages[i..][1..] == previewMessages[i + 1..];
      if message.role == Assistant && message.toolCalls != [] {
        activeToolCalls := ActiveCalls(message.toolCalls);
      } else if message.role == Tool {
        var entry := EntryOf(message, activeToolCalls, policy);
        if entry.Some? {
          entries := entries + [entry.value];
        }
      }
    }
  }

  // ----- what an entry says -----

  /** The last call with this id among `calls`. */
  predicate IsLastCall(calls: seq<ToolCall>, id: string, call: ToolCall) {
    exists k :: 0 <= k < |calls| && calls[k] == call && call.id == id && forall l :: k < l < |calls| ==> calls[l].id != id
  }

  /** Turn `b` is the last with calls before message `i`. */
  predicate IsTurnBefore(ms: seq<Message>, b: nat, i: nat) {
    b < i <= |ms| && Calling(ms[b]) && forall j :: b < j < i ==> !Calling(ms[j])
  }

  /** `call` is the one that message `i` answers: the last with its id, blanks around that aside, in the turn before. */
  ghost predicate IsCallFor(ms: seq<Message>, i: nat, call: Option<ToolCall>)
    requires i < |ms|
  {
    var id := Trim(ms[i].toolCallId);
    match call
    case Some(c) => id != "" && exists b: nat :: IsTurnBefore(ms, b, i) && IsLastCall(ms[b].toolCalls, id, c)
    case None => id == "" || forall b: nat :: IsTurnBefore(ms, b, i) ==> forall k :: 0 <= k < |ms[b].toolCalls| ==> ms[b].toolCalls[k].id != id
  }

  /** A text of at most 240 characters, with a mark in place of what is cut off. */
  predicate CutTo240(text: string, cut: string) {
    if |text| <= 240 then cut == text else |cut| == 236 && cut[..222] == text[..222] && cut[222..] == "...(truncated)"
  }

  /** What is to be said of result `i`. */
  ghost predicate Tells(ms: seq<Message>, i: nat, policy: Policy, e: LedgerEntry)
    requires i < |ms|
  {
    var m, id := ms[i], Trim(ms[i].toolCallId);
    && m.role == Tool
    && e.toolCallId == (if id == "" then None else Some(id))
    && CutTo240(m.content, e.resultSummary) && e.resultSuccess == policy.inferSuccess(e.resultSummary)
    && exists call :: IsCallFor(ms, i, call)
         && e.toolName == (if call.Some? then call.value.name else if m.name.Some? then m.name.value else "(unknown)")
         && e.args == if call.Some? then Some(call.value.args) else None
  }

  /**
   * The entries are those of the tool results at these places, in order: each tells of its result and is worth
   * recording, and what is to be said of any other result from `from` on is not.
   */
  ghost predicate Records(ms: seq<Message>, policy: Policy, from: nat, at: seq<nat>, entries: seq<LedgerEntry>) {
    && |at| == |entries|
    && (forall i :: 0 <= i < |at| ==> from <= at[i] < |ms| && Tells(ms, at[i], policy, entries[i]) && IsWorth(policy, entries[i]))
    && (forall i, j :: 0 <= i < j < |at| ==> at[i] < at[j])
    && forall k: nat :: from <= k < |ms| && ms[k].role == Tool && k !in at ==>
         exists e :: Tells(ms, k, policy, e) && !IsWorth(policy, e)
  }

  ghost predicate IsWorth(policy: Policy, e: LedgerEntry) {
    policy.persists(e.toolName, e.resultSuccess, e.args)
  }

  /** `active` holds the calls of the last turn before message `i`. */
  ghost predicate HoldsCalls(ms: seq<Message>, i: nat, active: map<string, ToolCall>) {
    && i <= |ms|
    && (forall id :: id in active ==> exists b: nat :: IsTurnBefore(ms, b, i) && IsLastCall(ms[b].toolCalls, id, active[id]))
    && forall b: nat :: IsTurnBefore(ms, b, i) ==> forall k :: 0 <= k < |ms[b].toolCalls| ==> ms[b].toolCalls[k].id in active
  }

  lemma {:induction false} ActiveCallsAre(calls: seq<ToolCall>)
    ensures forall id :: id in ActiveCalls(calls) ==> IsLastCall(calls, id, ActiveCalls(calls)[id])
    ensures forall k :: 0 <= k < |calls| ==> calls[k].id in ActiveCalls(calls)
  {
    hide IsLastCall;
    if calls != [] {
      var n := |calls| - 1;
      ActiveCallsAre(calls[..n]);
      forall id | id in ActiveCalls(calls) ensures IsLastCall(calls, id, ActiveCalls(calls)[id]) {
        LastCallExtends(calls, id);
        if id != calls[n].id {
          assert IsLastCall(calls[..n], id, ActiveCalls(calls[..n])[id]);
        }
      }
      forall k | 0 <= k < |calls| ensures calls[k].id in ActiveCalls(calls) {
        assert k < n ==> calls[k] == calls[..n][k];
      }
    }
  }

  lemma LastCallExtends(calls: seq<ToolCall>, id: string)
    requires calls != []
    ensures id == calls[|calls| - 1].id ==> IsLastCall(calls, id, calls[|calls| - 1])
    ensures id != calls[|calls| - 1].id ==>
              forall call :: IsLastCall(calls[..|calls| - 1], id, call) ==> IsLastCall(calls, id, call)
  {
    var n := |calls| - 1;
    forall call | id != calls[n].id && IsLastCall(calls[..n], id, call) ensures IsLastCall(calls, id, call) {
      var k :| 0 <= k < n && calls[..n][k] == call && call.id == id && forall l :: k < l < n ==> calls[..n][l].id != id;
      assert calls[k] == call;
    }
  }

  lemma TurnBeforeUnique(ms: seq<Message>, b: nat, c: nat, i: nat)
    requires IsTurnBefore(ms, b, i) && IsTurnBefore(ms, c, i)
    ensures b == c
  {
  }

  /** One message more: a turn with calls takes the place of the one before. */
  lemma HoldsNext(ms: seq<Message>, i: nat, active: map<string, ToolCall>)
    requires i < |ms| && HoldsCalls(ms, i, active)
    ensures HoldsCalls(ms, i + 1, if Calling(ms[i]) then ActiveCalls(ms[i].toolCalls) else active)
  {
    hide ActiveCalls, IsLastCall;
    var next := i + 1;
    if Calling(ms[i]) {
      ActiveCallsAre(ms[i].toolCalls);
      assert IsTurnBefore(ms, i, next);
      forall b: nat | IsTurnBefore(ms, b, next) ensures b == i {
        TurnBeforeUnique(ms, b, i, next);
      }
    } else {
      forall b: nat ensures IsTurnBefore(ms, b, next) <==> IsTurnBefore(ms, b, i) {
      }
    }
  }

  lemma LookedUp(ms: seq<Message>, i: nat, active: map<string, ToolCall>)
    requires i < |ms| && HoldsCalls(ms, i, active)
    ensures var id := Trim(ms[i].toolCallId);
            IsCallFor(ms, i, if id != "" && id in active then Some(active[id]) else None)
  {
    hide IsTurnBefore, IsLastCall;
  }

  lemma CutIs(text: string)
    ensures CutTo240(text, Truncate(text, SUMMARY_CHARS))
  {
  }

  lemma CandidateTells(ms: seq<Message>, i: nat, active: map<string, ToolCall>, policy: Policy)
    requires i < |ms| && HoldsCalls(ms, i, active) && ms[i].role == Tool
    ensures Tells(ms, i, policy, Candidate(ms[i], active, policy))
  {
    hide IsCallFor, Truncate, CutTo240, Trim;
    LookedUp(ms, i, active);
    CutIs(ms[i].content);
  }

  lemma {:induction false} LedgerRecords(ms: seq<Message>, i: nat, active: map<string, ToolCall>, policy: Policy) returns (at: seq<nat>)
    requires i <= |ms| && HoldsCalls(ms, i, active)
    ensures Records(ms, policy, i, at, LedgerFrom(ms[i..], active, policy))
    decreases |ms| - i
  {
    hide HoldsCalls, Tells, Candidate, ActiveCalls;
    if i == |ms| {
      at := [];
    } else {
      HoldsNext(ms, i, active);
      assert ms[i..][0] == ms[i] && ms[i..][1..] == ms[i + 1..];
      at := LedgerRecords(ms, i + 1, if Calling(ms[i]) then ActiveCalls(ms[i].toolCalls) else active, policy);
      if ms[i].role == Tool {
        CandidateTells(ms, i, active, policy);
        var rest := LedgerFrom(ms[i + 1..], active, policy);
        if Persists(policy, Candidate(ms[i], active, policy)) {
          RecordsFirst(ms, policy, i, at, rest, Candidate(ms[i], active, policy));
          at := [i] + at;
        } else {
          RecordsSkips(ms, policy, i, at, rest, Candidate(ms[i], active, policy));
        }
      }
    }
  }

  lemma RecordsFirst(ms: seq<Message>, policy: Policy, i: nat, at: seq<nat>, entries: seq<LedgerEntry>, e: LedgerEntry)
    requires i < |ms| && Records(ms, policy, i + 1, at, entries) && Tells(ms, i, policy, e) && IsWorth(policy, e)
    ensures Records(ms, policy, i, [i] + at, [e] + entries)
  {
    hide Tells, IsWorth;
    var all := [i] + at;
    forall k: nat | i <= k < |ms| && ms[k].role == Tool && k !in all ensures exists e' :: Tells(ms, k, policy, e') && !IsWorth(policy, e') {
      assert all[0] == i && forall j :: 0 <= j < |at| ==> all[j + 1] == at[j];
    }
  }

  lemma RecordsSkips(ms: seq<Message>, policy: Policy, i: nat, at: seq<nat>, entries: seq<LedgerEntry>, e: LedgerEntry)
    requires i < |ms| && Records(ms, policy, i + 1, at, entries) && Tells(ms, i, policy, e) && !IsWorth(policy, e)
    ensures Records(ms, policy, i, at, entries)
  {
    hide Tells, IsWorth;
  }

  lemma NothingHeld(ms: seq<Message>)
    ensures HoldsCalls(ms, 0, map[])
  {
  }

  /** What the ledger of a preview records, in the terms of its messages. */
  lemma LedgerIsRecorded(ms: seq<Message>, policy: Policy)
    ensures exists at :: Records(ms, policy, 0, at, LedgerFrom(ms, map[], policy))
  {
    hide Records, LedgerFrom;
    NothingHeld(ms);
    var at := LedgerRecords(ms, 0, map[], policy);
    assert ms[0..] == ms;
  }

  // ----- entries of a well-formed preview -----

  /** Call `k` of turn `b` is the one whose id result `i` carries, blanks around ids aside. */
  predicate Answered(ms: seq<Message>, b: nat, k: nat, i: nat) {
    && IsTurnBefore(ms, b, i) && i < |ms| && i <= b + |ms[b].toolCalls| && k < |ms[b].toolCalls|
    && Trim(ms[b].toolCalls[k].id) == Trim(ms[i].toolCallId) != ""
    && forall l :: 0 <= l < |ms[b].toolCalls| && l != k ==> Trim(ms[b].toolCalls[l].id) != Trim(ms[i].toolCallId)
  }

  /** In a well-formed list every result is in a bundle and carries the id of one of its calls. */
  lemma {:induction false} EveryResultAnswers(ms: seq<Message>, i: nat) returns (b: nat, k: nat)
    requires WellFormed(ms) && i < |ms| && ms[i].role == Tool
    ensures Answered(ms, b, k, i)
    decreases |ms|
  {
    var n := if Calling(ms[0]) then |ms[0].toolCalls| + 1 else 1;
    if Calling(ms[0]) {
      WellFormedBundle(ms);
      if i < n {
        ClosedBundleTools(ms);
        forall j | 0 < j <= |ms[0].toolCalls| ensures ms[j].role == Tool {
          assert ms[1..][j - 1] == ms[j];
        }
        k := AnsweredInBundle(ms, i);
        return 0, k;
      }
    } else {
      WellFormedHead(ms);
    }
    hide WellFormed, ClosedBundle;
    var rest := ms[n..];
    b, k := EveryResultAnswers(rest, i - n);
    AnsweredLater(ms, n, b, k, i);
    b := b + n;
  }

  lemma AnsweredLater(ms: seq<Message>, n: nat, b: nat, k: nat, i: nat)
    requires n <= i < |ms| && Answered(ms[n..], b, k, i - n)
    ensures Answered(ms, b + n, k, i)
  {
    var rest := ms[n..];
    assert rest[b] == ms[b + n] && rest[i - n] == ms[i];
    forall j | b + n < j < i ensures !Calling(ms[j]) {
      assert ms[j] == rest[j - n];
    }
  }

  lemma AnsweredInBundle(ms: seq<Message>, i: nat) returns (k: nat)
    requires ClosedBundle(ms) && 0 < i <= |ms[0].toolCalls|
    requires forall j :: 0 < j <= |ms[0].toolCalls| ==> ms[j].role == Tool
    ensures Answered(ms, 0, k, i)
  {
    var calls := ms[0].toolCalls;
    var results := ms[1..|calls| + 1];
    assert ResultIds(results)[i - 1] == Trim(ms[i].toolCallId) && ResultIds(results)[i - 1] in CallIds(calls);
    k :| 0 <= k < |calls| && CallIds(calls)[k] == Trim(ms[i].toolCallId);
    hide ClosedBundle;
    forall l | 0 <= l < |calls| && l != k ensures Trim(calls[l].id) != Trim(ms[i].toolCallId) {
      assert CallIds(calls)[l] != CallIds(calls)[k];
    }
  }

  /** The ledger knows the call exactly when its id has no blanks around it. */
  lemma KnownIff(ms: seq<Message>, b: nat, k: nat, i: nat, call: Option<ToolCall>)
    requires Answered(ms, b, k, i) && IsCallFor(ms, i, call)
    ensures var asked := ms[b].toolCalls[k];
            call == if asked.id == Trim(asked.id) then Some(asked) else None
  {
    var id, calls := Trim(ms[i].toolCallId), ms[b].toolCalls;
    forall l | 0 <= l < |calls| && calls[l].id == id ensures l == k {
      TrimIdempotent(ms[i].toolCallId);
    }
    if call.Some? {
      var c: nat :| IsTurnBefore(ms, c, i) && IsLastCall(ms[c].toolCalls, id, call.value);
      TurnBeforeUnique(ms, b, c, i);
    }
  }

  /**
   * In a well-formed preview an entry has the name and arguments of the call of its bundle whose id the result
   * carries; but not when that id has blanks around it, since the protocol ignores them and the lookup does not.
   */
  lemma EntriesOfWellFormed(ms: seq<Message>, policy: Policy, at: seq<nat>, entries: seq<LedgerEntry>, j: nat)
    returns (b: nat, k: nat)
    requires WellFormed(ms) && Records(ms, policy, 0, at, entries) && j < |entries|
    ensures j < |at| && Answered(ms, b, k, at[j])
    ensures var asked, e := ms[b].toolCalls[k], entries[j];
            if asked.id == Trim(asked.id) then e.toolName == asked.name && e.args == Some(asked.args)
            else e.toolName == (if ms[at[j]].name.Some? then ms[at[j]].name.value else "(unknown)") && e.args == None
  {
    hide WellFormed, IsCallFor, CutTo240, Persists, Answered;
    assert Tells(ms, at[j], policy, entries[j]);
    b, k := EveryResultAnswers(ms, at[j]);
    var call :| IsCallFor(ms, at[j], call)
      && entries[j].toolName == (if call.Some? then call.value.name else if ms[at[j]].name.Some? then ms[at[j]].name.value else "(unknown)")
      && entries[j].args == if call.Some? then Some(call.value.args) else None;
    KnownIff(ms, b, k, at[j], call);
  }

  /** A blank before the id, on both sides: the protocol is obeyed, and the ledger has lost the arguments. */
  lemma BlankInIdLosesArguments()
    ensures var ms := [Plain(Assistant, "").(toolCalls := [ToolCall(" a", "shell", map["command" := "rm x"])]), ResultMessage(" a", "shell", "")];
            WellFormed(ms) && |LedgerFrom(ms, map[], RecordAll)| == 1 && LedgerFrom(ms, map[], RecordAll)[0].args == None
  {
    var call := ToolCall(" a", "shell", map["command" := "rm x"]);
    var ms := [Plain(Assistant, "").(toolCalls := [call]), ResultMessage(" a", "shell", "")];
    assert TrimStart(" a") == "a" by {
      assert " a"[1..] == "a";
    }
    assert Trim(" a") == "a";
    hide Trim, WellFormed;
    assert CallIds([call]) == ["a"];
    assert ResultIds(ms[1..2]) == ["a"];
    ClosedByIds(ms, ["a"]);
    assert [call][..0] == [] && ms[1..][1..] == [];
    var active := ActiveCalls([call]);
    assert active == map[" a" := call] && |" a"| == 2 && |"a"| == 1 && "a" !in active;
    assert Calling(ms[0]) && LedgerFrom(ms, map[], RecordAll) == LedgerFrom(ms[1..], active, RecordAll);
    assert EntryOf(ms[1], active, RecordAll) == Some(Candidate(ms[1], active, RecordAll));
    assert LedgerFrom(ms[1..], active, RecordAll) == [Candidate(ms[1], active, RecordAll)];
  }

  /** The fold splits at any cut, if the outstanding calls are carried over it. */
  lemma {:induction false} LedgerSplits(a: seq<Message>, b: seq<Message>, active: map<string, ToolCall>, policy: Policy)
    ensures LedgerFrom(a + b, active, policy)
         == LedgerFrom(a, active, policy) + LedgerFrom(b, Carried(a, active), policy)
  {
    if a == [] {
      assert a + b == b;
    } else {
      assert (a + b)[0] == a[0] && (a + b)[1..] == a[1..] + b;
      LedgerSplits(a[1..], b, if Calling(a[0]) then ActiveCalls(a[0].toolCalls) else active, policy);
    }
  }

  /** No result with an id comes before the first turn with calls. */
  predicate Anchored(ms: seq<Message>) {
    ms == [] || Calling(ms[0]) || ((ms[0].role == Tool ==> Trim(ms[0].toolCallId) == "") && Anchored(ms[1..]))
  }

  /**
   * The ledger of the rest can be built without knowing what came before it, whatever that
   * was and whatever is worth recording, exactly when the rest is anchored.
   */
  lemma IndependentIffAnchored(ms: seq<Message>)
    ensures (forall active, policy :: LedgerFrom(ms, active, policy) == LedgerFrom(ms, map[], policy)) <==> Anchored(ms)
  {
    if Anchored(ms) {
      forall active, policy ensures LedgerFrom(ms, active, policy) == LedgerFrom(ms, map[], policy) {
        AnchoredIndependent(ms, active, policy);
      }
    } else {
      var active, policy := DependentWitness(ms);
    }
  }

  lemma {:induction false} AnchoredIndependent(ms: seq<Message>, active: map<string, ToolCall>, policy: Policy)
    requires Anchored(ms)
    ensures LedgerFrom(ms, active, policy) == LedgerFrom(ms, map[], policy)
  {
    if ms != [] && !Calling(ms[0]) {
      AnchoredIndependent(ms[1..], active, policy);
    }
  }

  const RecordAll := Policy((content: string) => true, (name: string, ok: bool, args: Option<Args>) => true)

  lemma {:induction false} DependentWitness(ms: seq<Message>) returns (active: map<string, ToolCall>, policy: Policy)
    requires !Anchored(ms)
    ensures LedgerFrom(ms, active, policy) != LedgerFrom(ms, map[], policy)
    ensures policy == RecordAll
  {
    policy := RecordAll;
    if ms[0].role == Tool && Trim(ms[0].toolCallId) != "" {
      var id := Trim(ms[0].toolCallId);
      active := map[id := ToolCall(id, "shell", map[])];
      assert EntryOf(ms[0], active, policy).value.args != EntryOf(ms[0], map[], policy).value.args;
      assert LedgerFrom(ms, active, policy)[0] != LedgerFrom(ms, map[], policy)[0];
    } else {
      active, policy := DependentWitness(ms[1..]);
      var a, b := LedgerFrom(ms[1..], active, policy), LedgerFrom(ms[1..], map[], policy);
      if ms[0].role == Tool {
        var entry := [EntryOf(ms[0], map[], policy).value];
        assert LedgerFrom(ms, active, policy) == entry + a && LedgerFrom(ms, map[], policy) == entry + b;
        assert (entry + a)[1..] == a && (entry + b)[1..] == b;
      }
    }
  }

  lemma {:induction false} WellFormedIsAnchored(ms: seq<Message>)
    requires WellFormed(ms)
    ensures Anchored(ms)
  {
    if ms != [] && !Calling(ms[0]) {
      WellFormedHead(ms);
      WellFormedIsAnchored(ms[1..]);
    }
  }

  // ----- the cut at the checkpoint -----

  /** The fields by which a message is recognised in a checkpoint. */
  function Comparable(m: Message): Message {
    m.(checkpointId := None, checkpointReason := None)
  }

  /** `n` is the length of the longest common prefix. */
  predicate CommonPrefix(a: seq<Message>, b: seq<Message>, n: nat) {
    && n <= |a| && n <= |b|
    && (forall i :: 0 <= i < n ==> Comparable(a[i]) == Comparable(b[i]))
    && (n < |a| && n < |b| ==> Comparable(a[n]) != Comparable(b[n]))
  }

  method ResolveReplayCheckpointPrefixLength(turnMessages: seq<Message>, checkpointMessages: seq<Message>) returns (matched: nat)
    ensures CommonPrefix(turnMessages, checkpointMessages, matched)
  {
    var maxLength := if |turnMessages| < |checkpointMessages| then |turnMessages| else |checkpointMessages|;
    matched := 0;
    for i := 0 to maxLength
      invariant matched == i
      invariant forall k :: 0 <= k < i ==> Comparable(turnMessages[k]) == Comparable(checkpointMessages[k])
    {
      if Comparable(turnMessages[i]) != Comparable(checkpointMessages[i]) {
        break;
      }
      matched := matched + 1;
    }
  }

  method SlicePreviewMessages(turnMessages: seq<Message>, checkpointMessages: seq<Message>) returns (preview: seq<Message>)
    ensures |preview| <= |turnMessages| && preview == turnMessages[|turnMessages| - |preview|..]
    ensures CommonPrefix(turnMessages, checkpointMessages, |turnMessages| - |preview|)
  {
    if |checkpointMessages| == 0 {
      return turnMessages;
    }
    var matchedPrefixLength := ResolveReplayCheckpointPrefixLength(turnMessages, checkpointMessages);
    preview := turnMessages[matchedPrefixLength..];
  }

  lemma CommonPrefixUnique(a: seq<Message>, b: seq<Message>, m: nat, n: nat)
    requires CommonPrefix(a, b, m) && CommonPrefix(a, b, n)
    ensures m == n
  {
  }

  lemma ComparableWellFormed(a: seq<Message>, b: seq<Message>)
    requires |a| == |b| && forall i :: 0 <= i < |a| ==> Comparable(a[i]) == Comparable(b[i])
    ensures WellFormed(a) ==> WellFormed(b)
  {
    hide WellFormed;
    forall i | 0 <= i < |a|
      ensures a[i].role == b[i].role && a[i].toolCalls == b[i].toolCalls && a[i].toolCallId == b[i].toolCallId
    {
      assert Comparable(a[i]) == Comparable(b[i]);
    }
    SameFieldsSameProtocol(a, b);
  }

  /**
   * The ledger of a turn is the ledger of the part the checkpoint covers followed by the
   * ledger of the preview, whenever turn and checkpoint obey the protocol and the checkpoint
   * was found whole.
   */
  lemma LedgerSplitsAtSafeCheckpoint(turn: seq<Message>, checkpoint: seq<Message>, policy: Policy)
    requires WellFormed(turn) && WellFormed(checkpoint) && CommonPrefix(turn, checkpoint, |checkpoint|)
    ensures var n := |checkpoint|;
            LedgerFrom(turn, map[], policy)
            == LedgerFrom(turn[..n], map[], policy) + LedgerFrom(turn[n..], map[], policy)
  {
    var n := |checkpoint|;
    assert turn == turn[..n] + turn[n..];
    ComparableWellFormed(checkpoint, turn[..n]);
    WellFormedRest(turn[..n], turn[n..]);
    WellFormedIsAnchored(turn[n..]);
    LedgerSplits(turn[..n], turn[n..], map[], policy);
    AnchoredIndependent(turn[n..], Carried(turn[..n], map[]), policy);
  }

  /** What follows a well-formed prefix of a well-formed list is well-formed. */
  lemma {:induction false} WellFormedRest(a: seq<Message>, b: seq<Message>)
    requires WellFormed(a) && WellFormed(a + b)
    ensures WellFormed(b)
    decreases |a|
  {
    if a == [] {
      assert a + b == b;
    } else {
      var n := if Calling(a[0]) then |a[0].toolCalls| + 1 else 1;
      if Calling(a[0]) {
        WellFormedBundle(a);
        WellFormedBundle(a + b);
      }
      assert (a + b)[n..] == a[n..] + b;
      WellFormedRest(a[n..], b);
    }
  }

  /** A turn with two calls, the first of them blocked. */
  function TwoCalls(): seq<ToolCall> {
    [ToolCall("a", "shell", map[]), ToolCall("b", "write_file", map["path" := "x"])]
  }

  function BlockedPart(): seq<Message> {
    [Plain(Assistant, "").(toolCalls := TwoCalls()), ResultMessage("a", "shell", "blocked")]
  }

  function LaterPart(): seq<Message> {
    [ResultMessage("b", "write_file", "ok")]
  }

  lemma BlockedTurnWellFormed()
    ensures WellFormed(BlockedPart() + LaterPart())
  {
    TrimmedIff("a");
    TrimmedIff("b");
    assert Trim("a") == "a" && Trim("b") == "b";
    hide *;
    var calls, turn := TwoCalls(), BlockedPart() + LaterPart();
    BlockedTurnShape();
    assert CallIds(calls) == ["a", "b"];
    var results := turn[1..3];
    assert ResultIds(results) == ["a", "b"];
    ClosedByIds(turn, ["a", "b"]);
  }

  lemma BlockedTurnShape()
    ensures var turn := BlockedPart() + LaterPart();
            && |turn| == 3 && Calling(turn[0]) && turn[0].toolCalls == TwoCalls() && |TwoCalls()| == 2
            && TwoCalls()[0].id == "a" && TwoCalls()[1].id == "b"
            && turn[1].role == turn[2].role == Tool && turn[1].toolCallId == "a" && turn[2].toolCallId == "b"
  {
  }

  /** The checkpoint taken after a blocked call cuts a bundle, and the preview forgets the other call's arguments. */
  lemma BlockedCheckpointLosesArguments()
    ensures var turn, checkpoint := BlockedPart() + LaterPart(), BlockedPart();
            && WellFormed(turn) && CommonPrefix(turn, checkpoint, |checkpoint|)
            && turn[|checkpoint|..] == LaterPart()
            && LedgerFrom(turn, map[], RecordAll)
               != LedgerFrom(checkpoint, map[], RecordAll) + LedgerFrom(LaterPart(), map[], RecordAll)
  {
    BlockedTurnWellFormed();
    hide WellFormed, ClosedBundle;
    var calls := TwoCalls();
    LedgerSplits(BlockedPart(), LaterPart(), map[], RecordAll);
    assert BlockedPart()[1..][1..] == [] && LaterPart()[1..] == [];
    assert Carried(BlockedPart(), map[]) == ActiveCalls(calls);
    assert calls[..1][..0] == [];
    assert "b" in ActiveCalls(calls) && ActiveCalls(calls)["b"] == calls[1];
    TrimmedIff("b");
    var known, unknown := LedgerFrom(LaterPart(), ActiveCalls(calls), RecordAll), LedgerFrom(LaterPart(), map[], RecordAll);
    assert known[0].args == Some(calls[1].args) && unknown[0].args == None;
    var first := LedgerFrom(BlockedPart(), map[], RecordAll);
    assert (first + known)[|first|] != (first + unknown)[|first|];
  }
}
