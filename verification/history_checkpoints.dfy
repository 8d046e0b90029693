/**
 * The checkpoint ids of the stored history. From one reset of the counter to the next no id is given twice,
 * whatever else is done to the history: appended to, trimmed, compacted, compressed, summarised or repaired
 * (src/agent/MessageStore.ts and every edit of `RunHistory`).
 */
module HistoryCheckpoints {
  import opened Messages
  import opened Numbers
  import opened ToolProtocol
  import opened WindowTrim
  import opened ContextOverflow
  import opened Precompress
  import opened Store
  import opened ToolCalls
  import opened HistoryReduction
  import opened RunHistory
  import AgentProfiles

  function IdOf(m: Message): multiset<string> {
    if m.checkpointId.Some? then multiset{m.checkpointId.value} else multiset{}
  }

  /** The checkpoint ids that the messages carry, each as often as it occurs. */
  function Ids(ms: seq<Message>): multiset<string> {
    if ms == [] then multiset{} else IdOf(ms[0]) + Ids(ms[1..])
  }

  /** No two messages carry the same id. */
  ghost predicate Unique(ms: seq<Message>) {
    forall i, j :: 0 <= i < j < |ms| && ms[i].checkpointId.Some? ==> ms[i].checkpointId != ms[j].checkpointId
  }

  /** No id is given twice, and the counter is not behind any. */
  ghost predicate Sound(counter: nat, ms: seq<Message>) {
    Unique(ms) && Covers(counter, ms)
  }

  // ----- ids of parts -----

  lemma {:induction false} IdsConcat(a: seq<Message>, b: seq<Message>)
    ensures Ids(a + b) == Ids(a) + Ids(b)
  {
    if a == [] {
      assert a + b == b;
    } else {
      assert (a + b)[0] == a[0] && (a + b)[1..] == a[1..] + b;
      IdsConcat(a[1..], b);
    }
  }

  lemma IdsOfOne(m: Message)
    ensures Ids([m]) == IdOf(m)
  {
    assert [m][1..] == [];
  }

  lemma IdsSlice(ms: seq<Message>, from: nat, to: nat)
    requires from <= to <= |ms|
    ensures Ids(ms[from..to]) <= Ids(ms)
  {
    hide Ids;
    assert ms == ms[..from] + (ms[from..to] + ms[to..]);
    IdsConcat(ms[..from], ms[from..to] + ms[to..]);
    IdsConcat(ms[from..to], ms[to..]);
  }

  lemma {:induction false} SameIdsSame(a: seq<Message>, b: seq<Message>)
    requires |a| == |b| && forall i :: 0 <= i < |a| ==> a[i].checkpointId == b[i].checkpointId
    ensures Ids(a) == Ids(b)
  {
    if a != [] {
      SameIdsSame(a[1..], b[1..]);
    }
  }

  lemma {:induction false} NoIds(ms: seq<Message>)
    requires forall i :: 0 <= i < |ms| ==> ms[i].checkpointId == None
    ensures Ids(ms) == multiset{}
  {
    if ms != [] {
      NoIds(ms[1..]);
    }
  }

  // ----- what the multiset says of the list -----

  lemma {:induction false} IdsCount(ms: seq<Message>, id: string)
    ensures Ids(ms)[id] > 0 <==> exists i :: 0 <= i < |ms| && ms[i].checkpointId == Some(id)
  {
    if ms != [] {
      IdsCount(ms[1..], id);
      assert forall i :: 1 <= i < |ms| ==> ms[i] == ms[1..][i - 1];
      if i :| 0 <= i < |ms[1..]| && ms[1..][i].checkpointId == Some(id) {
        assert ms[i + 1].checkpointId == Some(id);
      }
    }
  }

  /** Unique ids are exactly those that are counted once. */
  lemma {:induction false} UniqueIff(ms: seq<Message>)
    ensures Unique(ms) <==> forall id :: Ids(ms)[id] <= 1
  {
    if ms != [] {
      var tail := ms[1..];
      UniqueIff(tail);
      UniqueTail(ms);
      hide Unique;
      forall id ensures Ids(ms)[id] == IdOf(ms[0])[id] + Ids(tail)[id] {
      }
      if Unique(ms) {
        forall id ensures Ids(ms)[id] <= 1 {
          IdsCount(tail, id);
        }
      } else if !Unique(tail) {
        var id :| Ids(tail)[id] > 1;
        assert Ids(ms)[id] > 1;
      } else {
        var id := ms[0].checkpointId.value;
        IdsCount(tail, id);
        assert Ids(ms)[id] > 1;
      }
    }
  }

  lemma UniqueTail(ms: seq<Message>)
    requires ms != []
    ensures Unique(ms) <==> Unique(ms[1..])
                            && (ms[0].checkpointId.Some? ==> forall i :: 0 <= i < |ms[1..]| ==> ms[1..][i].checkpointId != ms[0].checkpointId)
  {
    assert forall i :: 1 <= i < |ms| ==> ms[i] == ms[1..][i - 1];
  }

  lemma CoversIff(counter: nat, ms: seq<Message>)
    ensures Covers(counter, ms)
            <==> forall id, n: nat :: Ids(ms)[id] > 0 && CheckpointNumber(id) == Some(n) ==> n <= counter
  {
    hide CheckpointNumber;
    if Covers(counter, ms) {
      forall id, n: nat | Ids(ms)[id] > 0 && CheckpointNumber(id) == Some(n) ensures n <= counter {
        IdsCount(ms, id);
        var i :| 0 <= i < |ms| && ms[i].checkpointId == Some(id);
        assert Numbered(ms[i], n);
      }
    } else {
      var i, n: nat :| 0 <= i < |ms| && Numbered(ms[i], n) && n > counter;
      IdsCount(ms, ms[i].checkpointId.value);
    }
  }

  /** With only ids that were there before, everything stays sound. */
  lemma Shrinks(counter: nat, a: seq<Message>, b: seq<Message>)
    requires Sound(counter, a) && Ids(b) <= Ids(a)
    ensures Sound(counter, b)
  {
    hide Ids, Unique, Covers, CheckpointNumber;
    UniqueIff(a);
    UniqueIff(b);
    CoversIff(counter, a);
    CoversIff(counter, b);
    assert forall id :: Ids(b)[id] <= Ids(a)[id];
  }

  /** And also with the next id, which is on no message yet. */
  lemma Mints(counter: nat, a: seq<Message>, b: seq<Message>)
    requires Sound(counter, a) && Ids(b) <= Ids(a) + multiset{CheckpointId(counter + 1)}
    ensures Sound(counter + 1, b)
  {
    hide Ids, Unique, Covers, CheckpointNumber, CheckpointId, Fresh;
    var next := CheckpointId(counter + 1);
    UniqueIff(a);
    UniqueIff(b);
    CoversIff(counter, a);
    CoversIff(counter + 1, b);
    CheckpointRoundTrip(counter + 1);
    assert Ids(a)[next] == 0;
    assert forall id :: Ids(b)[id] <= (Ids(a) + multiset{next})[id];
  }

  // ----- what each operation does to the ids -----

  function ResultIdsOf(results: seq<Message>, ids: seq<string>): seq<Message>
    requires forall i :: 0 <= i < |ids| ==> ids[i] in ResultIds(results)
  {
    seq(|ids|, i requires 0 <= i < |ids| => ResultFor(results, ids[i]))
  }

  lemma IdsWithout(ms: seq<Message>, k: nat)
    requires k < |ms|
    ensures Ids(ms) == IdOf(ms[k]) + Ids(ms[..k] + ms[k + 1..])
  {
    hide Ids, IdOf;
    assert ms == ms[..k] + ([ms[k]] + ms[k + 1..]);
    IdsConcat(ms[..k], [ms[k]] + ms[k + 1..]);
    IdsConcat([ms[k]], ms[k + 1..]);
    IdsConcat(ms[..k], ms[k + 1..]);
    IdsOfOne(ms[k]);
  }

  lemma PickedWithout(results: seq<Message>, ids: seq<string>, k: nat)
    requires k < |ids| && forall i :: 0 <= i < |ids| ==> ids[i] in ResultIds(results)
    ensures var rest := ids[..k] + ids[k + 1..];
            && (forall i :: 0 <= i < |rest| ==> rest[i] in ResultIds(results))
            && Ids(ResultIdsOf(results, ids)) == IdOf(ResultFor(results, ids[k])) + Ids(ResultIdsOf(results, rest))
            && multiset(rest) == multiset(ids) - multiset{ids[k]}
  {
    hide ResultFor, ResultIds, Ids, IdOf;
    MultisetWithout(ids, k);
    var rest := ids[..k] + ids[k + 1..];
    assert forall i :: 0 <= i < |rest| ==> rest[i] == ids[if i < k then i else i + 1];
    var picked := ResultIdsOf(results, ids);
    IdsWithout(picked, k);
    assert ResultIdsOf(results, rest) == picked[..k] + picked[k + 1..];
  }

  lemma MultisetWithout(ids: seq<string>, k: nat)
    requires k < |ids|
    ensures multiset(ids[..k] + ids[k + 1..]) == multiset(ids) - multiset{ids[k]}
  {
    assert ids == ids[..k] + [ids[k]] + ids[k + 1..];
  }

  /** The same ids in another order pick results with the same checkpoints. */
  lemma {:induction false} OrderDoesNotMatter(results: seq<Message>, ids: seq<string>, ids': seq<string>)
    requires multiset(ids) == multiset(ids')
    requires (forall i :: 0 <= i < |ids| ==> ids[i] in ResultIds(results)) && forall i :: 0 <= i < |ids'| ==> ids'[i] in ResultIds(results)
    ensures Ids(ResultIdsOf(results, ids)) == Ids(ResultIdsOf(results, ids'))
    decreases |ids|
  {
    hide ResultFor, ResultIds, Ids, IdOf, ResultIdsOf;
    assert |multiset(ids)| == |ids| && |multiset(ids')| == |ids'|;
    if ids == [] {
      assert ids' == ids;
    } else {
      assert ids[0] in multiset(ids');
      var k :| 0 <= k < |ids'| && ids'[k] == ids[0];
      PickedWithout(results, ids, 0);
      PickedWithout(results, ids', k);
      OrderDoesNotMatter(results, ids[..0] + ids[1..], ids'[..k] + ids'[k + 1..]);
    }
  }

  lemma OrderedKeepsIds(calls: seq<ToolCall>, results: seq<Message>)
    requires Answers(calls, results)
    ensures Ids(Ordered(calls, results)) == Ids(results)
  {
    EveryCallAnswered(calls, results);
    AnswersIsPermutation(calls, results);
    OrderDoesNotMatter(results, CallIds(calls), ResultIds(results));
    forall i | 0 <= i < |results| ensures ResultIdsOf(results, ResultIds(results))[i] == results[i] {
      ResultForAt(results, i);
    }
    assert ResultIdsOf(results, ResultIds(results)) == results;
    assert ResultIdsOf(results, CallIds(calls)) == Ordered(calls, results);
  }

  lemma IdsHeadTail(ms: seq<Message>, n: nat)
    requires 1 <= n <= |ms|
    ensures Ids(ms[..n]) == IdOf(ms[0]) + Ids(ms[1..n])
  {
    assert ms[..n][1..] == ms[1..n];
  }

  lemma FrontIds(ms: seq<Message>)
    requires ms != []
    ensures Ids(SanitizedFront(ms).messages) <= Ids(ms[..Taken(ms)])
  {
    hide Ids;
    var n := Taken(ms);
    var front := SanitizedFront(ms).messages;
    IdsHeadTail(ms, n);
    IdsHeadTail(front, |front|);
    assert front[..|front|] == front;
    if ClosedBundle(ms) {
      ClosedFrontIds(ms);
    } else {
      hide ClosedBundle, Taken;
      assert front[0].checkpointId == None || front[0].checkpointId == ms[0].checkpointId;
      NoIds(front[1..]);
    }
  }

  lemma ClosedFrontIds(ms: seq<Message>)
    requires ClosedBundle(ms)
    ensures SanitizedFront(ms).messages == [ms[0]] + BundleResults(ms)
    ensures SanitizedFront(ms).messages[1..] == BundleResults(ms)
    ensures Ids(BundleResults(ms)) == Ids(ms[1..Taken(ms)])
  {
    hide Ids, Ordered;
    OrderedKeepsIds(ms[0].toolCalls, ms[1..Taken(ms)]);
  }

  lemma {:induction false} SanitizedIds(ms: seq<Message>)
    ensures Ids(Sanitized(ms).messages) <= Ids(ms)
    decreases |ms|
  {
    hide SanitizedFront, Taken, Ids;
    if ms != [] {
      var n := Taken(ms);
      FrontIds(ms);
      SanitizedIds(ms[n..]);
      IdsConcat(SanitizedFront(ms).messages, Sanitized(ms[n..]).messages);
      IdsConcat(ms[..n], ms[n..]);
      assert ms == ms[..n] + ms[n..];
    }
  }

  lemma SuffixIds(ms: seq<Message>, from: nat)
    requires from <= |ms|
    ensures Ids(ms[from..]) <= Ids(ms)
  {
    hide Ids;
    IdsSlice(ms, from, |ms|);
    assert ms[from..] == ms[from..|ms|];
  }

  lemma PartsIds(ms: seq<Message>)
    ensures Ids(ms) == Ids(SystemPart(ms)) + Ids(Body(ms))
  {
    hide Ids;
    assert ms == SystemPart(ms) + Body(ms);
    IdsConcat(SystemPart(ms), Body(ms));
  }

  /** A front, one message without id, and a part of the rest. */
  lemma AroundIds(front: seq<Message>, m: Message, rest: seq<Message>)
    ensures Ids(front + [m] + rest) == Ids(front) + IdOf(m) + Ids(rest)
  {
    hide Ids;
    IdsConcat(front + [m], rest);
    IdsConcat(front, [m]);
    IdsOfOne(m);
  }

  lemma TrimmedIds(ms: seq<Message>, options: TrimOptions, size: Message -> nat)
    ensures Ids(Trimmed(ms, options, size).messages) <= Ids(ms)
  {
    hide Ids, Body, SystemPart, Notice, Trimmed;
    var r := Trimmed(ms, options, size);
    IsTrimIff(ms, options, size, r);
    TrimShape(ms, options, size, r);
    var content := NormalizedAll(Body(ms), options);
    SameIdsSame(content, Body(ms));
    PartsIds(ms);
    if r.removedCount == 0 {
      IdsConcat(SystemPart(ms), content);
    } else {
      SuffixIds(content, r.removedCount);
      NoticeHasNoId(r.removedCount, |content| - r.removedCount);
      AroundIds(SystemPart(ms), Notice(r.removedCount, |content| - r.removedCount), content[r.removedCount..]);
    }
  }

  lemma NoticeHasNoId(removed: nat, kept: nat)
    ensures IdOf(Notice(removed, kept)) == multiset{}
  {
  }

  lemma {:induction false} HeadIds(head: seq<Message>)
    ensures Ids(CompactedHead(head).kept) <= Ids(head)
    decreases |head|
  {
    hide Ids, HeadStep, ClosedBundle;
    if head != [] {
      var n := HeadStep(head);
      var front, rest := HeadFront(head), CompactedHead(head[n..]);
      HeadIds(head[n..]);
      IdsConcat(front.kept, rest.kept);
      IdsConcat(head[..n], head[n..]);
      assert head == head[..n] + head[n..];
      FirstKept(head, n);
    }
  }

  lemma FirstKept(head: seq<Message>, n: nat)
    requires head != [] && 1 <= n <= |head|
    ensures Ids(HeadFront(head).kept) <= Ids(head[..n])
  {
    IdsHeadTail(head, n);
    IdsOfOne(head[0]);
    hide Ids, ClosedBundle;
    NoIds([]);
  }

  lemma CompactedIds(ms: seq<Message>)
    ensures Ids(Compacted(ms).messages) <= Ids(ms)
  {
    if Compacted(ms).compactedToolCallChains > 0 {
      CompactedShape(ms);
      var c := Compacted(ms);
      var summary := CompactionSummary(c.compactedToolCallChains, c.compactedToolMessages);
      assert IdOf(summary) == multiset{};
      hide Ids, Compacted, CompactedHead, CompactionSummary, Body, SystemPart, Head, Tail;
      HeadIds(Head(ms));
      Parts(ms);
      IdsConcat(SystemPart(ms) + Head(ms), Tail(ms));
      IdsConcat(SystemPart(ms), Head(ms));
      AroundIds(SystemPart(ms) + CompactedHead(Head(ms)).kept, summary, Tail(ms));
      IdsConcat(SystemPart(ms), CompactedHead(Head(ms)).kept);
    } else {
      hide Ids;
      assert Compacted(ms).messages == ms;
    }
  }

  lemma RecoveredIds(ms: seq<Message>, answer: CompressorAnswer, options: TrimOptions, size: Message -> nat)
    ensures Ids(Recovered(ms, answer, options, size)) <= Ids(ms)
  {
    hide Ids, Trimmed, Body, SystemPart, SplitIndex;
    match RecoveryMode(ms, answer)
    case NoCompression =>
    case LlmCompressor =>
      PartsIds(ms);
      SuffixIds(Body(ms), SplitIndex(Body(ms), RECOVERY_TAIL));
      AroundIds(SystemPart(ms), RecoverySummary(answer.compressedContent), RecoveryTail(ms));
    case DeterministicTrim => TrimmedIds(ms, options, size);
  }

  // ----- the tool phase -----

  lemma {:induction false} CallsLeaveIds(ms: seq<Message>, at: nat, calls: seq<ToolCall>, scripts: nat -> CallScript, n: nat)
    requires at < |ms| && n <= |calls|
    ensures Ids(CallsLeave(ms, at, calls, scripts, n)) == Ids(ms)
  {
    if n > 0 {
      CallsLeaveIds(ms, at, calls, scripts, n - 1);
      OneCallIds(CallsLeave(ms, at, calls, scripts, n - 1), at, calls[n - 1], scripts(n - 1));
      hide Ids, CallLeaves;
    }
  }

  lemma OneCallIds(ms: seq<Message>, at: nat, call: ToolCall, script: CallScript)
    requires at < |ms|
    ensures Ids(CallLeaves(ms, at, call, script)) == Ids(ms)
  {
    hide Ids;
    var effective := EffectiveCall(call, script);
    var rewritten := WithRewrittenCall(ms, at, call.id, effective);
    SameIdsSame(rewritten, ms);
    var result := if script.hook.Blocked? then ResultMessage(call.id, call.name, script.hook.content)
                  else ResultMessage(effective.id, effective.name, Delivery(script));
    IdsOfOne(result);
    IdsConcat(ms, [result]);
    IdsConcat(rewritten, [result]);
  }

  lemma SummarySound(h: Stored)
    requires Sound(h.checkpointCounter, h.messages)
    ensures Sound(SummaryApplied(h).checkpointCounter, SummaryApplied(h).messages)
  {
    hide Ids, Unique, Covers, Sanitized, LastWithCheckpoint;
    if h.pending.Some? && LastWithCheckpoint(h.messages, h.pending.value.checkpointId) >= 0 {
      var request, n := h.pending.value, h.checkpointCounter + 1;
      var at := LastWithCheckpoint(h.messages, request.checkpointId);
      var kept, anchor := Summarised(h.messages, at, KeepRecent(request)), SummaryAnchor(request, CheckpointId(n));
      SummarisedIds(h.messages, at, KeepRecent(request));
      IdsConcat(kept, [anchor]);
      IdsOfOne(anchor);
      SanitizedIds(kept + [anchor]);
      Mints(h.checkpointCounter, h.messages, SummaryApplied(h).messages);
    }
  }

  lemma SummarisedIds(ms: seq<Message>, at: nat, keep: nat)
    requires at < |ms|
    ensures Ids(Summarised(ms, at, keep)) <= Ids(ms)
  {
    hide Ids;
    var from := Max(at + 1, |ms| - keep);
    IdsConcat(ms[..at + 1], ms[from..]);
    IdsConcat(ms[..at + 1], ms[at + 1..]);
    assert ms == ms[..at + 1] + ms[at + 1..];
    SuffixIds(ms[at + 1..], from - (at + 1));
    assert ms[at + 1..][from - (at + 1)..] == ms[from..];
  }

  /** One more message under the next id. */
  lemma MintedSound(counter: nat, ms: seq<Message>, m: Message)
    requires Sound(counter, ms) && m.checkpointId == Some(CheckpointId(counter + 1))
    ensures Sound(counter + 1, ms + [m])
  {
    hide Ids, Unique, Covers;
    IdsConcat(ms, [m]);
    IdsOfOne(m);
    Mints(counter, ms, ms + [m]);
  }

  /** One more message without an id. */
  lemma PlainSound(counter: nat, ms: seq<Message>, m: Message)
    requires Sound(counter, ms) && m.checkpointId == None
    ensures Sound(counter, ms + [m])
  {
    hide Ids, Unique, Covers;
    IdsConcat(ms, [m]);
    IdsOfOne(m);
    Shrinks(counter, ms, ms + [m]);
  }

  lemma ToolPhaseSound(h: Stored, calls: seq<ToolCall>, scripts: nat -> CallScript, runningInput: Option<string>)
    requires calls != [] ==> h.messages != []
    requires Sound(h.checkpointCounter, h.messages)
    ensures var after := ToolPhase(h, calls, scripts, runningInput); Sound(after.checkpointCounter, after.messages)
  {
    hide Ids, Unique, Covers, SummaryApplied, RunFate, Sound, CheckpointId;
    if calls != [] {
      var left := h.(messages := CallsLeft(h.messages, calls, scripts));
      CallsLeaveIds(h.messages, |h.messages| - 1, calls, scripts, Begun(scripts, |calls|));
      Shrinks(h.checkpointCounter, h.messages, left.messages);
      SummarySound(left);
      var applied := SummaryApplied(left);
      if NonBlank(runningInput).Some? {
        MintedSound(applied.checkpointCounter, applied.messages,
                    UserMessage(NonBlank(runningInput).value, applied.checkpointCounter + 1));
      }
    }
  }

  // ----- over all edits -----

  lemma AttemptedSound(s: Settings, h: Stored, request: PrecompressRequest, h': Stored)
    requires Attempted(s, h, request, h') && Sound(h.checkpointCounter, h.messages)
    ensures Sound(h'.checkpointCounter, h'.messages)
  {
    hide Ids, Unique, Covers, Sanitized, Compresses, Around, Outcome, Body, SystemPart, AgentProfiles.Canonical, Sound;
    var ms := AgentProfiles.NormalizedHistory(h.messages);
    SameIdsSame(ms, h.messages);
    Shrinks(h.checkpointCounter, h.messages, ms);
    if IsCompressed(s, h, request) {
      var older, tail, chunks :|
        Compresses(s.host, s.precompress, request, ms, older, tail, chunks)
        && h'.messages == Sanitized(Around(ms, Outcome(s.host, chunks), h'.checkpointCounter, tail)).messages;
      var next := Around(ms, Outcome(s.host, chunks), h'.checkpointCounter, tail);
      CompressedIds(s, request, ms, older, tail, chunks, h'.checkpointCounter);
      SanitizedIds(next);
      Mints(h.checkpointCounter, ms, h'.messages);
    }
  }

  lemma CompressedIds(s: Settings, request: PrecompressRequest, ms: seq<Message>, older: seq<Message>, tail: seq<Message>,
                      chunks: seq<seq<Message>>, n: nat)
    requires Compresses(s.host, s.precompress, request, ms, older, tail, chunks)
    ensures Ids(Around(ms, Outcome(s.host, chunks), n, tail)) <= Ids(ms) + multiset{CheckpointId(n)}
  {
    hide Ids, Outcome, PrecompressedSummary, Body, SystemPart, CheckpointId;
    assert older + tail == Body(ms);
    PartsIds(ms);
    IdsConcat(older, tail);
    var summary := PrecompressedSummary(Outcome(s.host, chunks)).(
                     checkpointId := Some(CheckpointId(n)), checkpointReason := Some("summary_anchor"));
    AroundIds(SystemPart(ms), summary, tail);
    assert IdOf(summary) == multiset{CheckpointId(n)};
  }

  lemma CutDownSound(s: Settings, h: Stored, previousAttempt: nat, compressor: CompressorAnswer)
    requires Sound(h.checkpointCounter, h.messages)
    ensures Sound(h.checkpointCounter, CutDown(s, h, previousAttempt, compressor).messages)
  {
    hide Ids, Unique, Covers, Recovered, Compacted, Sound;
    var compacted := Compacted(h.messages).messages;
    var recovered := Recovered(compacted, compressor, s.recoveryTrim, s.size);
    CompactedIds(h.messages);
    RecoveredIds(compacted, compressor, s.recoveryTrim, s.size);
    Shrinks(h.checkpointCounter, h.messages, recovered);
    PlainSound(h.checkpointCounter, recovered, ContinuationPrompt(previousAttempt + 1, s.maxRecoveries));
    assert recovered + [] == recovered;
  }

  /** The edit sets the counter back: a run starts, or is refused for want of a provider. */
  predicate Resets(edit: Edit) {
    edit.RunStarts? || edit.RunRefused?
  }

  /** Every edit but the start of a run keeps the ids unique and the counter not behind them. */
  lemma EditKeepsIds(s: Settings, h: Stored, edit: Edit, h': Stored)
    requires Edited(s, h, edit, h') && !Resets(edit) && Sound(h.checkpointCounter, h.messages)
    ensures Sound(h'.checkpointCounter, h'.messages)
  {
    hide Ids, Unique, Covers, Sound, Attempted, ToolPhase, CutDown, Sanitized, Trimmed, CheckpointId;
    match edit {
      case Attempt(request, _) => AttemptedSound(s, h, request, h');
      case TrimForced =>
        TrimmedIds(h.messages, s.forcedTrim, s.size);
        SanitizedIds(Trimmed(h.messages, s.forcedTrim, s.size).messages);
        Shrinks(h.checkpointCounter, h.messages, h'.messages);
      case ProtocolFailed(note) => PlainSound(h.checkpointCounter, h.messages, Plain(User, note));
      case StreamInterrupted(content) => PlainSound(h.checkpointCounter, h.messages, Plain(Assistant, content));
      case Answered(answer) =>
        TurnSound(h, answer);
        ToolPhaseSound(WithTurn(h, answer), answer.calls, answer.scripts, answer.runningInput);
      case CutOff(_, previousAttempt, compressor) =>
        CutDownSound(s, h, previousAttempt, compressor);
        CutDownCounter(s, h, previousAttempt, compressor);
      case ProgressOnly(note) => PlainSound(h.checkpointCounter, h.messages, Plain(User, note));
      case SummaryAsked(_) =>
    }
  }

  lemma CutDownCounter(s: Settings, h: Stored, previousAttempt: nat, compressor: CompressorAnswer)
    ensures CutDown(s, h, previousAttempt, compressor).checkpointCounter == h.checkpointCounter
  {
  }

  lemma TurnSound(h: Stored, answer: ProviderAnswer)
    requires Sound(h.checkpointCounter, h.messages)
    ensures var turn := WithTurn(h, answer); Sound(turn.checkpointCounter, turn.messages)
  {
    hide Sound, CheckpointId;
    if answer.calls == [] {
      PlainSound(h.checkpointCounter, h.messages, Turn(h, answer));
    } else {
      MintedSound(h.checkpointCounter, h.messages, Turn(h, answer));
    }
  }

  /** Over any edits between two starts of a run: once the ids are unique and counted, they are so throughout. */
  lemma {:induction false} UniqueBetweenResets(s: Settings, hs: seq<Stored>, edits: seq<Edit>, k: nat)
    requires IsTrace(s, hs, edits) && k <= |edits|
    requires Sound(hs[0].checkpointCounter, hs[0].messages)
    requires forall j :: 0 <= j < k ==> !Resets(edits[j])
    ensures Sound(hs[k].checkpointCounter, hs[k].messages)
  {
    hide Sound, Edited;
    if k > 0 {
      UniqueBetweenResets(s, hs, edits, k - 1);
      var n := k - 1;
      assert Edited(s, hs[n], edits[n], hs[n + 1]);
      EditKeepsIds(s, hs[n], edits[n], hs[n + 1]);
    }
  }

  /**
   * The start of a run mints the first id anew: the ids stay unique exactly when no message kept from before
   * carries it, and the counter is not behind exactly when none carries a number above one.
   */
  lemma ResetKeepsIdsIff(s: Settings, h: Stored, prompt: string, h': Stored)
    requires Edited(s, h, RunStarts(prompt), h') && Unique(h.messages)
    ensures Unique(h'.messages) <==> Fresh(CheckpointId(1), h.messages)
    ensures Covers(h'.checkpointCounter, h'.messages) <==> Covers(1, h.messages)
  {
    hide CheckpointId, Numbered;
    var m := UserMessage(prompt, 1);
    assert h'.messages == h.messages + [m];
    assert h'.messages[|h.messages|] == m;
    assert forall i :: 0 <= i < |h.messages| ==> h'.messages[i] == h.messages[i];
    FirstIdIsOne(prompt);
  }

  lemma FirstIdIsOne(prompt: string)
    ensures forall n: nat :: Numbered(UserMessage(prompt, 1), n) ==> n == 1
  {
    CheckpointRoundTrip(1);
  }

  /** A first run on an empty store has unique ids throughout, and the second run on the store repeats the first id at once. */
  lemma SecondRunRepeats(s: Settings, hs: seq<Stored>, edits: seq<Edit>, first: string, second: string)
    requires IsTrace(s, hs, edits) && hs[0].messages == [] && |edits| >= 2
    requires edits[0] == RunStarts(first) && edits[1] == RunStarts(second)
    ensures Unique(hs[1].messages) && !Unique(hs[2].messages)
  {
    assert Edited(s, hs[0], edits[0], hs[1]) && Edited(s, hs[1], edits[1], hs[2]);
    hide CheckpointId;
    assert hs[1].messages == [UserMessage(first, 1)];
    var ms := hs[2].messages;
    assert ms == [UserMessage(first, 1), UserMessage(second, 1)];
    assert ms[0].checkpointId.Some? && ms[0].checkpointId == ms[1].checkpointId;
  }
}
