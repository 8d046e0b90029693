/**
 * Shrinking a history after an overflow or a cut-off answer: compaction of completed tool
 * chains, compression of the older part, forced trimming (src/agent/ContextOverflowHandler.ts).
 */
module ContextOverflow {
  import opened Messages
  import opened Numbers
  import opened Text
  import opened ToolProtocol
  import opened WindowTrim

  const TAIL_WINDOW := 20
  const RECOVERY_TAIL := 16

  /** Where the last `window` messages of `body` begin. */
  function SplitIndex(body: seq<Message>, window: nat): (i: nat)
    ensures i <= |body| && |body| - i <= window
  {
    if |body| <= window then 0 else |body| - window
  }

  // ----- compacting the head -----

  /**
   * What one pass over the head leaves: the kept messages and the counts. `surplus` counts the
   * results that follow a closed bundle beyond its calls; the code drops them uncounted.
   */
  datatype HeadPass = HeadPass(kept: seq<Message>, chains: nat, toolMessages: nat, surplus: nat) {
    function Then(next: HeadPass): HeadPass {
      HeadPass(kept + next.kept, chains + next.chains, toolMessages + next.toolMessages, surplus + next.surplus)
    }
  }

  function HeadStep(head: seq<Message>): (n: nat)
    requires head != []
    ensures 1 <= n <= |head|
  {
    if ClosedBundle(head) then ToolRun(head[1..]) + 1 else 1
  }

  function HeadFront(head: seq<Message>): HeadPass
    requires head != []
  {
    if ClosedBundle(head) then
      var n := |head[0].toolCalls|;
      BundleWithinRun(head);
      HeadPass([], 1, n + 1, ToolRun(head[1..]) - n)
    else HeadPass([head[0]], 0, 0, 0)
  }

  function CompactedHead(head: seq<Message>): HeadPass {
    if head == [] then HeadPass([], 0, 0, 0)
    else HeadFront(head).Then(CompactedHead(head[HeadStep(head)..]))
  }

  /** The set of usable ids is as large as the list of calls exactly when the ids are distinct and not empty. */
  lemma UsableIdsIff(ids: seq<string>)
    ensures |set id | id in ids && id != ""| == |ids| <==> "" !in ids && Distinct(ids)
  {
    UsableIdsAtMost(ids);
    var usable := set id | id in ids && id != "";
    if "" !in ids && Distinct(ids) {
      DistinctSize(ids);
      assert usable == set id | id in ids;
    }
  }

  lemma {:induction false} UsableIdsAtMost(ids: seq<string>)
    ensures |set id | id in ids && id != ""| <= |ids|
    ensures |set id | id in ids && id != ""| == |ids| ==> "" !in ids && Distinct(ids)
  {
    if ids != [] {
      var n := |ids| - 1;
      UsableIdsAtMost(ids[..n]);
      var before := set id | id in ids[..n] && id != "";
      var after := set id | id in ids && id != "";
      assert ids == ids[..n] + [ids[n]];
      assert after == if ids[n] == "" then before else before + {ids[n]};
    }
  }

  /** The results cover the called ids without repeating one. */
  method ResultsAligned(expectedIds: set<string>, rids: seq<string>) returns (aligned: bool)
    requires "" !in expectedIds
    ensures aligned <==> Distinct(rids) && forall i :: 0 <= i < |rids| ==> rids[i] in expectedIds
  {
    var matchIds: set<string> := {};
    for k := 0 to |rids|
      invariant forall id :: id in matchIds <==> exists i :: 0 <= i < k && rids[i] == id
      invariant forall i :: 0 <= i < k ==> rids[i] in expectedIds
      invariant forall i, j :: 0 <= i < j < k ==> rids[i] != rids[j]
    {
      if rids[k] == "" || rids[k] !in expectedIds || rids[k] in matchIds {
        return false;
      }
      matchIds := matchIds + {rids[k]};
    }
    return true;
  }

  /** With usable ids and enough results, only the result ids decide whether a bundle is closed. */
  lemma ClosedIff(ms: seq<Message>, n: nat)
    requires n < |ms| && Calling(ms[0]) && |ms[0].toolCalls| == n && AllTools(ms[1..n + 1])
    requires "" !in CallIds(ms[0].toolCalls) && Distinct(CallIds(ms[0].toolCalls))
    ensures var ids, rids := CallIds(ms[0].toolCalls), ResultIds(ms[1..n + 1]);
            ClosedBundle(ms) <==> Distinct(rids) && forall i :: 0 <= i < |rids| ==> rids[i] in ids
  {
  }

  /** Decides one message of the head: a completed chain is counted, anything else kept. */
  method CompactFront(head: seq<Message>, i: nat) returns (front: HeadPass, next: nat)
    requires i < |head|
    ensures front == HeadFront(head[i..]) && next == i + HeadStep(head[i..])
  {
    var message := head[i];
    ghost var ms := head[i..];
    assert ms[1..] == head[i + 1..];
    front, next := HeadPass([message], 0, 0, 0), i + 1;
    if message.role != Assistant || message.toolCalls == [] {
      return;
    }
    var n := |message.toolCalls|;
    var ids := CallIds(message.toolCalls);
    var expectedIds := set id | id in ids && id != "";
    UsableIdsIff(ids);
    if |expectedIds| != n {
      return;
    }
    var alignedResults := CollectFollowingTools(head, i);
    if |alignedResults| < n {
      if ClosedBundle(ms) {
        BundleWithinRun(ms);
        assert false;
      }
      return;
    }
    var chainResults := alignedResults[..n];
    assert chainResults == ms[1..][..n] == ms[1..n + 1];
    ClosedIff(ms, n);
    hide ClosedBundle;
    var aligned := ResultsAligned(expectedIds, ResultIds(chainResults));
    if !aligned {
      return;
    }
    front, next := HeadPass([], 1, n + 1, |alignedResults| - n), i + 1 + |alignedResults|;
  }

  method CompactHead(head: seq<Message>) returns (pass: HeadPass)
    ensures pass == CompactedHead(head)
  {
    hide *;
    pass := HeadPass([], 0, 0, 0);
    var i := 0;
    assert head[0..] == head;
    HeadEmpty(CompactedHead(head), []);
    while i < |head|
      invariant 0 <= i <= |head|
      invariant pass.Then(CompactedHead(head[i..])) == CompactedHead(head)
    {
      var front, next := CompactFront(head, i);
      HeadAdvance(pass, head[i..]);
      assert head[i..][next - i..] == head[next..];
      pass, i := pass.Then(front), next;
    }
    HeadEmpty(pass, head[i..]);
  }

  lemma HeadEmpty(a: HeadPass, head: seq<Message>)
    requires head == []
    ensures HeadPass([], 0, 0, 0).Then(a) == a == a.Then(CompactedHead(head))
  {
  }

  lemma HeadAdvance(before: HeadPass, head: seq<Message>)
    requires head != []
    ensures before.Then(HeadFront(head)).Then(CompactedHead(head[HeadStep(head)..])) == before.Then(CompactedHead(head))
  {
    var f, r := HeadFront(head), CompactedHead(head[HeadStep(head)..]);
    assert before.kept + f.kept + r.kept == before.kept + (f.kept + r.kept);
  }

  /** Every message of the head is kept, counted as compacted, or surplus. */
  lemma {:induction false} HeadConserved(head: seq<Message>)
    ensures var p := CompactedHead(head);
            |head| == |p.kept| + p.toolMessages + p.surplus && p.toolMessages >= 2 * p.chains
            && (p.chains == 0 ==> p.kept == head && p.toolMessages == p.surplus == 0)
    decreases |head|
  {
    if head != [] {
      var n := HeadStep(head);
      HeadConserved(head[n..]);
      if !ClosedBundle(head) {
        assert head == [head[0]] + head[1..];
      }
    }
  }

  /** The messages outside tool bundles, in order. */
  function Talk(ms: seq<Message>): (talk: seq<Message>)
    ensures |talk| <= |ms|
  {
    if ms == [] then []
    else if Calling(ms[0]) || ms[0].role == Tool then Talk(ms[1..])
    else [ms[0]] + Talk(ms[1..])
  }

  lemma {:induction false} TalkIsPlain(ms: seq<Message>)
    ensures forall i :: 0 <= i < |Talk(ms)| ==> Talk(ms)[i].role != Tool && !Calling(Talk(ms)[i])
  {
    if ms != [] {
      TalkIsPlain(ms[1..]);
    }
  }

  lemma {:induction false} TalkSkipsTools(ms: seq<Message>, n: nat)
    requires n <= |ms| && forall i :: 0 <= i < n ==> ms[i].role == Tool
    ensures Talk(ms) == Talk(ms[n..])
  {
    if n > 0 {
      assert ms[1..][n - 1..] == ms[n..];
      TalkSkipsTools(ms[1..], n - 1);
    }
  }

  lemma {:induction false} CallersSkipTools(ms: seq<Message>, n: nat)
    requires n <= |ms| && forall i :: 0 <= i < n ==> ms[i].role == Tool
    ensures Callers(ms) == Callers(ms[n..])
  {
    if n > 0 {
      assert ms[1..][n - 1..] == ms[n..];
      CallersSkipTools(ms[1..], n - 1);
    }
  }

  /** Over a well-formed head every bundle goes, everything else stays in order, nothing is surplus. */
  lemma {:induction false} CompactedWellFormedHead(head: seq<Message>)
    requires WellFormed(head)
    ensures CompactedHead(head).kept == Talk(head)
    ensures CompactedHead(head).chains == Callers(head)
    ensures CompactedHead(head).surplus == 0
    decreases |head|
  {
    if head != [] {
      WellFormedFrontStep(head);
      CompactedWellFormedHead(head[HeadStep(head)..]);
    }
  }

  lemma WellFormedFrontStep(head: seq<Message>)
    requires head != [] && WellFormed(head)
    ensures WellFormed(head[HeadStep(head)..])
    ensures HeadFront(head).surplus == 0
    ensures HeadFront(head).chains == (if Calling(head[0]) then 1 else 0)
    ensures HeadFront(head).kept + Talk(head[HeadStep(head)..]) == Talk(head)
    ensures HeadFront(head).chains + Callers(head[HeadStep(head)..]) == Callers(head)
  {
    if Calling(head[0]) {
      var n := |head[0].toolCalls|;
      WellFormedBundle(head);
      RunOfBundle(head);
      assert head[1..][n..] == head[n + 1..];
      TalkSkipsTools(head[1..], n);
      CallersSkipTools(head[1..], n);
    } else {
      WellFormedHead(head);
    }
  }

  /**
   * A cut may leave the last bundle of the head open; even then no result becomes surplus.
   */
  lemma {:induction false} NoSurplusBeforeCut(head: seq<Message>, tail: seq<Message>)
    requires WellFormed(head + tail)
    ensures CompactedHead(head).surplus == 0
    decreases |head|
  {
    if head != [] {
      var ms := head + tail;
      assert ms[0] == head[0] && ms[1..] == head[1..] + tail;
      if ClosedBundle(head) {
        ClosedBeforeCut(head, tail);
        NoSurplusBeforeCut(head[|head[0].toolCalls| + 1..], tail);
      } else if Calling(head[0]) {
        NoSurplusInOpenBundle(head, tail);
      } else {
        WellFormedHead(ms);
        NoSurplusBeforeCut(head[1..], tail);
      }
    }
  }

  lemma ClosedBeforeCut(head: seq<Message>, tail: seq<Message>)
    requires WellFormed(head + tail) && ClosedBundle(head)
    ensures ToolRun(head[1..]) == |head[0].toolCalls|
    ensures WellFormed(head[|head[0].toolCalls| + 1..] + tail)
  {
    hide WellFormed;
    var ms := head + tail;
    var n := |head[0].toolCalls|;
    WellFormedBundle(ms);
    hide *;
    assert ms[n + 1..] == head[n + 1..] + tail;
    BundleWithinRun(head);
    if n + 1 < |head| {
      assert ms[n + 1..][0] == head[1..][n];
      WellFormedStart(ms[n + 1..]);
    }
  }

  lemma NoSurplusInOpenBundle(head: seq<Message>, tail: seq<Message>)
    requires WellFormed(head + tail) && head != [] && Calling(head[0]) && !ClosedBundle(head)
    ensures CompactedHead(head).surplus == 0
  {
    var ms := head + tail;
    var n := |head[0].toolCalls|;
    WellFormedBundle(ms);
    if n + 1 <= |head| {
      PrefixBundle(head, tail);
      assert false;
    }
    ClosedBundleTools(ms);
    assert forall i :: 0 <= i < |head[1..]| ==> head[1..][i] == ms[1..][i];
    ToolsHaveNoBundle(head[1..]);
  }

  lemma PrefixBundle(head: seq<Message>, tail: seq<Message>)
    requires head != [] && ClosedBundle(head + tail) && |head[0].toolCalls| + 1 <= |head|
    ensures ClosedBundle(head)
  {
    var n := |head[0].toolCalls|;
    assert (head + tail)[1..n + 1] == head[1..n + 1];
  }

  lemma {:induction false} ToolsHaveNoBundle(ms: seq<Message>)
    requires AllTools(ms)
    ensures CompactedHead(ms) == HeadPass(ms, 0, 0, 0)
  {
    if ms != [] {
      ToolsHaveNoBundle(ms[1..]);
    }
  }

  // ----- compacting a history -----

  datatype Compaction = Compaction(messages: seq<Message>, compactedToolCallChains: nat, compactedToolMessages: nat)

  function CompactionSummary(chains: nat, toolMessages: nat): Message {
    Plain(Assistant, "[TOOL_HISTORY_COMPACTED] compacted_chains=" + Print(chains)
                     + ", compacted_messages=" + Print(toolMessages))
  }

  function Head(ms: seq<Message>): seq<Message> {
    Body(ms)[..SplitIndex(Body(ms), TAIL_WINDOW)]
  }

  function Tail(ms: seq<Message>): seq<Message> {
    Body(ms)[SplitIndex(Body(ms), TAIL_WINDOW)..]
  }

  function Compacted(ms: seq<Message>): Compaction {
    var pass := CompactedHead(Head(ms));
    if |ms| <= 3 || pass.chains == 0 then Compaction(ms, 0, 0)
    else
      Compaction(
        SystemPart(ms) + pass.kept + [CompactionSummary(pass.chains, pass.toolMessages)] + Tail(ms),
        pass.chains,
        pass.toolMessages)
  }

  /** The cut of the history falls inside a bundle. */
  predicate Straddles(ms: seq<Message>) {
    Tail(ms) != [] && Tail(ms)[0].role == Tool
  }

  lemma Parts(ms: seq<Message>)
    ensures Head(ms) + Tail(ms) == Body(ms)
    ensures SystemPart(ms) + Head(ms) + Tail(ms) == ms
    ensures |Tail(ms)| == Min(TAIL_WINDOW, |Body(ms)|)
  {
    assert Head(ms) + Tail(ms) == Body(ms);
  }

  /** The sizes add up: what was compacted is replaced by one summary, and surplus results vanish. */
  lemma CompactionCount(ms: seq<Message>)
    ensures var c := Compacted(ms);
            if c.compactedToolCallChains == 0 then c.messages == ms && c.compactedToolMessages == 0
            else |c.messages| + c.compactedToolMessages + CompactedHead(Head(ms)).surplus == |ms| + 1
  {
    Parts(ms);
    HeadConserved(Head(ms));
  }

  /** For a well-formed history the count is exact, wherever the cut falls. */
  lemma CompactionCountWellFormed(ms: seq<Message>)
    requires WellFormed(ms) && Compacted(ms).compactedToolCallChains > 0
    ensures |Compacted(ms).messages| == |ms| - Compacted(ms).compactedToolMessages + 1
  {
    CompactionCount(ms);
    BodyWellFormed(ms);
    Parts(ms);
    assert Head(ms) + Tail(ms) == Body(ms);
    NoSurplusBeforeCut(Head(ms), Tail(ms));
  }

  /**
   * With the cut between bundles: the head loses exactly its bundles, everything else stays
   * in order, and the last messages are untouched behind the summary.
   */
  lemma CompactionKeepsTalk(ms: seq<Message>)
    requires WellFormed(ms) && !Straddles(ms) && |ms| > 3
    ensures Compacted(ms).compactedToolCallChains == Callers(Head(ms))
    ensures Callers(Head(ms)) > 0 ==>
              Compacted(ms).messages
              == SystemPart(ms) + Talk(Head(ms))
                 + [CompactionSummary(Callers(Head(ms)), |Head(ms)| - |Talk(Head(ms))|)] + Tail(ms)
  {
    hide ClosedBundle, WellFormed, CompactedHead, Talk, Callers, Head, Tail, Body, SystemPart, CompactionSummary;
    BodyWellFormed(ms);
    Parts(ms);
    WellFormedSplit(Head(ms), Tail(ms));
    CompactedWellFormedHead(Head(ms));
    HeadConserved(Head(ms));
  }

  /**
   * Compaction of a well-formed history is well-formed exactly when nothing was compacted or
   * the fixed cut does not fall inside a bundle.
   */
  lemma CompactionWellFormedIff(ms: seq<Message>)
    requires WellFormed(ms)
    ensures WellFormed(Compacted(ms).messages) <==> Compacted(ms).compactedToolCallChains == 0 || !Straddles(ms)
  {
    hide WellFormed, CompactedHead;
    var pass := CompactedHead(Head(ms));
    if |ms| > 3 && pass.chains > 0 {
      var summary := CompactionSummary(pass.chains, pass.toolMessages);
      var front := SystemPart(ms) + pass.kept;
      var cut := [summary] + Tail(ms);
      assert cut[1..] == Tail(ms) && front + cut == front + [summary] + Tail(ms);
      BodyWellFormed(ms);
      assert Head(ms) + Tail(ms) == Body(ms);
      WellFormedSplit(Head(ms), Tail(ms));
      if !Straddles(ms) {
        CompactedWellFormedHead(Head(ms));
        TalkIsPlain(Head(ms));
        InsertedBefore(front, summary, Tail(ms));
      } else if WellFormed(front + [summary] + Tail(ms)) {
        WellFormedSplit(front, cut);
        WellFormedHead(cut);
        WellFormedStart(Tail(ms));
        assert false;
      }
    }
  }

  // ----- what a compaction leaves, told by positions -----

  /** A completed bundle starts at this position. */
  ghost predicate Starts(head: seq<Message>, p: nat) {
    p < |head| && ClosedBundle(head[p..])
  }

  /** The position lies in a completed bundle or among the results that follow it without a break. */
  ghost predicate InChain(head: seq<Message>, i: nat) {
    exists p: nat :: Starts(head, p) && RunsFrom(head, p, i)
  }

  ghost predicate RunsFrom(head: seq<Message>, p: nat, i: nat) {
    p <= i < |head| && forall j :: p < j <= i ==> head[j].role == Tool
  }

  /** `kept` are the messages outside the completed bundles, in order. */
  ghost predicate IsOutside(kept: seq<Message>, head: seq<Message>) {
    exists at: seq<nat> :: ListsOutside(at, head) && TakesAll(kept, head, at)
  }

  ghost predicate ListsOutside(at: seq<nat>, head: seq<Message>) {
    Rising(at) && forall i: nat :: i in at <==> i < |head| && !InChain(head, i)
  }

  ghost predicate TakesAll(kept: seq<Message>, head: seq<Message>, at: seq<nat>) {
    |kept| == |at| && forall j :: 0 <= j < |at| ==> at[j] < |head| && kept[j] == head[at[j]]
  }

  ghost predicate ListsStarts(starts: seq<nat>, head: seq<Message>) {
    Rising(starts) && forall p: nat :: p in starts <==> Starts(head, p)
  }

  /** The sizes of the bundles at these positions together. */
  function BundleSizes(head: seq<Message>, starts: seq<nat>): nat
    requires forall k :: 0 <= k < |starts| ==> starts[k] < |head|
  {
    if starts == [] then 0 else |head[starts[0]].toolCalls| + 1 + BundleSizes(head, starts[1..])
  }

  ghost predicate CountsBundles(chains: nat, toolMessages: nat, head: seq<Message>) {
    exists starts: seq<nat> :: && ListsStarts(starts, head) && |starts| == chains
                               && (forall k :: 0 <= k < |starts| ==> starts[k] < |head|)
                               && BundleSizes(head, starts) == toolMessages
  }

  /**
   * A compaction leaves everything but the completed bundles that lie before the last twenty messages; one note of how
   * many there were and how many messages they had stands in front of those last ones.
   */
  ghost predicate CompactionLeaves(ms: seq<Message>, c: Compaction) {
    if ms != [] && ms[0].role == System then LeavesBehind(ms[..1], ms[1..], c) else LeavesBehind([], ms, c)
  }

  ghost predicate LeavesBehind(front: seq<Message>, body: seq<Message>, c: Compaction) {
    var cut := if |body| <= 20 then 0 else |body| - 20;
    if |front| + |body| <= 3 || NoneStarts(body[..cut]) then c == Compaction(front + body, 0, 0)
    else LeavesOutside(front, body[..cut], body[cut..], c)
  }

  ghost predicate NoneStarts(head: seq<Message>) {
    forall p: nat :: !Starts(head, p)
  }

  ghost predicate LeavesOutside(front: seq<Message>, head: seq<Message>, tail: seq<Message>, c: Compaction) {
    && CountsBundles(c.compactedToolCallChains, c.compactedToolMessages, head)
    && exists kept, note :: && IsOutside(kept, head) && c.messages == front + kept + [note] + tail
                            && NotesBundles(note, c.compactedToolCallChains, c.compactedToolMessages)
  }

  ghost predicate NotesBundles(m: Message, chains: nat, toolMessages: nat) {
    && m.role == Assistant && m.toolCalls == []
    && m.content == "[TOOL_HISTORY_COMPACTED] compacted_chains=" + Print(chains)
                    + ", compacted_messages=" + Print(toolMessages)
  }

  /** One step of the pass: what the front is, and that the rest is judged by itself. */
  lemma StepStarts(head: seq<Message>, p: nat)
    requires head != []
    ensures var n := HeadStep(head);
            Starts(head, p) <==> (p == 0 && ClosedBundle(head)) || (p >= n && Starts(head[n..], p - n))
  {
    var n := HeadStep(head);
    if p == 0 {
      assert head[0..] == head;
    } else if p < n {
      assert head[1..][p - 1] == head[p];
      assert !Calling(head[p]);
    } else if p < |head| {
      assert head[n..][p - n..] == head[p..];
    }
  }

  lemma StepInChain(head: seq<Message>, i: nat)
    requires head != [] && i < |head|
    ensures var n := HeadStep(head);
            InChain(head, i) <==> if i < n then ClosedBundle(head) else InChain(head[n..], i - n)
  {
    var n := HeadStep(head);
    StepRuns(head, i);
    hide ClosedBundle, RunsFrom, Starts, HeadStep;
    if InChain(head, i) {
      var p: nat :| Starts(head, p) && RunsFrom(head, p, i);
      StepStarts(head, p);
    }
    if i < n {
      StepStarts(head, 0);
    } else if InChain(head[n..], i - n) {
      var p: nat :| Starts(head[n..], p) && RunsFrom(head[n..], p, i - n);
      StepStarts(head, p + n);
    }
  }

  lemma StepRuns(head: seq<Message>, i: nat)
    requires head != [] && i < |head|
    ensures var n := HeadStep(head);
            && (i < n && ClosedBundle(head) ==> RunsFrom(head, 0, i))
            && (i < n ==> forall p: nat :: p >= n ==> !RunsFrom(head, p, i))
            && (i >= n && ClosedBundle(head) ==> !RunsFrom(head, 0, i))
            && (i >= n ==> forall p: nat :: p >= n ==> (RunsFrom(head, p, i) <==> RunsFrom(head[n..], p - n, i - n)))
  {
    var n := HeadStep(head);
    hide Answers, ResultFor;
    if ClosedBundle(head) {
      assert forall j :: 0 < j < n ==> head[j] == head[1..][j - 1];
      assert n < |head| ==> head[n] == head[1..][n - 1];
    }
    if i >= n {
      forall p: nat | p >= n ensures RunsFrom(head, p, i) <==> RunsFrom(head[n..], p - n, i - n) {
        StepRun(head, n, p, i);
      }
    }
  }

  lemma StepRun(head: seq<Message>, n: nat, p: nat, i: nat)
    requires n <= p && n <= i < |head|
    ensures RunsFrom(head, p, i) <==> RunsFrom(head[n..], p - n, i - n)
  {
    var rest := head[n..];
    assert forall j :: n <= j < |head| ==> head[j] == rest[j - n];
    if RunsFrom(rest, p - n, i - n) {
      forall j | p < j <= i ensures head[j].role == Tool {
        assert rest[j - n].role == Tool;
      }
    }
  }

  lemma OutsideNext(head: seq<Message>, at: seq<nat>, kept: seq<Message>)
    requires head != [] && ListsOutside(at, head[HeadStep(head)..]) && TakesAll(kept, head[HeadStep(head)..], at)
    ensures var front, n := if ClosedBundle(head) then [] else [0], HeadStep(head);
            && ListsOutside(front + Shift(at, n), head) && TakesAll(HeadFront(head).kept + kept, head, front + Shift(at, n))
  {
    var front: seq<nat>, n := if ClosedBundle(head) then [] else [0], HeadStep(head);
    var all := front + Shift(at, n);
    forall i: nat ensures i in all <==> i < |head| && !InChain(head, i) {
      InShift(at, n, i);
      if i < |head| {
        StepInChain(head, i);
      }
      hide ClosedBundle, InChain, Shift;
      assert i in all <==> i in front || i in Shift(at, n);
    }
    hide ClosedBundle, InChain;
  }

  lemma StartsNext(head: seq<Message>, starts: seq<nat>)
    requires head != [] && ListsStarts(starts, head[HeadStep(head)..])
    ensures ListsStarts((if ClosedBundle(head) then [0] else []) + Shift(starts, HeadStep(head)), head)
  {
    var front: seq<nat>, n := if ClosedBundle(head) then [0] else [], HeadStep(head);
    var all := front + Shift(starts, n);
    forall p: nat ensures p in all <==> Starts(head, p) {
      InShift(starts, n, p);
      StepStarts(head, p);
      hide ClosedBundle, Starts, Shift;
      assert p in all <==> p in front || p in Shift(starts, n);
    }
    hide ClosedBundle, Starts;
  }

  lemma {:induction false} SizesShift(head: seq<Message>, starts: seq<nat>, n: nat)
    requires n <= |head| && forall k :: 0 <= k < |starts| ==> starts[k] < |head| - n
    ensures BundleSizes(head, Shift(starts, n)) == BundleSizes(head[n..], starts)
  {
    if starts != [] {
      assert Shift(starts, n)[1..] == Shift(starts[1..], n);
      SizesShift(head, starts[1..], n);
    }
  }

  lemma StartsBelow(starts: seq<nat>, head: seq<Message>)
    requires ListsStarts(starts, head)
    ensures forall k :: 0 <= k < |starts| ==> starts[k] < |head|
  {
    forall k | 0 <= k < |starts| ensures starts[k] < |head| {
      assert starts[k] in starts;
    }
  }

  /** The pass keeps what lies outside the completed bundles and counts those. */
  lemma {:induction false} PassLeaves(head: seq<Message>)
    returns (at: seq<nat>, starts: seq<nat>)
    ensures ListsOutside(at, head) && TakesAll(CompactedHead(head).kept, head, at)
    ensures ListsStarts(starts, head) && |starts| == CompactedHead(head).chains
    ensures forall k :: 0 <= k < |starts| ==> starts[k] < |head|
    ensures BundleSizes(head, starts) == CompactedHead(head).toolMessages
    decreases |head|
  {
    if head == [] {
      at, starts := [], [];
    } else {
      hide ListsOutside, TakesAll, ListsStarts, ClosedBundle, ToolRun;
      var n := HeadStep(head);
      var at', starts' := PassLeaves(head[n..]);
      OutsideNext(head, at', CompactedHead(head[n..]).kept);
      StartsNext(head, starts');
      at := (if ClosedBundle(head) then [] else [0]) + Shift(at', n);
      starts := (if ClosedBundle(head) then [0] else []) + Shift(starts', n);
      StartsBelow(starts, head);
      SizesShift(head, starts', n);
      assert ClosedBundle(head) ==> starts[1..] == Shift(starts', n);
      assert !ClosedBundle(head) ==> starts == Shift(starts', n);
    }
  }

  lemma NoteCounts(chains: nat, toolMessages: nat)
    ensures NotesBundles(CompactionSummary(chains, toolMessages), chains, toolMessages)
  {
  }

  lemma HeadLeaves(head: seq<Message>)
    ensures var pass := CompactedHead(head);
            && (pass.chains == 0 <==> NoneStarts(head))
            && IsOutside(pass.kept, head) && CountsBundles(pass.chains, pass.toolMessages, head)
  {
    var at, starts := PassLeaves(head);
    hide CompactedHead, ListsOutside, TakesAll, Starts, BundleSizes;
    if starts != [] {
      assert starts[0] in starts;
    }
  }

  lemma CompactedLeaves(ms: seq<Message>)
    ensures CompactionLeaves(ms, Compacted(ms))
  {
    HeadLeaves(Head(ms));
    hide CompactedHead, IsOutside, CountsBundles, CompactionSummary, NotesBundles, NoneStarts;
    var pass := CompactedHead(Head(ms));
    NoteCounts(pass.chains, pass.toolMessages);
    var note := CompactionSummary(pass.chains, pass.toolMessages);
    assert SystemPart(ms) + Body(ms) == ms;
    assert pass.chains > 0 && |ms| > 3 ==> Compacted(ms).messages == SystemPart(ms) + pass.kept + [note] + Tail(ms);
    assert LeavesBehind(SystemPart(ms), Body(ms), Compacted(ms));
  }

  // ----- compressing the older part -----

  /** What the summarising model answers, or the error it throws. */
  datatype CompressorAnswer = Answer(success: bool, compressedContent: string, error: Option<string>) | Threw(message: string)

  datatype CompressionMode = LlmCompressor | DeterministicTrim | NoCompression

  datatype MaxTokensCompression = MaxTokensCompression(
    messages: seq<Message>, mode: CompressionMode, error: Option<string>)

  const COMPRESSED_CHARS := 10000

  function RecoverySummary(content: string): Message {
    Plain(Assistant, "[CONTEXT_COMPRESSED] Earlier history summary:\n" + Truncate(content, COMPRESSED_CHARS))
  }

  function OlderPart(ms: seq<Message>): seq<Message> {
    Body(ms)[..SplitIndex(Body(ms), RECOVERY_TAIL)]
  }

  function RecoveryTail(ms: seq<Message>): seq<Message> {
    Body(ms)[SplitIndex(Body(ms), RECOVERY_TAIL)..]
  }

  function CompressedHistory(ms: seq<Message>, content: string): seq<Message> {
    SystemPart(ms) + [RecoverySummary(content)] + RecoveryTail(ms)
  }

  /** The compressed history is well-formed exactly when its tail does not start with a result. */
  lemma CompressionWellFormedIff(ms: seq<Message>, content: string)
    requires WellFormed(ms)
    ensures WellFormed(CompressedHistory(ms, content))
            <==> RecoveryTail(ms) == [] || RecoveryTail(ms)[0].role != Tool
    ensures |CompressedHistory(ms, content)| <= RECOVERY_TAIL + 2
  {
    BodyWellFormed(ms);
    assert OlderPart(ms) + RecoveryTail(ms) == Body(ms);
    WellFormedSplit(OlderPart(ms), RecoveryTail(ms));
    InsertedBefore(SystemPart(ms), RecoverySummary(content), RecoveryTail(ms));
    if RecoveryTail(ms) != [] && WellFormed(RecoveryTail(ms)) {
      WellFormedStart(RecoveryTail(ms));
    }
  }

  // ----- both after a cut-off answer -----

  /** How the history is reduced further once it was compacted. */
  function RecoveryMode(ms: seq<Message>, answer: CompressorAnswer): CompressionMode {
    if |ms| <= 2 then NoCompression
    else if |OlderPart(ms)| > 2 && answer.Answer? && answer.success && answer.compressedContent != "" then LlmCompressor
    else DeterministicTrim
  }

  function Recovered(ms: seq<Message>, answer: CompressorAnswer, options: TrimOptions, size: Message -> nat): seq<Message> {
    match RecoveryMode(ms, answer)
    case NoCompression => ms
    case LlmCompressor => CompressedHistory(ms, answer.compressedContent)
    case DeterministicTrim => Trimmed(ms, options, size).messages
  }

  /** A text of at most 10000 characters as it is, a longer one up to a mark. */
  ghost predicate IsSummaryOf(m: Message, content: string) {
    && m.role == Assistant && m.toolCalls == []
    && m.content == "[CONTEXT_COMPRESSED] Earlier history summary:\n"
                    + if |content| <= 10000 then content else content[..9982] + "...(truncated)"
  }

  /**
   * What is left of a history: two messages or fewer as they are. With more than eighteen messages behind the system
   * one and a usable answer, that answer in front of the last sixteen. Otherwise a trim.
   */
  ghost predicate RecoveryLeaves(ms: seq<Message>, answer: CompressorAnswer, options: TrimOptions, size: Message -> nat,
                                 mode: CompressionMode, after: seq<Message>)
  {
    if |ms| <= 2 then mode == NoCompression && after == ms
    else if |ms| > (if ms[0].role == System then 19 else 18)
            && answer.Answer? && answer.success && answer.compressedContent != "" then
      && mode == LlmCompressor
      && exists note :: && IsSummaryOf(note, answer.compressedContent)
                        && after == (if ms[0].role == System then ms[..1] else []) + [note] + ms[|ms| - 16..]
    else mode == DeterministicTrim && exists removed: nat :: TrimLeaves(ms, options, size, TrimResult(after, removed))
  }

  lemma RecoveredLeaves(ms: seq<Message>, answer: CompressorAnswer, options: TrimOptions, size: Message -> nat)
    ensures RecoveryLeaves(ms, answer, options, size, RecoveryMode(ms, answer), Recovered(ms, answer, options, size))
  {
    TrimmedLeaves(ms, options, size);
    hide TrimLeaves, Trimmed;
    if RecoveryMode(ms, answer) == LlmCompressor {
      assert IsSummaryOf(RecoverySummary(answer.compressedContent), answer.compressedContent);
      hide IsSummaryOf, RecoverySummary;
      assert RecoveryTail(ms) == ms[|ms| - 16..];
    } else if RecoveryMode(ms, answer) == DeterministicTrim {
      var r := Trimmed(ms, options, size);
      assert TrimResult(r.messages, r.removedCount) == r;
    }
  }

  /** The stretch of the history that is left as it is. */
  function RecoveryKeeps(ms: seq<Message>, answer: CompressorAnswer, options: TrimOptions, size: Message -> nat): seq<Message> {
    match RecoveryMode(ms, answer)
    case NoCompression => ms
    case LlmCompressor => RecoveryTail(ms)
    case DeterministicTrim => Body(ms)[Min(Trimmed(ms, options, size).removedCount, |Body(ms)|)..]
  }

  /** Whatever the history was, the reduced one is well-formed exactly when the kept stretch is. */
  lemma RecoveryKeepsIff(ms: seq<Message>, answer: CompressorAnswer, options: TrimOptions, size: Message -> nat)
    ensures WellFormed(Recovered(ms, answer, options, size)) <==> WellFormed(RecoveryKeeps(ms, answer, options, size))
  {
    hide WellFormed, RecoveryTail, OlderPart, Trimmed, SystemPart, Body;
    match RecoveryMode(ms, answer)
    case NoCompression =>
    case LlmCompressor =>
      SystemPartIsPlain(ms);
      SummaryIsNoCall(answer.compressedContent);
      InsertedBefore(SystemPart(ms), RecoverySummary(answer.compressedContent), RecoveryTail(ms));
    case DeterministicTrim =>
      IsTrimIff(ms, options, size, Trimmed(ms, options, size));
      TrimOfSuffix(ms, options, size, Trimmed(ms, options, size));
  }

  lemma SummaryIsNoCall(content: string)
    ensures RecoverySummary(content).role == Assistant && !Calling(RecoverySummary(content))
  {
  }

  /** The compaction breaks a bundle of a well-formed history. */
  predicate CompactionBreaks(ms: seq<Message>) {
    Compacted(ms).compactedToolCallChains > 0 && Straddles(ms)
  }

  /**
   * The reduction of a well-formed history cuts into a bundle: the kept tail of a compression starts with a
   * result, or a trim starts with one or reaches back to a break made by the compaction.
   */
  predicate RecoveryCuts(ms: seq<Message>, answer: CompressorAnswer, options: TrimOptions, size: Message -> nat) {
    var compacted := Compacted(ms).messages;
    match RecoveryMode(compacted, answer)
    case NoCompression => false
    case LlmCompressor => RecoveryTail(ms) != [] && RecoveryTail(ms)[0].role == Tool
    case DeterministicTrim =>
      var body, removed := Body(compacted), Trimmed(compacted, options, size).removedCount;
      || (CompactionBreaks(ms) && removed < |body| - TAIL_WINDOW)
      || (removed < |body| && body[removed].role == Tool)
  }

  /** What a compaction leaves: something, its summary, and the untouched last messages. */
  lemma CompactedShape(ms: seq<Message>)
    requires Compacted(ms).compactedToolCallChains > 0
    ensures |Tail(ms)| == TAIL_WINDOW && |Body(ms)| > TAIL_WINDOW
    ensures var compacted := Compacted(ms);
            var summary := CompactionSummary(compacted.compactedToolCallChains, compacted.compactedToolMessages);
            compacted.messages == SystemPart(ms) + CompactedHead(Head(ms)).kept + [summary] + Tail(ms)
  {
    hide CompactionSummary;
  }

  /** The last messages of the body are those of the list, a leading system message apart. */
  lemma BodySuffix(front: seq<Message>, tail: seq<Message>)
    requires front != []
    ensures var body := Body(front + tail);
            |body| >= |tail| && body[|body| - |tail|..] == tail && |body| >= |front + tail| - 1
  {
  }

  /** A compaction keeps the tail that a compression keeps, and leaves enough before it to compress. */
  lemma RecoveryTailKept(ms: seq<Message>)
    requires Compacted(ms).compactedToolCallChains > 0
    ensures RecoveryTail(Compacted(ms).messages) == RecoveryTail(ms)
    ensures |OlderPart(Compacted(ms).messages)| > 2
  {
    CompactedShape(ms);
    var c := Compacted(ms);
    var summary := CompactionSummary(c.compactedToolCallChains, c.compactedToolMessages);
    var front := SystemPart(ms) + CompactedHead(Head(ms)).kept + [summary];
    assert c.messages == front + Tail(ms);
    hide Compacted, CompactedHead, CompactionSummary, SystemPart;
    BodySuffix(front, Tail(ms));
    hide Body;
    SameRecoveryTail(Body(c.messages), Body(ms));
  }

  lemma SameRecoveryTail(a: seq<Message>, b: seq<Message>)
    requires |a| >= TAIL_WINDOW && |b| >= TAIL_WINDOW && a[|a| - TAIL_WINDOW..] == b[|b| - TAIL_WINDOW..]
    ensures a[SplitIndex(a, RECOVERY_TAIL)..] == b[SplitIndex(b, RECOVERY_TAIL)..]
  {
    var k := TAIL_WINDOW - RECOVERY_TAIL;
    assert a[|a| - RECOVERY_TAIL..] == a[|a| - TAIL_WINDOW..][k..];
    assert b[|b| - RECOVERY_TAIL..] == b[|b| - TAIL_WINDOW..][k..];
  }

  /** A compression cuts a break away: whatever the compaction did, only the first message of the kept tail decides. */
  lemma CompressionAfterCompactionIff(ms: seq<Message>, content: string)
    requires WellFormed(ms)
    ensures WellFormed(CompressedHistory(Compacted(ms).messages, content))
            <==> RecoveryTail(ms) == [] || RecoveryTail(ms)[0].role != Tool
  {
    assert RecoverySummary(content).role == Assistant && !Calling(RecoverySummary(content));
    hide WellFormed, Compacted, OlderPart, Body, SystemPart, RecoverySummary;
    var compacted := Compacted(ms).messages;
    if Compacted(ms).compactedToolCallChains > 0 {
      RecoveryTailKept(ms);
    } else {
      CompactionCount(ms);
    }
    assert RecoveryTail(compacted) == RecoveryTail(ms);
    SystemPartIsPlain(compacted);
    InsertedBefore(SystemPart(compacted), RecoverySummary(content), RecoveryTail(ms));
    SuffixWellFormedIff(ms, SplitIndex(Body(ms), RECOVERY_TAIL));
  }

  /** After a compaction that broke a bundle, a trim is well-formed exactly when it leaves the break behind and starts with no result. */
  lemma TrimAfterBreakIff(ms: seq<Message>, options: TrimOptions, size: Message -> nat)
    requires WellFormed(ms) && CompactionBreaks(ms)
    ensures var compacted := Compacted(ms).messages;
            var body, r := Body(compacted), Trimmed(compacted, options, size);
            && r.removedCount <= |body|
            && (WellFormed(r.messages)
                <==> |body| - r.removedCount <= TAIL_WINDOW
                     && (r.removedCount == |body| || body[r.removedCount].role != Tool))
  {
    var compacted := Compacted(ms).messages;
    var r := Trimmed(compacted, options, size);
    CompactedShape(ms);
    var c := Compacted(ms);
    var summary := CompactionSummary(c.compactedToolCallChains, c.compactedToolMessages);
    var front := SystemPart(ms) + CompactedHead(Head(ms)).kept + [summary];
    assert compacted == front + Tail(ms);
    SuffixWellFormedIff(ms, SplitIndex(Body(ms), TAIL_WINDOW));
    assert !WellFormed(Tail(ms));
    CompactionWellFormedIff(ms);
    hide Compacted, CompactedHead, WellFormed, Trimmed, Straddles, Tail, Head;
    IsTrimIff(compacted, options, size, r);
    BrokenListTrimmed(ms, compacted, front, options, size, r);
  }

  lemma BrokenListTrimmed(
    ms: seq<Message>, compacted: seq<Message>, front: seq<Message>, options: TrimOptions, size: Message -> nat, r: TrimResult)
    requires WellFormed(ms) && Straddles(ms) && |Tail(ms)| == TAIL_WINDOW
    requires compacted == front + Tail(ms) && front != [] && !WellFormed(compacted)
    requires front[|front| - 1].role == Assistant && !Calling(front[|front| - 1])
    requires IsTrim(compacted, options, size, r)
    ensures var body := Body(compacted);
            && r.removedCount <= |body|
            && (WellFormed(r.messages)
                <==> |body| - r.removedCount <= TAIL_WINDOW
                     && (r.removedCount == |body| || body[r.removedCount].role != Tool))
  {
    hide WellFormed, Head, IsTrim, NormalizedAll;
    TrimShape(compacted, options, size, r);
    var body := Body(compacted);
    var content := NormalizedAll(body, options);
    BodySuffix(front, Tail(ms));
    NormalizedRole(body, options, 0);
    TrimOfSuffix(compacted, options, size, r);
    NormalizingKeepsProtocol(body[r.removedCount..], options);
    var kept := |body| - r.removedCount;
    if kept <= TAIL_WINDOW {
      assert body[r.removedCount..] == Tail(ms)[TAIL_WINDOW - kept..];
      var at := |Body(ms)| - kept;
      assert Tail(ms)[TAIL_WINDOW - kept..] == Body(ms)[at..];
      SuffixWellFormedIff(ms, at);
    } else {
      BreakKept(front, Tail(ms), body, r.removedCount);
    }
  }

  /** A suffix that reaches back over the break is not well-formed. */
  lemma BreakKept(front: seq<Message>, tail: seq<Message>, body: seq<Message>, removed: nat)
    requires front != [] && front[|front| - 1].role == Assistant && !Calling(front[|front| - 1])
    requires tail != [] && tail[0].role == Tool
    requires body == Body(front + tail) && removed < |body| - |tail|
    ensures !WellFormed(body[removed..])
  {
    hide WellFormed;
    var suffix := body[removed..];
    var at := |suffix| - |tail| - 1;
    var cut := suffix[at..];
    assert cut == [front[|front| - 1]] + tail;
    assert suffix == suffix[..at] + cut;
    JoinWellFormedIff(suffix[..at], cut);
    if WellFormed(cut) {
      WellFormedHead(cut);
      assert cut[1..] == tail;
      WellFormedStart(tail);
      assert false;
    }
  }

  /** The history that the recovery leaves of a well-formed one is well-formed exactly when the recovery cuts into no bundle. */
  lemma RecoveryWellFormedIff(ms: seq<Message>, answer: CompressorAnswer, options: TrimOptions, size: Message -> nat)
    requires WellFormed(ms)
    ensures WellFormed(Recovered(Compacted(ms).messages, answer, options, size)) <==> !RecoveryCuts(ms, answer, options, size)
  {
    var compacted := Compacted(ms).messages;
    CompactionWellFormedIff(ms);
    if Compacted(ms).compactedToolCallChains > 0 {
      CompactedShape(ms);
    }
    hide WellFormed, Compacted, CompressedHistory, RecoveryTail, OlderPart, Body, Straddles, Trimmed;
    match RecoveryMode(compacted, answer)
    case NoCompression =>
    case LlmCompressor => CompressionAfterCompactionIff(ms, answer.compressedContent);
    case DeterministicTrim =>
      if CompactionBreaks(ms) {
        TrimAfterBreakIff(ms, options, size);
      } else {
        var r := Trimmed(compacted, options, size);
        IsTrimIff(compacted, options, size, r);
        TrimmedWellFormedIff(compacted, options, size, r);
      }
  }

  // ----- a history that compaction breaks -----

  function CallingTurn(ids: seq<string>): Message {
    Message(Assistant, "", seq(|ids|, i requires 0 <= i < |ids| => ToolCall(ids[i], "read", map[])), "", None, None, None)
  }

  function ResultOfCall(id: string): Message {
    Message(Tool, "", [], id, Some("read"), None, None)
  }

  /** Two bundles and the rest of a conversation; the fixed cut falls between the results of the second. */
  function StraddlingHistory(rest: seq<Message>): seq<Message> {
    [CallingTurn(["a"]), ResultOfCall("a"), CallingTurn(["b", "c"]), ResultOfCall("b")] + ([ResultOfCall("c")] + rest)
  }

  lemma StraddlingWellFormed(rest: seq<Message>)
    requires forall m :: m in rest ==> m.role == User
    ensures WellFormed(StraddlingHistory(rest))
  {
    var first := [CallingTurn(["a"]), ResultOfCall("a")];
    var second := [CallingTurn(["b", "c"]), ResultOfCall("b"), ResultOfCall("c")];
    TrimmedIff("a");
    TrimmedIff("b");
    TrimmedIff("c");
    ClosedPair("a");
    ClosedTriple("b", "c");
    PlainIsWellFormed(rest);
    assert first + second + rest == StraddlingHistory(rest);
    hide *;
    WellFormedConcat(first, second);
    WellFormedConcat(first + second, rest);
  }

  /** The head of this history starts with the closed first bundle, its tail with the last result of the second. */
  lemma StraddlingParts(rest: seq<Message>)
    requires |rest| == TAIL_WINDOW - 1
    ensures var ms := StraddlingHistory(rest);
            && |ms| > 3 && |Head(ms)| == 4 && Head(ms)[0] == CallingTurn(["a"]) && Head(ms)[1..2] == [ResultOfCall("a")]
            && Tail(ms) == [ResultOfCall("c")] + rest
  {
    var ms := StraddlingHistory(rest);
    assert Body(ms) == ms;
    assert ms[..4][1..2] == [ResultOfCall("a")];
    assert ms[4..] == [ResultOfCall("c")] + rest;
  }

  lemma ClosedHeadCounts(head: seq<Message>)
    requires ClosedBundle(head)
    ensures CompactedHead(head).chains > 0
  {
    assert head != [];
    hide ClosedBundle;
  }

  /** With any 19 messages of talk behind it, this well-formed history is broken by its compaction. */
  lemma StraddlingWitness(rest: seq<Message>)
    requires |rest| == TAIL_WINDOW - 1 && forall m :: m in rest ==> m.role == User
    ensures var ms := StraddlingHistory(rest);
            WellFormed(ms) && CompactionBreaks(ms) && !WellFormed(Compacted(ms).messages)
  {
    var ms := StraddlingHistory(rest);
    StraddlingWellFormed(rest);
    StraddlingParts(rest);
    TrimmedIff("a");
    ClosedPair("a");
    hide StraddlingHistory, WellFormed, CompactedHead, Head, Tail, Answers;
    assert ClosedBundle(Head(ms));
    ClosedHeadCounts(Head(ms));
    CompactionWellFormedIff(ms);
  }

  lemma ClosedPair(a: string)
    requires Trim(a) == a != ""
    ensures WellFormed([CallingTurn([a]), ResultOfCall(a)]) && Answers(CallingTurn([a]).toolCalls, [ResultOfCall(a)])
  {
    var ms := [CallingTurn([a]), ResultOfCall(a)];
    assert ms[1..] == ms[1..2] == [ResultOfCall(a)];
    assert CallIds(ms[0].toolCalls) == [a] == ResultIds(ms[1..]);
    ClosedByIds(ms, [a]);
    WellFormedBundle(ms);
  }

  lemma ClosedTriple(a: string, b: string)
    requires Trim(a) == a != "" && Trim(b) == b != "" && a != b
    ensures WellFormed([CallingTurn([a, b]), ResultOfCall(a), ResultOfCall(b)])
  {
    var ms := [CallingTurn([a, b]), ResultOfCall(a), ResultOfCall(b)];
    assert ms[1..] == ms[1..3] == [ResultOfCall(a), ResultOfCall(b)];
    assert CallIds(ms[0].toolCalls) == [a, b] == ResultIds(ms[1..]);
    ClosedByIds(ms, [a, b]);
  }

  datatype ForcedTrim = ForcedTrim(
    messages: seq<Message>, beforeMessageCount: nat, beforeChars: nat, afterMessageCount: nat, afterChars: nat)

  datatype OverflowStage = OverflowDetected | ForcedCompressed | ForcedTrimmed | ForcedTrimFailed

  class ContextOverflowHandler {
    var totalOverflowSnapshots: nat
    const forcedTrimOptions: TrimOptions
    const recoveryTrimOptions: TrimOptions
    const size: Message -> nat

    constructor (forcedTrimOptions: TrimOptions, recoveryTrimOptions: TrimOptions, size: Message -> nat)
      ensures totalOverflowSnapshots == 0 && this.size == size
      ensures this.forcedTrimOptions == forcedTrimOptions && this.recoveryTrimOptions == recoveryTrimOptions
    {
      totalOverflowSnapshots := 0;
      this.forcedTrimOptions, this.recoveryTrimOptions, this.size := forcedTrimOptions, recoveryTrimOptions, size;
    }

    method ResetOverflowSnapshots()
      modifies this
      ensures totalOverflowSnapshots == 0
    {
      totalOverflowSnapshots := 0;
    }

    method EmitContextOverflowEvent(stage: OverflowStage)
      modifies this
      ensures totalOverflowSnapshots == old(totalOverflowSnapshots) + 1
    {
      totalOverflowSnapshots := totalOverflowSnapshots + 1;
    }

    method CompactCompletedToolHistory(messages: seq<Message>) returns (r: Compaction)
      ensures r == Compacted(messages)
      ensures CompactionLeaves(messages, r)
    {
      hide CompactionLeaves;
      CompactedLeaves(messages);
      if |messages| <= 3 {
        return Compaction(messages, 0, 0);
      }
      var pass := CompactHead(Head(messages));
      if pass.chains == 0 {
        return Compaction(messages, 0, 0);
      }
      var summary := CompactionSummary(pass.chains, pass.toolMessages);
      r := Compaction(
        SystemPart(messages) + pass.kept + [summary] + Tail(messages), pass.chains, pass.toolMessages);
    }

    /** Whatever the history, a forced trim leaves one that obeys the protocol. */
    method ApplyForcedTrim(messages: seq<Message>) returns (r: ForcedTrim)
      ensures r.messages == Sanitized(Trimmed(messages, forcedTrimOptions, size).messages).messages
      ensures WellFormed(r.messages) && Canonical(r.messages)
      ensures Canonical(messages) && TotalChars(size, messages) <= forcedTrimOptions.maxTotalChars ==>
                r.messages == messages
      ensures r.beforeMessageCount == |messages| && r.beforeChars == TotalChars(size, messages)
      ensures r.afterMessageCount == |r.messages| && r.afterChars == TotalChars(size, r.messages)
    {
      var trimmed := TrimMessagesForContextWindow(messages, forcedTrimOptions, size);
      var sanitized, _ := SanitizeMessagesForToolProtocol(trimmed.messages);
      SanitizedIsWellFormed(trimmed.messages);
      SanitizedIsCanonical(trimmed.messages);
      SanitizeFixpointIff(trimmed.messages);
      r := ForcedTrim(
        sanitized.messages,
        |messages|,
        TotalChars(size, messages),
        |sanitized.messages|,
        TotalChars(size, sanitized.messages));
    }

    /**
     * A usable answer replaces everything before the last messages by one summary; without
     * one the history is trimmed instead and the reason reported.
     */
    method CompressForMaxTokensRecovery(messages: seq<Message>, answer: CompressorAnswer) returns (r: MaxTokensCompression)
      ensures r.mode == RecoveryMode(messages, answer)
      ensures r.messages == Recovered(messages, answer, recoveryTrimOptions, size)
      ensures r.error == if r.mode != DeterministicTrim || |OlderPart(messages)| <= 2 then None
                         else match answer
                              case Threw(message) => Some(message)
                              case Answer(_, _, error) => if error.Some? then error else Some("llm_compressor_returned_empty")
      ensures RecoveryLeaves(messages, answer, recoveryTrimOptions, size, r.mode, r.messages)
    {
      hide RecoveryLeaves;
      RecoveredLeaves(messages, answer, recoveryTrimOptions, size);
      if |messages| <= 2 {
        return MaxTokensCompression(messages, NoCompression, None);
      }
      if |OlderPart(messages)| > 2 {
        match answer
        case Answer(success, content, error) =>
          if success && content != "" {
            return MaxTokensCompression(CompressedHistory(messages, content), LlmCompressor, None);
          }
          var trimmed := ApplyDeterministicTrim(messages);
          return MaxTokensCompression(
            trimmed, DeterministicTrim, Some(if error.Some? then error.value else "llm_compressor_returned_empty"));
        case Threw(message) =>
          var trimmed := ApplyDeterministicTrim(messages);
          return MaxTokensCompression(trimmed, DeterministicTrim, Some(message));
      }
      var trimmed := ApplyDeterministicTrim(messages);
      return MaxTokensCompression(trimmed, DeterministicTrim, None);
    }

    method ApplyDeterministicTrim(messages: seq<Message>) returns (r: seq<Message>)
      ensures r == Trimmed(messages, recoveryTrimOptions, size).messages
    {
      var trimmed := TrimMessagesForContextWindow(messages, recoveryTrimOptions, size);
      r := trimmed.messages;
    }
  }
}
