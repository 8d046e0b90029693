/**
 * The two reductions that replace the stored history: recovery from a cut-off answer
 * (src/agent/MaxTokensRecoveryService.ts) and the compression of the older part before a
 * request (`applyPrecompressIfNeeded` of src/agent/LlmInputPreparator.ts).
 */
module HistoryReduction {
  import opened Messages
  import opened Numbers
  import opened Text
  import opened ToolProtocol
  import opened WindowTrim
  import opened ContextOverflow
  import opened Precompress
  import opened Store

  // ----- recovery from a cut-off answer -----

  datatype MaxTokensRecoveryEvent = MaxTokensRecoveryEvent(
    step: int,
    attempt: nat,
    maxAttempts: nat,
    recovered: bool,
    preCompressMessageCount: nat,
    postCompressMessageCount: nat,
    compactedToolCallChains: nat,
    compactedToolMessages: nat,
    compressionMode: CompressionMode,
    continuationInjected: bool)

  function ContinuationPrompt(attempt: nat, maxAttempts: nat): Message {
    Plain(User, "[MAX_TOKENS_RECOVERY]\n" + ("continuation_attempt=" + Print(attempt) + "/" + Print(maxAttempts)))
  }

  ghost predicate AsksToContinue(m: Message, attempt: nat, maxAttempts: nat) {
    m.role == User && m.toolCalls == [] && Holds(m.content, "continuation_attempt=" + Print(attempt) + "/" + Print(maxAttempts))
  }

  /** The history compacted, then reduced, and then, if an attempt is left, asked to be continued. */
  ghost predicate RecoveryIs(before: seq<Message>, answer: CompressorAnswer, handler: ContextOverflowHandler, attempt: nat,
                             maxAttempts: nat, mode: CompressionMode, after: seq<Message>)
  {
    exists c, reduced ::
      && CompactionLeaves(before, c)
      && RecoveryLeaves(c.messages, answer, handler.recoveryTrimOptions, handler.size, mode, reduced)
      && IsContinued(reduced, attempt, maxAttempts, after)
  }

  ghost predicate IsContinued(reduced: seq<Message>, attempt: nat, maxAttempts: nat, after: seq<Message>) {
    if attempt > maxAttempts then after == reduced
    else |after| == |reduced| + 1 && after[..|reduced|] == reduced && AsksToContinue(after[|reduced|], attempt, maxAttempts)
  }

  lemma PromptAsks(attempt: nat, maxAttempts: nat)
    ensures AsksToContinue(ContinuationPrompt(attempt, maxAttempts), attempt, maxAttempts)
  {
    hide Holds;
    var said := "continuation_attempt=" + Print(attempt) + "/" + Print(maxAttempts);
    HoldsBetween("[MAX_TOKENS_RECOVERY]\n", said, "");
    assert "[MAX_TOKENS_RECOVERY]\n" + said + "" == ContinuationPrompt(attempt, maxAttempts).content;
  }

  class MaxTokensRecoveryService {
    const messageStore: MessageStore
    const contextOverflowHandler: ContextOverflowHandler
    const maxAttempts: nat

    constructor (messageStore: MessageStore, contextOverflowHandler: ContextOverflowHandler, maxAttempts: nat)
      ensures this.messageStore == messageStore && this.contextOverflowHandler == contextOverflowHandler
      ensures this.maxAttempts == maxAttempts
    {
      this.messageStore, this.contextOverflowHandler, this.maxAttempts := messageStore, contextOverflowHandler, maxAttempts;
    }

    /**
     * Compacts the tool history, compresses what is left or trims it, and asks the model to continue
     * as long as attempts remain. A well-formed history stays so unless the recovery cuts it.
     */
    method HandleMaxTokensRecovery(step: int, previousAttempt: nat, answer: CompressorAnswer)
      returns (event: MaxTokensRecoveryEvent, attempt: nat, recovered: bool)
      modifies messageStore`messages
      ensures attempt == previousAttempt + 1 && (recovered <==> attempt <= maxAttempts)
      ensures var before, compacted := old(messageStore.messages), Compacted(old(messageStore.messages));
              var options, size := contextOverflowHandler.recoveryTrimOptions, contextOverflowHandler.size;
              && messageStore.messages
                 == Recovered(compacted.messages, answer, options, size)
                    + (if recovered then [ContinuationPrompt(attempt, maxAttempts)] else [])
              && event == MaxTokensRecoveryEvent(
                            step, attempt, maxAttempts, recovered, |before|, |messageStore.messages|,
                            compacted.compactedToolCallChains, compacted.compactedToolMessages,
                            RecoveryMode(compacted.messages, answer), recovered)
              && (WellFormed(before) ==>
                    (WellFormed(messageStore.messages) <==> !RecoveryCuts(before, answer, options, size)))
      ensures RecoveryIs(old(messageStore.messages), answer, contextOverflowHandler, attempt, maxAttempts,
                         event.compressionMode, messageStore.messages)
    {
      hide *;
      ghost var before := messageStore.messages;
      var preCompressMessageCount := |messageStore.messages|;
      var compacted := contextOverflowHandler.CompactCompletedToolHistory(messageStore.messages);
      messageStore.messages := compacted.messages;
      var compressed := contextOverflowHandler.CompressForMaxTokensRecovery(messageStore.messages, answer);
      messageStore.messages := compressed.messages;
      if WellFormed(before) {
        RecoveryWellFormedIff(before, answer, contextOverflowHandler.recoveryTrimOptions, contextOverflowHandler.size);
      }
      attempt := previousAttempt + 1;
      recovered := attempt <= maxAttempts;
      if recovered {
        PromptKeepsProtocol(messageStore.messages, attempt, maxAttempts);
        messageStore.messages := messageStore.messages + [ContinuationPrompt(attempt, maxAttempts)];
      } else {
        assert messageStore.messages == compressed.messages + [];
      }
      RecoveryTold(before, answer, contextOverflowHandler, attempt, maxAttempts, compacted, compressed.mode, compressed.messages);
      event := MaxTokensRecoveryEvent(
        step, attempt, maxAttempts, recovered, preCompressMessageCount, |messageStore.messages|,
        compacted.compactedToolCallChains, compacted.compactedToolMessages, compressed.mode, recovered);
    }
  }

  lemma RecoveryTold(before: seq<Message>, answer: CompressorAnswer, handler: ContextOverflowHandler, attempt: nat,
                     maxAttempts: nat, c: Compaction, mode: CompressionMode, reduced: seq<Message>)
    requires CompactionLeaves(before, c)
    requires RecoveryLeaves(c.messages, answer, handler.recoveryTrimOptions, handler.size, mode, reduced)
    ensures RecoveryIs(before, answer, handler, attempt, maxAttempts, mode,
                       reduced + (if attempt <= maxAttempts then [ContinuationPrompt(attempt, maxAttempts)] else []))
  {
    hide CompactionLeaves, RecoveryLeaves, AsksToContinue, ContinuationPrompt;
    PromptAsks(attempt, maxAttempts);
    var after := reduced + (if attempt <= maxAttempts then [ContinuationPrompt(attempt, maxAttempts)] else []);
    assert IsContinued(reduced, attempt, maxAttempts, after);
  }

  lemma PromptKeepsProtocol(ms: seq<Message>, attempt: nat, maxAttempts: nat)
    ensures WellFormed(ms + [ContinuationPrompt(attempt, maxAttempts)]) <==> WellFormed(ms)
  {
    hide WellFormed;
    var prompt := ContinuationPrompt(attempt, maxAttempts);
    WellFormedSingle(prompt);
    if WellFormed(ms) {
      WellFormedConcat(ms, [prompt]);
    }
    if WellFormed(ms + [prompt]) {
      WellFormedSplit(ms, [prompt]);
    }
  }

  // ----- compression of the older part -----

  datatype PrecompressMode = Light | Aggressive | Disabled

  /** The budget figures that decide whether to compress. */
  datatype Budget = Budget(
    estimatedInputTokens: int,
    compressionTriggerTokens: int,
    lastCompressionInputTokens: int,
    minTokensAddedAfterCompression: int,
    safeInputTokens: int)

  predicate ShouldTriggerPrecompress(b: Budget, forced: bool, mode: PrecompressMode) {
    || (b.estimatedInputTokens >= b.compressionTriggerTokens
        && (forced || b.estimatedInputTokens - b.lastCompressionInputTokens >= b.minTokensAddedAfterCompression))
    || (b.estimatedInputTokens >= b.safeInputTokens * 95 / 100 && mode != Disabled)
  }

  function ResolveKeepRounds(configured: int, mode: PrecompressMode, aggressiveCap: int, override: Option<int>): int {
    Max(1, if override.Some? then override.value
           else if mode == Aggressive then Min(configured, aggressiveCap)
           else configured)
  }

  function Items(ms: seq<Message>, size: Message -> nat, from: nat): seq<Item>
    requires from <= |ms|
    decreases |ms| - from
  {
    if from == |ms| then []
    else (if ms[from].role == System then [] else [Item(from, size(ms[from]))]) + Items(ms, size, from + 1)
  }

  lemma {:induction false} ItemsIndexed(ms: seq<Message>, size: Message -> nat, from: nat)
    requires from <= |ms|
    ensures forall i :: 0 <= i < |Items(ms, size, from)| ==> Items(ms, size, from)[i].messageIndex < |ms|
    ensures forall i, j :: 0 <= i < j < |Items(ms, size, from)| ==>
              Items(ms, size, from)[i].messageIndex < Items(ms, size, from)[j].messageIndex
    ensures forall i :: 0 <= i < |Items(ms, size, from)| ==> from <= Items(ms, size, from)[i].messageIndex
    decreases |ms| - from
  {
    if from < |ms| {
      ItemsIndexed(ms, size, from + 1);
    }
  }

  lemma {:induction false} ItemsWithoutSystem(ms: seq<Message>, size: Message -> nat, from: nat)
    requires from <= |ms| && forall i :: 0 <= i < |ms| ==> ms[i].role != System
    ensures |Items(ms, size, from)| == |ms| - from
    ensures forall i :: 0 <= i < |ms| - from ==> Items(ms, size, from)[i].messageIndex == from + i
    decreases |ms| - from
  {
    if from < |ms| {
      ItemsWithoutSystem(ms, size, from + 1);
    }
  }

  const MAX_CHUNKS := 3
  const MIN_CHUNK_CHARS := 4000

  /** Every chunk is the stretch of messages from the first to the last item of its raw chunk, as it goes to the compressor. */
  ghost predicate Sliced(host: CompressionHost, ms: seq<Message>, raw: seq<seq<Item>>, chunks: seq<seq<Message>>) {
    |chunks| == |raw| && forall c :: 0 <= c < |raw| ==> IsSlice(host, ms, raw[c], chunks[c])
  }

  ghost predicate IsSlice(host: CompressionHost, ms: seq<Message>, rawChunk: seq<Item>, slice: seq<Message>) {
    && rawChunk != []
    && var first, last := rawChunk[0].messageIndex, rawChunk[|rawChunk| - 1].messageIndex;
    && first <= last < |ms| && slice == host.BuildChunk(ms[first..last + 1])
  }

  /** The chunks made of the older messages. */
  ghost predicate ChunksFor(
    host: CompressionHost, ms: seq<Message>, size: Message -> nat, chunkChars: int, chunks: seq<seq<Message>>)
  {
    exists raw ::
      && Chunked(Items(ms, size, 0), MAX_CHUNKS, ChunkLimit(Items(ms, size, 0), MAX_CHUNKS, Max(MIN_CHUNK_CHARS, chunkChars)), raw)
      && Sliced(host, ms, raw, chunks)
  }

  lemma ChunksForUnique(
    host: CompressionHost, ms: seq<Message>, size: Message -> nat, chunkChars: int, a: seq<seq<Message>>, b: seq<seq<Message>>)
    requires ChunksFor(host, ms, size, chunkChars, a) && ChunksFor(host, ms, size, chunkChars, b)
    ensures a == b
  {
    hide Chunked, ChunkLimit, Items;
    var items := Items(ms, size, 0);
    var limit := ChunkLimit(items, MAX_CHUNKS, Max(MIN_CHUNK_CHARS, chunkChars));
    var rawA :| Chunked(items, MAX_CHUNKS, limit, rawA) && Sliced(host, ms, rawA, a);
    var rawB :| Chunked(items, MAX_CHUNKS, limit, rawB) && Sliced(host, ms, rawB, b);
    ChunksUnique(items, MAX_CHUNKS, limit, rawA, rawB);
    assert forall c :: 0 <= c < |rawA| ==> IsSlice(host, ms, rawA[c], a[c]) && IsSlice(host, ms, rawA[c], b[c]);
  }

  /** The chunks as they go to the compressor; without system messages they hold every message once. */
  method ChunkMessagesForCompression(host: CompressionHost, ms: seq<Message>, size: Message -> nat, chunkChars: int)
    returns (chunks: seq<seq<Message>>)
    requires host.Valid()
    ensures |chunks| <= MAX_CHUNKS
    ensures forall c :: c in chunks ==> host.Built(c)
    ensures ChunksFor(host, ms, size, chunkChars, chunks)
    ensures (forall i :: 0 <= i < |ms| ==> ms[i].role != System) ==> Flatten(chunks) == host.BuildChunk(ms)
  {
    hide ChunkLimit, WithinLimit, Sliced;
    var items := Items(ms, size, 0);
    ItemsIndexed(ms, size, 0);
    assert Max(1, Min(10, MAX_CHUNKS)) == MAX_CHUNKS;
    var raw := BuildCompressionChunks(items, MAX_CHUNKS, Max(MIN_CHUNK_CHARS, chunkChars));
    GreedyNonEmpty(raw, ChunkLimit(items, MAX_CHUNKS, Max(MIN_CHUNK_CHARS, chunkChars)));
    if forall i :: 0 <= i < |ms| ==> ms[i].role != System {
      ItemsWithoutSystem(ms, size, 0);
    }
    chunks := SliceAll(host, ms, items, raw);
  }

  /** The items of `ms` in order; `whole` says that no message was left out. */
  ghost predicate Indexed(ms: seq<Message>, items: seq<Item>) {
    && (forall i :: 0 <= i < |items| ==> items[i].messageIndex < |ms|)
    && forall i, j :: 0 <= i < j < |items| ==> items[i].messageIndex < items[j].messageIndex
  }

  ghost predicate Whole(ms: seq<Message>, items: seq<Item>) {
    |items| == |ms| && forall i :: 0 <= i < |items| ==> items[i].messageIndex == i
  }

  method SliceAll(host: CompressionHost, ms: seq<Message>, ghost items: seq<Item>, raw: seq<seq<Item>>)
    returns (chunks: seq<seq<Message>>)
    requires host.Valid() && Indexed(ms, items) && Flatten(raw) == items
    requires forall c :: 0 <= c < |raw| ==> raw[c] != []
    ensures Sliced(host, ms, raw, chunks) && |chunks| == |raw|
    ensures forall c :: 0 <= c < |chunks| ==> host.Built(chunks[c])
    ensures Whole(ms, items) ==> Flatten(chunks) == host.BuildChunk(ms)
  {
    hide *;
    chunks := [];
    ghost var offset := 0;
    FlattenNone<Item>();
    FlattenNone<Message>();
    for c := 0 to |raw|
      invariant |chunks| == c && forall k :: 0 <= k < c ==> host.Built(chunks[k]) && IsSlice(host, ms, raw[k], chunks[k])
      invariant 0 <= offset <= |items| && Flatten(raw[..c]) == items[..offset]
      invariant Whole(ms, items) ==> offset <= |ms| && Flatten(chunks) == host.BuildChunk(ms[..offset])
    {
      FlattenSlice(raw, items, c, offset);
      var slice := SliceOf(host, ms, items, offset, raw[c]);
      FlattenExtend(chunks, slice);
      if Whole(ms, items) {
        WholeLength(ms, items);
        BuildChunkConcat(host, ms[..offset], ms[offset..offset + |raw[c]|]);
        assert ms[..offset] + ms[offset..offset + |raw[c]|] == ms[..offset + |raw[c]|];
      }
      chunks := chunks + [slice];
      offset := offset + |raw[c]|;
    }
    AllSliced(host, ms, raw, chunks);
    assert raw[..|raw|] == raw;
    assert items[..offset] == items;
    if Whole(ms, items) {
      WholeLength(ms, items);
      assert ms[..offset] == ms;
    }
  }

  lemma AllSliced(host: CompressionHost, ms: seq<Message>, raw: seq<seq<Item>>, chunks: seq<seq<Message>>)
    requires |chunks| == |raw| && forall c :: 0 <= c < |raw| ==> IsSlice(host, ms, raw[c], chunks[c])
    ensures Sliced(host, ms, raw, chunks)
  {
  }

  lemma WholeLength(ms: seq<Message>, items: seq<Item>)
    requires Whole(ms, items)
    ensures |items| == |ms|
  {
  }

  lemma FlattenNone<T>()
    ensures Flatten<T>([]) == []
  {
  }

  lemma BuildChunkConcat(host: CompressionHost, a: seq<Message>, b: seq<Message>)
    ensures host.BuildChunk(a + b) == host.BuildChunk(a) + host.BuildChunk(b)
  {
  }

  /** The messages from the first to the last item of a chunk. */
  method SliceOf(host: CompressionHost, ms: seq<Message>, ghost items: seq<Item>, ghost offset: nat, rawChunk: seq<Item>)
    returns (slice: seq<Message>)
    requires host.Valid()
    requires rawChunk != [] && offset + |rawChunk| <= |items| && rawChunk == items[offset..offset + |rawChunk|]
    requires Indexed(ms, items)
    ensures host.Built(slice) && IsSlice(host, ms, rawChunk, slice)
    ensures Whole(ms, items) ==> offset + |rawChunk| <= |ms| && slice == host.BuildChunk(ms[offset..offset + |rawChunk|])
  {
    assert rawChunk[0] == items[offset] && rawChunk[|rawChunk| - 1] == items[offset + |rawChunk| - 1];
    var first, last := rawChunk[0].messageIndex, rawChunk[|rawChunk| - 1].messageIndex;
    slice := host.BuildChunk(ms[first..last + 1]);
  }

  lemma GreedyNonEmpty(chunks: seq<seq<Item>>, limit: int)
    requires Greedy(chunks, limit)
    ensures forall c :: 0 <= c < |chunks| ==> chunks[c] != []
  {
  }

  /** Chunk `c` is the stretch of the flattened items right after the earlier chunks. */
  lemma FlattenSlice(chunks: seq<seq<Item>>, items: seq<Item>, c: nat, offset: nat)
    requires Flatten(chunks) == items && c < |chunks| && offset <= |items| && Flatten(chunks[..c]) == items[..offset]
    ensures offset + |chunks[c]| <= |items| && chunks[c] == items[offset..offset + |chunks[c]|]
    ensures Flatten(chunks[..c + 1]) == items[..offset + |chunks[c]|]
  {
    assert chunks[..c + 1] == chunks[..c] + [chunks[c]];
    FlattenExtend(chunks[..c], chunks[c]);
    FlattenPrefix(chunks, c + 1);
    var front := items[..offset] + chunks[c];
    assert front <= items;
    assert chunks[c] == front[offset..] == items[..|front|][offset..];
  }

  lemma {:induction false} FlattenPrefix<T>(chunks: seq<seq<T>>, c: nat)
    requires c <= |chunks|
    ensures Flatten(chunks[..c]) <= Flatten(chunks)
    decreases |chunks| - c
  {
    if c < |chunks| {
      FlattenPrefix(chunks, c + 1);
      assert chunks[..c + 1][..c] == chunks[..c];
    } else {
      assert chunks[..c] == chunks;
    }
  }

  /** One summary stands for itself; several follow each other, each behind its number. */
  function MergedSummary(summaries: seq<string>): string {
    if summaries == [] then "" else if |summaries| == 1 then summaries[0] else Joined(summaries, |summaries|)
  }

  /** The first `n` summaries, numbered. */
  function Joined(summaries: seq<string>, n: nat): string
    requires n <= |summaries|
  {
    if n == 0 then ""
    else
      Joined(summaries, n - 1) + (ChunkHead(n, |summaries|) + summaries[n - 1])
  }

  function ChunkHead(n: nat, total: nat): string {
    (if n == 1 then "" else "\n\n") + ("[COMPRESSION_CHUNK " + Print(n) + "/" + Print(total) + "]\n")
  }

  function SourceTruncated(dropped: nat): string {
    "[COMPRESSION_SOURCE_TRUNCATED dropped_messages=" + Print(dropped) + " reason=prompt_too_long]\n"
  }

  function PrecompressedSummary(r: CompressionRetryResult): Message {
    Plain(
      Assistant,
      "[CONTEXT_PRECOMPRESSED]\n"
      + (if r.droppedSourceMessageCount > 0 then SourceTruncated(r.droppedSourceMessageCount) else "")
      + MergedSummary(r.summaries))
  }

  /** The texts stand in `content` one behind the other, from `from` on and without overlap. */
  ghost predicate StandInOrder(content: string, from: nat, texts: seq<string>, at: seq<nat>) {
    && |at| == |texts|
    && (forall i :: 0 <= i < |texts| ==> from <= at[i] && Occurs(content, texts[i], at[i]))
    && forall i :: 0 < i < |texts| ==> at[i - 1] + |texts[i - 1]| <= at[i]
  }

  /** The summaries as they are found: one alone as it is, several each behind its number and their number. */
  function Labelled(summaries: seq<string>): (r: seq<string>)
    ensures |r| == |summaries|
    ensures |summaries| == 1 ==> r[0] == summaries[0]
    ensures |summaries| > 1 ==>
              forall i :: 0 <= i < |r| ==> r[i] == Print(i + 1) + "/" + Print(|summaries|) + "]\n" + summaries[i]
  {
    if |summaries| == 1 then summaries
    else seq(|summaries|, i requires 0 <= i < |summaries| => Print(i + 1) + "/" + Print(|summaries|) + "]\n" + summaries[i])
  }

  /**
   * What a summary says: every chunk's summary, one behind the other; and in front of them, exactly when source
   * messages were dropped, how many.
   */
  ghost predicate SaysAll(content: string, summaries: seq<string>, dropped: nat) {
    var head := "[CONTEXT_PRECOMPRESSED]\n";
    var notice := if dropped > 0 then "[COMPRESSION_SOURCE_TRUNCATED dropped_messages=" + Print(dropped) + " reason=prompt_too_long]\n" else "";
    var from := |head| + |notice|;
    && from <= |content| && content[..from] == head + notice
    && (exists at :: StandInOrder(content, from, Labelled(summaries), at))
    && (|summaries| == 1 ==> content[from..] == summaries[0])
  }

  lemma OccursBehind(front: string, text: string, p: string, i: nat)
    requires Occurs(text, p, i)
    ensures Occurs(front + text, p, |front| + i)
  {
    assert (front + text)[|front| + i..|front| + i + |p|] == text[i..i + |p|];
  }

  lemma OccursBefore(text: string, back: string, p: string, i: nat)
    requires Occurs(text, p, i)
    ensures Occurs(text + back, p, i)
  {
    assert (text + back)[i..i + |p|] == text[i..i + |p|];
  }

  lemma StandsMore(front: string, glue: string, next: string, texts: seq<string>, at: seq<nat>)
    requires StandInOrder(front, 0, texts, at)
    ensures StandInOrder(front + (glue + next), 0, texts + [next], at + [|front| + |glue|])
  {
    OccursAtEnd(front + glue, next);
    assert (front + glue) + next == front + (glue + next);
    forall i | 0 <= i < |texts| ensures Occurs(front + (glue + next), texts[i], at[i]) && at[i] + |texts[i]| <= |front| {
      OccursBefore(front, glue + next, texts[i], at[i]);
    }
    hide Occurs;
  }

  /** Where the summaries stand in the joined text. */
  lemma {:induction false} JoinedStands(summaries: seq<string>, n: nat) returns (at: seq<nat>)
    requires n <= |summaries| && |summaries| > 1
    ensures StandInOrder(Joined(summaries, n), 0, Labelled(summaries)[..n], at)
  {
    hide Occurs, ChunkHead, Labelled, Print;
    if n == 0 {
      at := [];
    } else {
      var earlier := JoinedStands(summaries, n - 1);
      var texts := Labelled(summaries);
      var glue := (if n == 1 then "" else "\n\n") + "[COMPRESSION_CHUNK ";
      HeadLabels(summaries, n);
      StandsMore(Joined(summaries, n - 1), glue, texts[n - 1], texts[..n - 1], earlier);
      at := earlier + [|Joined(summaries, n - 1)| + |glue|];
      assert texts[..n] == texts[..n - 1] + [texts[n - 1]];
    }
  }

  lemma HeadLabels(summaries: seq<string>, n: nat)
    requires 0 < n <= |summaries| && |summaries| > 1
    ensures ChunkHead(n, |summaries|) + summaries[n - 1]
            == (if n == 1 then "" else "\n\n") + "[COMPRESSION_CHUNK " + Labelled(summaries)[n - 1]
  {
    hide Labelled, Print;
    var front := (if n == 1 then "" else "\n\n") + "[COMPRESSION_CHUNK ";
    var numbered := Print(n) + "/" + Print(|summaries|) + "]\n";
    assert ChunkHead(n, |summaries|) == front + numbered;
    assert Labelled(summaries)[n - 1] == numbered + summaries[n - 1];
  }

  lemma OccursAtEnd(front: string, p: string)
    ensures Occurs(front + p, p, |front|)
  {
    assert (front + p)[|front|..|front| + |p|] == p;
  }

  lemma MergedStands(summaries: seq<string>) returns (at: seq<nat>)
    ensures StandInOrder(MergedSummary(summaries), 0, Labelled(summaries), at)
  {
    if summaries == [] {
      at := [];
    } else if |summaries| == 1 {
      at := [0];
      OccursAtEnd("", summaries[0]);
      assert "" + summaries[0] == summaries[0];
    } else {
      at := JoinedStands(summaries, |summaries|);
      assert Labelled(summaries)[..|summaries|] == Labelled(summaries);
    }
  }

  lemma StandsBehind(front: string, text: string, texts: seq<string>, at: seq<nat>)
    requires StandInOrder(text, 0, texts, at)
    ensures StandInOrder(front + text, |front|, texts, Shift(at, |front|))
  {
    forall i | 0 <= i < |at| ensures Occurs(front + text, texts[i], Shift(at, |front|)[i]) {
      OccursBehind(front, text, texts[i], at[i]);
    }
    hide Occurs;
  }

  lemma SummarySaysAll(r: CompressionRetryResult)
    ensures SaysAll(PrecompressedSummary(r).content, r.summaries, r.droppedSourceMessageCount)
  {
    hide Occurs, MergedSummary, Labelled, Print, StandInOrder;
    var head := "[CONTEXT_PRECOMPRESSED]\n";
    var notice := if r.droppedSourceMessageCount > 0 then SourceTruncated(r.droppedSourceMessageCount) else "";
    var merged := MergedSummary(r.summaries);
    var front := head + notice;
    assert PrecompressedSummary(r).content == front + merged;
    OneMerged(r.summaries);
    var at := MergedStands(r.summaries);
    StandsBehind(front, merged, Labelled(r.summaries), at);
  }

  lemma OneMerged(summaries: seq<string>)
    ensures |summaries| == 1 ==> MergedSummary(summaries) == summaries[0]
  {
  }

  datatype PrecompressSettings = PrecompressSettings(
    keepLlmRounds: int, aggressiveCap: int, chunkChars: int, size: Message -> nat)

  datatype PrecompressOutcome = NotNeeded | Skipped | CompressionFailed | CompressionThrew | Applied(result: CompressionRetryResult)

  /** What the outcome of the chunks leads to. */
  function OutcomeOf(r: CompressionRetryResult): PrecompressOutcome {
    if r.thrown.Some? then CompressionThrew
    else if !r.ok || r.summaries == [] then CompressionFailed
    else Applied(r)
  }

  /** A summary is applied exactly when every chunk has one. */
  lemma AppliedIff(host: CompressionHost, chunks: seq<seq<Message>>)
    ensures OutcomeOf(Outcome(host, chunks)).Applied? <==> chunks != [] && AllSummarised(RunsOf(host, 0, chunks), chunks)
    ensures OutcomeOf(Outcome(host, chunks)).CompressionThrew? <==> Outcome(host, chunks).thrown.Some?
  {
    hide Outcome, RunsOf, AllSummarised;
    OutcomeIs(host, chunks);
  }

  /** The history around the new summary, before it is sanitised. */
  function Around(before: seq<Message>, r: CompressionRetryResult, counter: nat, tail: seq<Message>): seq<Message> {
    var summary := PrecompressedSummary(r).(
                     checkpointId := Some(CheckpointId(counter)), checkpointReason := Some("summary_anchor"));
    SystemPart(before) + [summary] + tail
  }

  /** What an attempt asks of the compression of the older part. */
  datatype PrecompressRequest = PrecompressRequest(mode: PrecompressMode, forced: bool, override: Option<int>, budget: Budget)
  {
    predicate Triggers() {
      mode != Disabled && (ShouldTriggerPrecompress(budget, forced, mode) || forced)
    }

    function KeepRounds(settings: PrecompressSettings): int {
      ResolveKeepRounds(settings.keepLlmRounds, mode, settings.aggressiveCap, override)
    }
  }

  /**
   * A compression is called for by force, by reaching the trigger with enough added since the last one, or by 95 per cent
   * of the safe input.
   */
  lemma TriggersIff(request: PrecompressRequest)
    ensures var b := request.budget;
            request.Triggers()
            <==> request.mode != Disabled
                 && (request.forced || 100 * b.estimatedInputTokens + 99 >= 95 * b.safeInputTokens
                     || (b.estimatedInputTokens >= b.compressionTriggerTokens
                         && b.estimatedInputTokens >= b.lastCompressionInputTokens + b.minTokensAddedAfterCompression))
  {
  }

  /** As many rounds as asked for stay, or else as configured, under the cap in the aggressive mode; and never none. */
  ghost predicate KeepsRounds(request: PrecompressRequest, settings: PrecompressSettings, keep: int) {
    && keep >= 1
    && (request.override.Some? && request.override.value >= 1 ==> keep == request.override.value)
    && (request.override.Some? && request.override.value < 1 ==> keep == 1)
    && (request.override.None? && request.mode == Aggressive ==>
          && (keep > 1 ==> keep <= settings.aggressiveCap && keep <= settings.keepLlmRounds)
          && (keep >= settings.aggressiveCap || keep >= settings.keepLlmRounds))
    && (request.override.None? && request.mode != Aggressive ==>
          keep >= settings.keepLlmRounds && (keep > 1 ==> keep == settings.keepLlmRounds))
  }

  lemma KeepRoundsIff(request: PrecompressRequest, settings: PrecompressSettings, keep: int)
    ensures KeepsRounds(request, settings, keep) <==> keep == request.KeepRounds(settings)
  {
  }

  /** A compression of the history is tried: its older part is cut into these chunks. */
  ghost predicate Tries(
    host: CompressionHost, settings: PrecompressSettings, request: PrecompressRequest, ms: seq<Message>,
    older: seq<Message>, tail: seq<Message>, chunks: seq<seq<Message>>)
  {
    && request.Triggers()
    && SplitOff(Body(ms), request.KeepRounds(settings), older, tail) && |older| > 2
    && ChunksFor(host, older, settings.size, settings.chunkChars, chunks) && chunks != []
  }

  /** It is tried, and each chunk has a summary. */
  ghost predicate Compresses(
    host: CompressionHost, settings: PrecompressSettings, request: PrecompressRequest, ms: seq<Message>,
    older: seq<Message>, tail: seq<Message>, chunks: seq<seq<Message>>)
  {
    Tries(host, settings, request, ms, older, tail, chunks) && OutcomeOf(Outcome(host, chunks)).Applied?
  }

  /** What is tried is determined by the history. */
  lemma TriesUnique(
    host: CompressionHost, settings: PrecompressSettings, request: PrecompressRequest, ms: seq<Message>,
    older: seq<Message>, tail: seq<Message>, chunks: seq<seq<Message>>,
    older': seq<Message>, tail': seq<Message>, chunks': seq<seq<Message>>)
    requires Tries(host, settings, request, ms, older, tail, chunks)
    requires SplitOff(Body(ms), request.KeepRounds(settings), older', tail')
    ensures older' == older && tail' == tail
    ensures ChunksFor(host, older', settings.size, settings.chunkChars, chunks') ==> chunks' == chunks
  {
    hide SplitOff, ChunksFor;
    SplitUnique(Body(ms), request.KeepRounds(settings), older, tail, older', tail');
    if ChunksFor(host, older', settings.size, settings.chunkChars, chunks') {
      ChunksForUnique(host, older, settings.size, settings.chunkChars, chunks, chunks');
    }
  }

  /**
   * Either the stored history is left alone, or its older part is replaced by one summary with a new
   * checkpoint, in front of exactly the kept rounds: which of the two is decided by the trigger, the split,
   * and the runs of the chunks. The result always obeys the protocol, and nothing else changes when the
   * history was well-formed.
   */
  method ApplyPrecompressIfNeeded(
    store: MessageStore, host: CompressionHost, settings: PrecompressSettings, request: PrecompressRequest)
    returns (outcome: PrecompressOutcome, ghost older: seq<Message>, ghost tail: seq<Message>, ghost chunks: seq<seq<Message>>)
    requires host.Valid()
    modifies store`messages, store`checkpointCounter
    ensures outcome != NotNeeded ==>
              SplitOff(Body(old(store.messages)), request.KeepRounds(settings), older, tail)
    ensures outcome != NotNeeded ==>
              exists keep :: KeepsRounds(request, settings, keep) && SplitOff(Body(old(store.messages)), keep, older, tail)
    ensures outcome != NotNeeded && |older| > 2 ==> ChunksFor(host, older, settings.size, settings.chunkChars, chunks)
    ensures outcome == if !request.Triggers() then NotNeeded
                       else if |older| <= 2 || chunks == [] then Skipped
                       else OutcomeOf(Outcome(host, chunks))
    ensures !outcome.Applied? ==> store.messages == old(store.messages) && store.checkpointCounter == old(store.checkpointCounter)
    ensures outcome.Applied? ==>
              var next := Around(old(store.messages), outcome.result, store.checkpointCounter, tail);
              && store.checkpointCounter == old(store.checkpointCounter) + 1
              && store.messages == Sanitized(next).messages
              && WellFormed(store.messages)
              && SummaryStands(old(store.messages), store.messages, tail, outcome.result.summaries,
                               outcome.result.droppedSourceMessageCount)
              && (WellFormed(old(store.messages)) ==> WellFormed(next) && |store.messages| == |next|)
    ensures old(store.Covered()) ==> store.Covered()
  {
    hide WellFormed, Canonical, Covers, Fresh, Sanitized, SplitOff, ChunksFor, Prepared, Outcome, OutcomeOf, Around;
    hide PrecompressedSummary, CheckpointId, SystemPart, Body, ShouldTriggerPrecompress, ResolveKeepRounds, KeepsRounds, IsOutcome, SummaryStands;
    KeepRoundsIff(request, settings, request.KeepRounds(settings));
    older, tail, chunks := [], [], [];
    ghost var before := store.messages;
    if request.mode == Disabled {
      return NotNeeded, older, tail, chunks;
    }
    if !ShouldTriggerPrecompress(request.budget, request.forced, request.mode) && !request.forced {
      return NotNeeded, older, tail, chunks;
    }
    var keep := ResolveKeepRounds(settings.keepLlmRounds, request.mode, settings.aggressiveCap, request.override);
    var olderMessages, tailMessages := SplitMessagesForPrecompress(Body(store.messages), keep);
    older, tail := olderMessages, tailMessages;
    if |olderMessages| <= 2 {
      return Skipped, older, tail, chunks;
    }
    var built := ChunkMessagesForCompression(host, olderMessages, settings.size, settings.chunkChars);
    chunks := built;
    if built == [] {
      return Skipped, older, tail, chunks;
    }
    AllPrepared(host, built);
    var result := CompressChunksWithRetry(host, built);
    OutcomeCases(result);
    if result.thrown.Some? {
      return CompressionThrew, older, tail, chunks;
    }
    if !result.ok || |result.summaries| == 0 {
      return CompressionFailed, older, tail, chunks;
    }
    var systemPart := SystemPart(store.messages);
    var summary := store.WithCheckpointMetadata(PrecompressedSummary(result), "summary_anchor");
    var next := systemPart + [summary] + tailMessages;
    assert next == Around(before, result, store.checkpointCounter, tailMessages) by {
      AroundIs(before, result, store.checkpointCounter, tailMessages);
    }
    SanitizedIsWellFormed(next);
    SummaryIsPlain(result);
    AroundSays(before, result, store.checkpointCounter, tailMessages);
    TailFacts(before, keep, olderMessages, tailMessages, summary);
    if old(store.Covered()) {
      PartsCovered(store.checkpointCounter, before, summary, tailMessages);
      SanitizedCovered(store.checkpointCounter, next);
    }
    var sanitized, _ := SanitizeMessagesForToolProtocol(next);
    store.messages := sanitized.messages;
    outcome := Applied(result);
  }

  /** Behind the system part, which stays, one plain assistant message says everything; the kept rounds follow, sanitised. */
  ghost predicate SummaryStands(before: seq<Message>, ms: seq<Message>, tail: seq<Message>, summaries: seq<string>, dropped: nat) {
    var at := |SystemPart(before)|;
    && at < |ms| && ms[..at] == SystemPart(before)
    && ms[at].role == Assistant && ms[at].toolCalls == [] && SaysAll(ms[at].content, summaries, dropped)
    && ms[at + 1..] == Sanitized(tail).messages
  }

  lemma AroundSays(before: seq<Message>, r: CompressionRetryResult, counter: nat, tail: seq<Message>)
    ensures SummaryStands(before, Sanitized(Around(before, r, counter, tail)).messages, tail, r.summaries, r.droppedSourceMessageCount)
  {
    AroundIs(before, r, counter, tail);
    SummarySaysAll(r);
    SummaryIsPlain(r);
    SystemPartIsPlain(before);
    hide Around, SaysAll, Sanitized, PrecompressedSummary, SystemPart, CheckpointId;
    var summary := PrecompressedSummary(r).(
                     checkpointId := Some(CheckpointId(counter)), checkpointReason := Some("summary_anchor"));
    SanitizedPlainFront(SystemPart(before) + [summary], tail);
  }

  lemma AroundIs(before: seq<Message>, r: CompressionRetryResult, counter: nat, tail: seq<Message>)
    ensures Around(before, r, counter, tail)
            == SystemPart(before)
               + [PrecompressedSummary(r).(
                    checkpointId := Some(CheckpointId(counter)), checkpointReason := Some("summary_anchor"))]
               + tail
  {
  }

  lemma AllPrepared(host: CompressionHost, chunks: seq<seq<Message>>)
    requires host.Valid() && forall c :: c in chunks ==> host.Built(c)
    ensures Prepared(host, chunks)
  {
  }

  lemma OutcomeCases(r: CompressionRetryResult)
    ensures OutcomeOf(r) == if r.thrown.Some? then CompressionThrew
                            else if !r.ok || |r.summaries| == 0 then CompressionFailed else Applied(r)
  {
  }

  lemma SummaryIsPlain(r: CompressionRetryResult)
    ensures PrecompressedSummary(r).role == Assistant && PrecompressedSummary(r).toolCalls == []
  {
  }

  /** With the cut between rounds a well-formed history stays well-formed around the summary. */
  lemma TailFacts(before: seq<Message>, keep: int, older: seq<Message>, tail: seq<Message>, summary: Message)
    requires SplitOff(Body(before), keep, older, tail) && older != []
    requires summary.role == Assistant && summary.toolCalls == []
    ensures |tail| <= |Body(before)| && tail == Body(before)[|Body(before)| - |tail|..]
    ensures WellFormed(before) ==>
              var next := SystemPart(before) + [summary] + tail;
              WellFormed(next) && |Sanitized(next).messages| == |next|
  {
    hide WellFormed, ClosedBundle, Assistants, EndsRound;
    if WellFormed(before) {
      var next := SystemPart(before) + [summary] + tail;
      BodyWellFormed(before);
      WellFormedSplit(older, tail);
      SystemPartIsPlain(before);
      InsertedBefore(SystemPart(before), summary, tail);
      NothingCorrectedIff(next);
      SanitizedLength(next);
    }
  }

  lemma PartsCovered(counter: nat, before: seq<Message>, summary: Message, tail: seq<Message>)
    requires Covers(counter, before + [summary]) && |tail| <= |Body(before)|
    requires tail == Body(before)[|Body(before)| - |tail|..]
    ensures Covers(counter, SystemPart(before) + [summary] + tail)
  {
    hide Numbered;
    var next := SystemPart(before) + [summary] + tail;
    forall i, n: nat | 0 <= i < |next| && Numbered(next[i], n) ensures n <= counter {
      var s := |SystemPart(before)|;
      var j := if i < s then i else if i == s then |before| else |before| - |tail| + (i - s - 1);
      assert next[i] == (before + [summary])[j];
    }
  }
}
