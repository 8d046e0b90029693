/**
 * Compressing the older part of a history: where it is split, how it is cut into chunks, and
 * how a chunk that is too long for the compressor is retried with its oldest rounds dropped
 * (src/agent/LlmInputPreparator.ts, src/agent/agent-compression-utils.ts,
 * src/runtime/compression-chunks.ts).
 */
module Precompress {
  import opened Messages
  import opened Numbers
  import opened Text
  import opened ToolProtocol
  import opened ContextOverflow

  // ----- splitting off the latest rounds -----

  function Assistants(ms: seq<Message>): nat {
    if ms == [] then 0 else (if ms[0].role == Assistant then 1 else 0) + Assistants(ms[1..])
  }

  lemma {:induction false} AssistantsConcat(a: seq<Message>, b: seq<Message>)
    ensures Assistants(a + b) == Assistants(a) + Assistants(b)
  {
    if a == [] {
      assert a + b == b;
    } else {
      assert (a + b)[1..] == a[1..] + b;
      AssistantsConcat(a[1..], b);
    }
  }

  lemma {:induction false} NoAssistants(ms: seq<Message>)
    requires forall i :: 0 <= i < |ms| ==> ms[i].role != Assistant
    ensures Assistants(ms) == 0
  {
    if ms != [] {
      NoAssistants(ms[1..]);
    }
  }

  /** The last assistant turn of `ms` is followed by nothing but tool results. */
  ghost predicate EndsRound(ms: seq<Message>) {
    exists a :: 0 <= a < |ms| && ms[a].role == Assistant && AllTools(ms[a + 1..])
  }

  lemma {:induction false} AssistantSegment(ms: seq<Message>, from: nat, at: nat, to: nat)
    requires from <= at < to <= |ms| && ms[at].role == Assistant
    requires forall i :: from <= i < to && i != at ==> ms[i].role != Assistant
    ensures Assistants(ms[..to]) == Assistants(ms[..from]) + 1
  {
    assert ms[..to] == ms[..from] + (ms[from..at] + ([ms[at]] + ms[at + 1..to]));
    AssistantsConcat(ms[..from], ms[from..at] + ([ms[at]] + ms[at + 1..to]));
    AssistantsConcat(ms[from..at], [ms[at]] + ms[at + 1..to]);
    AssistantsConcat([ms[at]], ms[at + 1..to]);
    NoAssistants(ms[from..at]);
    NoAssistants(ms[at + 1..to]);
  }

  /** The last message of the round that begins at `cursor`, or the end of the list. */
  method FindRoundEnd(ms: seq<Message>, cursor: nat) returns (end: nat)
    requires cursor < |ms|
    ensures cursor <= end <= |ms|
    ensures end == |ms| ==> forall i :: cursor <= i < |ms| ==> ms[i].role != Assistant
    ensures end < |ms| ==>
              && Assistants(ms[..end + 1]) == Assistants(ms[..cursor]) + 1
              && EndsRound(ms[..end + 1])
              && (end + 1 < |ms| ==> ms[end + 1].role != Tool)
  {
    var n := |ms|;
    var assistantIdx := cursor;
    while assistantIdx < n && ms[assistantIdx].role != Assistant
      invariant cursor <= assistantIdx <= n
      invariant forall i :: cursor <= i < assistantIdx ==> ms[i].role != Assistant
    {
      assistantIdx := assistantIdx + 1;
    }
    if assistantIdx == n {
      return n;
    }
    end := assistantIdx;
    while end + 1 < n && ms[end + 1].role == Tool
      invariant assistantIdx <= end < n
      invariant forall i :: assistantIdx < i <= end ==> ms[i].role == Tool
    {
      end := end + 1;
    }
    AssistantSegment(ms, cursor, assistantIdx, end + 1);
    assert EndsRound(ms[..end + 1]) by {
      assert ms[..end + 1][assistantIdx].role == Assistant;
      assert AllTools(ms[..end + 1][assistantIdx + 1..]);
    }
  }

  /**
   * The tail has exactly the asked number of assistant turns, begins right behind a complete round,
   * and nothing is split off only when there is too little.
   */
  ghost predicate SplitOff(ms: seq<Message>, keepLlmRounds: int, older: seq<Message>, tail: seq<Message>) {
    && older + tail == ms
    && (older == [] <==> |ms| <= 2 || Assistants(ms) <= Max(1, keepLlmRounds))
    && (older != [] ==>
          Assistants(tail) == Max(1, keepLlmRounds) && EndsRound(older) && tail != [] && tail[0].role != Tool)
  }

  /** Finds the rounds, each a run of messages up to one assistant turn with its results, and keeps the latest. */
  method SplitMessagesForPrecompress(contentMessages: seq<Message>, keepLlmRounds: int)
    returns (olderMessages: seq<Message>, tailMessages: seq<Message>)
    ensures SplitOff(contentMessages, keepLlmRounds, olderMessages, tailMessages)
  {
    hide EndsRound, Assistants;
    var n := |contentMessages|;
    NoAssistants(contentMessages[..0]);
    if n <= 2 {
      return [], contentMessages;
    }
    var starts: seq<nat> := [];
    var cursor := 0;
    var done := false;
    while cursor < n && !done
      invariant 0 <= cursor <= n
      invariant Assistants(contentMessages[..cursor]) == |starts|
      invariant cursor > 0 ==> EndsRound(contentMessages[..cursor])
      invariant cursor > 0 && cursor < n ==> contentMessages[cursor].role != Tool
      invariant cursor == 0 <==> starts == []
      invariant forall k :: 0 <= k < |starts| ==>
                  && starts[k] < cursor
                  && Assistants(contentMessages[..starts[k]]) == k
                  && (starts[k] == 0 <==> k == 0)
                  && (k > 0 ==> EndsRound(contentMessages[..starts[k]]) && contentMessages[starts[k]].role != Tool)
      invariant done ==> forall i :: cursor <= i < n ==> contentMessages[i].role != Assistant
      decreases n - cursor, !done
    {
      var end := FindRoundEnd(contentMessages, cursor);
      if end == n {
        done := true;
      } else {
        starts := starts + [cursor];
        cursor := end + 1;
      }
    }
    NoAssistants(contentMessages[cursor..]);
    AssistantsConcat(contentMessages[..cursor], contentMessages[cursor..]);
    assert contentMessages[..cursor] + contentMessages[cursor..] == contentMessages;
    var normalizedKeepRounds := Max(1, keepLlmRounds);
    if |starts| <= normalizedKeepRounds {
      return [], contentMessages;
    }
    var tailStart := starts[|starts| - normalizedKeepRounds];
    AssistantsConcat(contentMessages[..tailStart], contentMessages[tailStart..]);
    assert contentMessages[..tailStart] + contentMessages[tailStart..] == contentMessages;
    return contentMessages[..tailStart], contentMessages[tailStart..];
  }

  /** Cutting before a message that is no result splits a well-formed history into two. */
  lemma SplitKeepsProtocol(older: seq<Message>, tail: seq<Message>)
    requires WellFormed(older + tail) && (older != [] ==> tail != [] && tail[0].role != Tool)
    ensures WellFormed(older) && WellFormed(tail)
  {
    if older == [] {
      assert older + tail == tail;
    } else {
      WellFormedSplit(older, tail);
    }
  }

  /** There is only one such split. */
  lemma SplitUnique(
    ms: seq<Message>, keep: int, older: seq<Message>, tail: seq<Message>, older': seq<Message>, tail': seq<Message>)
    requires SplitOff(ms, keep, older, tail) && SplitOff(ms, keep, older', tail')
    ensures older == older' && tail == tail'
  {
    hide EndsRound, Assistants;
    if older != [] && |older| < |older'| {
      SplitNotLater(older, tail, older', tail');
    } else if older != [] && |older'| < |older| {
      SplitNotLater(older', tail', older, tail);
    }
    assert older == (older + tail)[..|older|] && tail == (older + tail)[|older|..];
    assert older' == (older' + tail')[..|older'|] && tail' == (older' + tail')[|older'|..];
  }

  lemma SplitNotLater(older: seq<Message>, tail: seq<Message>, older': seq<Message>, tail': seq<Message>)
    requires older + tail == older' + tail' && tail != []
    requires EndsRound(older') && tail[0].role != Tool && Assistants(tail) == Assistants(tail')
    ensures |older'| <= |older|
  {
    if |older| < |older'| {
      hide *;
      var gap := SplitGap(older, tail, older', tail');
      AssistantsConcat(gap, tail');
      var a := LastTurnBehind(older', |older|);
      SomeAssistant(gap, a - |older|);
      assert false;
    }
  }

  /** What one split has in its older part and the other in its tail. */
  lemma SplitGap(older: seq<Message>, tail: seq<Message>, older': seq<Message>, tail': seq<Message>) returns (gap: seq<Message>)
    requires older + tail == older' + tail' && |older| < |older'|
    ensures gap == older'[|older|..] && tail == gap + tail'
  {
    gap := older'[|older|..];
    assert tail == (older + tail)[|older|..];
    assert tail' == (older' + tail')[|older'|..];
  }

  lemma LastTurnBehind(ms: seq<Message>, at: nat) returns (a: nat)
    requires EndsRound(ms) && at < |ms| && ms[at].role != Tool
    ensures at <= a < |ms| && ms[a].role == Assistant
  {
    a :| 0 <= a < |ms| && ms[a].role == Assistant && AllTools(ms[a + 1..]);
  }

  lemma {:induction false} SomeAssistant(ms: seq<Message>, i: nat)
    requires i < |ms| && ms[i].role == Assistant
    ensures Assistants(ms) > 0
  {
    if i > 0 {
      SomeAssistant(ms[1..], i - 1);
    }
  }

  // ----- cutting the older part into chunks -----

  datatype Item = Item(messageIndex: nat, charLength: nat)

  function Chars(items: seq<Item>): nat {
    if items == [] then 0 else Chars(items[..|items| - 1]) + items[|items| - 1].charLength
  }

  function Flatten<T>(chunks: seq<seq<T>>): seq<T> {
    if chunks == [] then [] else Flatten(chunks[..|chunks| - 1]) + chunks[|chunks| - 1]
  }

  function ChunkLimit(items: seq<Item>, maxChunks: int, maxChunkChars: int): int {
    Max(1, if maxChunkChars > 0 then maxChunkChars else (Chars(items) + Max(1, maxChunks) - 1) / Max(1, maxChunks))
  }

  /** The configured limit, or else the least one under which so many chunks have room for everything. */
  ghost predicate IsLimit(items: seq<Item>, maxChunks: int, maxChunkChars: int, limit: int) {
    if maxChunkChars > 0 then limit == maxChunkChars
    else limit >= 1 && limit * maxChunks >= Chars(items) && (limit > 1 ==> (limit - 1) * maxChunks < Chars(items))
  }

  lemma LimitIs(items: seq<Item>, maxChunks: int, maxChunkChars: int)
    requires maxChunks >= 1
    ensures IsLimit(items, maxChunks, maxChunkChars, ChunkLimit(items, maxChunks, maxChunkChars))
  {
    hide Chars;
    var rounded := Chars(items) + maxChunks - 1;
    var q := rounded / maxChunks;
    assert q * maxChunks + rounded % maxChunks == rounded;
    assert (q - 1) * maxChunks == q * maxChunks - maxChunks;
  }

  /** Every chunk of `chunks` is within the limit unless a single item exceeds it alone. */
  ghost predicate WithinLimit(chunks: seq<seq<Item>>, limit: int) {
    forall c :: 0 <= c < |chunks| ==> |chunks[c]| == 1 || Chars(chunks[c]) <= limit
  }

  /** No chunk had room for the first item of the next. */
  ghost predicate Greedy(chunks: seq<seq<Item>>, limit: int) {
    && (forall c :: 0 <= c < |chunks| ==> chunks[c] != [])
    && forall c :: 0 < c < |chunks| ==> Chars(chunks[c - 1]) + chunks[c][0].charLength > limit
  }

  lemma Appended(chunks: seq<seq<Item>>, next: seq<Item>, limit: int)
    requires Greedy(chunks, limit) && next != []
    requires chunks != [] ==> Chars(chunks[|chunks| - 1]) + next[0].charLength > limit
    ensures Greedy(chunks + [next], limit)
  {
    hide Chars;
  }

  lemma AppendedWithin(chunks: seq<seq<Item>>, next: seq<Item>, limit: int)
    requires WithinLimit(chunks, limit) && (|next| == 1 || Chars(next) <= limit)
    ensures WithinLimit(chunks + [next], limit)
  {
    hide Chars;
  }

  lemma FlattenExtend<T>(chunks: seq<seq<T>>, next: seq<T>)
    ensures Flatten(chunks + [next]) == Flatten(chunks) + next
  {
    assert (chunks + [next])[..|chunks|] == chunks;
  }

  lemma CharsExtend(items: seq<Item>, item: Item)
    ensures Chars(items + [item]) == Chars(items) + item.charLength
  {
    assert (items + [item])[..|items|] == items;
  }

  /**
   * Greedy chunking: the chunks hold every item once and in order, there are never more than
   * allowed, and every chunk but the last is filled as far as the limit lets it.
   */
  ghost predicate Chunked(items: seq<Item>, maxChunks: nat, limit: int, chunks: seq<seq<Item>>) {
    && Flatten(chunks) == items
    && |chunks| <= maxChunks
    && Greedy(chunks, limit)
    && (chunks != [] ==> WithinLimit(chunks[..|chunks| - 1], limit))
    && (|chunks| < maxChunks ==> WithinLimit(chunks, limit))
  }

  /** Cuts the items greedily: a new chunk begins when the next item no longer fits and a chunk is left. */
  method BuildCompressionChunks(items: seq<Item>, requestedChunks: int, maxChunkChars: int)
    returns (chunks: seq<seq<Item>>)
    ensures var maxChunks := Max(1, Min(10, requestedChunks));
            Chunked(items, maxChunks, ChunkLimit(items, maxChunks, maxChunkChars), chunks)
    ensures var maxChunks := if requestedChunks < 1 then 1 else if requestedChunks > 10 then 10 else requestedChunks;
            exists limit :: IsLimit(items, maxChunks, maxChunkChars, limit) && Chunked(items, maxChunks, limit, chunks)
  {
    hide Flatten, Chars, WithinLimit, Greedy, ChunkLimit, IsLimit;
    var maxChunks := Max(1, Min(10, requestedChunks));
    LimitIs(items, maxChunks, maxChunkChars);
    var limit := ChunkLimit(items, maxChunks, maxChunkChars);
    chunks := [];
    NoChunks(limit);
    var currentItems: seq<Item> := [];
    var currentChars := 0;
    for i := 0 to |items|
      invariant Flatten(chunks) + currentItems == items[..i]
      invariant currentChars == Chars(currentItems)
      invariant i == 0 <==> currentItems == []
      invariant i == 0 ==> chunks == []
      invariant |chunks| <= maxChunks - 1
      invariant Greedy(chunks, limit) && WithinLimit(chunks, limit)
      invariant |chunks| < maxChunks - 1 ==> |currentItems| <= 1 || currentChars <= limit
      invariant chunks != [] ==> Chars(chunks[|chunks| - 1]) + currentItems[0].charLength > limit
    {
      var item := items[i];
      assert items[..i + 1] == items[..i] + [item];
      if |chunks| < maxChunks - 1 && currentItems != [] && currentChars + item.charLength > limit {
        Appended(chunks, currentItems, limit);
        AppendedWithin(chunks, currentItems, limit);
        FlattenExtend(chunks, currentItems);
        chunks := chunks + [currentItems];
        currentItems, currentChars := [], 0;
        NoChunks(limit);
      }
      CharsExtend(currentItems, item);
      currentItems, currentChars := currentItems + [item], currentChars + item.charLength;
    }
    assert items[..|items|] == items;
    if currentItems != [] {
      Appended(chunks, currentItems, limit);
      if |chunks| < maxChunks - 1 {
        AppendedWithin(chunks, currentItems, limit);
      }
      FlattenExtend(chunks, currentItems);
      assert (chunks + [currentItems])[..|chunks|] == chunks;
      chunks := chunks + [currentItems];
    }
  }

  lemma NoChunks(limit: int)
    ensures Flatten<Item>([]) == [] && Chars([]) == 0 && Greedy([], limit) && WithinLimit([], limit)
  {
  }

  lemma {:induction false} FlattenFront<T>(chunks: seq<seq<T>>)
    requires chunks != []
    ensures Flatten(chunks) == chunks[0] + Flatten(chunks[1..])
  {
    if |chunks| > 1 {
      FlattenFront(chunks[..|chunks| - 1]);
      assert chunks[..|chunks| - 1][1..] == chunks[1..][..|chunks| - 2];
      assert chunks[1..][|chunks| - 2] == chunks[|chunks| - 1];
      FlattenStep(chunks[1..]);
    } else {
      assert chunks[..0] == [] && chunks[1..] == [];
    }
  }

  lemma FlattenStep<T>(chunks: seq<seq<T>>)
    requires chunks != []
    ensures Flatten(chunks) == Flatten(chunks[..|chunks| - 1]) + chunks[|chunks| - 1]
  {
  }

  lemma {:induction false} CharsMonotone(items: seq<Item>, k: nat)
    requires k <= |items|
    ensures Chars(items[..k]) <= Chars(items)
    decreases |items|
  {
    if k < |items| {
      CharsMonotone(items[..|items| - 1], k);
      assert items[..|items| - 1][..k] == items[..k];
    } else {
      assert items[..k] == items;
    }
  }

  /** The chunks behind the first are a chunking of their own items. */
  lemma ChunkedRest(items: seq<Item>, maxChunks: nat, limit: int, chunks: seq<seq<Item>>)
    requires Chunked(items, maxChunks, limit, chunks) && chunks != []
    ensures chunks[0] <= items && chunks[0] != [] && maxChunks > 0
    ensures Chunked(items[|chunks[0]|..], maxChunks - 1, limit, chunks[1..])
  {
    hide Flatten, Chars;
    FlattenFront(chunks);
    var rest := chunks[1..];
    assert items[|chunks[0]|..] == Flatten(rest);
    if rest != [] {
      assert rest[..|rest| - 1] == chunks[..|chunks| - 1][1..];
    }
  }

  /** A first chunk with something behind it has no room for the next item. */
  lemma NextDoesNotFit(items: seq<Item>, maxChunks: nat, limit: int, a: seq<seq<Item>>)
    requires Chunked(items, maxChunks, limit, a) && a != [] && |a[0]| < |items|
    ensures Chars(items[..|a[0]| + 1]) > limit && maxChunks > 1
  {
    hide Flatten, Chars;
    ChunkedRest(items, maxChunks, limit, a);
    FlattenNone();
    ChunkedRest(items[|a[0]|..], maxChunks - 1, limit, a[1..]);
    var item := items[|a[0]|];
    assert a[1][0] == item && a[0] + [item] == items[..|a[0]| + 1];
    CharsExtend(a[0], item);
  }

  lemma FirstFits(items: seq<Item>, maxChunks: nat, limit: int, b: seq<seq<Item>>)
    requires Chunked(items, maxChunks, limit, b) && b != [] && maxChunks > 1
    ensures |b[0]| == 1 || Chars(b[0]) <= limit
  {
    assert |b| > 1 ==> b[..|b| - 1][0] == b[0];
  }

  /** A first chunk is never shorter than that of another chunking of the same items. */
  lemma FirstNotShorter(items: seq<Item>, maxChunks: nat, limit: int, a: seq<seq<Item>>, b: seq<seq<Item>>)
    requires Chunked(items, maxChunks, limit, a) && Chunked(items, maxChunks, limit, b) && a != [] && b != []
    ensures |a[0]| >= |b[0]|
  {
    hide Chunked, Chars;
    ChunkedRest(items, maxChunks, limit, a);
    ChunkedRest(items, maxChunks, limit, b);
    var k := |a[0]|;
    if k < |b[0]| {
      assert items[..k + 1] == b[0][..k + 1];
      CharsMonotone(b[0], k + 1);
      NextDoesNotFit(items, maxChunks, limit, a);
      FirstFits(items, maxChunks, limit, b);
      assert false;
    }
  }

  lemma FlattenNone()
    ensures Flatten<Item>([]) == []
  {
  }

  /** There is only one such chunking. */
  lemma {:induction false} ChunksUnique(items: seq<Item>, maxChunks: nat, limit: int, a: seq<seq<Item>>, b: seq<seq<Item>>)
    requires Chunked(items, maxChunks, limit, a) && Chunked(items, maxChunks, limit, b)
    ensures a == b
    decreases |a|
  {
    hide Greedy, WithinLimit;
    FlattenNone();
    if a != [] && b != [] {
      FirstNotShorter(items, maxChunks, limit, a, b);
      FirstNotShorter(items, maxChunks, limit, b, a);
      ChunkedRest(items, maxChunks, limit, a);
      ChunkedRest(items, maxChunks, limit, b);
      assert a[0] == b[0];
      ChunksUnique(items[|a[0]|..], maxChunks - 1, limit, a[1..], b[1..]);
      assert a == [a[0]] + a[1..] && b == [b[0]] + b[1..];
    } else if a != [] {
      ChunkedRest(items, maxChunks, limit, a);
    } else if b != [] {
      ChunkedRest(items, maxChunks, limit, b);
    }
  }

  // ----- retrying with the oldest round dropped -----

  /** How many leading messages make up the oldest round; at least one message always stays. */
  function OldestRound(ms: seq<Message>): (n: nat)
    ensures |ms| <= 1 ==> n == 0
    ensures |ms| > 1 ==> 1 <= n < |ms|
    ensures |ms| > 2 ==> 2 <= n
  {
    if |ms| <= 1 then 0
    else
      var a := NextAssistant(ms, 1);
      if a == |ms| then |ms| - 1 else Min(a + 1 + ToolRun(ms[a + 1..]), |ms| - 1)
  }

  /** The first assistant turn at or after `from`, or the end. */
  function NextAssistant(ms: seq<Message>, from: nat): (a: nat)
    requires from <= |ms|
    ensures from <= a <= |ms| && (a < |ms| ==> ms[a].role == Assistant)
    ensures forall i :: from <= i < a ==> ms[i].role != Assistant
    decreases |ms| - from
  {
    if from == |ms| || ms[from].role == Assistant then from else NextAssistant(ms, from + 1)
  }

  method DropOldestCompressionRound(messages: seq<Message>) returns (rest: seq<Message>, droppedCount: nat)
    ensures droppedCount == OldestRound(messages) && rest == messages[droppedCount..]
    ensures if |messages| <= 1 then rest == messages && droppedCount == 0 else IsOldestRound(messages, droppedCount)
  {
    hide IsOldestRound;
    if |messages| > 1 {
      OldestRoundIs(messages);
    }
    if |messages| <= 1 {
      return messages, 0;
    }
    var dropEnd := 1;
    var i := 1;
    var found := false;
    while i < |messages| && !found
      invariant 1 <= i <= |messages|
      invariant found ==> i == NextAssistant(messages, 1) < |messages|
                          && dropEnd == i + 1 + ToolRun(messages[i + 1..])
      invariant !found ==> NextAssistant(messages, i) == NextAssistant(messages, 1) && dropEnd == i
      decreases |messages| - i, !found
    {
      dropEnd := i + 1;
      if messages[i].role == Assistant {
        while dropEnd < |messages| && messages[dropEnd].role == Tool
          invariant i + 1 <= dropEnd <= |messages|
          invariant forall k :: i + 1 <= k < dropEnd ==> messages[k].role == Tool
        {
          dropEnd := dropEnd + 1;
        }
        RunIsMaximal(messages[i + 1..], dropEnd - (i + 1));
        found := true;
      } else {
        i := i + 1;
      }
    }
    droppedCount := Min(dropEnd, |messages| - 1);
    rest := messages[droppedCount..];
  }

  const RETRY_MARKER := "[COMPRESSION_RETRY_TRUNCATED"

  function RetryNotice(dropped: nat): Message {
    Plain(User, RETRY_MARKER + " dropped_messages=" + Print(dropped) + " reason=prompt_too_long]")
  }

  predicate StartsWithNotice(ms: seq<Message>) {
    ms != [] && StartsWith(ms[0].content, RETRY_MARKER)
  }

  lemma NoticeStarts(dropped: nat)
    ensures StartsWith(RetryNotice(dropped).content, RETRY_MARKER)
  {
    var rest := " dropped_messages=" + Print(dropped) + " reason=prompt_too_long]";
    assert RetryNotice(dropped).content == RETRY_MARKER + rest;
  }

  /**
   * What a chunk is compressed with: the configured retries, whether an error means the prompt
   * was too long, how a chunk's messages are shortened for the compressor, and the compressor
   * itself, which may answer each call as it likes.
   */
  datatype CompressionHost = CompressionHost(
    retry: nat,
    promptTooLong: string -> bool,
    normalize: Message -> Message,
    compress: (nat, seq<Message>) -> CompressorAnswer)
  {
    /** Shortening is idempotent and leaves the retry notice recognisable. */
    ghost predicate Valid() {
      && (forall m :: normalize(normalize(m)) == normalize(m))
      && forall n :: StartsWith(normalize(RetryNotice(n)).content, RETRY_MARKER)
    }

    function BuildChunk(ms: seq<Message>): (chunk: seq<Message>)
      ensures |chunk| == |ms| && forall i :: 0 <= i < |ms| ==> chunk[i] == normalize(ms[i])
    {
      seq(|ms|, i requires 0 <= i < |ms| => normalize(ms[i]))
    }

    /** `chunk` was built by `BuildChunk`. */
    ghost predicate Built(chunk: seq<Message>) {
      forall i :: 0 <= i < |chunk| ==> normalize(chunk[i]) == chunk[i]
    }

    function Attempts(): nat {
      if retry + 1 > 3 then retry + 1 else 3
    }

    const HardAttempts := Attempts() + 3

    /** The answer says that the request was too long, and the request can be made shorter. */
    predicate TooLong(request: seq<Message>, answer: CompressorAnswer) {
      promptTooLong(ErrorOf(answer)) && |request| > 2
    }

    /** What is sent after an unusable answer: the request without its oldest round, or the same again. */
    function NextRequest(request: seq<Message>, answer: CompressorAnswer): seq<Message> {
      if TooLong(request, answer) then
        BuildChunk([RetryNotice(OldestRound(request))] + request[OldestRound(request)..])
      else request
    }
  }

  function ErrorOf(answer: CompressorAnswer): string {
    if answer.Answer? && answer.error.Some? then answer.error.value else "compress_empty_result"
  }

  datatype ChunkResult = Summary(text: string) | Failed(lastError: string) | Thrown(message: string)

  /** What the last answer makes of a chunk: a usable one a summary. */
  function ResultOf(answer: CompressorAnswer): ChunkResult {
    if answer.Threw? then Thrown(answer.message)
    else if answer.success && Trim(answer.compressedContent) != "" then Summary(Trim(answer.compressedContent))
    else Failed(ErrorOf(answer))
  }

  /** The requests made for a chunk, what came of the last, and how many of the chunk's messages it no longer holds. */
  datatype ChunkRun = ChunkRun(requests: seq<seq<Message>>, result: ChunkResult, gone: nat)

  /** A too-long answer to the last allowed call earns one more, up to a limit. */
  function AllowedAfter(host: CompressionHost, tooLong: bool, i: nat, allowed: nat): (n: nat)
    requires allowed <= host.HardAttempts
    ensures allowed <= n <= host.HardAttempts
  {
    if tooLong && i + 1 >= allowed && allowed < host.HardAttempts then allowed + 1 else allowed
  }

  /** How many messages of the chunk are gone from the next request. */
  function GoneNext(host: CompressionHost, gone: nat, request: seq<Message>, answer: CompressorAnswer): nat {
    if host.TooLong(request, answer) then gone + OldestRound(request) - (if gone > 0 then 1 else 0) else gone
  }

  /** The run for a chunk from request `i` on, when so many calls are allowed and so many messages are gone. */
  function RunFrom(host: CompressionHost, firstCall: nat, request: seq<Message>, i: nat, allowed: nat, gone: nat): (run: ChunkRun)
    requires i < allowed <= host.HardAttempts
    ensures run.requests != [] && run.requests[0] == request
    decreases host.HardAttempts - i
  {
    var answer := host.compress(firstCall + i, request);
    var tooLong := host.TooLong(request, answer);
    var next := AllowedAfter(host, tooLong, i, allowed);
    if ResultOf(answer).Failed? && (tooLong || i < host.retry) && i + 1 < next then
      var rest := RunFrom(
        host, firstCall, host.NextRequest(request, answer), i + 1, next, GoneNext(host, gone, request, answer));
      rest.(requests := [request] + rest.requests)
    else ChunkRun([request], ResultOf(answer), gone)
  }

  /** The run for a chunk, whose first request is call `firstCall` of the compressor. */
  function RunOf(host: CompressionHost, firstCall: nat, chunk: seq<Message>): ChunkRun {
    RunFrom(host, firstCall, chunk, 0, host.Attempts(), 0)
  }

  /** Request `k + 1` follows from the unusable answer to request `k`, and is strictly shorter after a too-long one. */
  predicate Follows(host: CompressionHost, firstCall: nat, requests: seq<seq<Message>>, k: nat)
    requires k + 1 < |requests|
  {
    var answer := host.compress(firstCall + k, requests[k]);
    && ResultOf(answer).Failed?
    && requests[k + 1] == host.NextRequest(requests[k], answer)
    && (host.TooLong(requests[k], answer) ==> |requests[k + 1]| < |requests[k]|)
  }

  predicate AllFollow(host: CompressionHost, firstCall: nat, requests: seq<seq<Message>>) {
    forall k: nat :: k < |requests| - 1 ==> Follows(host, firstCall, requests, k)
  }

  function LastRequest(run: ChunkRun): seq<Message>
    requires run.requests != []
  {
    run.requests[|run.requests| - 1]
  }

  lemma RunUnfolds(host: CompressionHost, firstCall: nat, request: seq<Message>, i: nat, allowed: nat, gone: nat)
    requires i < allowed <= host.HardAttempts
    ensures var run := RunFrom(host, firstCall, request, i, allowed, gone);
            var answer := host.compress(firstCall + i, request);
            var tooLong := host.TooLong(request, answer);
            var next := AllowedAfter(host, tooLong, i, allowed);
            if ResultOf(answer).Failed? && (tooLong || i < host.retry) && i + 1 < next then
              var rest := RunFrom(
                host, firstCall, host.NextRequest(request, answer), i + 1, next, GoneNext(host, gone, request, answer));
              run == ChunkRun([request] + rest.requests, rest.result, rest.gone) && |run.requests| > 1
            else run == ChunkRun([request], ResultOf(answer), gone)
  {
    hide ResultOf, AllowedAfter, GoneNext;
  }

  lemma NextIsShorter(host: CompressionHost, request: seq<Message>, answer: CompressorAnswer)
    ensures host.TooLong(request, answer) ==> |host.NextRequest(request, answer)| < |request|
  {
    hide OldestRound;
  }

  lemma {:induction false} RunFromIs(
    host: CompressionHost, firstCall: nat, request: seq<Message>, i: nat, allowed: nat, gone: nat)
    requires i < allowed <= host.HardAttempts
    ensures var run := RunFrom(host, firstCall, request, i, allowed, gone);
            && i + |run.requests| <= host.HardAttempts
            && run.result == ResultOf(host.compress(firstCall + i + |run.requests| - 1, LastRequest(run)))
            && AllFollow(host, firstCall + i, run.requests)
    decreases host.HardAttempts - i
  {
    hide RunFrom, ResultOf, AllowedAfter, GoneNext, OldestRound, Follows;
    RunUnfolds(host, firstCall, request, i, allowed, gone);
    var run := RunFrom(host, firstCall, request, i, allowed, gone);
    if |run.requests| > 1 {
      var answer := host.compress(firstCall + i, request);
      var next := AllowedAfter(host, host.TooLong(request, answer), i, allowed);
      var request', gone' := host.NextRequest(request, answer), GoneNext(host, gone, request, answer);
      RunFromIs(host, firstCall, request', i + 1, next, gone');
      NextIsShorter(host, request, answer);
      FollowsPrepended(host, firstCall + i, request, RunFrom(host, firstCall, request', i + 1, next, gone').requests);
    }
  }

  lemma FollowsPrepended(host: CompressionHost, first: nat, request: seq<Message>, rest: seq<seq<Message>>)
    requires rest != [] && AllFollow(host, first + 1, rest)
    requires var answer := host.compress(first, request);
             ResultOf(answer).Failed? && rest[0] == host.NextRequest(request, answer)
             && (host.TooLong(request, answer) ==> |rest[0]| < |request|)
    ensures AllFollow(host, first, [request] + rest)
  {
    hide ResultOf, OldestRound;
    var all := [request] + rest;
    forall k: nat | k < |all| - 1 ensures Follows(host, first, all, k) {
      if k > 0 {
        assert Follows(host, first + 1, rest, k - 1);
      }
    }
  }

  /**
   * What every run is: it starts with the chunk, each request follows from the answer before, the calls
   * are bounded, and the last answer decides.
   */
  lemma RunIs(host: CompressionHost, firstCall: nat, chunk: seq<Message>)
    ensures var run := RunOf(host, firstCall, chunk);
            && 1 <= |run.requests| <= host.HardAttempts && run.requests[0] == chunk
            && AllFollow(host, firstCall, run.requests)
            && run.result == ResultOf(host.compress(firstCall + |run.requests| - 1, LastRequest(run)))
  {
    hide RunFrom, ResultOf, AllFollow, OldestRound;
    RunFromIs(host, firstCall, chunk, 0, host.Attempts(), 0);
  }

  // ----- the runs told by what is sent and answered -----

  /**
   * The oldest round of a request: its first message and what follows up to the first assistant turn after it, with that
   * turn and its results; but never the last message.
   */
  ghost predicate IsOldestRound(ms: seq<Message>, n: nat) {
    && 1 <= n < |ms|
    && exists a: nat :: IsFirstTurn(ms, a) && (forall k :: a < k < n ==> ms[k].role == Tool)
                        && (n == |ms| - 1 || (a < n && ms[n].role != Tool))
  }

  /** The first assistant turn behind the first message, or the end. */
  ghost predicate IsFirstTurn(ms: seq<Message>, a: nat) {
    && 1 <= a <= |ms| && (a < |ms| ==> ms[a].role == Assistant)
    && forall k :: 1 <= k < a ==> ms[k].role != Assistant
  }

  lemma OldestRoundIs(ms: seq<Message>)
    requires |ms| > 1
    ensures IsOldestRound(ms, OldestRound(ms))
  {
    hide NextAssistant;
    var n, a := OldestRound(ms), NextAssistant(ms, 1);
    assert IsFirstTurn(ms, a);
    if a < |ms| {
      var run := ToolRun(ms[a + 1..]);
      assert forall k :: a < k < a + 1 + run ==> ms[k] == ms[a + 1..][k - a - 1];
      assert a + 1 + run < |ms| ==> ms[a + 1 + run] == ms[a + 1..][run];
    }
  }

  ghost predicate IsRetryNotice(m: Message, dropped: nat) {
    && m.role == User && m.toolCalls == []
    && m.content == "[COMPRESSION_RETRY_TRUNCATED" + " dropped_messages=" + Print(dropped) + " reason=prompt_too_long]"
  }

  /** The error of an unusable answer. */
  ghost predicate IsErrorOf(answer: CompressorAnswer, error: string) {
    if answer.Answer? && answer.error.Some? then error == answer.error.value else error == "compress_empty_result"
  }

  ghost predicate IsTooLong(host: CompressionHost, request: seq<Message>, answer: CompressorAnswer) {
    |request| > 2 && exists error :: IsErrorOf(answer, error) && host.promptTooLong(error)
  }

  /** The answer is a summary: one that claims success and is not blank, taken without the blanks around it. */
  ghost predicate IsSummary(answer: CompressorAnswer, text: string) {
    answer.Answer? && answer.success && text != "" && exists i: nat :: IsTrimmed(answer.compressedContent, text, i)
  }

  /** What follows a request that was too long: a notice in place of its oldest round; otherwise the same again. */
  ghost predicate IsNext(host: CompressionHost, request: seq<Message>, answer: CompressorAnswer, next: seq<Message>) {
    if IsTooLong(host, request, answer) then
      exists n: nat, notice :: IsOldestRound(request, n) && IsRetryNotice(notice, n) && IsShortened(host, notice, request[n..], next)
    else next == request
  }

  ghost predicate IsShortened(host: CompressionHost, notice: Message, rest: seq<Message>, next: seq<Message>) {
    && |next| == |rest| + 1 && next[0] == host.normalize(notice)
    && forall i :: 0 <= i < |rest| ==> next[i + 1] == host.normalize(rest[i])
  }

  /**
   * Another request is made after the `k`-th: its answer was neither a summary nor an error thrown, and it was too long
   * with three more tries than otherwise left, or a retry is.
   */
  ghost predicate Retries(host: CompressionHost, request: seq<Message>, answer: CompressorAnswer, k: nat) {
    && answer.Answer? && (forall text :: !IsSummary(answer, text))
    && if IsTooLong(host, request, answer) then k + 1 < (if host.retry > 2 then host.retry + 4 else 6) else k < host.retry
  }

  ghost predicate IsResult(answer: CompressorAnswer, r: ChunkResult) {
    match r
    case Summary(text) => IsSummary(answer, text)
    case Thrown(message) => answer == Threw(message)
    case Failed(error) => answer.Answer? && (forall text :: !IsSummary(answer, text)) && IsErrorOf(answer, error)
  }

  /** The requests made for a chunk, and what comes of the last. */
  ghost predicate IsTold(host: CompressionHost, firstCall: nat, chunk: seq<Message>, requests: seq<seq<Message>>, r: ChunkResult) {
    && requests != [] && requests[0] == chunk && AllTold(host, firstCall, 0, requests)
    && IsResult(host.compress(firstCall + |requests| - 1, requests[|requests| - 1]), r)
  }

  /** Each of the requests, the first of them the `from`-th, is followed exactly as its answer says. */
  ghost predicate AllTold(host: CompressionHost, firstCall: nat, from: nat, requests: seq<seq<Message>>) {
    forall k: nat :: k < |requests| ==> OneTold(host, firstCall, from, requests, k)
  }

  ghost predicate OneTold(host: CompressionHost, firstCall: nat, from: nat, requests: seq<seq<Message>>, k: nat)
    requires k < |requests|
  {
    var answer := host.compress(firstCall + from + k, requests[k]);
    && (k + 1 < |requests| <==> Retries(host, requests[k], answer, from + k))
    && (k + 1 < |requests| ==> IsNext(host, requests[k], answer, requests[k + 1]))
  }

  lemma TooLongIff(host: CompressionHost, request: seq<Message>, answer: CompressorAnswer)
    ensures IsTooLong(host, request, answer) <==> host.TooLong(request, answer)
  {
    assert IsErrorOf(answer, ErrorOf(answer));
  }

  lemma ResultIs(answer: CompressorAnswer)
    ensures IsResult(answer, ResultOf(answer))
    ensures ResultOf(answer).Failed? <==> answer.Answer? && forall text :: !IsSummary(answer, text)
  {
    if answer.Answer? {
      var i := TrimIs(answer.compressedContent);
      hide Trim, IsTrimmed;
      forall text | IsSummary(answer, text) ensures text == Trim(answer.compressedContent) {
        var k: nat :| IsTrimmed(answer.compressedContent, text, k);
        TrimmedUnique(answer.compressedContent, text, k, Trim(answer.compressedContent), i);
      }
    }
  }

  lemma NextIs(host: CompressionHost, request: seq<Message>, answer: CompressorAnswer)
    ensures IsNext(host, request, answer, host.NextRequest(request, answer))
  {
    TooLongIff(host, request, answer);
    if host.TooLong(request, answer) {
      OldestRoundIs(request);
      NoticeIs(OldestRound(request));
      hide OldestRound, IsOldestRound, RetryNotice, IsRetryNotice, IsTooLong;
      var n := OldestRound(request);
      var sent := [RetryNotice(n)] + request[n..];
      assert forall i :: 0 <= i < |request[n..]| ==> sent[i + 1] == request[n..][i];
      assert IsShortened(host, RetryNotice(n), request[n..], host.BuildChunk(sent));
    }
  }

  lemma NoticeIs(dropped: nat)
    ensures IsRetryNotice(RetryNotice(dropped), dropped)
  {
  }

  lemma {:induction false} RunIsTold(
    host: CompressionHost, firstCall: nat, request: seq<Message>, i: nat, allowed: nat, gone: nat)
    requires i < allowed <= host.HardAttempts && host.Attempts() <= allowed
    ensures AllTold(host, firstCall, i, RunFrom(host, firstCall, request, i, allowed, gone).requests)
    decreases host.HardAttempts - i
  {
    hide RunFrom, ResultOf, GoneNext, OldestRound, AllTold, IsNext, IsTooLong, IsSummary, Print;
    RunUnfolds(host, firstCall, request, i, allowed, gone);
    var answer := host.compress(firstCall + i, request);
    var next := AllowedAfter(host, host.TooLong(request, answer), i, allowed);
    TooLongIff(host, request, answer);
    ResultIs(answer);
    var run := RunFrom(host, firstCall, request, i, allowed, gone);
    if |run.requests| > 1 {
      var request', gone' := host.NextRequest(request, answer), GoneNext(host, gone, request, answer);
      RunIsTold(host, firstCall, request', i + 1, next, gone');
      NextIs(host, request, answer);
      ToldPrepended(host, firstCall, i, request, RunFrom(host, firstCall, request', i + 1, next, gone').requests);
    } else {
      LastTold(host, firstCall, i, request);
    }
  }

  lemma ToldPrepended(host: CompressionHost, firstCall: nat, i: nat, request: seq<Message>, rest: seq<seq<Message>>)
    requires rest != [] && AllTold(host, firstCall, i + 1, rest)
    requires var answer := host.compress(firstCall + i, request);
             Retries(host, request, answer, i) && IsNext(host, request, answer, rest[0])
    ensures AllTold(host, firstCall, i, [request] + rest)
  {
    hide Retries, IsNext;
    var all := [request] + rest;
    forall k: nat | k < |all| ensures OneTold(host, firstCall, i, all, k) {
      if k > 0 {
        assert OneTold(host, firstCall, i + 1, rest, k - 1);
      }
    }
  }

  lemma LastTold(host: CompressionHost, firstCall: nat, i: nat, request: seq<Message>)
    requires !Retries(host, request, host.compress(firstCall + i, request), i)
    ensures AllTold(host, firstCall, i, [request])
  {
    hide Retries, IsNext;
  }

  /** The run of every chunk is told by its requests and their answers. */
  lemma RunTold(host: CompressionHost, firstCall: nat, chunk: seq<Message>)
    ensures IsTold(host, firstCall, chunk, RunOf(host, firstCall, chunk).requests, RunOf(host, firstCall, chunk).result)
  {
    hide RunFrom, ResultOf, IsResult, AllTold, AllFollow, OldestRound;
    RunIs(host, firstCall, chunk);
    RunIsTold(host, firstCall, chunk, 0, host.Attempts(), 0);
    ResultIs(host.compress(firstCall + |RunOf(host, firstCall, chunk).requests| - 1, LastRequest(RunOf(host, firstCall, chunk))));
  }

  /**
   * `sent` is the chunk itself, or a notice in front of what is left after its first `gone`
   * messages were dropped.
   */
  ghost predicate Remainder(host: CompressionHost, chunk: seq<Message>, gone: nat, sent: seq<Message>) {
    if gone == 0 then sent == chunk
    else gone < |chunk| && exists n :: sent == [host.normalize(RetryNotice(n))] + chunk[gone..]
  }

  /** The messages reported as dropped: a chunk that itself opens with the marker is short by one. */
  function Reported(chunk: seq<Message>, gone: nat): int {
    if gone > 0 && StartsWithNotice(chunk) then gone - 1 else gone
  }

  /** Dropping the oldest round of a remainder and adding a new notice gives a shorter remainder. */
  lemma RemainderShrinks(host: CompressionHost, chunk: seq<Message>, gone: nat, sent: seq<Message>)
    requires host.Valid() && host.Built(chunk) && Remainder(host, chunk, gone, sent) && |sent| > 2
    ensures var k := OldestRound(sent);
            var gone' := gone + k - (if gone > 0 then 1 else 0);
            var sent' := host.BuildChunk([RetryNotice(k)] + sent[k..]);
            && Remainder(host, chunk, gone', sent') && gone < gone' && 2 <= |sent'| < |sent|
            && Reported(chunk, gone') == Reported(chunk, gone) + k - (if StartsWithNotice(sent) then 1 else 0)
  {
    hide OldestRound;
    var k := OldestRound(sent);
    var gone' := gone + k - (if gone > 0 then 1 else 0);
    if gone > 0 {
      var n :| sent == [host.normalize(RetryNotice(n))] + chunk[gone..];
      assert StartsWithNotice(sent);
    }
    assert sent[k..] == chunk[gone'..];
    assert host.BuildChunk([RetryNotice(k)] + sent[k..]) == [host.normalize(RetryNotice(k))] + chunk[gone'..];
  }

  /** The next request after an unusable answer is what is then left of the chunk. */
  lemma RemainderSteps(host: CompressionHost, chunk: seq<Message>, gone: nat, request: seq<Message>, answer: CompressorAnswer)
    requires host.Valid() && host.Built(chunk) && Remainder(host, chunk, gone, request)
    ensures Remainder(host, chunk, GoneNext(host, gone, request, answer), host.NextRequest(request, answer))
  {
    hide Remainder;
    if host.TooLong(request, answer) {
      ShrinkSteps(host, chunk, gone, request, answer);
    } else {
      GoneStays(host, gone, request, answer);
    }
  }

  /** The last request of a run is what is left of the chunk. */
  lemma {:induction false} RunKeepsRemainder(
    host: CompressionHost, chunk: seq<Message>, firstCall: nat, request: seq<Message>, i: nat, allowed: nat, gone: nat)
    requires i < allowed <= host.HardAttempts
    requires host.Valid() && host.Built(chunk) && Remainder(host, chunk, gone, request)
    ensures var run := RunFrom(host, firstCall, request, i, allowed, gone);
            Remainder(host, chunk, run.gone, LastRequest(run))
    decreases host.HardAttempts - i
  {
    hide *;
    RunUnfolds(host, firstCall, request, i, allowed, gone);
    var run := RunFrom(host, firstCall, request, i, allowed, gone);
    var answer := host.compress(firstCall + i, request);
    if |run.requests| > 1 {
      var next := AllowedAfter(host, host.TooLong(request, answer), i, allowed);
      var request', gone' := host.NextRequest(request, answer), GoneNext(host, gone, request, answer);
      RemainderSteps(host, chunk, gone, request, answer);
      RunKeepsRemainder(host, chunk, firstCall, request', i + 1, next, gone');
      LastOfLonger(request, RunFrom(host, firstCall, request', i + 1, next, gone'), run);
    } else {
      LastOfOne(request, run);
    }
  }

  lemma LastOfLonger(request: seq<Message>, rest: ChunkRun, run: ChunkRun)
    requires rest.requests != [] && run.requests == [request] + rest.requests
    ensures LastRequest(run) == LastRequest(rest)
  {
  }

  lemma LastOfOne(request: seq<Message>, run: ChunkRun)
    requires run.requests == [request]
    ensures LastRequest(run) == request
  {
  }

  lemma RunStarts(host: CompressionHost, firstCall: nat, chunk: seq<Message>)
    requires host.Valid() && host.Built(chunk)
    ensures 3 <= host.Attempts() <= host.HardAttempts
    ensures var run := RunOf(host, firstCall, chunk);
            && EndsAs(run, RunFrom(host, firstCall, chunk, 0, host.Attempts(), 0), 0)
            && Remainder(host, chunk, 0, chunk) && Remainder(host, chunk, run.gone, LastRequest(run))
            && LastRequest(run) == run.requests[|run.requests| - 1]
  {
    RunKeepsRemainder(host, chunk, firstCall, chunk, 0, host.Attempts(), 0);
  }

  /** The rest of a run, `done` requests later. */
  predicate EndsAs(run: ChunkRun, rest: ChunkRun, done: nat) {
    && run.result == rest.result && run.gone == rest.gone && |run.requests| == done + |rest.requests|
  }

  /** One call: it ends the run, or the run goes on with the next request. */
  lemma RunSteps(
    host: CompressionHost, run: ChunkRun, firstCall: nat, request: seq<Message>, i: nat, allowed: nat, gone: nat)
    requires i < allowed <= host.HardAttempts && EndsAs(run, RunFrom(host, firstCall, request, i, allowed, gone), i)
    ensures var answer := host.compress(firstCall + i, request);
            var tooLong := host.TooLong(request, answer);
            var next := AllowedAfter(host, tooLong, i, allowed);
            if ResultOf(answer).Failed? && (tooLong || i < host.retry) && i + 1 < next then
              EndsAs(run, RunFrom(host, firstCall, host.NextRequest(request, answer), i + 1, next,
                                  GoneNext(host, gone, request, answer)), i + 1)
            else run.result == ResultOf(answer) && run.gone == gone && |run.requests| == i + 1
  {
    hide ResultOf, AllowedAfter, GoneNext;
  }

  /** What the code does after a too-long answer is what the run says. */
  lemma ShrinkSteps(host: CompressionHost, chunk: seq<Message>, gone: nat, request: seq<Message>, answer: CompressorAnswer)
    requires host.Valid() && host.Built(chunk) && Remainder(host, chunk, gone, request) && host.TooLong(request, answer)
    ensures var k := OldestRound(request);
            && host.NextRequest(request, answer) == host.BuildChunk([RetryNotice(k)] + request[k..])
            && Remainder(host, chunk, GoneNext(host, gone, request, answer), host.NextRequest(request, answer))
            && Reported(chunk, GoneNext(host, gone, request, answer))
               == Reported(chunk, gone) + k - (if StartsWithNotice(request) then 1 else 0)
  {
    hide Remainder, OldestRound, Reported, StartsWithNotice;
    RemainderShrinks(host, chunk, gone, request);
  }

  /**
   * Compresses one chunk, with just the requests and the result of its run. The last request is the
   * chunk's own remainder, and on success the dropped messages are counted without the notice.
   */
  method CompressChunk(host: CompressionHost, chunk: seq<Message>, firstCall: nat)
    returns (r: ChunkResult, ghost requests: seq<seq<Message>>, calls: nat, retries: nat, dropped: nat)
    requires host.Valid() && host.Built(chunk)
    ensures var run := RunOf(host, firstCall, chunk);
            && r == run.result && requests == run.requests && calls == |requests| && retries == calls - 1
            && Remainder(host, chunk, run.gone, requests[calls - 1])
            && (r.Summary? ==> dropped == Reported(chunk, run.gone))
    ensures 1 <= calls <= host.HardAttempts && requests[0] == chunk
    ensures AllFollow(host, firstCall, requests)
    ensures r == ResultOf(host.compress(firstCall + calls - 1, requests[calls - 1]))
    ensures IsTold(host, firstCall, chunk, requests, r)
  {
    hide *;
    RunTold(host, firstCall, chunk);
    ghost var run := RunOf(host, firstCall, chunk);
    RunStarts(host, firstCall, chunk);
    RunIs(host, firstCall, chunk);
    requests := run.requests;
    r, calls, retries, dropped := Failed(""), 0, 0, 0;
    var candidate := chunk;
    ghost var gone: nat := 0;
    var maxAttempts := host.Attempts();
    var attempt := 0;
    NothingReported(chunk);
    while attempt < maxAttempts
      invariant 0 <= attempt <= maxAttempts <= host.HardAttempts
      invariant calls == attempt && retries == (if attempt == 0 then 0 else attempt - 1)
      invariant Remainder(host, chunk, gone, candidate) && dropped == Reported(chunk, gone)
      invariant attempt < maxAttempts ==> EndsAs(run, RunFrom(host, firstCall, candidate, attempt, maxAttempts, gone), attempt)
      invariant attempt == maxAttempts ==> r == run.result && r.Failed? && calls == |run.requests|
      decreases host.HardAttempts - attempt
    {
      var answer := host.compress(firstCall + attempt, candidate);
      RunSteps(host, run, firstCall, candidate, attempt, maxAttempts, gone);
      AnswerCases(answer);
      retries := if attempt > 0 then retries + 1 else retries;
      calls := calls + 1;
      r := ResultOf(answer);
      if answer.Threw? || r.Summary? {
        return;
      }
      TooLongIs(host, candidate, answer);
      if !host.promptTooLong(ErrorOf(answer)) || |candidate| <= 2 {
        AllowedStays(host, attempt, maxAttempts);
        if attempt >= host.retry {
          return;
        }
        GoneStays(host, gone, candidate, answer);
        attempt := attempt + 1;
      } else {
        AllowedGrows(host, attempt, maxAttempts);
        ShrinkSteps(host, chunk, gone, candidate, answer);
        var rest, droppedCount := DropOldestCompressionRound(candidate);
        var droppedLeadingMarker := if StartsWithNotice(candidate) then 1 else 0;
        dropped := dropped + (droppedCount - droppedLeadingMarker);
        gone := GoneNext(host, gone, candidate, answer);
        candidate := host.BuildChunk([RetryNotice(droppedCount)] + rest);
        if attempt + 1 >= maxAttempts && maxAttempts < host.HardAttempts {
          maxAttempts := maxAttempts + 1;
        }
        attempt := attempt + 1;
      }
    }
  }

  lemma TooLongIs(host: CompressionHost, request: seq<Message>, answer: CompressorAnswer)
    ensures host.TooLong(request, answer) <==> host.promptTooLong(ErrorOf(answer)) && |request| > 2
  {
  }

  lemma AllowedStays(host: CompressionHost, i: nat, allowed: nat)
    requires allowed <= host.HardAttempts
    ensures AllowedAfter(host, false, i, allowed) == allowed
  {
  }

  lemma AllowedGrows(host: CompressionHost, i: nat, allowed: nat)
    requires allowed <= host.HardAttempts
    ensures AllowedAfter(host, true, i, allowed) == if i + 1 >= allowed && allowed < host.HardAttempts then allowed + 1 else allowed
  {
  }

  lemma GoneStays(host: CompressionHost, gone: nat, request: seq<Message>, answer: CompressorAnswer)
    requires !host.TooLong(request, answer)
    ensures GoneNext(host, gone, request, answer) == gone && host.NextRequest(request, answer) == request
  {
  }

  lemma NothingReported(chunk: seq<Message>)
    ensures Reported(chunk, 0) == 0
  {
  }

  lemma AnswerCases(answer: CompressorAnswer)
    ensures answer.Threw? <==> ResultOf(answer).Thrown?
  {
  }

  /** The chunks as they go to the compressor. */
  ghost predicate Prepared(host: CompressionHost, chunks: seq<seq<Message>>) {
    host.Valid() && forall c :: c in chunks ==> host.Built(c)
  }

  lemma PreparedAt(host: CompressionHost, chunks: seq<seq<Message>>, i: nat)
    requires Prepared(host, chunks) && i < |chunks|
    ensures host.Valid() && host.Built(chunks[i]) && Prepared(host, chunks[i + 1..])
  {
  }

  datatype ChunkFailure = ChunkFailure(chunk: nat, lastError: string)

  datatype CompressionRetryResult = CompressionRetryResult(
    ok: bool,
    summaries: seq<string>,
    retryCount: nat,
    droppedSourceMessageCount: nat,
    compressionCallCount: nat,
    failure: Option<ChunkFailure>,
    thrown: Option<string>)

  /** The runs for the chunks in order, up to the first that gives no summary. */
  function RunsOf(host: CompressionHost, firstCall: nat, chunks: seq<seq<Message>>): (runs: seq<ChunkRun>)
    ensures |runs| <= |chunks|
    ensures forall c :: 0 <= c < |runs| ==> runs[c].requests != [] && runs[c].requests[0] == chunks[c]
    decreases |chunks|
  {
    if chunks == [] then []
    else
      var run := RunOf(host, firstCall, chunks[0]);
      if !run.result.Summary? then [run] else [run] + RunsOf(host, firstCall + |run.requests|, chunks[1..])
  }

  /** Every chunk has its summary. */
  predicate AllSummarised(runs: seq<ChunkRun>, chunks: seq<seq<Message>>) {
    |runs| == |chunks| && forall c :: 0 <= c < |runs| ==> runs[c].result.Summary?
  }

  /** The summaries that were made. */
  function SummariesOf(runs: seq<ChunkRun>): seq<string> {
    if runs == [] || !runs[0].result.Summary? then [] else [runs[0].result.text] + SummariesOf(runs[1..])
  }

  function CallsOf(runs: seq<ChunkRun>): nat {
    if runs == [] then 0 else |runs[0].requests| + CallsOf(runs[1..])
  }

  /** The messages reported dropped over the chunks that gave a summary. */
  function ReportedOf(runs: seq<ChunkRun>, chunks: seq<seq<Message>>): int
    requires |runs| <= |chunks|
  {
    if runs == [] || !runs[0].result.Summary? then 0
    else Reported(chunks[0], runs[0].gone) + ReportedOf(runs[1..], chunks[1..])
  }

  /** The outcome that the runs of the chunks amount to. */
  function Outcome(host: CompressionHost, chunks: seq<seq<Message>>): CompressionRetryResult {
    RunsAre(host, 0, chunks);
    var runs := RunsOf(host, 0, chunks);
    var ok := AllSummarised(runs, chunks);
    var last := if ok then Summary("") else runs[|runs| - 1].result;
    CompressionRetryResult(
      ok,
      SummariesOf(runs),
      CallsOf(runs) - |runs|,
      ReportedOf(runs, chunks),
      CallsOf(runs),
      if last.Failed? then Some(ChunkFailure(|runs|, last.lastError)) else None,
      if last.Thrown? then Some(last.message) else None)
  }

  /** All runs but the last gave a summary, and the last did unless something was left out. */
  ghost predicate InOrder(runs: seq<ChunkRun>, chunks: seq<seq<Message>>, maxCalls: nat) {
    && |runs| <= |chunks| && |runs| <= CallsOf(runs) <= |runs| * maxCalls && ReportedOf(runs, chunks) >= 0
    && (!AllSummarised(runs, chunks) ==> runs != [] && !runs[|runs| - 1].result.Summary?)
    && |SummariesOf(runs)| == (if AllSummarised(runs, chunks) then |runs| else |runs| - 1)
    && forall c :: 0 <= c < |SummariesOf(runs)| ==> runs[c].result == Summary(SummariesOf(runs)[c]) && SummariesOf(runs)[c] != ""
  }

  lemma {:induction false} RunsAre(host: CompressionHost, firstCall: nat, chunks: seq<seq<Message>>)
    ensures InOrder(RunsOf(host, firstCall, chunks), chunks, host.HardAttempts)
    decreases |chunks|
  {
    hide *;
    if chunks == [] {
      NoRunsInOrder(host, firstCall);
    } else {
      var run, rest := RunOf(host, firstCall, chunks[0]), chunks[1..];
      RunsUnfold(host, firstCall, chunks);
      RunIs(host, firstCall, chunks[0]);
      SummaryIsText(host, firstCall, chunks[0]);
      if run.result.Summary? {
        RunsAre(host, firstCall + |run.requests|, rest);
        FirstInOrder(run, RunsOf(host, firstCall + |run.requests|, rest), chunks, host.HardAttempts);
      } else {
        LastInOrder(run, chunks, host.HardAttempts);
        assert [run] + [] == [run];
      }
    }
  }

  lemma SummaryIsText(host: CompressionHost, firstCall: nat, chunk: seq<Message>)
    ensures var run := RunOf(host, firstCall, chunk); run.result.Summary? ==> run.result.text != ""
  {
    hide RunOf;
    RunIs(host, firstCall, chunk);
  }

  lemma NoRunsInOrder(host: CompressionHost, firstCall: nat)
    ensures InOrder(RunsOf(host, firstCall, []), [], host.HardAttempts)
  {
  }

  lemma LastInOrder(run: ChunkRun, chunks: seq<seq<Message>>, maxCalls: nat)
    requires chunks != [] && !run.result.Summary? && 1 <= |run.requests| <= maxCalls
    ensures InOrder([run], chunks, maxCalls)
  {
    assert [run][1..] == [] && ![run][0].result.Summary?;
  }

  lemma FirstInOrder(run: ChunkRun, rest: seq<ChunkRun>, chunks: seq<seq<Message>>, maxCalls: nat)
    requires chunks != [] && run.result.Summary? && run.result.text != "" && 1 <= |run.requests| <= maxCalls
    requires InOrder(rest, chunks[1..], maxCalls)
    ensures InOrder([run] + rest, chunks, maxCalls)
  {
    var runs := [run] + rest;
    assert runs[1..] == rest;
    assert |runs| * maxCalls == maxCalls + |rest| * maxCalls;
    AllSummarisedStep(runs, chunks);
    assert SummariesOf(runs) == [run.result.text] + SummariesOf(rest);
    assert CallsOf(runs) == |run.requests| + CallsOf(rest);
    assert ReportedOf(runs, chunks) == Reported(chunks[0], run.gone) + ReportedOf(rest, chunks[1..]);
    hide *;
  }

  lemma AllSummarisedStep(runs: seq<ChunkRun>, chunks: seq<seq<Message>>)
    requires runs != [] && chunks != [] && runs[0].result.Summary?
    ensures AllSummarised(runs, chunks) <==> AllSummarised(runs[1..], chunks[1..])
  {
    assert forall c :: 1 <= c < |runs| ==> runs[c] == runs[1..][c - 1];
  }

  lemma RunsUnfold(host: CompressionHost, firstCall: nat, chunks: seq<seq<Message>>)
    requires chunks != []
    ensures var run := RunOf(host, firstCall, chunks[0]);
            var runs := RunsOf(host, firstCall, chunks);
            && runs == [run] + (if run.result.Summary? then RunsOf(host, firstCall + |run.requests|, chunks[1..]) else [])
            && CallsOf(runs) == |run.requests| + CallsOf(runs[1..])
            && SummariesOf(runs) == (if run.result.Summary? then [run.result.text] + SummariesOf(runs[1..]) else [])
            && ReportedOf(runs, chunks)
               == if run.result.Summary? then Reported(chunks[0], run.gone) + ReportedOf(runs[1..], chunks[1..]) else 0
  {
    hide RunOf, Reported;
  }

  /**
   * What the outcome says: success exactly when every chunk has its summary, one summary for each chunk
   * that has one, one retry for each call beyond the first of a chunk, and bounded calls.
   */
  lemma OutcomeIs(host: CompressionHost, chunks: seq<seq<Message>>)
    ensures var r, runs := Outcome(host, chunks), RunsOf(host, 0, chunks);
            && (r.ok <==> AllSummarised(runs, chunks))
            && |r.summaries| == (if r.ok then |chunks| else |runs| - 1)
            && (forall c :: 0 <= c < |r.summaries| ==> runs[c].result == Summary(r.summaries[c]) && r.summaries[c] != "")
            && r.compressionCallCount == r.retryCount + |runs|
            && |runs| <= r.compressionCallCount <= |runs| * host.HardAttempts
            && (r.failure.Some? <==> !r.ok && r.thrown == None) && (r.ok ==> r.thrown == None)
            && (r.failure.Some? ==> r.failure.value.chunk == |runs|)
  {
    RunsAre(host, 0, chunks);
    hide RunsOf, SummariesOf, CallsOf, ReportedOf;
  }

  // ----- the outcome told by the runs -----

  /** The runs of the chunks in order, each from the call at which it starts, up to the first that gives no summary. */
  ghost predicate IsChain(host: CompressionHost, chunks: seq<seq<Message>>, runs: seq<ChunkRun>, starts: seq<nat>) {
    && |runs| <= |chunks| && |starts| == |runs| + 1
    && (forall c: nat :: c < |runs| ==> IsLink(host, chunks[c], runs[c], starts[c], starts[c + 1]))
    && (forall c: nat :: c + 1 < |runs| ==> runs[c].result.Summary?)
    && (|runs| < |chunks| ==> runs != [] && !runs[|runs| - 1].result.Summary?)
  }

  ghost predicate IsLink(host: CompressionHost, chunk: seq<Message>, run: ChunkRun, start: nat, end: nat) {
    IsTold(host, start, chunk, run.requests, run.result) && end == start + |run.requests|
  }

  /** What the runs amount to. */
  ghost predicate AmountsTo(chunks: seq<seq<Message>>, runs: seq<ChunkRun>, calls: nat, r: CompressionRetryResult) {
    && (r.ok <==> |runs| == |chunks| && forall c :: 0 <= c < |runs| ==> runs[c].result.Summary?)
    && |r.summaries| == (if r.ok then |runs| else |runs| - 1)
    && (forall c :: 0 <= c < |r.summaries| ==> runs[c].result == Summary(r.summaries[c]))
    && r.compressionCallCount == calls && r.retryCount == calls - |runs|
    && (r.ok ==> r.failure == None && r.thrown == None)
    && (!r.ok ==> match runs[|runs| - 1].result
                  case Summary(_) => false
                  case Failed(error) => r.failure == Some(ChunkFailure(|runs|, error)) && r.thrown == None
                  case Thrown(message) => r.failure == None && r.thrown == Some(message))
  }

  ghost predicate IsOutcome(host: CompressionHost, chunks: seq<seq<Message>>, r: CompressionRetryResult) {
    exists runs, starts: seq<nat> ::
      IsChain(host, chunks, runs, starts) && starts[0] == 0 && AmountsTo(chunks, runs, starts[|runs|], r)
  }

  lemma {:induction false} RunsChain(host: CompressionHost, firstCall: nat, chunks: seq<seq<Message>>) returns (starts: seq<nat>)
    ensures var runs := RunsOf(host, firstCall, chunks);
            && IsChain(host, chunks, runs, starts) && |starts| == |runs| + 1 && starts[0] == firstCall
            && starts[|runs|] == firstCall + CallsOf(runs)
    decreases |chunks|
  {
    hide *;
    if chunks == [] {
      starts := [firstCall];
      NothingChained(host, firstCall);
    } else {
      var run := RunOf(host, firstCall, chunks[0]);
      var next := firstCall + |run.requests|;
      LinkIs(host, firstCall, chunks[0]);
      RunsUnfold(host, firstCall, chunks);
      var behind, rest := [next], [];
      if run.result.Summary? {
        behind := RunsChain(host, next, chunks[1..]);
        rest := RunsOf(host, next, chunks[1..]);
      }
      starts := [firstCall] + behind;
      NoCalls();
      ChainPrepended(host, chunks, run, rest, firstCall, behind);
      assert RunsOf(host, firstCall, chunks) == [run] + rest && ([run] + rest)[1..] == rest;
    }
  }

  lemma NothingChained(host: CompressionHost, firstCall: nat)
    ensures RunsOf(host, firstCall, []) == [] && CallsOf([]) == 0 && IsChain(host, [], [], [firstCall])
  {
  }

  lemma NoCalls()
    ensures CallsOf([]) == 0
  {
  }

  lemma LinkIs(host: CompressionHost, firstCall: nat, chunk: seq<Message>)
    ensures var run := RunOf(host, firstCall, chunk);
            IsLink(host, chunk, run, firstCall, firstCall + |run.requests|)
  {
    hide RunOf, IsTold;
    RunTold(host, firstCall, chunk);
  }

  lemma ChainPrepended(
    host: CompressionHost, chunks: seq<seq<Message>>, run: ChunkRun, rest: seq<ChunkRun>, firstCall: nat, behind: seq<nat>)
    requires chunks != [] && behind != [] && IsLink(host, chunks[0], run, firstCall, behind[0])
    requires if run.result.Summary? then IsChain(host, chunks[1..], rest, behind) else rest == [] && |behind| == 1
    ensures IsChain(host, chunks, [run] + rest, [firstCall] + behind)
  {
    hide IsLink;
    var runs, starts := [run] + rest, [firstCall] + behind;
    forall c: nat | c < |runs| ensures IsLink(host, chunks[c], runs[c], starts[c], starts[c + 1]) {
      if c > 0 {
        assert IsLink(host, chunks[1..][c - 1], rest[c - 1], behind[c - 1], behind[c]);
      }
    }
    forall c: nat | c + 1 < |runs| ensures runs[c].result.Summary? {
      if c > 0 {
        assert rest[c - 1].result.Summary?;
      }
    }
  }

  /** The outcome is the one that the requests, their answers and nothing else amount to. */
  lemma OutcomeTold(host: CompressionHost, chunks: seq<seq<Message>>)
    ensures IsOutcome(host, chunks, Outcome(host, chunks))
  {
    var starts := RunsChain(host, 0, chunks);
    OutcomeIs(host, chunks);
    RunsAre(host, 0, chunks);
    hide RunsOf, SummariesOf, CallsOf, ReportedOf, IsChain;
    var runs := RunsOf(host, 0, chunks);
    assert AmountsTo(chunks, runs, starts[|runs|], Outcome(host, chunks));
  }

  /** Between two chunks: the runs so far all gave summaries, and the rest is still to come. */
  ghost predicate Compressed(
    host: CompressionHost, chunks: seq<seq<Message>>, i: nat, summaries: seq<string>, retryCount: int, dropped: int, calls: nat)
    requires i <= |chunks|
  {
    var all, rest := RunsOf(host, 0, chunks), RunsOf(host, calls, chunks[i..]);
    && |all| == i + |rest| && all[i..] == rest
    && (forall c :: 0 <= c < i ==> all[c].result.Summary?)
    && SummariesOf(all) == summaries + SummariesOf(rest) && |summaries| == i
    && CallsOf(all) == calls + CallsOf(rest) && retryCount == calls - i
    && ReportedOf(all, chunks) == dropped + ReportedOf(rest, chunks[i..])
  }

  lemma CompressedStarts(host: CompressionHost, chunks: seq<seq<Message>>)
    ensures Compressed(host, chunks, 0, [], 0, 0, 0)
  {
    hide RunsOf, SummariesOf, CallsOf, ReportedOf;
    assert chunks[0..] == chunks && RunsOf(host, 0, chunks)[0..] == RunsOf(host, 0, chunks);
  }

  /** What `CompressChunk` gives for a chunk. */
  ghost predicate Ran(host: CompressionHost, firstCall: nat, chunk: seq<Message>, r: ChunkResult, calls: nat, dropped: int) {
    var run := RunOf(host, firstCall, chunk);
    r == run.result && calls == |run.requests| && (r.Summary? ==> dropped == Reported(chunk, run.gone))
  }

  lemma CompressedGoesOn(
    host: CompressionHost, chunks: seq<seq<Message>>, i: nat, summaries: seq<string>, retryCount: int, dropped: int, calls: nat,
    r: ChunkResult, chunkCalls: nat, chunkDropped: nat)
    requires i < |chunks| && Compressed(host, chunks, i, summaries, retryCount, dropped, calls)
    requires Ran(host, calls, chunks[i], r, chunkCalls, chunkDropped) && r.Summary?
    ensures Compressed(host, chunks, i + 1, summaries + [r.text], retryCount + (chunkCalls - 1),
                       dropped + chunkDropped, calls + chunkCalls)
  {
    hide RunsOf, SummariesOf, CallsOf, ReportedOf, RunOf, Reported;
    RunsUnfold(host, calls, chunks[i..]);
    var all, rest := RunsOf(host, 0, chunks), RunsOf(host, calls, chunks[i..]);
    assert chunks[i..][1..] == chunks[i + 1..];
    assert all[i] == rest[0] && all[i + 1..] == rest[1..];
    assert summaries + ([r.text] + SummariesOf(rest[1..])) == summaries + [r.text] + SummariesOf(rest[1..]);
  }

  lemma CompressedStops(
    host: CompressionHost, chunks: seq<seq<Message>>, i: nat, summaries: seq<string>, retryCount: nat, dropped: nat, calls: nat,
    r: ChunkResult, chunkCalls: nat, chunkDropped: nat)
    requires i < |chunks| && Compressed(host, chunks, i, summaries, retryCount, dropped, calls)
    requires Ran(host, calls, chunks[i], r, chunkCalls, chunkDropped) && !r.Summary? && chunkCalls > 0
    ensures Outcome(host, chunks) == Stopped(i, summaries, retryCount + (chunkCalls - 1), dropped, calls + chunkCalls, r)
  {
    hide RunsOf, SummariesOf, CallsOf, ReportedOf, RunOf, Reported;
    RunsUnfold(host, calls, chunks[i..]);
    NoRuns();
    var all, rest := RunsOf(host, 0, chunks), RunsOf(host, calls, chunks[i..]);
    assert all[i] == rest[0] && rest[1..] == [] && summaries + [] == summaries;
    assert |all| == i + 1 && !all[i].result.Summary?;
    assert !AllSummarised(all, chunks);
  }

  /** The outcome when chunk `i` gives no summary. */
  function Stopped(i: nat, summaries: seq<string>, retryCount: nat, dropped: nat, calls: nat, r: ChunkResult): CompressionRetryResult
    requires !r.Summary?
  {
    CompressionRetryResult(
      false, summaries, retryCount, dropped, calls,
      if r.Failed? then Some(ChunkFailure(i + 1, r.lastError)) else None,
      if r.Thrown? then Some(r.message) else None)
  }

  lemma NoRuns()
    ensures CallsOf([]) == 0 && SummariesOf([]) == []
  {
  }

  /** Chunk `i`, compressed with its run. */
  method CompressNth(host: CompressionHost, chunks: seq<seq<Message>>, i: nat, firstCall: nat)
    returns (r: ChunkResult, calls: nat, retries: nat, dropped: nat)
    requires Prepared(host, chunks) && i < |chunks|
    ensures Ran(host, firstCall, chunks[i], r, calls, dropped) && calls > 0 && retries == calls - 1
  {
    PreparedAt(host, chunks, i);
    hide RunOf, Reported, Remainder, AllFollow, ResultOf;
    ghost var requests;
    r, requests, calls, retries, dropped := CompressChunk(host, chunks[i], firstCall);
  }

  /**
   * Compresses the chunks in order and stops at the first that gives no summary: the outcome is the
   * one that their runs amount to.
   */
  method CompressChunksWithRetry(host: CompressionHost, chunks: seq<seq<Message>>) returns (r: CompressionRetryResult)
    requires Prepared(host, chunks)
    ensures r == Outcome(host, chunks)
    ensures IsOutcome(host, chunks, r)
  {
    hide *;
    OutcomeTold(host, chunks);
    CompressedStarts(host, chunks);
    var summaries: seq<string> := [];
    var retryCount, dropped, calls: nat := 0, 0, 0;
    for i := 0 to |chunks|
      invariant Compressed(host, chunks, i, summaries, retryCount, dropped, calls)
    {
      var result, chunkCalls, retries, droppedForChunk := CompressNth(host, chunks, i, calls);
      if !result.Summary? {
        CompressedStops(host, chunks, i, summaries, retryCount, dropped, calls, result, chunkCalls, droppedForChunk);
        return Stopped(i, summaries, retryCount + retries, dropped, calls + chunkCalls, result);
      }
      CompressedGoesOn(host, chunks, i, summaries, retryCount, dropped, calls, result, chunkCalls, droppedForChunk);
      summaries := summaries + [result.text];
      dropped := dropped + droppedForChunk;
      calls, retryCount := calls + chunkCalls, retryCount + retries;
    }
    CompressedEnds(host, chunks, summaries, retryCount, dropped, calls);
    r := CompressionRetryResult(true, summaries, retryCount, dropped, calls, None, None);
  }

  lemma CompressedEnds(
    host: CompressionHost, chunks: seq<seq<Message>>, summaries: seq<string>, retryCount: int, dropped: int, calls: nat)
    requires Compressed(host, chunks, |chunks|, summaries, retryCount, dropped, calls)
    ensures var runs := RunsOf(host, 0, chunks);
            && AllSummarised(runs, chunks) && retryCount == CallsOf(runs) - |runs| >= 0 && dropped == ReportedOf(runs, chunks) >= 0
            && Outcome(host, chunks) == CompressionRetryResult(true, summaries, retryCount, dropped, calls, None, None)
  {
    RunsAre(host, 0, chunks);
    assert chunks[|chunks|..] == [];
    assert RunsOf(host, calls, []) == [];
    assert summaries + [] == summaries;
  }

  // ----- conservation of the source messages -----

  function TotalLength(chunks: seq<seq<Message>>): nat {
    if chunks == [] then 0 else |chunks[0]| + TotalLength(chunks[1..])
  }

  /** The messages of the last requests, notices left out. */
  function SurvivingOf(runs: seq<ChunkRun>): int
    requires forall run :: run in runs ==> run.requests != []
  {
    if runs == [] then 0 else |LastRequest(runs[0])| - (if runs[0].gone > 0 then 1 else 0) + SurvivingOf(runs[1..])
  }

  /** The chunks whose own first message opens with the retry marker and which lost messages. */
  function MiscountedOf(runs: seq<ChunkRun>, chunks: seq<seq<Message>>): nat
    requires |runs| <= |chunks|
  {
    if runs == [] then 0
    else (if runs[0].gone > 0 && StartsWithNotice(chunks[0]) then 1 else 0) + MiscountedOf(runs[1..], chunks[1..])
  }

  /**
   * Dropped and surviving source messages add up to the original ones, short by one for each
   * chunk that already opened with the marker and lost messages; so the report is exact exactly
   * when there is no such chunk.
   */
  lemma {:induction false} SourceConserved(host: CompressionHost, firstCall: nat, chunks: seq<seq<Message>>)
    requires Prepared(host, chunks)
    requires AllSummarised(RunsOf(host, firstCall, chunks), chunks)
    ensures var runs := RunsOf(host, firstCall, chunks);
            ReportedOf(runs, chunks) + SurvivingOf(runs) + MiscountedOf(runs, chunks) == TotalLength(chunks)
    decreases |chunks|
  {
    if chunks != [] {
      hide *;
      var run, runs := RunOf(host, firstCall, chunks[0]), RunsOf(host, firstCall, chunks);
      RunsUnfold(host, firstCall, chunks);
      assert runs[0] == run && runs[1..] == if run.result.Summary? then RunsOf(host, firstCall + |run.requests|, chunks[1..]) else [];
      PreparedAt(host, chunks, 0);
      AllSummarisedStepBack(runs, chunks);
      SourceConserved(host, firstCall + |run.requests|, chunks[1..]);
      ChunkConserved(host, firstCall, chunks[0]);
      SumsUnfold(runs, chunks);
    }
  }

  /** Of one chunk: reported, surviving and miscounted messages are all there were. */
  lemma ChunkConserved(host: CompressionHost, firstCall: nat, chunk: seq<Message>)
    requires host.Valid() && host.Built(chunk)
    ensures var run := RunOf(host, firstCall, chunk);
            Reported(chunk, run.gone) + |LastRequest(run)| - (if run.gone > 0 then 1 else 0)
            + (if run.gone > 0 && StartsWithNotice(chunk) then 1 else 0) == |chunk|
  {
    hide RunOf, StartsWithNotice;
    RunStarts(host, firstCall, chunk);
  }

  lemma SumsUnfold(runs: seq<ChunkRun>, chunks: seq<seq<Message>>)
    requires runs != [] && |runs| <= |chunks| && forall run :: run in runs ==> run.requests != []
    ensures SurvivingOf(runs) == |LastRequest(runs[0])| - (if runs[0].gone > 0 then 1 else 0) + SurvivingOf(runs[1..])
    ensures MiscountedOf(runs, chunks)
            == (if runs[0].gone > 0 && StartsWithNotice(chunks[0]) then 1 else 0) + MiscountedOf(runs[1..], chunks[1..])
    ensures TotalLength(chunks) == |chunks[0]| + TotalLength(chunks[1..])
  {
  }

  lemma AllSummarisedStepBack(runs: seq<ChunkRun>, chunks: seq<seq<Message>>)
    requires runs != [] && chunks != [] && AllSummarised(runs, chunks)
    ensures runs[0].result.Summary? && AllSummarised(runs[1..], chunks[1..])
  {
  }

  /** A compressor to which the first request is too long and the second is not. */
  function SecondTimeLucky(): CompressionHost {
    CompressionHost(
      0, error => true, m => m,
      (call, request) => if call == 0 then Answer(false, "", None) else Answer(true, "s", None))
  }

  /** A round whose first message quotes the marker: two of its messages are dropped, one is reported. */
  lemma MarkerInSourceMiscounts()
    ensures var host, chunk := SecondTimeLucky(), [RetryNotice(0), Plain(Assistant, "a"), Plain(User, "b")];
            var run := RunOf(host, 0, chunk);
            && host.Valid() && host.Built(chunk)
            && run.result == Summary("s") && LastRequest(run) == [RetryNotice(2), Plain(User, "b")]
            && Reported(chunk, run.gone) == 1
  {
    var host, chunk := SecondTimeLucky(), [RetryNotice(0), Plain(Assistant, "a"), Plain(User, "b")];
    forall n ensures StartsWith(host.normalize(RetryNotice(n)).content, RETRY_MARKER) {
      NoticeStarts(n);
    }
    TrimmedIff("s");
    var first, second := host.compress(0, chunk), host.compress(1, [RetryNotice(2), Plain(User, "b")]);
    assert chunk[2..] == [Plain(User, "b")] && ToolRun(chunk[2..]) == 0;
    assert NextAssistant(chunk, 1) == 1 && OldestRound(chunk) == 2;
    assert host.NextRequest(chunk, first) == [RetryNotice(2), Plain(User, "b")];
    RunUnfolds(host, 0, [RetryNotice(2), Plain(User, "b")], 1, 3, 2);
    RunUnfolds(host, 0, chunk, 0, 3, 0);
    NoticeStarts(0);
  }
}
