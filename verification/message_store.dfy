/**
 * The store of a session's messages with its checkpoint numbering and the one summary that
 * may wait to be applied (src/agent/MessageStore.ts).
 */
module Store {
  import opened Messages
  import opened Numbers
  import opened Text
  import opened ToolProtocol
  import opened WindowTrim

  // ----- checkpoint ids -----

  const CHECKPOINT_PREFIX := "ckpt-"

  function CheckpointId(n: nat): string {
    CHECKPOINT_PREFIX + Print(n)
  }

  /** The number of an id of the form `ckpt-N`, with any digits for N. */
  function CheckpointNumber(id: string): Option<nat> {
    if StartsWith(id, CHECKPOINT_PREFIX) && IsDecimal(id[5..]) then Some(Read(id[5..])) else None
  }

  lemma CheckpointRoundTrip(n: nat)
    ensures CheckpointNumber(CheckpointId(n)) == Some(n)
  {
    PrintRead(n);
    assert CheckpointId(n)[..5] == CHECKPOINT_PREFIX;
    assert CheckpointId(n)[5..] == Print(n);
  }

  predicate Numbered(m: Message, n: nat) {
    m.checkpointId.Some? && CheckpointNumber(m.checkpointId.value) == Some(n)
  }

  /** No message carries a checkpoint number beyond `counter`. */
  ghost predicate Covers(counter: nat, ms: seq<Message>) {
    forall i, n: nat :: 0 <= i < |ms| && Numbered(ms[i], n) ==> n <= counter
  }

  predicate Fresh(id: string, ms: seq<Message>) {
    forall i :: 0 <= i < |ms| ==> ms[i].checkpointId != Some(id)
  }

  /** As long as the counter covers the messages, the next id is a new one. */
  lemma NextIsFresh(counter: nat, ms: seq<Message>)
    requires Covers(counter, ms)
    ensures Fresh(CheckpointId(counter + 1), ms)
  {
    CheckpointRoundTrip(counter + 1);
    forall i | 0 <= i < |ms| ensures ms[i].checkpointId != Some(CheckpointId(counter + 1)) {
      if ms[i].checkpointId == Some(CheckpointId(counter + 1)) {
        assert Numbered(ms[i], counter + 1);
      }
    }
  }

  lemma CoversExtended(counter: nat, ms: seq<Message>, m: Message)
    requires Covers(counter, ms) && m.checkpointId == Some(CheckpointId(counter + 1))
    ensures Covers(counter + 1, ms + [m])
  {
    CheckpointRoundTrip(counter + 1);
  }

  /** None of the first `n` ids is on a message. */
  predicate FirstIdsFree(n: nat, ms: seq<Message>) {
    forall j :: 1 <= j <= n ==> Fresh(CheckpointId(j), ms)
  }

  lemma IdsDistinct(m: nat, n: nat)
    requires CheckpointId(m) == CheckpointId(n)
    ensures m == n
  {
    CheckpointRoundTrip(m);
    CheckpointRoundTrip(n);
  }

  /** Sanitising invents no checkpoint, so a covering counter still covers. */
  lemma {:induction false} SanitizedCovered(counter: nat, ms: seq<Message>)
    requires Covers(counter, ms)
    ensures Covers(counter, Sanitized(ms).messages)
    decreases |ms|
  {
    if ms != [] {
      var n := Taken(ms);
      FrontCovered(counter, ms);
      SanitizedCovered(counter, ms[n..]);
      assert Sanitized(ms).messages == SanitizedFront(ms).messages + Sanitized(ms[n..]).messages;
    }
  }

  lemma FrontCovered(counter: nat, ms: seq<Message>)
    requires ms != [] && Covers(counter, ms)
    ensures Covers(counter, SanitizedFront(ms).messages) && Covers(counter, ms[Taken(ms)..])
  {
    hide Numbered;
    var front := SanitizedFront(ms).messages;
    forall i, n: nat | 0 <= i < |front| && Numbered(front[i], n) ensures n <= counter {
      if ClosedBundle(ms) && i > 0 {
        assert front[i] == BundleResults(ms)[i - 1];
        assert front[i] in ms[1..Taken(ms)];
        var j :| 0 <= j < |ms| && ms[j] == front[i];
      } else if ClosedBundle(ms) || (!Calling(ms[0]) && ms[0].role != Tool) {
        assert front[i] == ms[0];
      } else {
        NumberedByCheckpoint(front[i], ms[0], n);
      }
    }
  }

  lemma NumberedByCheckpoint(m: Message, original: Message, n: nat)
    requires Numbered(m, n)
    ensures m.checkpointId != None
    ensures m.checkpointId == original.checkpointId ==> Numbered(original, n)
  {
  }

  // ----- listing checkpoints -----

  predicate Truthy(s: Option<string>) {
    s.Some? && s.value != ""
  }

  predicate IsCheckpoint(m: Message) {
    Truthy(m.checkpointId) && Truthy(m.checkpointReason)
  }

  /** The positions of the latest `limit` checkpoints of `ms`, latest first. */
  function LatestCheckpoints(ms: seq<Message>, limit: nat): (at: seq<nat>)
    ensures |at| <= limit
    ensures forall k :: 0 <= k < |at| ==> at[k] < |ms| && IsCheckpoint(ms[at[k]])
  {
    if ms == [] || limit == 0 then []
    else
      var n := |ms| - 1;
      if IsCheckpoint(ms[n]) then [n] + LatestCheckpoints(ms[..n], limit - 1)
      else LatestCheckpoints(ms[..n], limit)
  }

  /** A checkpoint is missing from the list only if `limit` later ones exist. */
  lemma {:induction false} LatestCheckpointsComplete(ms: seq<Message>, limit: nat, i: nat)
    requires i < |ms| && IsCheckpoint(ms[i])
    ensures i in LatestCheckpoints(ms, limit)
            || (|LatestCheckpoints(ms, limit)| == limit && forall k :: k in LatestCheckpoints(ms, limit) ==> k > i)
  {
    var n := |ms| - 1;
    if limit > 0 && i < n {
      LatestCheckpointsComplete(ms[..n], if IsCheckpoint(ms[n]) then limit - 1 else limit, i);
    }
  }

  /** The message carries an id and a reason, none of them empty. */
  ghost predicate Marked(m: Message) {
    m.checkpointId.Some? && |m.checkpointId.value| > 0 && m.checkpointReason.Some? && |m.checkpointReason.value| > 0
  }

  /** At most so many marked messages, latest first; one that is missing lies before that many others. */
  ghost predicate ListsLatest(ms: seq<Message>, at: seq<nat>, most: nat) {
    && |at| <= most
    && (forall k :: 0 <= k < |at| ==> at[k] < |ms| && Marked(ms[at[k]]))
    && Falling(at)
    && forall i: nat :: i < |ms| && Marked(ms[i]) && i !in at ==> |at| == most && forall k :: 0 <= k < |at| ==> at[k] > i
  }

  ghost predicate CarriedAt(ms: seq<Message>, at: seq<nat>, id: string) {
    exists j :: 0 <= j < |at| && at[j] < |ms| && ms[at[j]].checkpointId == Some(id)
  }

  lemma {:induction false} LatestFall(ms: seq<Message>, limit: nat)
    ensures Falling(LatestCheckpoints(ms, limit))
  {
    if ms != [] && limit > 0 {
      var n := |ms| - 1;
      if IsCheckpoint(ms[n]) {
        LatestFall(ms[..n], limit - 1);
        FallsFrom(n, LatestCheckpoints(ms[..n], limit - 1));
      } else {
        LatestFall(ms[..n], limit);
      }
    }
  }

  ghost predicate Falling(at: seq<nat>) {
    forall j, k :: 0 <= j < k < |at| ==> at[j] > at[k]
  }

  lemma FallsFrom(n: nat, at: seq<nat>)
    requires Falling(at) && forall k :: 0 <= k < |at| ==> at[k] < n
    ensures Falling([n] + at)
  {
    var all := [n] + at;
    assert forall k :: 0 < k < |all| ==> all[k] == at[k - 1];
  }

  lemma LatestListed(ms: seq<Message>, limit: nat)
    ensures ListsLatest(ms, LatestCheckpoints(ms, limit), limit)
  {
    LatestFall(ms, limit);
    var at := LatestCheckpoints(ms, limit);
    forall m: Message ensures Marked(m) <==> IsCheckpoint(m) {
    }
    hide Marked, IsCheckpoint, LatestCheckpoints;
    forall i: nat | i < |ms| && Marked(ms[i]) && i !in at ensures |at| == limit && forall k :: 0 <= k < |at| ==> at[k] > i {
      LatestCheckpointsComplete(ms, limit, i);
    }
  }

  /** The id belongs to one of the latest listed checkpoints. */
  ghost predicate AmongLatest(ms: seq<Message>, id: string) {
    var at := LatestCheckpoints(ms, CHECKPOINT_LIST_LIMIT);
    exists j :: 0 <= j < |at| && ms[at[j]].checkpointId == Some(id)
  }

  datatype SummaryRequest = SummaryRequest(checkpointId: string, summary: string, keepRecentMessages: int)

  const KEEP_RECENT_LIMIT := 20
  const CHECKPOINT_LIST_LIMIT := 200

  function KeepRecent(request: SummaryRequest): nat {
    Max(0, Min(KEEP_RECENT_LIMIT, request.keepRecentMessages))
  }

  /** The messages up to the checkpoint, then at most `keep` of the latest later ones. */
  function Summarised(ms: seq<Message>, checkpoint: nat, keep: nat): seq<Message>
    requires checkpoint < |ms|
  {
    ms[..checkpoint + 1] + ms[Max(checkpoint + 1, |ms| - keep)..]
  }

  /** The last message with the given id, or -1. */
  function LastWithCheckpoint(ms: seq<Message>, id: string): (r: int)
    ensures r < 0 ==> r == -1 && Fresh(id, ms)
    ensures 0 <= r ==> r < |ms| && ms[r].checkpointId == Some(id)
                       && forall i :: r < i < |ms| ==> ms[i].checkpointId != Some(id)
  {
    if ms == [] then -1
    else if ms[|ms| - 1].checkpointId == Some(id) then |ms| - 1
    else LastWithCheckpoint(ms[..|ms| - 1], id)
  }

  /** From message `i` on no assistant turn calls with the id. */
  predicate NoCallAfter(ms: seq<Message>, id: string, i: nat) {
    forall j, k :: i <= j < |ms| && ms[j].role == Assistant && 0 <= k < |ms[j].toolCalls| ==> ms[j].toolCalls[k].id != id
  }

  /** Call `k` of message `i` is the first with the id in the last assistant turn that has one. */
  predicate IsLatestCall(ms: seq<Message>, id: string, i: nat, k: nat) {
    && i < |ms| && ms[i].role == Assistant && k < |ms[i].toolCalls| && ms[i].toolCalls[k].id == id
    && (forall j :: 0 <= j < k ==> ms[i].toolCalls[j].id != id)
    && NoCallAfter(ms, id, i + 1)
  }

  /** What a store holds. */
  datatype Stored = Stored(messages: seq<Message>, checkpointCounter: nat, pending: Option<SummaryRequest>)

  function UserMessage(content: string, n: nat): Message {
    Plain(User, content).(checkpointId := Some(CheckpointId(n)), checkpointReason := Some("user_prompt"))
  }

  function UserAdded(h: Stored, content: string): Stored {
    var n := h.checkpointCounter + 1;
    h.(messages := h.messages + [UserMessage(content, n)], checkpointCounter := n)
  }

  /** A waiting summary request carried out. */
  function SummaryApplied(h: Stored): Stored {
    if h.pending == None || LastWithCheckpoint(h.messages, h.pending.value.checkpointId) < 0 then h.(pending := None)
    else
      var request, n := h.pending.value, h.checkpointCounter + 1;
      var checkpoint := LastWithCheckpoint(h.messages, request.checkpointId);
      var next := Summarised(h.messages, checkpoint, KeepRecent(request)) + [SummaryAnchor(request, CheckpointId(n))];
      Stored(Sanitized(next).messages, n, None)
  }

  /** An anchor carries the summary and the checkpoint that it was made for, under an id of its own. */
  ghost predicate IsAnchor(m: Message, request: SummaryRequest, counter: nat) {
    && m.role == Assistant && m.toolCalls == []
    && Holds(m.content, "checkpoint_id=" + request.checkpointId) && Holds(m.content, request.summary)
    && m.checkpointId == Some(CheckpointId(counter)) && m.checkpointReason == Some("summary_anchor")
  }

  /** As many of the `after` later messages stay as asked for, but no more than twenty. */
  ghost predicate StaysLater(later: nat, after: nat, asked: int) {
    && later <= after && later <= 20 && (later > 0 ==> later <= asked)
    && (later == after || later == 20 || later >= asked)
  }

  /**
   * Without a request nothing changes, and with one it is gone. If a message carries its checkpoint, the last such one
   * and all before it stay, then the latest later ones and the anchor, sanitised.
   */
  ghost predicate SummaryLeaves(h: Stored, h': Stored) {
    if h.pending.None? || h.messages == [] || CarriedByNone(h.messages, h.pending.value.checkpointId) then
      h' == Stored(h.messages, h.checkpointCounter, None)
    else exists at: nat, later: nat, anchor: Message :: CutAt(h, h', at, later, anchor)
  }

  ghost predicate CarriedByNone(ms: seq<Message>, id: string) {
    forall i :: 0 <= i < |ms| ==> ms[i].checkpointId != Some(id)
  }

  ghost predicate CutAt(h: Stored, h': Stored, at: nat, later: nat, anchor: Message)
    requires h.pending.Some?
  {
    var request, ms := h.pending.value, h.messages;
    && at < |ms| && ms[at].checkpointId == Some(request.checkpointId) && CarriedByNone(ms[at + 1..], request.checkpointId)
    && StaysLater(later, |ms| - at - 1, request.keepRecentMessages) && IsAnchor(anchor, request, h.checkpointCounter + 1)
    && h'.messages == Sanitized(ms[..at + 1] + ms[|ms| - later..] + [anchor]).messages
    && h'.checkpointCounter == h.checkpointCounter + 1 && h'.pending == None
  }

  lemma AnchorIs(request: SummaryRequest, counter: nat)
    ensures IsAnchor(SummaryAnchor(request, CheckpointId(counter)), request, counter)
  {
    SummaryHolds(request);
    hide Holds, CheckpointId;
  }

  lemma SummaryHolds(request: SummaryRequest)
    ensures Holds(SummaryMessage(request).content, "checkpoint_id=" + request.checkpointId)
    ensures Holds(SummaryMessage(request).content, request.summary)
  {
    var said := "checkpoint_id=" + request.checkpointId;
    SummaryIs(request, said);
    hide *;
    HoldsBetween("[SUMMARY_MESSAGES_APPLIED ", said, "]\n" + request.summary);
    HoldsBetween("[SUMMARY_MESSAGES_APPLIED " + said + "]\n", request.summary, "");
  }

  lemma SummaryIs(request: SummaryRequest, said: string)
    requires said == "checkpoint_id=" + request.checkpointId
    ensures var content := SummaryMessage(request).content;
            && content == "[SUMMARY_MESSAGES_APPLIED " + said + ("]\n" + request.summary)
            && content == "[SUMMARY_MESSAGES_APPLIED " + said + "]\n" + request.summary + ""
  {
  }

  lemma AppliedLeaves(h: Stored)
    ensures SummaryLeaves(h, SummaryApplied(h))
  {
    hide Sanitized, IsAnchor, SummaryAnchor, CheckpointId;
    if h.pending.Some? && LastWithCheckpoint(h.messages, h.pending.value.checkpointId) >= 0 {
      var request, ms := h.pending.value, h.messages;
      var at := LastWithCheckpoint(ms, request.checkpointId);
      var n := h.checkpointCounter + 1;
      var anchor := SummaryAnchor(request, CheckpointId(n));
      AnchorIs(request, n);
      var later := Min(|ms| - at - 1, KeepRecent(request));
      assert Summarised(ms, at, KeepRecent(request)) == ms[..at + 1] + ms[|ms| - later..];
      assert ms[at].checkpointId == Some(request.checkpointId);
      assert CutAt(h, SummaryApplied(h), at, later, anchor);
    }
  }

  class MessageStore {
    var messages: seq<Message>
    var checkpointCounter: nat
    var pendingSummaryApplyRequest: Option<SummaryRequest>

    /** Every id the messages carry was minted by this counter's past or read by a sync. */
    ghost predicate Covered()
      reads this
    {
      Covers(checkpointCounter, messages)
    }

    function State(): Stored
      reads this
    {
      Stored(messages, checkpointCounter, pendingSummaryApplyRequest)
    }

    constructor ()
      ensures messages == [] && checkpointCounter == 0 && pendingSummaryApplyRequest == None
      ensures Covered()
    {
      messages, checkpointCounter, pendingSummaryApplyRequest := [], 0, None;
    }

    method ResetRunState()
      modifies this
      ensures messages == old(messages) && checkpointCounter == 0 && pendingSummaryApplyRequest == None
    {
      pendingSummaryApplyRequest, checkpointCounter := None, 0;
    }

    method WithCheckpointMetadata(message: Message, reason: string) returns (r: Message)
      modifies `checkpointCounter
      ensures checkpointCounter == old(checkpointCounter) + 1
      ensures r == message.(checkpointId := Some(CheckpointId(checkpointCounter)), checkpointReason := Some(reason))
      ensures old(Covered()) ==> Fresh(CheckpointId(checkpointCounter), messages) && Covers(checkpointCounter, messages + [r])
    {
      if Covered() {
        NextIsFresh(checkpointCounter, messages);
      }
      checkpointCounter := checkpointCounter + 1;
      r := message.(checkpointId := Some(CheckpointId(checkpointCounter)), checkpointReason := Some(reason));
      if old(Covered()) {
        CoversExtended(checkpointCounter - 1, messages, r);
      }
    }

    method AddUserMessage(content: string)
      modifies `messages, `checkpointCounter
      ensures checkpointCounter == old(checkpointCounter) + 1
      ensures messages == old(messages) + [Plain(User, content).(
                                             checkpointId := Some(CheckpointId(checkpointCounter)),
                                             checkpointReason := Some("user_prompt"))]
      ensures old(Covered()) ==> Covered() && Fresh(CheckpointId(checkpointCounter), old(messages))
    {
      var message := WithCheckpointMetadata(Plain(User, content), "user_prompt");
      messages := messages + [message];
    }

    /** Replacing the history keeps a system prompt that the new one lacks, and recovers the numbering. */
    method SetMessages(incoming: seq<Message>)
      modifies this
      ensures messages == (if HasSystem(old(messages)) && !HasSystem(incoming) then [old(messages)[0]] else []) + incoming
      ensures pendingSummaryApplyRequest == None && checkpointCounter == MaxNumber(messages)
      ensures Covered()
    {
      messages := if HasSystem(messages) && !HasSystem(incoming) then [messages[0]] + incoming else incoming;
      pendingSummaryApplyRequest := None;
      SyncCheckpointCounterFromMessages();
    }

    /** The counter becomes the least one that covers the messages. */
    method SyncCheckpointCounterFromMessages()
      modifies `checkpointCounter
      ensures checkpointCounter == MaxNumber(messages)
      ensures Covered()
      ensures checkpointCounter > 0 ==> exists i :: 0 <= i < |messages| && Numbered(messages[i], checkpointCounter)
    {
      var maxFound := 0;
      for i := 0 to |messages|
        invariant maxFound == MaxNumber(messages[..i])
      {
        assert messages[..i + 1][..i] == messages[..i];
        var checkpointId := messages[i].checkpointId;
        if Truthy(checkpointId) {
          var parsed := CheckpointNumber(checkpointId.value);
          if parsed.Some? && parsed.value > maxFound {
            maxFound := parsed.value;
          }
        }
      }
      assert messages[..|messages|] == messages;
      checkpointCounter := maxFound;
    }

    method ListSummaryCheckpoints(limit: int) returns (checkpoints: seq<nat>)
      ensures checkpoints == LatestCheckpoints(messages, Max(1, Min(CHECKPOINT_LIST_LIMIT, limit)))
      ensures ListsLatest(messages, checkpoints, if limit < 1 then 1 else if limit > 200 then 200 else limit)
    {
      hide IsCheckpoint, ListsLatest, Falling, Marked;
      var normalizedLimit := Max(1, Min(CHECKPOINT_LIST_LIMIT, limit));
      checkpoints := [];
      var i := |messages|;
      assert messages[..i] == messages;
      while i > 0 && |checkpoints| < normalizedLimit
        invariant 0 <= i <= |messages| && |checkpoints| <= normalizedLimit
        invariant checkpoints + LatestCheckpoints(messages[..i], normalizedLimit - |checkpoints|)
               == LatestCheckpoints(messages, normalizedLimit)
      {
        i := i - 1;
        assert messages[..i + 1][..i] == messages[..i];
        if IsCheckpoint(messages[i]) {
          checkpoints := checkpoints + [i];
        }
      }
      LatestListed(messages, normalizedLimit);
    }

    /** A request is taken exactly when its checkpoint is among the latest listed ones. */
    method EnqueueSummaryApply(request: SummaryRequest) returns (accepted: bool, availableCheckpoints: nat)
      modifies `pendingSummaryApplyRequest
      ensures accepted <==> AmongLatest(messages, request.checkpointId)
      ensures exists at :: && ListsLatest(messages, at, 200) && availableCheckpoints == |at|
                           && (accepted <==> CarriedAt(messages, at, request.checkpointId))
      ensures availableCheckpoints == |LatestCheckpoints(messages, CHECKPOINT_LIST_LIMIT)|
      ensures pendingSummaryApplyRequest == if accepted then Some(request) else old(pendingSummaryApplyRequest)
      ensures accepted ==> LastWithCheckpoint(messages, request.checkpointId) >= 0
    {
      hide ListsLatest;
      var checkpoints := ListSummaryCheckpoints(1000);
      accepted, availableCheckpoints := false, |checkpoints|;
      for k := 0 to |checkpoints|
        invariant accepted <==> exists j :: 0 <= j < k && messages[checkpoints[j]].checkpointId == Some(request.checkpointId)
      {
        accepted := accepted || messages[checkpoints[k]].checkpointId == Some(request.checkpointId);
      }
      assert accepted <==> CarriedAt(messages, checkpoints, request.checkpointId);
      if accepted {
        pendingSummaryApplyRequest := Some(request);
      }
    }

    method FindCheckpointMessageIndex(checkpointId: string) returns (r: int)
      ensures r == LastWithCheckpoint(messages, checkpointId)
    {
      var i := |messages|;
      assert messages[..i] == messages;
      while i > 0
        invariant 0 <= i <= |messages|
        invariant LastWithCheckpoint(messages[..i], checkpointId) == LastWithCheckpoint(messages, checkpointId)
      {
        i := i - 1;
        if messages[i].checkpointId == Some(checkpointId) {
          return i;
        }
        assert messages[..i + 1][..i] == messages[..i];
      }
      return -1;
    }

    /**
     * A waiting summary is applied once: the messages up to its checkpoint, at most the asked
     * number of later ones, and an anchor with a new id, repaired to obey the protocol.
     * A request whose checkpoint is gone changes nothing.
     */
    method ApplyPendingSummaryIfNeeded()
      modifies this
      ensures State() == SummaryApplied(old(State()))
      ensures SummaryLeaves(old(State()), State())
      ensures var request := old(pendingSummaryApplyRequest);
              if request == None || LastWithCheckpoint(old(messages), request.value.checkpointId) < 0 then
                messages == old(messages) && checkpointCounter == old(checkpointCounter)
              else
                checkpointCounter == old(checkpointCounter) + 1 && WellFormed(messages)
      ensures old(Covered()) ==> Covered()
    {
      hide WellFormed, Canonical, Sanitized, LastWithCheckpoint, CheckpointId, Covers, Fresh, Summarised, SummaryLeaves;
      AppliedLeaves(State());
      if pendingSummaryApplyRequest == None {
        return;
      }
      var pending := pendingSummaryApplyRequest.value;
      pendingSummaryApplyRequest := None;
      var checkpointIndex := FindCheckpointMessageIndex(pending.checkpointId);
      if checkpointIndex < 0 {
        return;
      }
      var keepRecent := KeepRecent(pending);
      var preservedHead := messages[..checkpointIndex + 1];
      var preservedTail := if keepRecent > 0 then messages[Max(checkpointIndex + 1, |messages| - keepRecent)..] else [];
      var anchor := WithCheckpointMetadata(SummaryMessage(pending), "summary_anchor");
      var next := preservedHead + preservedTail + [anchor];
      SummarisedIs(messages, checkpointIndex, keepRecent);
      assert next == Summarised(messages, checkpointIndex, keepRecent) + [anchor];
      if old(Covered()) {
        SummarisedCovered(checkpointCounter, messages, anchor, checkpointIndex, keepRecent);
        SanitizedCovered(checkpointCounter, next);
      }
      SanitizedIsWellFormed(next);
      var sanitized, _ := SanitizeMessagesForToolProtocol(next);
      messages := sanitized.messages;
    }

    /** A partly streamed answer is kept as an assistant turn unless it is blank. */
    method SaveInterruptedStreamCheckpoint(content: string) returns (saved: bool)
      modifies `messages
      ensures saved <==> Trim(content) != ""
      ensures messages == old(messages) + if saved then [Plain(Assistant, content)] else []
      ensures WellFormed(old(messages)) ==> WellFormed(messages)
      ensures old(Covered()) ==> Covered()
    {
      saved := Trim(content) != "";
      if saved {
        if WellFormed(messages) {
          WellFormedSingle(Plain(Assistant, content));
          WellFormedConcat(messages, [Plain(Assistant, content)]);
        }
        messages := messages + [Plain(Assistant, content)];
      }
    }

    /** The name of the latest call with the given id. */
    method FindToolNameById(toolCallId: string) returns (name: Option<string>)
      ensures name.Some? <==>
                Trim(toolCallId) != ""
                && exists i, k :: 0 <= i < |messages| && messages[i].role == Assistant
                                  && 0 <= k < |messages[i].toolCalls| && messages[i].toolCalls[k].id == toolCallId
      ensures name.Some? ==>
                exists i: nat, k: nat :: IsLatestCall(messages, toolCallId, i, k) && name.value == messages[i].toolCalls[k].name
    {
      if Trim(toolCallId) == "" {
        return None;
      }
      var i := |messages|;
      while i > 0
        invariant 0 <= i <= |messages|
        invariant NoCallAfter(messages, toolCallId, i)
      {
        i := i - 1;
        if messages[i].role == Assistant {
          for k := 0 to |messages[i].toolCalls|
            invariant forall j :: 0 <= j < k ==> messages[i].toolCalls[j].id != toolCallId
          {
            if messages[i].toolCalls[k].id == toolCallId {
              assert IsLatestCall(messages, toolCallId, i, k);
              return Some(messages[i].toolCalls[k].name);
            }
          }
        }
      }
      return None;
    }
  }

  function SummaryMessage(request: SummaryRequest): Message {
    Plain(
      Assistant, "[SUMMARY_MESSAGES_APPLIED " + ("checkpoint_id=" + request.checkpointId) + ("]\n" + request.summary))
  }

  function SummaryAnchor(request: SummaryRequest, id: string): Message {
    SummaryMessage(request).(checkpointId := Some(id), checkpointReason := Some("summary_anchor"))
  }

  lemma SummarisedIs(ms: seq<Message>, checkpoint: nat, keep: nat)
    requires checkpoint < |ms|
    ensures Summarised(ms, checkpoint, keep)
            == ms[..checkpoint + 1] + if keep > 0 then ms[Max(checkpoint + 1, |ms| - keep)..] else []
  {
  }

  lemma SummarisedCovered(counter: nat, ms: seq<Message>, anchor: Message, checkpoint: nat, keep: nat)
    requires checkpoint < |ms| && Covers(counter, ms + [anchor])
    ensures Covers(counter, Summarised(ms, checkpoint, keep) + [anchor])
  {
    hide Numbered;
    var next := Summarised(ms, checkpoint, keep) + [anchor];
    forall i, n: nat | 0 <= i < |next| && Numbered(next[i], n) ensures n <= counter {
      var from := Max(checkpoint + 1, |ms| - keep);
      var j := if i < checkpoint + 1 then i else i - (checkpoint + 1) + from;
      assert next[i] == (ms + [anchor])[j];
    }
  }

  /**
   * Where the summary lands: the cut keeps a prefix and a bounded suffix, so at most the asked
   * number of later messages remain, and they are the latest.
   */
  lemma SummarisedBounds(ms: seq<Message>, checkpoint: nat, keep: nat)
    requires checkpoint < |ms|
    ensures var r := Summarised(ms, checkpoint, keep);
            && |r| <= checkpoint + 1 + keep && |r| <= |ms|
            && ms[..checkpoint + 1] <= r
            && r[checkpoint + 1..] == ms[|ms| - (|r| - checkpoint - 1)..]
            && (|ms| <= checkpoint + 1 + keep ==> r == ms)
  {
    var r := Summarised(ms, checkpoint, keep);
    if |ms| <= checkpoint + 1 + keep {
      assert r == ms;
    }
  }

  // ----- ids over several runs -----

  /** The user messages that a reset counter numbers from one. */
  function Minted(prompts: seq<string>): (ms: seq<Message>)
    ensures |ms| == |prompts| && forall j :: 0 <= j < |prompts| ==> ms[j] == UserMessage(prompts[j], j + 1)
  {
    seq(|prompts|, j requires 0 <= j < |prompts| => UserMessage(prompts[j], j + 1))
  }

  /**
   * After a reset the next ids, one for each prompt, are all new when they are minted exactly when
   * none of them is on a message kept from before the reset.
   */
  method MintAfterReset(store: MessageStore, prompts: seq<string>) returns (allFresh: bool)
    modifies store
    ensures allFresh <==> FirstIdsFree(|prompts|, old(store.messages))
    ensures store.messages == old(store.messages) + Minted(prompts) && store.checkpointCounter == |prompts|
  {
    hide CheckpointId, FirstIdsFree, Fresh;
    store.ResetRunState();
    allFresh := true;
    ghost var before := store.messages;
    NoneFree(before);
    assert before + Minted(prompts[..0]) == before;
    for n := 0 to |prompts|
      invariant store.checkpointCounter == n && store.messages == before + Minted(prompts[..n])
      invariant allFresh <==> FirstIdsFree(n, before)
    {
      var earlier := store.messages;
      store.AddUserMessage(prompts[n]);
      NewIdFreshIff(before, prompts[..n]);
      assert Minted(prompts[..n + 1]) == Minted(prompts[..n]) + [UserMessage(prompts[n], n + 1)];
      allFresh := allFresh && Fresh(CheckpointId(store.checkpointCounter), earlier);
    }
    assert prompts[..|prompts|] == prompts;
  }

  lemma NoneFree(ms: seq<Message>)
    ensures FirstIdsFree(0, ms)
  {
  }

  lemma NewIdFreshIff(before: seq<Message>, prompts: seq<string>)
    ensures var n := |prompts| + 1;
            && (Fresh(CheckpointId(n), before + Minted(prompts)) <==> Fresh(CheckpointId(n), before))
            && (FirstIdsFree(n, before) <==> FirstIdsFree(n - 1, before) && Fresh(CheckpointId(n), before))
  {
    hide CheckpointId;
    var n := |prompts| + 1;
    var ms := before + Minted(prompts);
    assert forall i :: 0 <= i < |before| ==> ms[i] == before[i];
    forall m | 1 <= m < n ensures CheckpointId(m) != CheckpointId(n) {
      if CheckpointId(m) == CheckpointId(n) {
        IdsDistinct(m, n);
        assert false;
      }
    }
  }

  /** The second run on a store gives its first message the id that the first run's first message has. */
  method TwoRunsShareAnId(first: string, second: string) returns (store: MessageStore)
    ensures fresh(store) && store.messages == [UserMessage(first, 1), UserMessage(second, 1)]
    ensures WellFormed(store.messages)
  {
    store := new MessageStore();
    var _ := MintAfterReset(store, [first]);
    var _ := MintAfterReset(store, [second]);
    PlainIsWellFormed(store.messages);
  }

  /** What a run asks of its store between two resets. */
  datatype StoreOp =
    | AddUser(content: string)
    | AddMinted(message: Message, reason: string)
    | AddUnminted(message: Message)
    | Replace(messages: seq<Message>)
    | AskSummary(request: SummaryRequest)
    | ApplySummary
    | SaveStream(content: string)

  /** The greatest checkpoint number in the list, or zero. */
  function MaxNumber(ms: seq<Message>): (n: nat)
    ensures Covers(n, ms) && (n > 0 ==> exists i :: 0 <= i < |ms| && Numbered(ms[i], n))
  {
    if ms == [] then 0
    else
      var earlier, last := MaxNumber(ms[..|ms| - 1]), ms[|ms| - 1];
      if last.checkpointId.Some? && CheckpointNumber(last.checkpointId.value).Some? then
        Max(earlier, CheckpointNumber(last.checkpointId.value).value)
      else earlier
  }

  /** What one operation makes of a store. */
  ghost function StoreStep(h: Stored, op: StoreOp): Stored {
    match op
    case AddUser(content) => UserAdded(h, content)
    case AddMinted(message, reason) =>
      var n := h.checkpointCounter + 1;
      var minted := message.(checkpointId := Some(CheckpointId(n)), checkpointReason := Some(reason));
      h.(messages := h.messages + [minted], checkpointCounter := n)
    case AddUnminted(message) => h.(messages := h.messages + [message.(checkpointId := None)])
    case Replace(messages) =>
      var kept := (if HasSystem(h.messages) && !HasSystem(messages) then [h.messages[0]] else []) + messages;
      Stored(kept, MaxNumber(kept), None)
    case AskSummary(request) => if AmongLatest(h.messages, request.checkpointId) then h.(pending := Some(request)) else h
    case ApplySummary => SummaryApplied(h)
    case SaveStream(content) =>
      if Trim(content) == "" then h else h.(messages := h.messages + [Plain(Assistant, content)])
  }

  /** The operation gives out the next id. */
  predicate MintsId(h: Stored, op: StoreOp) {
    match op
    case AddUser(_) => true
    case AddMinted(_, _) => true
    case ApplySummary => h.pending.Some? && LastWithCheckpoint(h.messages, h.pending.value.checkpointId) >= 0
    case _ => false
  }

  ghost function StoreAfter(h: Stored, ops: seq<StoreOp>): Stored {
    if ops == [] then h else StoreStep(StoreAfter(h, ops[..|ops| - 1]), ops[|ops| - 1])
  }

  /** The ids given out, in order. */
  ghost function MintedBy(h: Stored, ops: seq<StoreOp>): seq<string> {
    if ops == [] then []
    else
      var before := StoreAfter(h, ops[..|ops| - 1]);
      MintedBy(h, ops[..|ops| - 1])
      + if MintsId(before, ops[|ops| - 1]) then [CheckpointId(before.checkpointCounter + 1)] else []
  }

  lemma StepCovers(h: Stored, op: StoreOp)
    requires Covers(h.checkpointCounter, h.messages)
    ensures Covers(StoreStep(h, op).checkpointCounter, StoreStep(h, op).messages)
    ensures MintsId(h, op) ==>
              var id := CheckpointId(h.checkpointCounter + 1);
              Fresh(id, h.messages) && !Fresh(id, StoreStep(h, op).messages)
  {
    hide Covers, Sanitized, Summarised, LastWithCheckpoint, CheckpointId, Numbered, MaxNumber, LatestCheckpoints, WellFormed;
    var counter, after := h.checkpointCounter, StoreStep(h, op);
    if MintsId(h, op) {
      NextIsFresh(counter, h.messages);
      if op.ApplySummary? {
        AnchorStays(h);
      } else {
        var m := after.messages[|h.messages|];
        assert after.messages == h.messages + [m];
        CoversExtended(counter, h.messages, m);
      }
    } else if op.AddUnminted? {
      PlainCovered(counter, h.messages, op.message.(checkpointId := None));
    } else if op.SaveStream? {
      PlainCovered(counter, h.messages, Plain(Assistant, op.content));
    }
  }

  /** An applied summary leaves its anchor, under the new id, at the end. */
  lemma AnchorStays(h: Stored)
    requires h.pending.Some? && LastWithCheckpoint(h.messages, h.pending.value.checkpointId) >= 0
    requires Covers(h.checkpointCounter, h.messages)
    ensures var after := SummaryApplied(h);
            && Covers(after.checkpointCounter, after.messages)
            && after.messages != []
            && after.messages[|after.messages| - 1] == SummaryAnchor(h.pending.value, CheckpointId(h.checkpointCounter + 1))
  {
    hide Covers, Sanitized, Summarised, LastWithCheckpoint, CheckpointId;
    var request, n := h.pending.value, h.checkpointCounter + 1;
    var at := LastWithCheckpoint(h.messages, request.checkpointId);
    var kept, anchor := Summarised(h.messages, at, KeepRecent(request)), SummaryAnchor(request, CheckpointId(n));
    CoversExtended(h.checkpointCounter, h.messages, anchor);
    SummarisedCovered(n, h.messages, anchor, at, KeepRecent(request));
    SanitizedCovered(n, kept + [anchor]);
    SanitizedAppend(kept, anchor);
  }

  lemma StoreUnfolds(h: Stored, ops: seq<StoreOp>, op: StoreOp)
    ensures var before := StoreAfter(h, ops);
            && StoreAfter(h, ops + [op]) == StoreStep(before, op)
            && MintedBy(h, ops + [op])
               == MintedBy(h, ops) + (if MintsId(before, op) then [CheckpointId(before.checkpointCounter + 1)] else [])
  {
    var all := ops + [op];
    StoreLast(h, all);
    hide *;
    assert all[..|all| - 1] == ops && all[|all| - 1] == op;
  }

  lemma StoreLast(h: Stored, ops: seq<StoreOp>)
    requires ops != []
    ensures var before, op := StoreAfter(h, ops[..|ops| - 1]), ops[|ops| - 1];
            && StoreAfter(h, ops) == StoreStep(before, op)
            && MintedBy(h, ops)
               == MintedBy(h, ops[..|ops| - 1]) + (if MintsId(before, op) then [CheckpointId(before.checkpointCounter + 1)] else [])
  {
    hide StoreStep, MintsId, CheckpointId;
  }

  /**
   * Over any operations on a store whose counter covers its messages: every id is on no message when it is
   * given out and on one afterwards, and the counter covers the messages throughout.
   */
  lemma {:induction false} EveryIdIsFresh(h: Stored, ops: seq<StoreOp>, k: nat)
    requires Covers(h.checkpointCounter, h.messages) && k <= |ops|
    ensures var before := StoreAfter(h, ops[..k]);
            && Covers(before.checkpointCounter, before.messages)
            && (k < |ops| && MintsId(before, ops[k]) ==>
                  var id, after := CheckpointId(before.checkpointCounter + 1), StoreAfter(h, ops[..k + 1]);
                  Fresh(id, before.messages) && !Fresh(id, after.messages))
  {
    hide *;
    if k == 0 {
      NothingAsked(h);
      assert ops[..k] == [];
    } else {
      EveryIdIsFresh(h, ops, k - 1);
      assert ops[..k] == ops[..k - 1] + [ops[k - 1]];
      StoreUnfolds(h, ops[..k - 1], ops[k - 1]);
      StepCovers(StoreAfter(h, ops[..k - 1]), ops[k - 1]);
    }
    if k < |ops| {
      assert ops[..k + 1] == ops[..k] + [ops[k]];
      StoreUnfolds(h, ops[..k], ops[k]);
      StepCovers(StoreAfter(h, ops[..k]), ops[k]);
    }
  }

  /** The store's methods carry out the operations and give out just those ids. */
  method RunStoreOps(store: MessageStore, ops: seq<StoreOp>) returns (minted: seq<string>)
    modifies store
    ensures store.State() == StoreAfter(old(store.State()), ops) && minted == MintedBy(old(store.State()), ops)
    ensures old(store.Covered()) ==> store.Covered()
  {
    hide Covers, Fresh, CheckpointId, WellFormed, SummaryApplied, LatestCheckpoints, MaxNumber, StoreAfter, MintedBy;
    minted := [];
    ghost var h := store.State();
    assert ops[..0] == [];
    NothingAsked(h);
    for i := 0 to |ops|
      invariant store.State() == StoreAfter(h, ops[..i]) && minted == MintedBy(h, ops[..i])
      invariant old(store.Covered()) ==> store.Covered()
    {
      var before := store.State();
      if store.Covered() {
        StepCovers(before, ops[i]);
      }
      StoreUnfolds(h, ops[..i], ops[i]);
      assert ops[..i + 1] == ops[..i] + [ops[i]];
      if MintsId(before, ops[i]) {
        minted := minted + [CheckpointId(store.checkpointCounter + 1)];
      }
      match ops[i] {
        case AddUser(content) => store.AddUserMessage(content);
        case AddMinted(message, reason) =>
          var r := store.WithCheckpointMetadata(message, reason);
          store.messages := store.messages + [r];
        case AddUnminted(message) => store.messages := store.messages + [message.(checkpointId := None)];
        case Replace(messages) => store.SetMessages(messages);
        case AskSummary(request) => var _, _ := store.EnqueueSummaryApply(request);
        case ApplySummary => store.ApplyPendingSummaryIfNeeded();
        case SaveStream(content) => var _ := store.SaveInterruptedStreamCheckpoint(content);
      }
      assert store.State() == StoreStep(before, ops[i]);
    }
    assert ops[..|ops|] == ops;
  }

  lemma NothingAsked(h: Stored)
    ensures StoreAfter(h, []) == h && MintedBy(h, []) == []
  {
  }

  lemma PlainCovered(counter: nat, ms: seq<Message>, m: Message)
    requires Covers(counter, ms) && m.checkpointId == None
    ensures Covers(counter, ms + [m])
  {
  }
}
