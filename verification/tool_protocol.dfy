/**
 * The tool protocol of a message list: every assistant turn with tool calls is followed
 * at once by exactly one result for each of its calls, and a result appears nowhere else.
 * Models src/llm/tool-protocol-analyzer.ts and `sanitizeMessagesForToolProtocol` of
 * src/llm/message-preparation.ts.
 */
module ToolProtocol {
  import opened Messages
  import opened Text

  // ----- what a closed bundle is -----

  function CallIds(calls: seq<ToolCall>): (ids: seq<string>)
    ensures |ids| == |calls| && forall i :: 0 <= i < |ids| ==> ids[i] == Trim(calls[i].id)
  {
    seq(|calls|, i requires 0 <= i < |calls| => Trim(calls[i].id))
  }

  function ResultIds(results: seq<Message>): (ids: seq<string>)
    ensures |ids| == |results| && forall i :: 0 <= i < |ids| ==> ids[i] == Trim(results[i].toolCallId)
  {
    seq(|results|, i requires 0 <= i < |results| => Trim(results[i].toolCallId))
  }

  predicate Distinct<T(==)>(s: seq<T>) {
    forall i, j :: 0 <= i < j < |s| ==> s[i] != s[j]
  }

  predicate AllTools(ms: seq<Message>) {
    forall i :: 0 <= i < |ms| ==> ms[i].role == Tool
  }

  /** `results` answers `calls`: usable ids, and one tool message for each of them. */
  predicate Answers(calls: seq<ToolCall>, results: seq<Message>) {
    && |results| == |calls|
    && AllTools(results)
    && "" !in CallIds(calls) && Distinct(CallIds(calls))
    && Distinct(ResultIds(results))
    && forall i :: 0 <= i < |results| ==> ResultIds(results)[i] in CallIds(calls)
  }

  /** The number of tool messages at the front of `ms`. */
  function ToolRun(ms: seq<Message>): (n: nat)
    ensures n <= |ms| && forall i :: 0 <= i < n ==> ms[i].role == Tool
    ensures n < |ms| ==> ms[n].role != Tool
  {
    if ms == [] || ms[0].role != Tool then 0 else 1 + ToolRun(ms[1..])
  }

  /** The assistant turn at the front of `ms` opens a bundle that its results close. */
  predicate ClosedBundle(ms: seq<Message>) {
    && ms != [] && Calling(ms[0])
    && |ms[0].toolCalls| < |ms|
    && Answers(ms[0].toolCalls, ms[1..|ms[0].toolCalls| + 1])
  }

  ghost predicate WellFormed(ms: seq<Message>) {
    if ms == [] then true
    else if Calling(ms[0]) then ClosedBundle(ms) && WellFormed(ms[|ms[0].toolCalls| + 1..])
    else ms[0].role != Tool && WellFormed(ms[1..])
  }

  /** Answering by distinct ids out of the called ones means answering each call once. */
  lemma AnswersIsPermutation(calls: seq<ToolCall>, results: seq<Message>)
    requires |results| == |calls| && AllTools(results)
    requires "" !in CallIds(calls) && Distinct(CallIds(calls))
    ensures Answers(calls, results) <==> multiset(ResultIds(results)) == multiset(CallIds(calls))
  {
    PermutationIff(CallIds(calls), ResultIds(results));
  }

  /** The pigeonhole principle behind matching results to calls. */
  lemma PermutationIff(ids: seq<string>, rids: seq<string>)
    requires |rids| == |ids| && Distinct(ids)
    ensures Distinct(rids) && (forall i :: 0 <= i < |rids| ==> rids[i] in ids) <==> multiset(rids) == multiset(ids)
  {
    DistinctMultiset(ids);
    if Distinct(rids) && forall i :: 0 <= i < |rids| ==> rids[i] in ids {
      DistinctMultiset(rids);
      DistinctSize(ids);
      DistinctSize(rids);
      SubsetOfEqualSize((set x | x in rids), (set x | x in ids));
      var a, b := (set x | x in ids), (set x | x in rids);
      assert a == b;
      forall x ensures multiset(rids)[x] == multiset(ids)[x] {
        assert x in a <==> x in ids;
        assert x in b <==> x in rids;
      }
    } else if multiset(rids) == multiset(ids) {
      forall i | 0 <= i < |rids| ensures rids[i] in ids {
        assert rids[i] in multiset(rids);
      }
      forall i, j | 0 <= i < j < |rids| ensures rids[i] != rids[j] {
        if rids[i] == rids[j] {
          RepeatedTwice(rids, i, j);
        }
      }
    }
  }

  lemma RepeatedTwice(s: seq<string>, i: nat, j: nat)
    requires i < j < |s| && s[i] == s[j]
    ensures multiset(s)[s[i]] >= 2
  {
    assert s == s[..j] + s[j..];
    assert s[i] in multiset(s[..j]) by { assert s[..j][i] == s[i]; }
    assert s[j] in multiset(s[j..]) by { assert s[j..][0] == s[j]; }
  }

  lemma {:induction false} DistinctMultiset(s: seq<string>)
    requires Distinct(s)
    ensures forall x :: multiset(s)[x] == if x in s then 1 else 0
  {
    if s != [] {
      var n := |s| - 1;
      DistinctMultiset(s[..n]);
      assert s == s[..n] + [s[n]];
    }
  }

  lemma {:induction false} DistinctSize(s: seq<string>)
    requires Distinct(s)
    ensures |set x | x in s| == |s|
  {
    if s != [] {
      var n := |s| - 1;
      DistinctSize(s[..n]);
      assert s == s[..n] + [s[n]];
      assert (set x | x in s) == (set x | x in s[..n]) + {s[n]};
    }
  }

  lemma {:induction false} SubsetOfEqualSize(b: set<string>, a: set<string>)
    requires b <= a && |b| == |a|
    ensures b == a
  {
    if a != b {
      assert !(a <= b);
      var x :| x in a && x !in b;
      SubsetSize(b, a - {x});
    }
  }

  lemma {:induction false} SubsetSize(b: set<string>, a: set<string>)
    requires b <= a
    ensures |b| <= |a|
  {
    if b != {} {
      var x :| x in b;
      SubsetSize(b - {x}, a - {x});
    }
  }

  // ----- well-formedness of concatenations -----

  /** Well-formed lists concatenate to a well-formed list. */
  lemma {:induction false} WellFormedConcat(a: seq<Message>, b: seq<Message>)
    requires WellFormed(a) && WellFormed(b)
    ensures WellFormed(a + b)
    decreases |a|
  {
    if a == [] {
      assert a + b == b;
    } else {
      var n := if Calling(a[0]) then |a[0].toolCalls| + 1 else 1;
      assert (a + b)[n..] == a[n..] + b;
      if Calling(a[0]) {
        assert (a + b)[1..n] == a[1..n];
      }
      WellFormedConcat(a[n..], b);
    }
  }

  /** A cut leaves two well-formed halves exactly when it does not fall before a result. */
  lemma {:induction false} WellFormedSplit(a: seq<Message>, b: seq<Message>)
    requires WellFormed(a + b)
    ensures b == [] || b[0].role != Tool <==> WellFormed(a) && WellFormed(b)
    decreases |a|
  {
    if a == [] {
      assert a + b == b;
    } else {
      var n := if Calling(a[0]) then |a[0].toolCalls| + 1 else 1;
      if n <= |a| {
        assert (a + b)[n..] == a[n..] + b;
        if Calling(a[0]) {
          assert (a + b)[1..n] == a[1..n];
        }
        WellFormedSplit(a[n..], b);
      } else {
        // the bundle opened by a[0] reaches over the cut, so b starts with one of its results
        assert b != [] && b[0] == (a + b)[1..n][|a| - 1];
        assert !ClosedBundle(a);
      }
    }
  }

  /** The protocol sees roles, calls and ids only. */
  predicate SameProtocolFields(a: seq<Message>, b: seq<Message>) {
    |a| == |b| && forall i :: 0 <= i < |a| ==>
                    a[i].role == b[i].role && a[i].toolCalls == b[i].toolCalls && a[i].toolCallId == b[i].toolCallId
  }

  lemma {:induction false} SameFieldsSameProtocol(a: seq<Message>, b: seq<Message>)
    requires SameProtocolFields(a, b)
    ensures WellFormed(a) <==> WellFormed(b)
    decreases |a|
  {
    if a != [] {
      var n := if Calling(a[0]) then |a[0].toolCalls| + 1 else 1;
      if n <= |a| {
        if Calling(a[0]) {
          assert ResultIds(a[1..n]) == ResultIds(b[1..n]);
          assert Answers(a[0].toolCalls, a[1..n]) == Answers(b[0].toolCalls, b[1..n]);
        }
        SameFieldsSameProtocol(a[n..], b[n..]);
      }
    }
  }

  /** An assistant turn followed by one result for each of its distinct usable ids. */
  lemma ClosedByIds(turn: seq<Message>, ids: seq<string>)
    requires turn != [] && Calling(turn[0]) && |turn| == |turn[0].toolCalls| + 1
    requires CallIds(turn[0].toolCalls) == ids == ResultIds(turn[1..]) && turn[1..] == turn[1..|turn|]
    requires "" !in ids && Distinct(ids) && forall i :: 1 <= i < |turn| ==> turn[i].role == Tool
    ensures WellFormed(turn)
  {
    assert turn[|turn|..] == [];
    assert Answers(turn[0].toolCalls, turn[1..]);
  }

  /** Joining at a place that is no result keeps the protocol exactly when both parts obey it. */
  lemma JoinWellFormedIff(a: seq<Message>, b: seq<Message>)
    requires b == [] || b[0].role != Tool
    ensures WellFormed(a + b) <==> WellFormed(a) && WellFormed(b)
  {
    hide WellFormed;
    if WellFormed(a) && WellFormed(b) {
      WellFormedConcat(a, b);
    }
    if WellFormed(a + b) {
      WellFormedSplit(a, b);
    }
  }

  lemma WellFormedSingle(m: Message)
    requires !Calling(m) && m.role != Tool
    ensures WellFormed([m])
  {
    assert [m][1..] == [];
  }

  lemma ClosedBundleTools(ms: seq<Message>)
    requires ClosedBundle(ms)
    ensures forall i :: 0 <= i < |ms[0].toolCalls| ==> ms[1..][i].role == Tool
  {
    var results := ms[1..|ms[0].toolCalls| + 1];
    assert forall i :: 0 <= i < |results| ==> results[i] == ms[1..][i];
  }

  /** The results of a closed bundle lie in the run of tool messages after it. */
  lemma BundleWithinRun(ms: seq<Message>)
    requires ClosedBundle(ms)
    ensures |ms[0].toolCalls| <= ToolRun(ms[1..])
  {
    ClosedBundleTools(ms);
  }

  lemma WellFormedHead(ms: seq<Message>)
    requires ms != [] && !Calling(ms[0]) && WellFormed(ms)
    ensures ms[0].role != Tool && WellFormed(ms[1..])
  {
  }

  lemma WellFormedBundle(ms: seq<Message>)
    requires ms != [] && Calling(ms[0]) && WellFormed(ms)
    ensures ClosedBundle(ms) && WellFormed(ms[|ms[0].toolCalls| + 1..])
  {
  }

  /** A well-formed list does not start with a result. */
  lemma WellFormedStart(ms: seq<Message>)
    requires ms != [] && WellFormed(ms)
    ensures ms[0].role != Tool
  {
  }

  /** In a well-formed list a bundle's run of results is exactly as long as its calls. */
  lemma RunOfBundle(ms: seq<Message>)
    requires WellFormed(ms) && ms != [] && Calling(ms[0])
    ensures ToolRun(ms[1..]) == |ms[0].toolCalls|
  {
    hide *;
    var n := |ms[0].toolCalls|;
    WellFormedBundle(ms);
    ClosedBundleTools(ms);
    BundleWithinRun(ms);
    if n < |ms[1..]| {
      assert ms[n + 1..][0] == ms[1..][n];
      WellFormedStart(ms[n + 1..]);
    }
    RunIsMaximal(ms[1..], n);
  }

  // ----- analysing one bundle -----

  /** The first result with the given trimmed id. */
  function ResultFor(results: seq<Message>, id: string): (m: Message)
    requires id in ResultIds(results)
    ensures m in results && Trim(m.toolCallId) == id
  {
    if Trim(results[0].toolCallId) == id then results[0]
    else
      assert ResultIds(results) == [ResultIds(results)[0]] + ResultIds(results[1..]);
      ResultFor(results[1..], id)
  }

  lemma EveryCallAnswered(calls: seq<ToolCall>, results: seq<Message>)
    requires Answers(calls, results)
    ensures forall i :: 0 <= i < |calls| ==> CallIds(calls)[i] in ResultIds(results)
  {
    AnswersIsPermutation(calls, results);
    forall i | 0 <= i < |calls| ensures CallIds(calls)[i] in ResultIds(results) {
      assert CallIds(calls)[i] in multiset(CallIds(calls));
      assert CallIds(calls)[i] in multiset(ResultIds(results));
    }
  }

  /** The results of a bundle in the order of its calls. */
  function Ordered(calls: seq<ToolCall>, results: seq<Message>): (ordered: seq<Message>)
    requires Answers(calls, results)
    ensures |ordered| == |calls|
    ensures forall i :: 0 <= i < |calls| ==> ordered[i] in results && ResultIds(ordered)[i] == CallIds(calls)[i]
  {
    EveryCallAnswered(calls, results);
    seq(|calls|, i requires 0 <= i < |calls| => ResultFor(results, CallIds(calls)[i]))
  }

  /** The ordered results of the closed bundle at the front of `ms`. */
  function BundleResults(ms: seq<Message>): seq<Message>
    requires ClosedBundle(ms)
  {
    Ordered(ms[0].toolCalls, ms[1..|ms[0].toolCalls| + 1])
  }

  lemma {:induction false} ResultForAt(results: seq<Message>, k: nat)
    requires k < |results| && Distinct(ResultIds(results))
    ensures ResultFor(results, ResultIds(results)[k]) == results[k]
  {
    if k > 0 {
      var tail := results[1..];
      assert ResultIds(results) == [ResultIds(results)[0]] + ResultIds(tail);
      assert ResultIds(results)[k] == ResultIds(tail)[k - 1];
      ResultForAt(tail, k - 1);
    }
  }

  datatype BundleAnalysis = BundleAnalysis(valid: bool, orderedToolResults: seq<Message>, followingTools: seq<Message>)

  /** The run of tool messages after position `index`. */
  method CollectFollowingTools(messages: seq<Message>, index: nat) returns (followingTools: seq<Message>)
    requires index < |messages|
    ensures followingTools == messages[index + 1..][..ToolRun(messages[index + 1..])]
  {
    followingTools := [];
    var cursor := index + 1;
    while cursor < |messages| && messages[cursor].role == Tool
      invariant index + 1 <= cursor <= |messages|
      invariant followingTools == messages[index + 1..cursor]
      invariant forall i :: index + 1 <= i < cursor ==> messages[i].role == Tool
    {
      followingTools := followingTools + [messages[cursor]];
      cursor := cursor + 1;
    }
    RunIsMaximal(messages[index + 1..], cursor - (index + 1));
  }

  /** Files each result under its id; `None` when an id is missing, foreign or repeated. */
  method MatchResults(ids: seq<string>, rids: seq<string>, results: seq<Message>)
    returns (matched: Option<map<string, Message>>)
    requires |rids| == |results| && "" !in ids
    ensures matched.Some? <==> Distinct(rids) && forall i :: 0 <= i < |rids| ==> rids[i] in ids
    ensures matched.Some? ==>
              forall i :: 0 <= i < |rids| ==> rids[i] in matched.value && matched.value[rids[i]] == results[i]
  {
    var matchedById: map<string, Message> := map[];
    for k := 0 to |results|
      invariant forall i, j :: 0 <= i < j < k ==> rids[i] != rids[j]
      invariant forall i :: 0 <= i < k ==> rids[i] in ids
      invariant forall i :: 0 <= i < k ==> rids[i] in matchedById && matchedById[rids[i]] == results[i]
      invariant forall id :: id in matchedById ==> exists i :: 0 <= i < k && rids[i] == id
    {
      var toolCallId := rids[k];
      if toolCallId == "" || toolCallId !in ids || toolCallId in matchedById {
        return None;
      }
      matchedById := matchedById[toolCallId := results[k]];
    }
    return Some(matchedById);
  }

  lemma MatchedIsResultFor(results: seq<Message>, matched: map<string, Message>, id: string)
    requires Distinct(ResultIds(results)) && id in ResultIds(results)
    requires forall i :: 0 <= i < |results| ==>
               ResultIds(results)[i] in matched && matched[ResultIds(results)[i]] == results[i]
    ensures id in matched && matched[id] == ResultFor(results, id)
  {
    var j :| 0 <= j < |results| && ResultIds(results)[j] == id;
    ResultForAt(results, j);
  }

  lemma OrderedAt(calls: seq<ToolCall>, results: seq<Message>, matched: map<string, Message>, k: nat)
    requires Answers(calls, results) && k < |calls|
    requires forall i :: 0 <= i < |results| ==>
               ResultIds(results)[i] in matched && matched[ResultIds(results)[i]] == results[i]
    ensures CallIds(calls)[k] in matched && Ordered(calls, results)[k] == matched[CallIds(calls)[k]]
  {
    hide ResultFor;
    EveryCallAnswered(calls, results);
    MatchedIsResultFor(results, matched, CallIds(calls)[k]);
  }

  /** Lists the matched results in the order of the calls. */
  method OrderResults(calls: seq<ToolCall>, results: seq<Message>, matched: map<string, Message>)
    returns (ordered: seq<Message>)
    requires Answers(calls, results)
    requires forall i :: 0 <= i < |results| ==>
               ResultIds(results)[i] in matched && matched[ResultIds(results)[i]] == results[i]
    ensures ordered == Ordered(calls, results)
  {
    hide Answers, Ordered;
    var ids := CallIds(calls);
    ordered := [];
    for k := 0 to |calls|
      invariant |ordered| == k
      invariant forall i :: 0 <= i < k ==> ordered[i] == Ordered(calls, results)[i]
    {
      OrderedAt(calls, results, matched, k);
      ordered := ordered + [matched[ids[k]]];
    }
  }

  /**
   * Scans the run of results after an assistant turn and matches it against the turn's
   * calls; the verdict is the declarative `ClosedBundle`.
   */
  method AnalyzeAssistantToolBundle(messages: seq<Message>, index: nat) returns (r: BundleAnalysis)
    requires index < |messages|
    ensures r.followingTools == messages[index + 1..][..ToolRun(messages[index + 1..])]
    ensures r.valid <==> ClosedBundle(messages[index..])
    ensures r.valid ==> r.orderedToolResults == BundleResults(messages[index..])
    ensures !r.valid ==> r.orderedToolResults == []
  {
    var message := messages[index];
    var toolCalls := if message.role == Assistant then message.toolCalls else [];
    var expectedIds := CallIds(toolCalls);
    var followingTools := CollectFollowingTools(messages, index);
    var n := |toolCalls|;
    ghost var ms := messages[index..];
    assert ms[1..] == messages[index + 1..];
    if n == 0 || "" in expectedIds || !Distinct(expectedIds) || |followingTools| < n {
      if ClosedBundle(ms) {
        BundleWithinRun(ms);
        assert false;
      }
      return BundleAnalysis(false, [], followingTools);
    }
    var maybeResults := followingTools[..n];
    assert maybeResults == ms[1..n + 1];
    var matched := MatchResults(expectedIds, ResultIds(maybeResults), maybeResults);
    if matched == None {
      return BundleAnalysis(false, [], followingTools);
    }
    var ordered := OrderResults(toolCalls, maybeResults, matched.value);
    return BundleAnalysis(true, ordered, followingTools);
  }

  lemma RunIsMaximal(ms: seq<Message>, n: nat)
    requires n <= |ms| && (forall i :: 0 <= i < n ==> ms[i].role == Tool) && (n < |ms| ==> ms[n].role != Tool)
    ensures ToolRun(ms) == n
  {
  }

  // ----- sanitising -----

  /** At most 500 characters of a text, with a mark behind them when there were more. */
  function NoteCut(text: string): string {
    if |text| > 500 then text[..500] + "...(truncated)" else text
  }

  /** The user note that replaces a result without its call. */
  function OrphanResultNote(m: Message): Message {
    var id := if Trim(m.toolCallId) == "" then "(missing)" else Trim(m.toolCallId);
    var name := if m.name.Some? then m.name.value else "(unknown)";
    Plain(User, "[TOOLCALL_FAILED] tool_call_id=" + id + (", tool=" + name + (". original_content=" + NoteCut(m.content) + ".")))
  }

  /** The usable ids of the calls, between commas. */
  function JoinedIds(calls: seq<ToolCall>): string {
    if calls == [] then ""
    else
      var front, id := JoinedIds(calls[..|calls| - 1]), Trim(calls[|calls| - 1].id);
      if id == "" then front else if front == "" then id else front + "," + id
  }

  /** The user note that follows a turn whose calls are dropped. */
  function OrphanCallNote(calls: seq<ToolCall>, observed: nat): Message {
    var ids := if JoinedIds(calls) == "" then "(missing)" else JoinedIds(calls);
    Plain(User, "[TOOLCALL_FAILED] tool_call_ids=" + ids + (", observed_tool_results=" + Print(observed) + "."))
  }

  function OrphanResultNotes(ms: seq<Message>): (notes: seq<Message>)
    ensures |notes| == |ms|
  {
    seq(|ms|, i requires 0 <= i < |ms| => OrphanResultNote(ms[i]))
  }

  datatype Sanitization = Sanitization(messages: seq<Message>, orphanToolCallFixed: nat, orphanToolResultFixed: nat) {
    function Then(next: Sanitization): Sanitization {
      Sanitization(
        messages + next.messages,
        orphanToolCallFixed + next.orphanToolCallFixed,
        orphanToolResultFixed + next.orphanToolResultFixed)
    }
  }

  /** How many leading messages are sanitised together. */
  function Taken(ms: seq<Message>): (n: nat)
    requires ms != []
    ensures 1 <= n <= |ms|
  {
    if ClosedBundle(ms) then |ms[0].toolCalls| + 1
    else if Calling(ms[0]) then ToolRun(ms[1..]) + 1
    else 1
  }

  /** What those messages are sanitised to. */
  function SanitizedFront(ms: seq<Message>): Sanitization
    requires ms != []
  {
    var n := Taken(ms);
    if ClosedBundle(ms) then Sanitization([ms[0]] + BundleResults(ms), 0, 0)
    else if Calling(ms[0]) then
      Sanitization(
        [ms[0].(toolCalls := []), OrphanCallNote(ms[0].toolCalls, n - 1)] + OrphanResultNotes(ms[1..n]), 1, n - 1)
    else if ms[0].role == Tool then Sanitization([OrphanResultNote(ms[0])], 0, 1)
    else Sanitization([ms[0]], 0, 0)
  }

  function Sanitized(ms: seq<Message>): Sanitization {
    if ms == [] then Sanitization([], 0, 0)
    else SanitizedFront(ms).Then(Sanitized(ms[Taken(ms)..]))
  }

  /** A plain message at the end is sanitised by itself. */
  lemma {:induction false} SanitizedAppend(ms: seq<Message>, m: Message)
    requires m.role != Tool && !Calling(m)
    ensures Sanitized(ms + [m]).messages == Sanitized(ms).messages + [m]
    decreases |ms|
  {
    if ms == [] {
      assert ms + [m] == [m] && [m][1..] == [];
    } else {
      FrontAppend(ms, m);
      hide SanitizedFront, Taken, ClosedBundle;
      var n := Taken(ms);
      assert (ms + [m])[n..] == ms[n..] + [m];
      SanitizedAppend(ms[n..], m);
    }
  }

  /** Plain messages in front are left as they are. */
  lemma {:induction false} SanitizedPlainFront(front: seq<Message>, ms: seq<Message>)
    requires forall i :: 0 <= i < |front| ==> front[i].role != Tool && !Calling(front[i])
    ensures Sanitized(front + ms).messages == front + Sanitized(ms).messages
  {
    hide *;
    if front == [] {
      assert front + ms == ms;
    } else {
      var all := front + ms;
      assert all[0] == front[0] && all[1..] == front[1..] + ms;
      SanitizedPlainFront(front[1..], ms);
      PlainFront(front, ms);
      PlainTaken(all);
      assert front == [front[0]] + front[1..];
      assert [front[0]] + (front[1..] + Sanitized(ms).messages) == front + Sanitized(ms).messages;
    }
  }

  lemma PlainFront(front: seq<Message>, ms: seq<Message>)
    requires front != [] && front[0].role != Tool && !Calling(front[0])
    ensures (front + ms)[0].role != Tool && !Calling((front + ms)[0])
  {
  }

  lemma PlainTaken(ms: seq<Message>)
    requires ms != [] && ms[0].role != Tool && !Calling(ms[0])
    ensures Sanitized(ms).messages == [ms[0]] + Sanitized(ms[1..]).messages
  {
    hide Sanitized;
    SanitizedInTwo(ms);
  }

  lemma FrontAppend(ms: seq<Message>, m: Message)
    requires ms != [] && m.role != Tool
    ensures Taken(ms + [m]) == Taken(ms) && SanitizedFront(ms + [m]) == SanitizedFront(ms)
  {
    var all := ms + [m];
    assert all[0] == ms[0] && all[1..] == ms[1..] + [m];
    RunAppend(ms[1..], m);
    var n := |ms[0].toolCalls|;
    if n < |ms| {
      assert all[1..n + 1] == ms[1..n + 1];
    } else if n == |ms| {
      assert all[1..n + 1][n - 1] == m;
    }
    var taken := Taken(ms);
    assert all[1..taken] == ms[1..taken];
  }

  lemma {:induction false} RunAppend(ms: seq<Message>, m: Message)
    requires m.role != Tool
    ensures ToolRun(ms + [m]) == ToolRun(ms)
  {
    if ms == [] {
      assert ms + [m] == [m];
    } else {
      assert (ms + [m])[1..] == ms[1..] + [m];
      RunAppend(ms[1..], m);
    }
  }

  method SanitizeMessagesForToolProtocol(messages: seq<Message>) returns (r: Sanitization, correctedCount: nat)
    ensures r == Sanitized(messages)
    ensures correctedCount == r.orphanToolCallFixed + r.orphanToolResultFixed
  {
    hide *;
    r, correctedCount := Sanitization([], 0, 0), 0;
    var i := 0;
    ThenEmpty(Sanitized(messages));
    assert messages[0..] == messages;
    while i < |messages|
      invariant 0 <= i <= |messages|
      invariant correctedCount == r.orphanToolCallFixed + r.orphanToolResultFixed
      invariant r.Then(Sanitized(messages[i..])) == Sanitized(messages)
    {
      var front, step := SanitizeFront(messages, i);
      SanitizeStep(r, messages[i..], r.Then(front), step);
      ThenCounts(r, front);
      r := r.Then(front);
      correctedCount := correctedCount + front.orphanToolCallFixed + front.orphanToolResultFixed;
      assert messages[i..][step..] == messages[i + step..];
      i := i + step;
    }
    SanitizedEmpty(messages[i..]);
    ThenEmpty(r);
  }

  lemma ThenEmpty(a: Sanitization)
    ensures Sanitization([], 0, 0).Then(a) == a.Then(Sanitization([], 0, 0)) == a
  {
  }

  lemma ThenCounts(a: Sanitization, b: Sanitization)
    ensures a.Then(b).orphanToolCallFixed == a.orphanToolCallFixed + b.orphanToolCallFixed
    ensures a.Then(b).orphanToolResultFixed == a.orphanToolResultFixed + b.orphanToolResultFixed
  {
  }

  lemma SanitizedEmpty(ms: seq<Message>)
    requires ms == []
    ensures Sanitized(ms) == Sanitization([], 0, 0)
  {
  }

  /** One round of the loop: the replacement for the messages at `i` and how far to advance. */
  method SanitizeFront(messages: seq<Message>, i: nat) returns (front: Sanitization, step: nat)
    requires i < |messages|
    ensures front == SanitizedFront(messages[i..]) && step == Taken(messages[i..])
  {
    hide OrphanCallNote, OrphanResultNote;
    var message := messages[i];
    ghost var tail := messages[i..];
    assert tail[1..] == messages[i + 1..];
    if message.role == Assistant && message.toolCalls != [] {
      var bundle := AnalyzeAssistantToolBundle(messages, i);
      if bundle.valid {
        return Sanitization([message] + bundle.orderedToolResults, 0, 0), |message.toolCalls| + 1;
      }
      var n := |bundle.followingTools|;
      assert bundle.followingTools == tail[1..n + 1];
      var notes := [];
      for t := 0 to n
        invariant notes == OrphanResultNotes(bundle.followingTools)[..t]
      {
        notes := notes + [OrphanResultNote(bundle.followingTools[t])];
      }
      return
        Sanitization([message.(toolCalls := []), OrphanCallNote(message.toolCalls, n)] + notes, 1, n), n + 1;
    }
    if message.role == Tool {
      return Sanitization([OrphanResultNote(message)], 0, 1), 1;
    }
    return Sanitization([message], 0, 0), 1;
  }

  lemma SanitizeStep(before: Sanitization, tail: seq<Message>, after: Sanitization, step: nat)
    requires tail != [] && step == Taken(tail) && after == before.Then(SanitizedFront(tail))
    ensures after.Then(Sanitized(tail[step..])) == before.Then(Sanitized(tail))
  {
    ThenAssociative(before, SanitizedFront(tail), Sanitized(tail[step..]));
  }

  lemma ThenAssociative(a: Sanitization, b: Sanitization, c: Sanitization)
    ensures a.Then(b).Then(c) == a.Then(b.Then(c))
  {
    assert a.messages + b.messages + c.messages == a.messages + (b.messages + c.messages);
  }

  /** Whatever the history, the sanitised list obeys the protocol. */
  lemma {:induction false} SanitizedIsWellFormed(ms: seq<Message>)
    ensures WellFormed(Sanitized(ms).messages)
    decreases |ms|
  {
    if ms != [] {
      SanitizedIsWellFormed(ms[Taken(ms)..]);
      FrontIsWellFormed(ms);
      WellFormedConcat(SanitizedFront(ms).messages, Sanitized(ms[Taken(ms)..]).messages);
    }
  }

  lemma FrontIsWellFormed(ms: seq<Message>)
    requires ms != []
    ensures WellFormed(SanitizedFront(ms).messages)
  {
    var n := Taken(ms);
    var front := SanitizedFront(ms).messages;
    if ClosedBundle(ms) {
      BundleReordered(ms[0], ms[1..n]);
    } else if Calling(ms[0]) {
      var notes := OrphanResultNotes(ms[1..n]);
      PlainIsWellFormed(front);
    } else {
      PlainIsWellFormed(front);
    }
  }

  lemma BundleReordered(assistant: Message, results: seq<Message>)
    requires Calling(assistant) && Answers(assistant.toolCalls, results)
    ensures Answers(assistant.toolCalls, Ordered(assistant.toolCalls, results))
    ensures WellFormed([assistant] + Ordered(assistant.toolCalls, results))
  {
    var ordered := Ordered(assistant.toolCalls, results);
    assert ResultIds(ordered) == CallIds(assistant.toolCalls);
    assert AllTools(ordered);
    var ms := [assistant] + ordered;
    assert ms[1..|assistant.toolCalls| + 1] == ordered;
    assert ms[|assistant.toolCalls| + 1..] == [];
  }

  lemma {:induction false} PlainIsWellFormed(ms: seq<Message>)
    requires forall i :: 0 <= i < |ms| ==> ms[i].role != Tool && !Calling(ms[i])
    ensures WellFormed(ms)
  {
    if ms != [] {
      PlainIsWellFormed(ms[1..]);
    }
  }

  /** No correction is counted exactly when the list already obeyed the protocol. */
  lemma {:induction false} NothingCorrectedIff(ms: seq<Message>)
    ensures WellFormed(ms) <==> Sanitized(ms).orphanToolCallFixed + Sanitized(ms).orphanToolResultFixed == 0
    decreases |ms|
  {
    if ms != [] {
      NothingCorrectedIff(ms[Taken(ms)..]);
    }
  }

  /** Nothing is lost: the list grows by the one note put after each dropped call. */
  lemma {:induction false} SanitizedLength(ms: seq<Message>)
    ensures |Sanitized(ms).messages| == |ms| + Sanitized(ms).orphanToolCallFixed
    decreases |ms|
  {
    if ms != [] {
      SanitizedLength(ms[Taken(ms)..]);
    }
  }

  /** Well-formed, and every bundle's results stand in the order of its calls. */
  ghost predicate Canonical(ms: seq<Message>) {
    if ms == [] then true
    else if Calling(ms[0]) then
      && ClosedBundle(ms)
      && ResultIds(ms[1..Taken(ms)]) == CallIds(ms[0].toolCalls)
      && Canonical(ms[Taken(ms)..])
    else ms[0].role != Tool && Canonical(ms[1..])
  }

  lemma {:induction false} CanonicalConcat(a: seq<Message>, b: seq<Message>)
    requires Canonical(a) && Canonical(b)
    ensures Canonical(a + b)
    decreases |a|
  {
    if a == [] {
      assert a + b == b;
    } else {
      var n := Taken(a);
      assert (a + b)[n..] == a[n..] + b;
      if Calling(a[0]) {
        assert (a + b)[1..n] == a[1..n];
      }
      CanonicalConcat(a[n..], b);
    }
  }

  lemma {:induction false} CanonicalIsFixed(ms: seq<Message>)
    requires Canonical(ms)
    ensures Sanitized(ms).messages == ms
    decreases |ms|
  {
    hide *;
    if ms == [] {
      SanitizedEmpty(ms);
    } else {
      var n := Taken(ms);
      CanonicalFront(ms);
      CanonicalIsFixed(ms[n..]);
      SanitizedInTwo(ms);
      assert ms == ms[..n] + ms[n..];
    }
  }

  lemma SanitizedInTwo(ms: seq<Message>)
    requires ms != []
    ensures Sanitized(ms).messages == SanitizedFront(ms).messages + Sanitized(ms[Taken(ms)..]).messages
  {
    hide SanitizedFront, Taken;
  }

  lemma CanonicalFront(ms: seq<Message>)
    requires ms != [] && Canonical(ms)
    ensures SanitizedFront(ms).messages == ms[..Taken(ms)] && Canonical(ms[Taken(ms)..])
  {
    if Calling(ms[0]) {
      OrderedIsIdentityIff(ms[0].toolCalls, ms[1..Taken(ms)]);
    }
  }

  lemma OrderedIsIdentityIff(calls: seq<ToolCall>, results: seq<Message>)
    requires Answers(calls, results)
    ensures Ordered(calls, results) == results <==> ResultIds(results) == CallIds(calls)
  {
    var ordered := Ordered(calls, results);
    assert ResultIds(ordered) == CallIds(calls);
    if ResultIds(results) == CallIds(calls) {
      forall k | 0 <= k < |calls| ensures ordered[k] == results[k] {
        ResultForAt(results, k);
      }
    }
  }

  lemma FrontIsCanonical(ms: seq<Message>)
    requires ms != []
    ensures Canonical(SanitizedFront(ms).messages)
  {
    hide Canonical, Ordered, Answers;
    if ClosedBundle(ms) {
      OrderedIsCanonical(ms[0], ms[1..Taken(ms)]);
    } else {
      PlainIsCanonical(SanitizedFront(ms).messages);
    }
  }

  lemma OrderedIsCanonical(assistant: Message, results: seq<Message>)
    requires Calling(assistant) && Answers(assistant.toolCalls, results)
    ensures Canonical([assistant] + Ordered(assistant.toolCalls, results))
  {
    BundleReordered(assistant, results);
    hide Answers, Ordered;
    var front := [assistant] + Ordered(assistant.toolCalls, results);
    assert front[1..|front|] == front[1..] == Ordered(assistant.toolCalls, results);
    assert front[|front|..] == [];
  }

  lemma {:induction false} SanitizedIsCanonical(ms: seq<Message>)
    ensures Canonical(Sanitized(ms).messages)
    decreases |ms|
  {
    if ms != [] {
      SanitizedIsCanonical(ms[Taken(ms)..]);
      var front := SanitizedFront(ms).messages;
      FrontIsCanonical(ms);
      hide Canonical, SanitizedFront, Taken;
      CanonicalConcat(front, Sanitized(ms[Taken(ms)..]).messages);
    }
  }

  lemma {:induction false} PlainIsCanonical(ms: seq<Message>)
    requires forall i :: 0 <= i < |ms| ==> ms[i].role != Tool && !Calling(ms[i])
    ensures Canonical(ms)
  {
    if ms != [] {
      PlainIsCanonical(ms[1..]);
    }
  }

  /** Sanitising leaves a list alone exactly when it is canonical. */
  lemma SanitizeFixpointIff(ms: seq<Message>)
    ensures Sanitized(ms).messages == ms <==> Canonical(ms)
  {
    SanitizedIsCanonical(ms);
    if Canonical(ms) {
      CanonicalIsFixed(ms);
    }
  }

  /** A second pass changes nothing. */
  lemma SanitizeIdempotent(ms: seq<Message>)
    ensures Sanitized(Sanitized(ms).messages).messages == Sanitized(ms).messages
  {
    SanitizedIsCanonical(ms);
    SanitizeFixpointIff(Sanitized(ms).messages);
  }

  // ----- the replay check -----

  datatype ProtocolCounts = ProtocolCounts(invalidAssistantToolBundleCount: nat, orphanToolResultCount: nat) {
    function Plus(other: ProtocolCounts): ProtocolCounts {
      ProtocolCounts(
        invalidAssistantToolBundleCount + other.invalidAssistantToolBundleCount,
        orphanToolResultCount + other.orphanToolResultCount)
    }
  }

  /** What the analyser counts at the leading message: it steps over a closed bundle, nothing else. */
  function FrontCounts(ms: seq<Message>): ProtocolCounts
    requires ms != []
  {
    if ClosedBundle(ms) then ProtocolCounts(0, 0)
    else ProtocolCounts(if Calling(ms[0]) then 1 else 0, if ms[0].role == Tool then 1 else 0)
  }

  function Stepped(ms: seq<Message>): (n: nat)
    requires ms != []
    ensures 1 <= n <= |ms|
  {
    if ClosedBundle(ms) then |ms[0].toolCalls| + 1 else 1
  }

  function Analyzed(ms: seq<Message>): ProtocolCounts {
    if ms == [] then ProtocolCounts(0, 0) else FrontCounts(ms).Plus(Analyzed(ms[Stepped(ms)..]))
  }

  lemma AnalyzeStep(before: ProtocolCounts, tail: seq<Message>)
    requires tail != []
    ensures before.Plus(FrontCounts(tail)).Plus(Analyzed(tail[Stepped(tail)..])) == before.Plus(Analyzed(tail))
  {
  }

  method AnalyzeToolProtocol(messages: seq<Message>) returns (counts: ProtocolCounts)
    ensures counts == Analyzed(messages)
  {
    hide *;
    counts := ProtocolCounts(0, 0);
    var i := 0;
    assert messages[0..] == messages;
    PlusZero(Analyzed(messages));
    while i < |messages|
      invariant 0 <= i <= |messages|
      invariant counts.Plus(Analyzed(messages[i..])) == Analyzed(messages)
    {
      var front, step := AnalyzeFront(messages, i);
      AnalyzeStep(counts, messages[i..]);
      assert messages[i..][step..] == messages[i + step..];
      counts := counts.Plus(front);
      i := i + step;
    }
    AnalyzedEmpty(messages[i..]);
    PlusZero(counts);
  }

  lemma PlusZero(c: ProtocolCounts)
    ensures ProtocolCounts(0, 0).Plus(c) == c.Plus(ProtocolCounts(0, 0)) == c
  {
  }

  lemma AnalyzedEmpty(ms: seq<Message>)
    requires ms == []
    ensures Analyzed(ms) == ProtocolCounts(0, 0)
  {
  }

  method AnalyzeFront(messages: seq<Message>, i: nat) returns (front: ProtocolCounts, step: nat)
    requires i < |messages|
    ensures front == FrontCounts(messages[i..]) && step == Stepped(messages[i..])
  {
    var message := messages[i];
    if message.role != Assistant || message.toolCalls == [] {
      return ProtocolCounts(0, if message.role == Tool then 1 else 0), 1;
    }
    var bundle := AnalyzeAssistantToolBundle(messages, i);
    if bundle.valid {
      return ProtocolCounts(0, 0), |bundle.orderedToolResults| + 1;
    }
    return ProtocolCounts(1, 0), 1;
  }

  /** Replay accepts exactly the well-formed histories; otherwise it says which half failed. */
  method AssertReplaySafeToolProtocol(messages: seq<Message>) returns (error: Option<string>)
    ensures error == None <==> WellFormed(messages)
  {
    var analysis := AnalyzeToolProtocol(messages);
    ReplaySafeIffWellFormed(messages);
    if analysis.orphanToolResultCount > 0 {
      return Some("orphan tool_result");
    }
    if analysis.invalidAssistantToolBundleCount > 0 {
      return Some("invalid assistant tool bundle");
    }
    return None;
  }

  lemma {:induction false} ReplaySafeIffWellFormed(ms: seq<Message>)
    ensures Analyzed(ms) == ProtocolCounts(0, 0) <==> WellFormed(ms)
    decreases |ms|
  {
    hide WellFormed, FrontCounts, Stepped;
    if ms == [] {
      PlainIsWellFormed(ms);
    } else {
      WellFormedFront(ms);
      ReplaySafeIffWellFormed(ms[Stepped(ms)..]);
    }
  }

  lemma WellFormedFront(ms: seq<Message>)
    requires ms != []
    ensures WellFormed(ms) <==> FrontCounts(ms) == ProtocolCounts(0, 0) && WellFormed(ms[Stepped(ms)..])
  {
  }

  // ----- what sanitising keeps of each message -----

  /** A user note that holds the id of a result, its tool and the first 500 characters of its text. */
  ghost predicate NotesResult(note: Message, m: Message) {
    && note.role == User && note.toolCalls == [] && note.checkpointId == None
    && Holds(note.content, if Trim(m.toolCallId) == "" then "(missing)" else Trim(m.toolCallId))
    && Holds(note.content, if m.name.Some? then m.name.value else "(unknown)")
    && Holds(note.content, if |m.content| <= 500 then m.content else m.content[..500])
  }

  /** A user note that holds every usable id of the dropped calls and how many results followed them. */
  ghost predicate NotesCalls(note: Message, m: Message, observed: nat) {
    && note.role == User && note.toolCalls == [] && note.checkpointId == None
    && (forall k :: 0 <= k < |m.toolCalls| && Trim(m.toolCalls[k].id) != "" ==> Holds(note.content, Trim(m.toolCalls[k].id)))
    && Holds(note.content, "observed_tool_results=" + Print(observed) + ".")
  }

  /** What may become of a message: it is kept, or without its calls, or a result is noted. */
  ghost predicate Carries(out: Message, m: Message) {
    out == m || (Calling(m) && out == m.(toolCalls := [])) || (m.role == Tool && NotesResult(out, m))
  }

  lemma HoldsParts(a: string, x: string, b: string, y: string, c: string, z: string, rest: string)
    ensures var s := a + x + (b + y + (c + (z + rest))); Holds(s, x) && Holds(s, y) && Holds(s, z)
  {
    hide Holds;
    var s := a + x + (b + y + (c + (z + rest)));
    HoldsBetween(a, x, b + y + (c + (z + rest)));
    HoldsBetween(a + x + b, y, c + (z + rest));
    HoldsBetween(a + x + b + y + c, z, rest);
    assert a + x + b + y + (c + (z + rest)) == s;
    assert a + x + b + y + c + z + rest == s;
  }

  lemma CutKeeps(text: string) returns (rest: string)
    ensures NoteCut(text) == (if |text| <= 500 then text else text[..500]) + rest
  {
    rest := if |text| <= 500 then "" else "...(truncated)";
  }

  lemma ResultNoted(m: Message)
    ensures NotesResult(OrphanResultNote(m), m)
  {
    hide Trim, Holds, NoteCut;
    var id := if Trim(m.toolCallId) == "" then "(missing)" else Trim(m.toolCallId);
    var name := if m.name.Some? then m.name.value else "(unknown)";
    var kept := if |m.content| <= 500 then m.content else m.content[..500];
    var rest := CutKeeps(m.content);
    HoldsParts("[TOOLCALL_FAILED] tool_call_id=", id, ", tool=", name, ". original_content=", kept, rest + ".");
    SameNote(m, ". original_content=", kept, rest);
  }

  lemma SameNote(m: Message, c: string, kept: string, rest: string)
    requires NoteCut(m.content) == kept + rest
    ensures c + NoteCut(m.content) + "." == c + (kept + (rest + "."))
  {
  }

  lemma {:induction false} IdsJoined(calls: seq<ToolCall>, k: nat)
    requires k < |calls| && Trim(calls[k].id) != ""
    ensures JoinedIds(calls) != "" && Holds(JoinedIds(calls), Trim(calls[k].id))
  {
    hide Trim, Holds;
    var n := |calls| - 1;
    var front, id := JoinedIds(calls[..n]), Trim(calls[n].id);
    if k < n {
      assert calls[..n][k] == calls[k];
      IdsJoined(calls[..n], k);
      HoldsWithin("", front, "", Trim(calls[k].id));
      HoldsWithin("", front, "," + id, Trim(calls[k].id));
      assert "" + front + ("," + id) == front + "," + id && "" + front + "" == front;
    } else {
      HoldsBetween("", id, "");
      HoldsBetween(front + ",", id, "");
      assert "" + id + "" == id && front + "," + id + "" == front + "," + id;
    }
  }

  lemma CallsNoted(m: Message, observed: nat)
    ensures NotesCalls(OrphanCallNote(m.toolCalls, observed), m, observed)
  {
    hide Trim, Holds, JoinedIds;
    var ids := if JoinedIds(m.toolCalls) == "" then "(missing)" else JoinedIds(m.toolCalls);
    var head, tail := "[TOOLCALL_FAILED] tool_call_ids=", ", observed_tool_results=" + Print(observed) + ".";
    var content := OrphanCallNote(m.toolCalls, observed).content;
    assert content == head + ids + tail;
    forall k | 0 <= k < |m.toolCalls| && Trim(m.toolCalls[k].id) != "" ensures Holds(content, Trim(m.toolCalls[k].id)) {
      IdsJoined(m.toolCalls, k);
      HoldsWithin(head, ids, tail, Trim(m.toolCalls[k].id));
    }
    var said := "observed_tool_results=" + Print(observed) + ".";
    HoldsBetween(head + ids + ", ", said, "");
    assert head + ids + ", " + said + "" == content;
  }

  ghost predicate Stems(out: Message, m: Message) {
    Carries(out, m) || (Calling(m) && exists observed: nat :: NotesCalls(out, m, observed))
  }

  ghost predicate IsCarried(m: Message, out: seq<Message>) {
    exists j :: 0 <= j < |out| && Carries(out[j], m)
  }

  ghost predicate StemsFrom(out: Message, ms: seq<Message>) {
    exists i :: 0 <= i < |ms| && Stems(out, ms[i])
  }

  /** Every message of `ms` is carried by one of `out`, and each of `out` carries one or notes the calls of one. */
  ghost predicate CarriesAll(out: seq<Message>, ms: seq<Message>) {
    && (forall i :: 0 <= i < |ms| ==> IsCarried(ms[i], out))
    && forall j :: 0 <= j < |out| ==> StemsFrom(out[j], ms)
  }

  lemma CarriedInMore(m: Message, out: seq<Message>, out': seq<Message>)
    ensures IsCarried(m, out) || IsCarried(m, out') ==> IsCarried(m, out + out')
  {
    hide Carries;
    if IsCarried(m, out) {
      var j :| 0 <= j < |out| && Carries(out[j], m);
      assert (out + out')[j] == out[j];
    } else if IsCarried(m, out') {
      var j :| 0 <= j < |out'| && Carries(out'[j], m);
      assert (out + out')[|out| + j] == out'[j];
    }
  }

  lemma StemsInMore(m: Message, ms: seq<Message>, ms': seq<Message>)
    ensures StemsFrom(m, ms) || StemsFrom(m, ms') ==> StemsFrom(m, ms + ms')
  {
    hide Stems;
    if StemsFrom(m, ms) {
      var j :| 0 <= j < |ms| && Stems(m, ms[j]);
      assert (ms + ms')[j] == ms[j];
    } else if StemsFrom(m, ms') {
      var j :| 0 <= j < |ms'| && Stems(m, ms'[j]);
      assert (ms + ms')[|ms| + j] == ms'[j];
    }
  }

  lemma CarriesBoth(out: seq<Message>, ms: seq<Message>, out': seq<Message>, ms': seq<Message>)
    requires CarriesAll(out, ms) && CarriesAll(out', ms')
    ensures CarriesAll(out + out', ms + ms')
  {
    hide IsCarried, StemsFrom;
    forall i | 0 <= i < |ms + ms'| ensures IsCarried((ms + ms')[i], out + out') {
      CarriedInMore((ms + ms')[i], out, out');
    }
    forall j | 0 <= j < |out + out'| ensures StemsFrom((out + out')[j], ms + ms') {
      StemsInMore((out + out')[j], ms, ms');
    }
  }

  lemma CarriedItself(out: seq<Message>, j: nat)
    requires j < |out|
    ensures IsCarried(out[j], out) && StemsFrom(out[j], out)
  {
    hide NotesResult, NotesCalls;
    assert Carries(out[j], out[j]);
    assert Stems(out[j], out[j]);
  }

  lemma EachCarried(out: seq<Message>, ms: seq<Message>)
    requires forall j :: 0 <= j < |out| ==> out[j] in ms
    requires forall i :: 0 <= i < |ms| ==> ms[i] in out
    ensures CarriesAll(out, ms)
  {
    hide IsCarried, StemsFrom;
    forall i | 0 <= i < |ms| ensures IsCarried(ms[i], out) {
      assert ms[i] in out;
      var j :| 0 <= j < |out| && out[j] == ms[i];
      CarriedItself(out, j);
    }
    forall j | 0 <= j < |out| ensures StemsFrom(out[j], ms) {
      assert out[j] in ms;
      var i :| 0 <= i < |ms| && ms[i] == out[j];
      CarriedItself(ms, i);
    }
  }

  lemma OrderedCarries(calls: seq<ToolCall>, results: seq<Message>)
    requires Answers(calls, results)
    ensures CarriesAll(Ordered(calls, results), results)
  {
    hide CarriesAll;
    var ordered := Ordered(calls, results);
    forall i | 0 <= i < |results| ensures results[i] in ordered {
      var j := EachOrdered(calls, results, i);
      assert ordered[j] == results[i];
    }
    EachCarried(ordered, results);
  }

  lemma ClosedFrontCarries(ms: seq<Message>)
    requires ClosedBundle(ms)
    ensures CarriesAll(SanitizedFront(ms).messages, ms[..Taken(ms)])
  {
    hide CarriesAll;
    var calls, results := ms[0].toolCalls, ms[1..|ms[0].toolCalls| + 1];
    OrderedCarries(calls, results);
    EachCarried([ms[0]], [ms[0]]);
    CarriesBoth([ms[0]], [ms[0]], Ordered(calls, results), results);
    assert ms[..Taken(ms)] == [ms[0]] + results;
  }

  /** Every result of a closed bundle has its place behind the turn. */
  lemma EachOrdered(calls: seq<ToolCall>, results: seq<Message>, i: nat) returns (j: nat)
    requires Answers(calls, results) && i < |results|
    ensures j < |calls| && Ordered(calls, results)[j] == results[i]
  {
    var id := ResultIds(results)[i];
    assert id in CallIds(calls);
    j :| 0 <= j < |calls| && CallIds(calls)[j] == id;
    EveryCallAnswered(calls, results);
    ResultForAt(results, i);
  }

  lemma FrontCarries(ms: seq<Message>)
    requires ms != []
    ensures CarriesAll(SanitizedFront(ms).messages, ms[..Taken(ms)])
  {
    if ClosedBundle(ms) {
      ClosedFrontCarries(ms);
    } else if Calling(ms[0]) {
      OpenFrontCarries(ms);
    } else {
      hide ClosedBundle, CarriesAll, OrphanResultNote;
      assert ms[..1] == [ms[0]];
      if ms[0].role == Tool {
        ResultNoted(ms[0]);
        OneCarried(OrphanResultNote(ms[0]), ms[0]);
      } else {
        EachCarried([ms[0]], [ms[0]]);
      }
    }
  }

  lemma OneCarried(out: Message, m: Message)
    requires Carries(out, m)
    ensures CarriesAll([out], [m])
  {
    hide Carries, NotesCalls;
    assert [out][0] == out && [m][0] == m;
    assert Stems(out, m);
  }

  lemma NotesCarry(notes: seq<Message>, ms: seq<Message>)
    requires |notes| == |ms| && forall i :: 0 <= i < |ms| ==> ms[i].role == Tool && NotesResult(notes[i], ms[i])
    ensures CarriesAll(notes, ms)
  {
    hide NotesResult, NotesCalls;
    forall i | 0 <= i < |ms| ensures Carries(notes[i], ms[i]) && Stems(notes[i], ms[i]) {
    }
    hide Carries, Stems;
  }

  lemma OpenFrontCarries(ms: seq<Message>)
    requires ms != [] && Calling(ms[0]) && !ClosedBundle(ms)
    ensures CarriesAll(SanitizedFront(ms).messages, ms[..Taken(ms)])
  {
    hide ClosedBundle, CarriesAll, NotesResult, NotesCalls, OrphanCallNote, OrphanResultNote;
    var n := Taken(ms);
    var results := ms[1..n];
    CallsNoted(ms[0], n - 1);
    TurnCarries(ms[0], n - 1);
    forall i | 0 <= i < |results| ensures NotesResult(OrphanResultNotes(results)[i], results[i]) {
      ResultNoted(results[i]);
    }
    NotesCarry(OrphanResultNotes(results), results);
    CarriesBoth([ms[0].(toolCalls := []), OrphanCallNote(ms[0].toolCalls, n - 1)], [ms[0]], OrphanResultNotes(results), results);
    assert ms[..n] == [ms[0]] + results;
  }

  lemma TurnCarries(m: Message, observed: nat)
    requires Calling(m) && NotesCalls(OrphanCallNote(m.toolCalls, observed), m, observed)
    ensures CarriesAll([m.(toolCalls := []), OrphanCallNote(m.toolCalls, observed)], [m])
  {
    hide NotesResult, NotesCalls, OrphanCallNote;
    var out := [m.(toolCalls := []), OrphanCallNote(m.toolCalls, observed)];
    assert Carries(out[0], m) && Stems(out[0], [m][0]) && Stems(out[1], [m][0]);
    hide Carries, Stems;
    assert forall j :: 0 <= j < |out| ==> Stems(out[j], [m][0]);
  }

  /**
   * Sanitising keeps what every message says: it is kept, or loses only its calls, or a result is noted with its id, its
   * tool and the first 500 characters of its text. And it says nothing else but which calls were dropped.
   */
  lemma {:induction false} SanitizedCarries(ms: seq<Message>)
    ensures CarriesAll(Sanitized(ms).messages, ms)
    decreases |ms|
  {
    hide CarriesAll, SanitizedFront, Taken;
    if ms == [] {
      EachCarried([], []);
    } else {
      var n := Taken(ms);
      FrontCarries(ms);
      SanitizedCarries(ms[n..]);
      CarriesBoth(SanitizedFront(ms).messages, ms[..n], Sanitized(ms[n..]).messages, ms[n..]);
      SanitizedInTwo(ms);
      assert ms == ms[..n] + ms[n..];
    }
  }

  // ----- what the counters count -----

  function Results(ms: seq<Message>): nat {
    if ms == [] then 0 else (if ms[0].role == Tool then 1 else 0) + Results(ms[1..])
  }

  function Callers(ms: seq<Message>): nat {
    if ms == [] then 0 else (if Calling(ms[0]) then 1 else 0) + Callers(ms[1..])
  }

  lemma {:induction false} CountsConcat(a: seq<Message>, b: seq<Message>)
    ensures Results(a + b) == Results(a) + Results(b) && Callers(a + b) == Callers(a) + Callers(b)
  {
    if a == [] {
      assert a + b == b;
    } else {
      assert (a + b)[1..] == a[1..] + b;
      CountsConcat(a[1..], b);
    }
  }

  lemma {:induction false} CountsOfTools(ms: seq<Message>)
    requires forall i :: 0 <= i < |ms| ==> ms[i].role == Tool
    ensures Results(ms) == |ms| && Callers(ms) == 0
  {
    if ms != [] {
      CountsOfTools(ms[1..]);
    }
  }

  lemma {:induction false} CountsOfPlain(ms: seq<Message>)
    requires forall i :: 0 <= i < |ms| ==> ms[i].role != Tool && !Calling(ms[i])
    ensures Results(ms) == 0 && Callers(ms) == 0
  {
    if ms != [] {
      CountsOfPlain(ms[1..]);
    }
  }

  lemma CountsOfOne(m: Message)
    ensures Results([m]) == (if m.role == Tool then 1 else 0) && Callers([m]) == if Calling(m) then 1 else 0
  {
    assert [m][1..] == [];
  }

  /** The counters are the results and calling turns that are there before and not after. */
  lemma {:induction false} CorrectionsCounted(ms: seq<Message>)
    ensures var s := Sanitized(ms);
            && s.orphanToolResultFixed == Results(ms) - Results(s.messages)
            && s.orphanToolCallFixed == Callers(ms) - Callers(s.messages)
    decreases |ms|
  {
    hide Taken, SanitizedFront, Results, Callers;
    if ms != [] {
      var n := Taken(ms);
      CorrectionsCounted(ms[n..]);
      FrontCounted(ms);
      SanitizedInTwo(ms);
      CountsConcat(ms[..n], ms[n..]);
      assert ms[..n] + ms[n..] == ms;
      CountsConcat(SanitizedFront(ms).messages, Sanitized(ms[n..]).messages);
    }
  }

  lemma FrontCounted(ms: seq<Message>)
    requires ms != []
    ensures var s := SanitizedFront(ms);
            && s.orphanToolResultFixed == Results(ms[..Taken(ms)]) - Results(s.messages)
            && s.orphanToolCallFixed == Callers(ms[..Taken(ms)]) - Callers(s.messages)
  {
    hide Results, Callers;
    var n := Taken(ms);
    assert ms[..n] == [ms[0]] + ms[1..n];
    CountsConcat([ms[0]], ms[1..n]);
    CountsOfOne(ms[0]);
    if ClosedBundle(ms) {
      ClosedFrontCounted(ms);
    } else if Calling(ms[0]) {
      hide ClosedBundle, OrphanResultNote, OrphanCallNote;
      var out := SanitizedFront(ms).messages;
      CountsOfTools(ms[1..n]);
      NotesArePlain(ms, n);
      CountsOfPlain(out);
    } else {
      assert ms[1..n] == [];
      CountsOfTools(ms[1..n]);
      CountsOfOne(OrphanResultNote(ms[0]));
    }
  }

  lemma NotesArePlain(ms: seq<Message>, n: nat)
    requires ms != [] && 1 <= n <= |ms| && Calling(ms[0])
    ensures var out := [ms[0].(toolCalls := []), OrphanCallNote(ms[0].toolCalls, n - 1)] + OrphanResultNotes(ms[1..n]);
            forall i :: 0 <= i < |out| ==> out[i].role != Tool && !Calling(out[i])
  {
  }

  lemma ClosedFrontCounted(ms: seq<Message>)
    requires ClosedBundle(ms)
    ensures var n := |ms[0].toolCalls| + 1;
            && Results(SanitizedFront(ms).messages) == Results([ms[0]]) + Results(ms[1..n])
            && Callers(SanitizedFront(ms).messages) == Callers([ms[0]]) + Callers(ms[1..n])
  {
    hide Results, Callers;
    var results := ms[1..|ms[0].toolCalls| + 1];
    CountsConcat([ms[0]], BundleResults(ms));
    EveryCallAnswered(ms[0].toolCalls, results);
    CountsOfTools(results);
    CountsOfTools(BundleResults(ms));
  }

  /** What the replay check finds wrong is just what sanitising corrects. */
  lemma {:induction false} FoundIsCorrected(ms: seq<Message>)
    ensures var found, s := Analyzed(ms), Sanitized(ms);
            && found.invalidAssistantToolBundleCount == s.orphanToolCallFixed
            && found.orphanToolResultCount == s.orphanToolResultFixed
    decreases |ms|
  {
    if ms != [] {
      hide ClosedBundle, OrphanResultNote, OrphanCallNote, OrphanResultNotes, BundleResults;
      var n := Taken(ms);
      FoundIsCorrected(ms[n..]);
      if !ClosedBundle(ms) && Calling(ms[0]) {
        RunFound(ms[1..], n - 1);
        assert ms[1..][n - 1..] == ms[n..];
      }
    }
  }

  /** Results that no turn in front of them calls for are found one by one. */
  lemma {:induction false} RunFound(ms: seq<Message>, n: nat)
    requires n <= |ms| && forall i :: 0 <= i < n ==> ms[i].role == Tool
    ensures Analyzed(ms) == ProtocolCounts(0, n).Plus(Analyzed(ms[n..]))
  {
    hide ClosedBundle;
    if n > 0 {
      RunFound(ms[1..], n - 1);
      assert ms[1..][n - 1..] == ms[n..];
      ToolStarts(ms);
    } else {
      assert ms[0..] == ms;
    }
  }

  lemma ToolStarts(ms: seq<Message>)
    requires ms != [] && ms[0].role == Tool
    ensures !ClosedBundle(ms) && !Calling(ms[0])
  {
  }
}
