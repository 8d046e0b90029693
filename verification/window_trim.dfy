/**
 * Cutting a history down to a character budget: `trimMessagesForContextWindow` of
 * src/llm/message-preparation.ts. The size of a message is a parameter.
 */
module WindowTrim {
  import opened Messages
  import opened Numbers
  import opened Text
  import opened ToolProtocol

  datatype TrimOptions = TrimOptions(maxTotalChars: int, keepLatestCount: int, maxToolChars: int, maxNonToolChars: int)

  datatype TrimResult = TrimResult(messages: seq<Message>, removedCount: nat)

  function TotalChars(size: Message -> nat, ms: seq<Message>): nat {
    if ms == [] then 0 else size(ms[0]) + TotalChars(size, ms[1..])
  }

  function TruncateText(value: string, maxChars: int): string {
    if |value| <= maxChars then value
    else
      var kept := Min(|value|, Max(0, maxChars - 64));
      value[..kept] + "\n...[CONTEXT_TRUNCATED removed_chars=" + Print(|value| - kept) + "]"
  }

  /** Only the text of a message is shortened; its protocol fields stay. */
  function Normalized(m: Message, options: TrimOptions): Message {
    m.(content := TruncateText(m.content, if m.role == Tool then options.maxToolChars else options.maxNonToolChars))
  }

  function NormalizedAll(ms: seq<Message>, options: TrimOptions): (r: seq<Message>)
    ensures |r| == |ms| && forall i :: 0 <= i < |ms| ==> r[i] == Normalized(ms[i], options)
  {
    seq(|ms|, i requires 0 <= i < |ms| => Normalized(ms[i], options))
  }

  predicate HasSystem(ms: seq<Message>) {
    ms != [] && ms[0].role == System
  }

  function Body(ms: seq<Message>): seq<Message> {
    if HasSystem(ms) then ms[1..] else ms
  }

  function SystemPart(ms: seq<Message>): seq<Message> {
    if HasSystem(ms) then ms[..1] else []
  }

  const NOTICE_RESERVE := 220

  function ContentBudget(size: Message -> nat, ms: seq<Message>, options: TrimOptions): int {
    Max(1000, options.maxTotalChars - TotalChars(size, SystemPart(ms)) - NOTICE_RESERVE)
  }

  function LatestChars(size: Message -> nat, ms: seq<Message>, k: nat): nat
    requires k <= |ms|
  {
    TotalChars(size, ms[|ms| - k..])
  }

  /** Every message of the last `k` was within the guaranteed count or still fitted the budget. */
  ghost predicate Fits(size: Message -> nat, ms: seq<Message>, keep: int, budget: int, k: nat)
    requires k <= |ms|
  {
    forall j :: 1 <= j <= k ==> j <= keep || LatestChars(size, ms, j) <= budget
  }

  /** How many of the last messages fit, when the last `k` do. */
  function Fitting(size: Message -> nat, ms: seq<Message>, keep: int, budget: int, k: nat): (n: nat)
    requires k <= |ms|
    ensures k <= n <= |ms|
    decreases |ms| - k
  {
    if k < |ms| && (k + 1 <= keep || LatestChars(size, ms, k + 1) <= budget) then Fitting(size, ms, keep, budget, k + 1) else k
  }

  lemma {:induction false} FittingFits(size: Message -> nat, ms: seq<Message>, keep: int, budget: int, k: nat)
    requires k <= |ms| && Fits(size, ms, keep, budget, k)
    ensures var n := Fitting(size, ms, keep, budget, k);
            Fits(size, ms, keep, budget, n) && (n < |ms| ==> !Fits(size, ms, keep, budget, n + 1))
    decreases |ms| - k
  {
    hide LatestChars;
    if k < |ms| && (k + 1 <= keep || LatestChars(size, ms, k + 1) <= budget) {
      FittingFits(size, ms, keep, budget, k + 1);
    }
  }

  lemma FitsShorter(size: Message -> nat, ms: seq<Message>, keep: int, budget: int, n: nat, m: nat)
    requires m <= |ms| && n <= |ms| && Fits(size, ms, keep, budget, n)
    ensures m <= n ==> Fits(size, ms, keep, budget, m)
  {
  }

  /** There is only one longest fitting number. */
  lemma LongestFitUnique(size: Message -> nat, ms: seq<Message>, keep: int, budget: int, m: nat, n: nat)
    requires m <= |ms| && n <= |ms| && Fits(size, ms, keep, budget, m) && Fits(size, ms, keep, budget, n)
    requires m < |ms| ==> !Fits(size, ms, keep, budget, m + 1)
    requires n < |ms| ==> !Fits(size, ms, keep, budget, n + 1)
    ensures m == n
  {
    if m < |ms| {
      FitsShorter(size, ms, keep, budget, n, m + 1);
    }
    if n < |ms| {
      FitsShorter(size, ms, keep, budget, m, n + 1);
    }
  }

  function Notice(removed: nat, retained: nat): Message {
    Plain(Assistant, "[CONTEXT_WINDOW_GUARD] removed_messages=" + Print(removed) + ", retained_messages=" + Print(retained))
  }

  /** The longest fitting suffix, found from the end. */
  method SelectLatest(content: seq<Message>, keep: int, budget: int, size: Message -> nat)
    returns (selected: seq<Message>)
    ensures |selected| <= |content| && selected == content[|content| - |selected|..]
    ensures Fits(size, content, keep, budget, |selected|)
    ensures |selected| < |content| ==> !Fits(size, content, keep, budget, |selected| + 1)
    ensures |selected| == Fitting(size, content, keep, budget, 0)
  {
    selected := [];
    var selectedChars := 0;
    var i := |content|;
    while i > 0
      invariant 0 <= i <= |content|
      invariant selected == content[i..] && selectedChars == TotalChars(size, selected)
      invariant Fits(size, content, keep, budget, |content| - i)
      invariant Fitting(size, content, keep, budget, |content| - i) == Fitting(size, content, keep, budget, 0)
    {
      var candidate := content[i - 1];
      assert content[i - 1..] == [candidate] + content[i..];
      assert LatestChars(size, content, |content| - i + 1) == size(candidate) + selectedChars by {
        assert ([candidate] + content[i..])[1..] == content[i..];
      }
      if !(|selected| < keep || selectedChars + size(candidate) <= budget) {
        break;
      }
      selected := [candidate] + selected;
      selectedChars := selectedChars + size(candidate);
      i := i - 1;
    }
  }

  /** The system message, a notice of what went, and the last `k` messages of the content. */
  function TrimWith(messages: seq<Message>, content: seq<Message>, k: nat): TrimResult
    requires k <= |content|
  {
    var removed := |content| - k;
    TrimResult(SystemPart(messages) + (if removed > 0 then [Notice(removed, k)] else []) + content[removed..], removed)
  }

  /**
   * A history within the limit is returned as it is. Otherwise the longest fitting suffix of
   * the shortened messages survives behind the system message and a notice of what went.
   */
  ghost predicate IsTrim(messages: seq<Message>, options: TrimOptions, size: Message -> nat, r: TrimResult) {
    if messages == [] || TotalChars(size, messages) <= options.maxTotalChars then r == TrimResult(messages, 0)
    else
      var content := NormalizedAll(Body(messages), options);
      var budget := ContentBudget(size, messages, options);
      var k := |content| - r.removedCount;
      && 0 <= k
      && Fits(size, content, options.keepLatestCount, budget, k)
      && (k < |content| ==> !Fits(size, content, options.keepLatestCount, budget, k + 1))
      && r == TrimWith(messages, content, k)
  }

  /** The trimmed history as a function of what is trimmed. */
  function Trimmed(messages: seq<Message>, options: TrimOptions, size: Message -> nat): TrimResult {
    if messages == [] || TotalChars(size, messages) <= options.maxTotalChars then TrimResult(messages, 0)
    else
      var content := NormalizedAll(Body(messages), options);
      var k := Fitting(size, content, options.keepLatestCount, ContentBudget(size, messages, options), 0);
      TrimWith(messages, content, k)
  }

  /** The description of a trim fits exactly one result. */
  lemma IsTrimIff(messages: seq<Message>, options: TrimOptions, size: Message -> nat, r: TrimResult)
    ensures IsTrim(messages, options, size, r) <==> r == Trimmed(messages, options, size)
  {
    hide Fits, NormalizedAll, ContentBudget, Body, TotalChars, LatestChars, Fitting, TrimWith;
    if messages != [] && TotalChars(size, messages) > options.maxTotalChars {
      var content := NormalizedAll(Body(messages), options);
      var budget := ContentBudget(size, messages, options);
      NothingFits(size, content, options.keepLatestCount, budget);
      FittingFits(size, content, options.keepLatestCount, budget, 0);
      TrimWithRemoves(messages, content, Fitting(size, content, options.keepLatestCount, budget, 0));
      if IsTrim(messages, options, size, r) {
        LongestFitUnique(size, content, options.keepLatestCount, budget, |content| - r.removedCount,
                         Fitting(size, content, options.keepLatestCount, budget, 0));
      }
    }
  }

  lemma TrimWithRemoves(messages: seq<Message>, content: seq<Message>, k: nat)
    requires k <= |content|
    ensures TrimWith(messages, content, k).removedCount == |content| - k
  {
  }

  lemma NothingFits(size: Message -> nat, ms: seq<Message>, keep: int, budget: int)
    ensures Fits(size, ms, keep, budget, 0)
  {
  }

  method TrimMessagesForContextWindow(messages: seq<Message>, options: TrimOptions, size: Message -> nat)
    returns (r: TrimResult)
    ensures r == Trimmed(messages, options, size)
    ensures TrimLeaves(messages, options, size, r)
  {
    hide *;
    TrimmedIs(messages, options, size);
    if |messages| == 0 || TotalChars(size, messages) <= options.maxTotalChars {
      TrimmedLeaves(messages, options, size);
      return TrimResult(messages, 0);
    }
    var content := NormalizedAll(Body(messages), options);
    var contentBudget := ContentBudget(size, messages, options);
    var selected := SelectLatest(content, options.keepLatestCount, contentBudget, size);
    var removedCount := |content| - |selected|;
    var notice := if removedCount > 0 then [Notice(removedCount, |selected|)] else [];
    r := TrimResult(SystemPart(messages) + notice + selected, removedCount);
    TrimWithIs(messages, content, selected);
    TrimmedLeaves(messages, options, size);
  }

  lemma TrimmedIs(messages: seq<Message>, options: TrimOptions, size: Message -> nat)
    ensures if messages == [] || TotalChars(size, messages) <= options.maxTotalChars
            then Trimmed(messages, options, size) == TrimResult(messages, 0)
            else var content := NormalizedAll(Body(messages), options);
                 var k := Fitting(size, content, options.keepLatestCount, ContentBudget(size, messages, options), 0);
                 Trimmed(messages, options, size) == TrimWith(messages, content, k)
  {
  }

  lemma TrimWithIs(messages: seq<Message>, content: seq<Message>, selected: seq<Message>)
    requires |selected| <= |content| && selected == content[|content| - |selected|..]
    ensures var removed := |content| - |selected|;
            var notice := if removed > 0 then [Notice(removed, |selected|)] else [];
            TrimWith(messages, content, |selected|) == TrimResult(SystemPart(messages) + notice + selected, removed)
  {
    hide SystemPart, Notice;
  }

  /**
   * What the fitting suffix means: if messages were dropped, the guaranteed number of latest
   * ones survived, and every survivor beyond that number is within the budget.
   */
  lemma FittingSuffix(size: Message -> nat, ms: seq<Message>, keep: int, budget: int, k: nat)
    requires k < |ms| && Fits(size, ms, keep, budget, k) && !Fits(size, ms, keep, budget, k + 1)
    ensures keep <= k && LatestChars(size, ms, k + 1) > budget
    ensures 0 < k && keep < k ==> LatestChars(size, ms, k) <= budget
  {
    var j :| 1 <= j <= k + 1 && !(j <= keep || LatestChars(size, ms, j) <= budget);
    assert j == k + 1;
  }

  // ----- the trim told by what is in and what comes out -----

  /** A text over the cap keeps its front, 64 characters under the cap, and says how many went. */
  ghost predicate IsShortened(text: string, cap: int, out: string) {
    var kept := if cap < 64 then 0 else cap - 64;
    if |text| <= cap then out == text
    else
      && kept <= |text| && |out| >= kept && out[..kept] == text[..kept]
      && out[kept..] == "\n...[CONTEXT_TRUNCATED removed_chars=" + Print(|text| - kept) + "]"
  }

  /** The same message, with its text shortened under the cap of its role. */
  ghost predicate Survives(out: Message, m: Message, options: TrimOptions) {
    && out == m.(content := out.content)
    && IsShortened(m.content, if m.role == Tool then options.maxToolChars else options.maxNonToolChars, out.content)
  }

  ghost predicate SurviveAll(out: seq<Message>, ms: seq<Message>, options: TrimOptions) {
    |out| == |ms| && forall i :: 0 <= i < |ms| ==> Survives(out[i], ms[i], options)
  }

  ghost predicate IsGuard(m: Message, removed: nat, retained: nat) {
    && m.role == Assistant && m.toolCalls == []
    && m.content == "[CONTEXT_WINDOW_GUARD] removed_messages=" + Print(removed) + ", retained_messages=" + Print(retained)
  }

  /** Nothing is left to say about a history within the limit; behind the system part of a longer one only the last messages survive. */
  ghost predicate TrimLeaves(messages: seq<Message>, options: TrimOptions, size: Message -> nat, r: TrimResult) {
    if messages == [] || TotalChars(size, messages) <= options.maxTotalChars then r.messages == messages && r.removedCount == 0
    else CutLeaves(messages, if messages[0].role == System then 1 else 0, options, size, r)
  }

  ghost predicate CutLeaves(messages: seq<Message>, system: nat, options: TrimOptions, size: Message -> nat, r: TrimResult)
    requires system <= 1 <= |messages|
  {
    var front, behind := system + r.removedCount, if r.removedCount > 0 then system + 1 else system;
    && front <= |messages| && behind <= |r.messages| && r.messages[..system] == messages[..system]
    && (r.removedCount > 0 ==> IsGuard(r.messages[system], r.removedCount, |messages| - front))
    && SurviveAll(r.messages[behind..], messages[front..], options)
    && FillsBudget(messages, system, front, r.messages[behind..], options, size)
  }

  /**
   * More than the guaranteed number survive only within the budget; and if any went, the guaranteed number survive and
   * the last of those that went would have burst the budget.
   */
  ghost predicate FillsBudget(messages: seq<Message>, system: nat, front: nat, latest: seq<Message>, options: TrimOptions,
                              size: Message -> nat)
    requires system <= 1 <= |messages| && system <= front <= |messages|
  {
    var room := options.maxTotalChars - (if system == 0 then 0 else size(messages[0])) - 220;
    var budget := if room < 1000 then 1000 else room;
    && (latest != [] && |latest| > options.keepLatestCount ==> TotalChars(size, latest) <= budget)
    && (front > system ==>
          && options.keepLatestCount <= |latest|
          && exists gone :: Survives(gone, messages[front - 1], options) && size(gone) + TotalChars(size, latest) > budget)
  }

  lemma ShortenedIs(text: string, cap: int)
    ensures IsShortened(text, cap, TruncateText(text, cap))
  {
  }

  lemma NormalizedSurvive(ms: seq<Message>, options: TrimOptions)
    ensures SurviveAll(NormalizedAll(ms, options), ms, options)
  {
    forall i | 0 <= i < |ms| ensures Survives(Normalized(ms[i], options), ms[i], options) {
      hide TruncateText, IsShortened;
      ShortenedIs(ms[i].content, if ms[i].role == Tool then options.maxToolChars else options.maxNonToolChars);
    }
  }

  /** What a trim leaves, without the shortened body or the fitting number. */
  lemma TrimmedLeaves(messages: seq<Message>, options: TrimOptions, size: Message -> nat)
    ensures TrimLeaves(messages, options, size, Trimmed(messages, options, size))
  {
    hide Fits, Fitting, TotalChars, NormalizedAll, TrimWith, CutLeaves, ContentBudget;
    if messages != [] && TotalChars(size, messages) > options.maxTotalChars {
      var content, budget := NormalizedAll(Body(messages), options), ContentBudget(size, messages, options);
      NormalizedSurvive(Body(messages), options);
      NothingFits(size, content, options.keepLatestCount, budget);
      FittingFits(size, content, options.keepLatestCount, budget, 0);
      CutLeavesWhatFits(messages, content, Fitting(size, content, options.keepLatestCount, budget, 0), options, size);
    }
  }

  lemma CutLeavesWhatFits(messages: seq<Message>, content: seq<Message>, k: nat, options: TrimOptions, size: Message -> nat)
    requires messages != [] && SurviveAll(content, Body(messages), options) && k <= |content|
    requires Fits(size, content, options.keepLatestCount, ContentBudget(size, messages, options), k)
    requires k < |content| ==> !Fits(size, content, options.keepLatestCount, ContentBudget(size, messages, options), k + 1)
    ensures CutLeaves(messages, if messages[0].role == System then 1 else 0, options, size, TrimWith(messages, content, k))
  {
    hide Fits, SurviveAll, TotalChars, TrimWith, FillsBudget, IsGuard;
    var system := if messages[0].role == System then 1 else 0;
    assert Body(messages) == messages[system..];
    SystemSize(messages, size);
    TrimWithLeaves(messages, system, content, k, options);
    SurviveLength(content, messages[system..], options);
    KeptFillBudget(messages, system, content, k, options, size, ContentBudget(size, messages, options));
  }

  lemma SurviveLength(out: seq<Message>, ms: seq<Message>, options: TrimOptions)
    requires SurviveAll(out, ms, options)
    ensures |out| == |ms|
  {
  }

  lemma TrimWithLeaves(messages: seq<Message>, system: nat, content: seq<Message>, k: nat, options: TrimOptions)
    requires messages != [] && system == (if messages[0].role == System then 1 else 0)
    requires SurviveAll(content, messages[system..], options) && k <= |content|
    ensures var r, removed := TrimWith(messages, content, k), |content| - k;
            var behind := if removed > 0 then system + 1 else system;
            && r.removedCount == removed && behind <= |r.messages| && r.messages[..system] == messages[..system]
            && (removed > 0 ==> IsGuard(r.messages[system], removed, k))
            && r.messages[behind..] == content[removed..]
            && SurviveAll(content[removed..], messages[system + removed..], options)
  {
    hide Survives;
    var r, removed := TrimWith(messages, content, k), |content| - k;
    SurviveSuffix(content, messages[system..], options, removed);
    assert messages[system..][removed..] == messages[system + removed..];
    assert SystemPart(messages) == messages[..system];
  }

  lemma SystemSize(messages: seq<Message>, size: Message -> nat)
    requires messages != []
    ensures TotalChars(size, SystemPart(messages)) == if messages[0].role == System then size(messages[0]) else 0
  {
    if messages[0].role == System {
      assert SystemPart(messages) == [messages[0]];
      assert [messages[0]][1..] == [];
    }
  }

  lemma SurviveSuffix(out: seq<Message>, ms: seq<Message>, options: TrimOptions, at: nat)
    requires SurviveAll(out, ms, options) && at <= |ms|
    ensures SurviveAll(out[at..], ms[at..], options)
  {
    hide Survives;
  }

  lemma KeptFillBudget(messages: seq<Message>, system: nat, content: seq<Message>, k: nat, options: TrimOptions,
                       size: Message -> nat, budget: int)
    requires system <= 1 <= |messages| && SurviveAll(content, messages[system..], options) && k <= |content|
    requires budget == Max(1000, options.maxTotalChars - (if system == 0 then 0 else size(messages[0])) - NOTICE_RESERVE)
    requires Fits(size, content, options.keepLatestCount, budget, k)
    requires k < |content| ==> !Fits(size, content, options.keepLatestCount, budget, k + 1)
    ensures FillsBudget(messages, system, system + |content| - k, content[|content| - k..], options, size)
  {
    hide Survives, TotalChars;
    var front, latest := system + |content| - k, content[|content| - k..];
    if k > 0 && k > options.keepLatestCount {
      assert LatestChars(size, content, k) <= budget;
    }
    if k < |content| {
      FittingSuffix(size, content, options.keepLatestCount, budget, k);
      var gone := content[|content| - k - 1];
      assert content[|content| - k - 1..] == [gone] + latest;
      OneMore(size, gone, latest);
      assert messages[system..][|content| - k - 1] == messages[front - 1];
      assert Survives(gone, messages[front - 1], options);
    }
  }

  lemma OneMore(size: Message -> nat, m: Message, ms: seq<Message>)
    ensures TotalChars(size, [m] + ms) == size(m) + TotalChars(size, ms)
  {
    assert ([m] + ms)[1..] == ms;
  }

  // ----- the tool protocol across a trim -----

  lemma NormalizingKeepsProtocol(ms: seq<Message>, options: TrimOptions)
    ensures WellFormed(NormalizedAll(ms, options)) <==> WellFormed(ms)
  {
    hide WellFormed;
    SameFieldsSameProtocol(ms, NormalizedAll(ms, options));
  }

  /** Whether a trim is well-formed depends on what it keeps of the body only. */
  lemma TrimOfSuffix(ms: seq<Message>, options: TrimOptions, size: Message -> nat, r: TrimResult)
    requires IsTrim(ms, options, size, r)
    ensures r.removedCount <= |Body(ms)|
    ensures WellFormed(r.messages) <==> WellFormed(Body(ms)[r.removedCount..])
  {
    TrimShape(ms, options, size, r);
    var content := NormalizedAll(Body(ms), options);
    NormalizedRole(Body(ms), options, 0);
    NormalizedSuffix(Body(ms), options, r.removedCount);
    NormalizingKeepsProtocol(Body(ms)[r.removedCount..], options);
    SystemPartIsPlain(ms);
    hide *;
    if r.removedCount > 0 {
      NoticeIsPlain(r.removedCount, |content| - r.removedCount);
      InsertedBefore(SystemPart(ms), Notice(r.removedCount, |content| - r.removedCount), content[r.removedCount..]);
    } else {
      assert content[0..] == content && Body(ms)[0..] == Body(ms);
      SystemSplits(ms, Body(ms));
      SystemSplits(ms, content);
      SystemThenBody(ms);
    }
  }

  lemma NormalizedSuffix(ms: seq<Message>, options: TrimOptions, at: nat)
    requires at <= |ms|
    ensures NormalizedAll(ms, options)[at..] == NormalizedAll(ms[at..], options)
  {
  }

  lemma SystemThenBody(ms: seq<Message>)
    ensures SystemPart(ms) + Body(ms) == ms
  {
  }

  /** A system message in front neither helps nor harms. */
  lemma SystemSplits(ms: seq<Message>, rest: seq<Message>)
    ensures WellFormed(SystemPart(ms) + rest) <==> WellFormed(rest)
  {
    if HasSystem(ms) {
      var all := SystemPart(ms) + rest;
      assert all[0] == ms[0] && all[1..] == rest;
    } else {
      assert SystemPart(ms) + rest == rest;
    }
  }

  /** A suffix of a well-formed body is well-formed exactly when it does not start with a result. */
  lemma SuffixWellFormedIff(ms: seq<Message>, at: nat)
    requires WellFormed(ms) && at <= |Body(ms)|
    ensures WellFormed(Body(ms)[at..]) <==> at == |Body(ms)| || Body(ms)[at].role != Tool
  {
    hide WellFormed;
    BodyWellFormed(ms);
    var suffix := Body(ms)[at..];
    assert Body(ms)[..at] + suffix == Body(ms);
    WellFormedSplit(Body(ms)[..at], suffix);
    if suffix != [] && WellFormed(suffix) {
      WellFormedStart(suffix);
    }
  }

  /**
   * Trimming a well-formed history keeps it well-formed exactly when the first message that
   * survives is not a result whose call was cut away.
   */
  lemma TrimmedWellFormedIff(ms: seq<Message>, options: TrimOptions, size: Message -> nat, r: TrimResult)
    requires WellFormed(ms) && IsTrim(ms, options, size, r)
    ensures r.removedCount <= |Body(ms)|
    ensures WellFormed(r.messages)
            <==> r.removedCount == |Body(ms)| || Body(ms)[r.removedCount].role != Tool
  {
    hide WellFormed, IsTrim, Body;
    TrimOfSuffix(ms, options, size, r);
    SuffixWellFormedIff(ms, r.removedCount);
  }

  lemma TrimShape(ms: seq<Message>, options: TrimOptions, size: Message -> nat, r: TrimResult)
    requires IsTrim(ms, options, size, r)
    ensures var content := NormalizedAll(Body(ms), options);
            && r.removedCount <= |content|
            && (r.removedCount == 0 ==> r.messages == ms || r.messages == SystemPart(ms) + content)
            && (r.removedCount > 0 ==>
                  r.messages == SystemPart(ms) + [Notice(r.removedCount, |content| - r.removedCount)]
                                + content[r.removedCount..])
  {
    hide Fits, NormalizedAll, ContentBudget, SystemPart, Notice, TotalChars;
    var content := NormalizedAll(Body(ms), options);
    if r.removedCount == 0 {
      assert SystemPart(ms) + [] + content == SystemPart(ms) + content;
    }
  }

  lemma NormalizedRole(ms: seq<Message>, options: TrimOptions, i: nat)
    ensures |NormalizedAll(ms, options)| == |ms|
    ensures i < |ms| ==> NormalizedAll(ms, options)[i].role == ms[i].role
  {
  }

  lemma SystemPartIsPlain(ms: seq<Message>)
    ensures forall i :: 0 <= i < |SystemPart(ms)| ==> SystemPart(ms)[i].role != Tool && !Calling(SystemPart(ms)[i])
  {
  }

  lemma NoticeIsPlain(removed: nat, retained: nat)
    ensures Notice(removed, retained).role == Assistant && !Calling(Notice(removed, retained))
  {
  }

  lemma BodyWellFormed(ms: seq<Message>)
    requires WellFormed(ms)
    ensures WellFormed(Body(ms)) && WellFormed(SystemPart(ms))
  {
    if HasSystem(ms) {
      WellFormedHead(ms);
      WellFormedSingle(ms[0]);
      assert SystemPart(ms) == [ms[0]];
    }
  }

  /** Plain messages in front of a list neither help nor harm it. */
  lemma InsertedBefore(front: seq<Message>, notice: Message, rest: seq<Message>)
    requires forall i :: 0 <= i < |front| ==> front[i].role != Tool && !Calling(front[i])
    requires notice.role != Tool && !Calling(notice)
    ensures WellFormed(front + [notice] + rest) <==> WellFormed(rest)
  {
    PlainIsWellFormed(front + [notice]);
    if WellFormed(rest) {
      WellFormedConcat(front + [notice], rest);
    }
    if WellFormed(front + [notice] + rest) {
      assert front + ([notice] + rest) == front + [notice] + rest;
      WellFormedSplit(front, [notice] + rest);
      assert ([notice] + rest)[1..] == rest;
      WellFormedHead([notice] + rest);
    }
  }
}
