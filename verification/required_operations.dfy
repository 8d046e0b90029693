/**
 * Checking a recorded run against the operations that a scenario requires
 * (scripts/lib/eval-toolcall-context-core.ts:150-274). Argument values are given as their text.
 */
module RequiredOperations {
  import opened Messages
  import opened Numbers
  import opened Text

  datatype CallTrace = CallTrace(name: string, toolCallId: string, args: map<string, string>)

  datatype ResultTrace = ResultTrace(toolCallId: string, content: string)

  datatype Operation = Operation(tag: string, name: string, args: map<string, string>)

  datatype Flag =
    | Missing(tag: string)
    | Mismatch(tag: string)
    | ResultMissing(tag: string)
    | ResultError(tag: string)
    | VerifyNotAfterWrite
    | NotBeforeWrite(tag: string)

  const WRITE := "write_output"
  const VERIFY := "verify_output"

  // ----- one operation against one call -----

  /** "\r\n" written as "\n". */
  function UnixLines(s: string): string {
    if s == "" then ""
    else if |s| > 1 && s[0] == '\r' && s[1] == '\n' then "\n" + UnixLines(s[2..])
    else [s[0]] + UnixLines(s[1..])
  }

  function DropTrailingLines(s: string): string {
    if s == "" || s[|s| - 1] != '\n' then s else DropTrailingLines(s[..|s| - 1])
  }

  /** What an argument is compared by; a missing one counts as empty. */
  function NormalizeArg(key: string, args: map<string, string>): string {
    var text := if key in args then args[key] else "";
    if key == "content" then DropTrailingLines(UnixLines(text)) else Trim(text)
  }

  predicate MatchesArgs(call: CallTrace, op: Operation) {
    forall key :: key in op.args ==> NormalizeArg(key, call.args) == NormalizeArg(key, op.args)
  }

  /** The last result recorded for each call id. */
  function ResultById(results: seq<ResultTrace>): map<string, ResultTrace> {
    if results == [] then map[]
    else
      var earlier, last := ResultById(results[..|results| - 1]), results[|results| - 1];
      if last.toolCallId == "" then earlier else earlier[last.toolCallId := last]
  }

  predicate Succeeded(r: ResultTrace) {
    !StartsWith(TrimStart(r.content), "Error:")
  }

  /** Why a call with the right name and arguments does not count, if so. */
  function Excuse(call: CallTrace, byId: map<string, ResultTrace>, op: Operation): Option<Flag> {
    if call.toolCallId == "" || call.toolCallId !in byId then Some(ResultMissing(op.tag))
    else if !Succeeded(byId[call.toolCallId]) then Some(ResultError(op.tag))
    else None
  }

  /** The call carries the operation out. */
  predicate Fulfils(call: CallTrace, byId: map<string, ResultTrace>, op: Operation) {
    call.name == op.name && MatchesArgs(call, op) && Excuse(call, byId, op).None?
  }

  // ----- one operation against all calls -----

  function FirstFit(calls: seq<CallTrace>, byId: map<string, ResultTrace>, op: Operation, used: set<nat>, i: nat)
    : Option<nat>
    decreases |calls| - i
  {
    if i >= |calls| then None
    else if i !in used && Fulfils(calls[i], byId, op) then Some(i)
    else FirstFit(calls, byId, op, used, i + 1)
  }

  /** The excuse of the first unused call that matches by name and arguments. */
  function FirstExcuse(calls: seq<CallTrace>, byId: map<string, ResultTrace>, op: Operation, used: set<nat>, i: nat)
    : Option<Flag>
    decreases |calls| - i
  {
    if i >= |calls| then None
    else if i !in used && calls[i].name == op.name && MatchesArgs(calls[i], op) && Excuse(calls[i], byId, op).Some?
      then Excuse(calls[i], byId, op)
    else FirstExcuse(calls, byId, op, used, i + 1)
  }

  function SawName(calls: seq<CallTrace>, op: Operation, used: set<nat>, i: nat): bool
    decreases |calls| - i
  {
    i < |calls| && ((i !in used && calls[i].name == op.name) || SawName(calls, op, used, i + 1))
  }

  /** The flag of an operation that no call carries out. */
  function FailureFlag(calls: seq<CallTrace>, byId: map<string, ResultTrace>, op: Operation, used: set<nat>): Flag {
    match FirstExcuse(calls, byId, op, used, 0)
    case Some(flag) => flag
    case None => if SawName(calls, op, used, 0) then Mismatch(op.tag) else Missing(op.tag)
  }

  method MatchOperation(calls: seq<CallTrace>, byId: map<string, ResultTrace>, op: Operation, used: set<nat>)
    returns (matchedIndex: Option<nat>, flag: Flag)
    ensures matchedIndex == FirstFit(calls, byId, op, used, 0)
    ensures matchedIndex.None? ==> flag == FailureFlag(calls, byId, op, used)
  {
    hide MatchesArgs;
    flag := Missing(op.tag);
    var failureFlag: Option<Flag> := None;
    var sawNamedCandidate := false;
    var index := 0;
    while index < |calls|
      invariant 0 <= index <= |calls|
      invariant FirstFit(calls, byId, op, used, 0) == FirstFit(calls, byId, op, used, index)
      invariant FirstExcuse(calls, byId, op, used, 0)
                == if failureFlag.Some? then failureFlag else FirstExcuse(calls, byId, op, used, index)
      invariant SawName(calls, op, used, 0) == (sawNamedCandidate || SawName(calls, op, used, index))
    {
      var candidate := calls[index];
      if index !in used && candidate.name == op.name {
        sawNamedCandidate := true;
        if MatchesArgs(candidate, op) {
          var excuse := Excuse(candidate, byId, op);
          if excuse.None? {
            return Some(index), flag;
          }
          if failureFlag.None? {
            failureFlag := excuse;
          }
        }
      }
      index := index + 1;
    }
    matchedIndex := None;
    flag := if failureFlag.Some? then failureFlag.value
            else if sawNamedCandidate then Mismatch(op.tag) else Missing(op.tag);
  }

  lemma {:induction false} FirstFitIs(calls: seq<CallTrace>, byId: map<string, ResultTrace>, op: Operation, used: set<nat>, i: nat)
    ensures match FirstFit(calls, byId, op, used, i)
            case Some(k) =>
              && i <= k < |calls| && k !in used && Fulfils(calls[k], byId, op)
              && forall l: nat :: i <= l < k && l !in used ==> !Fulfils(calls[l], byId, op)
            case None => forall k: nat :: i <= k < |calls| && k !in used ==> !Fulfils(calls[k], byId, op)
    decreases |calls| - i
  {
    hide Fulfils;
    if i < |calls| {
      FirstFitIs(calls, byId, op, used, i + 1);
    }
  }

  // ----- all operations -----

  /** `byTag` lists where each tag was matched, in the order of first matches; a repeated tag keeps its place. */
  datatype Matching = Matching(flags: seq<Flag>, validated: seq<string>, used: set<nat>, byTag: seq<(string, nat)>)

  const NOTHING_MATCHED := Matching([], [], {}, [])

  function SetTag(byTag: seq<(string, nat)>, tag: string, index: nat): seq<(string, nat)> {
    if byTag == [] then [(tag, index)]
    else if byTag[0].0 == tag then [(tag, index)] + byTag[1..]
    else [byTag[0]] + SetTag(byTag[1..], tag, index)
  }

  function GetTag(byTag: seq<(string, nat)>, tag: string): Option<nat> {
    if byTag == [] then None else if byTag[0].0 == tag then Some(byTag[0].1) else GetTag(byTag[1..], tag)
  }

  function MatchNext(m: Matching, calls: seq<CallTrace>, byId: map<string, ResultTrace>, op: Operation): Matching {
    match FirstFit(calls, byId, op, m.used, 0)
    case None => m.(flags := m.flags + [FailureFlag(calls, byId, op, m.used)])
    case Some(k) => m.(validated := m.validated + [op.tag], used := m.used + {k}, byTag := SetTag(m.byTag, op.tag, k))
  }

  function MatchAll(m: Matching, calls: seq<CallTrace>, byId: map<string, ResultTrace>, ops: seq<Operation>): Matching
    decreases |ops|
  {
    if ops == [] then m else MatchAll(MatchNext(m, calls, byId, ops[0]), calls, byId, ops[1..])
  }

  function OrderFlag(entry: (string, nat), writeIndex: nat): seq<Flag> {
    if entry.0 == WRITE then []
    else if entry.0 == VERIFY then (if entry.1 <= writeIndex then [VerifyNotAfterWrite] else [])
    else if entry.1 >= writeIndex then [NotBeforeWrite(entry.0)]
    else []
  }

  function OrderFlags(byTag: seq<(string, nat)>, writeIndex: nat): seq<Flag> {
    if byTag == [] then [] else OrderFlag(byTag[0], writeIndex) + OrderFlags(byTag[1..], writeIndex)
  }

  function AllFlags(m: Matching): seq<Flag> {
    match GetTag(m.byTag, WRITE)
    case Some(writeIndex) => m.flags + OrderFlags(m.byTag, writeIndex)
    case None => m.flags
  }

  method ValidateRequiredOperations(calls: seq<CallTrace>, results: seq<ResultTrace>, ops: seq<Operation>)
    returns (validatedOperations: seq<string>, flags: seq<Flag>)
    ensures var m := MatchAll(NOTHING_MATCHED, calls, ResultById(results), ops);
            validatedOperations == m.validated && flags == AllFlags(m)
    ensures IsVerdict(calls, results, ops, validatedOperations, flags)
  {
    hide FirstFit, FailureFlag, SetTag, ResultById, IsVerdict, GetTag;
    ReportIsVerdict(calls, results, ops);
    flags, validatedOperations := [], [];
    var used: set<nat> := {};
    var byTag: seq<(string, nat)> := [];
    var byId := ResultById(results);
    ghost var whole := MatchAll(NOTHING_MATCHED, calls, byId, ops);
    var i := 0;
    while i < |ops|
      invariant 0 <= i <= |ops|
      invariant MatchAll(Matching(flags, validatedOperations, used, byTag), calls, byId, ops[i..]) == whole
    {
      assert ops[i..][0] == ops[i] && ops[i..][1..] == ops[i + 1..];
      var matchedIndex, flag := MatchOperation(calls, byId, ops[i], used);
      if matchedIndex.None? {
        flags := flags + [flag];
      } else {
        validatedOperations := validatedOperations + [ops[i].tag];
        used := used + {matchedIndex.value};
        byTag := SetTag(byTag, ops[i].tag, matchedIndex.value);
      }
      i := i + 1;
    }
    var writeIndex := GetTag(byTag, WRITE);
    if writeIndex.Some? {
      ghost var before := flags;
      var j := 0;
      while j < |byTag|
        invariant 0 <= j <= |byTag|
        invariant flags + OrderFlags(byTag[j..], writeIndex.value) == before + OrderFlags(byTag, writeIndex.value)
      {
        assert byTag[j..][0] == byTag[j] && byTag[j..][1..] == byTag[j + 1..];
        var tag, index := byTag[j].0, byTag[j].1;
        if tag == VERIFY {
          if index <= writeIndex.value {
            flags := flags + [VerifyNotAfterWrite];
          }
        } else if tag != WRITE && index >= writeIndex.value {
          flags := flags + [NotBeforeWrite(tag)];
        }
        j := j + 1;
      }
    }
  }

  // ----- what an empty list of flags means -----

  /** Each operation has a call of its own that carries it out. */
  ghost predicate Assigns(calls: seq<CallTrace>, byId: map<string, ResultTrace>, ops: seq<Operation>, at: seq<nat>) {
    && |at| == |ops|
    && (forall i :: 0 <= i < |ops| ==> at[i] < |calls| && Fulfils(calls[at[i]], byId, ops[i]))
    && (forall i, j :: 0 <= i < j < |ops| ==> at[i] != at[j])
  }

  /** The calls picked for the operations, as long as each finds one. */
  function Picks(used: set<nat>, calls: seq<CallTrace>, byId: map<string, ResultTrace>, ops: seq<Operation>): Option<seq<nat>>
    decreases |ops|
  {
    if ops == [] then Some([])
    else
      var k :- FirstFit(calls, byId, ops[0], used, 0);
      var rest :- Picks(used + {k}, calls, byId, ops[1..]);
      Some([k] + rest)
  }

  lemma {:induction false} FlagsOnlyGrow(m: Matching, calls: seq<CallTrace>, byId: map<string, ResultTrace>, ops: seq<Operation>)
    ensures |m.flags| <= |MatchAll(m, calls, byId, ops).flags|
    decreases |ops|
  {
    if ops != [] {
      FlagsOnlyGrow(MatchNext(m, calls, byId, ops[0]), calls, byId, ops[1..]);
    }
  }

  /** No flag is raised while matching exactly when every operation in turn finds a call. */
  lemma {:induction false} UnflaggedIffPicked(m: Matching, calls: seq<CallTrace>, byId: map<string, ResultTrace>, ops: seq<Operation>)
    requires m.flags == []
    ensures MatchAll(m, calls, byId, ops).flags == [] <==> Picks(m.used, calls, byId, ops).Some?
    decreases |ops|
  {
    if ops != [] {
      hide FirstFit, SetTag, FailureFlag;
      var m' := MatchNext(m, calls, byId, ops[0]);
      if m'.flags == [] {
        UnflaggedIffPicked(m', calls, byId, ops[1..]);
      } else {
        FlagsOnlyGrow(m', calls, byId, ops[1..]);
      }
    }
  }

  lemma {:induction false} PicksAssign(used: set<nat>, calls: seq<CallTrace>, byId: map<string, ResultTrace>, ops: seq<Operation>)
    requires Picks(used, calls, byId, ops).Some?
    ensures Assigns(calls, byId, ops, Picks(used, calls, byId, ops).value)
    ensures forall k :: k in Picks(used, calls, byId, ops).value ==> k !in used
    decreases |ops|
  {
    if ops != [] {
      var k := FirstFit(calls, byId, ops[0], used, 0).value;
      FirstFitIs(calls, byId, ops[0], used, 0);
      PicksAssign(used + {k}, calls, byId, ops[1..]);
      hide FirstFit, Fulfils;
      var rest := Picks(used + {k}, calls, byId, ops[1..]).value;
      var at := [k] + rest;
      forall i, j | 0 <= i < j < |ops| ensures at[i] != at[j] {
        assert at[j] == rest[j - 1];
        assert rest[j - 1] in rest;
        if i > 0 {
          assert at[i] == rest[i - 1] && at[j] == rest[j - 1];
        }
      }
      forall i | 0 <= i < |ops| ensures at[i] < |calls| && Fulfils(calls[at[i]], byId, ops[i]) {
        if i > 0 {
          assert at[i] == rest[i - 1] && ops[i] == ops[1..][i - 1];
        }
      }
    }
  }

  ghost predicate DistinctTags(ops: seq<Operation>) {
    forall i, j :: 0 <= i < j < |ops| ==> ops[i].tag != ops[j].tag
  }

  /** Each operation's tag with the call picked for it. */
  function Paired(ops: seq<Operation>, at: seq<nat>): (pairs: seq<(string, nat)>)
    requires |ops| == |at|
    ensures |pairs| == |ops| && forall i :: 0 <= i < |ops| ==> pairs[i] == (ops[i].tag, at[i])
  {
    if ops == [] then [] else [(ops[0].tag, at[0])] + Paired(ops[1..], at[1..])
  }

  lemma {:induction false} SetNewTag(byTag: seq<(string, nat)>, tag: string, index: nat)
    requires forall i :: 0 <= i < |byTag| ==> byTag[i].0 != tag
    ensures SetTag(byTag, tag, index) == byTag + [(tag, index)]
  {
    if byTag != [] {
      SetNewTag(byTag[1..], tag, index);
      assert byTag == [byTag[0]] + byTag[1..];
    }
  }

  /** None of these operations has been entered yet. */
  ghost predicate Unentered(byTag: seq<(string, nat)>, ops: seq<Operation>) {
    forall i, j :: 0 <= i < |byTag| && 0 <= j < |ops| ==> byTag[i].0 != ops[j].tag
  }

  lemma UnenteredNext(byTag: seq<(string, nat)>, ops: seq<Operation>, k: nat)
    requires ops != [] && DistinctTags(ops) && Unentered(byTag, ops)
    ensures DistinctTags(ops[1..]) && Unentered(byTag + [(ops[0].tag, k)], ops[1..])
    ensures SetTag(byTag, ops[0].tag, k) == byTag + [(ops[0].tag, k)]
  {
    SetNewTag(byTag, ops[0].tag, k);
    assert forall j :: 0 <= j < |ops[1..]| ==> ops[1..][j] == ops[j + 1];
  }

  /** With distinct tags the table of matches pairs every operation with its call. */
  lemma {:induction false} TableIsPaired(m: Matching, calls: seq<CallTrace>, byId: map<string, ResultTrace>, ops: seq<Operation>)
    requires DistinctTags(ops) && Picks(m.used, calls, byId, ops).Some? && Unentered(m.byTag, ops)
    ensures |Picks(m.used, calls, byId, ops).value| == |ops|
    ensures MatchAll(m, calls, byId, ops).byTag == m.byTag + Paired(ops, Picks(m.used, calls, byId, ops).value)
    decreases |ops|
  {
    if ops == [] {
      assert m.byTag + [] == m.byTag;
    } else {
      hide *;
      var k, rest := PicksStep(m, calls, byId, ops);
      UnenteredNext(m.byTag, ops, k);
      TableIsPaired(MatchNext(m, calls, byId, ops[0]), calls, byId, ops[1..]);
      PairedStep(ops, k, rest);
      Associative(m.byTag, [(ops[0].tag, k)], Paired(ops[1..], rest));
    }
  }

  lemma Associative<T>(a: seq<T>, b: seq<T>, c: seq<T>)
    ensures (a + b) + c == a + (b + c)
  {
  }

  lemma PicksStep(m: Matching, calls: seq<CallTrace>, byId: map<string, ResultTrace>, ops: seq<Operation>)
    returns (k: nat, rest: seq<nat>)
    requires ops != [] && Picks(m.used, calls, byId, ops).Some?
    ensures Picks(m.used, calls, byId, ops) == Some([k] + rest)
    ensures var m' := MatchNext(m, calls, byId, ops[0]);
            && Picks(m'.used, calls, byId, ops[1..]) == Some(rest)
            && m'.byTag == SetTag(m.byTag, ops[0].tag, k)
            && MatchAll(m, calls, byId, ops) == MatchAll(m', calls, byId, ops[1..])
  {
    hide FirstFit, SetTag, FailureFlag;
    k := FirstFit(calls, byId, ops[0], m.used, 0).value;
    rest := Picks(m.used + {k}, calls, byId, ops[1..]).value;
  }

  lemma PairedStep(ops: seq<Operation>, k: nat, rest: seq<nat>)
    requires ops != [] && |rest| == |ops| - 1
    ensures Paired(ops, [k] + rest) == [(ops[0].tag, k)] + Paired(ops[1..], rest)
  {
    assert ([k] + rest)[1..] == rest;
  }

  lemma {:induction false} NoOrderFlagsIff(byTag: seq<(string, nat)>, writeIndex: nat)
    ensures OrderFlags(byTag, writeIndex) == [] <==> forall i :: 0 <= i < |byTag| ==> OrderFlag(byTag[i], writeIndex) == []
  {
    hide OrderFlag;
    if byTag != [] {
      NoOrderFlagsIff(byTag[1..], writeIndex);
      assert forall i :: 1 <= i < |byTag| ==> byTag[i] == byTag[1..][i - 1];
    }
  }

  lemma {:induction false} GetTagIs(byTag: seq<(string, nat)>, tag: string)
    ensures match GetTag(byTag, tag)
            case None => forall i :: 0 <= i < |byTag| ==> byTag[i].0 != tag
            case Some(index) => exists i :: 0 <= i < |byTag| && byTag[i] == (tag, index)
  {
    if byTag != [] && byTag[0].0 != tag {
      GetTagIs(byTag[1..], tag);
      match GetTag(byTag[1..], tag)
      case Some(index) =>
        var i :| 0 <= i < |byTag[1..]| && byTag[1..][i] == (tag, index);
        assert byTag[i + 1] == (tag, index);
      case None =>
    } else if byTag != [] {
      assert byTag[0] == (tag, byTag[0].1);
    }
  }

  /** Verification comes after the write, everything else before it. */
  predicate InOrder(tag: string, index: nat, writeIndex: nat) {
    if tag == WRITE then true else if tag == VERIFY then index > writeIndex else index < writeIndex
  }

  ghost predicate WriteOrdered(ops: seq<Operation>, at: seq<nat>)
    requires |ops| == |at|
  {
    forall w, i :: 0 <= w < |ops| && 0 <= i < |ops| && ops[w].tag == WRITE ==> InOrder(ops[i].tag, at[i], at[w])
  }

  lemma OrderedIff(ops: seq<Operation>, at: seq<nat>)
    requires |ops| == |at| && DistinctTags(ops)
    ensures var table := Paired(ops, at);
            WriteOrdered(ops, at)
            <==> GetTag(table, WRITE).None? || OrderFlags(table, GetTag(table, WRITE).value) == []
  {
    var table := Paired(ops, at);
    GetTagIs(table, WRITE);
    match GetTag(table, WRITE)
    case None =>
      assert forall w :: 0 <= w < |ops| ==> table[w].0 == ops[w].tag;
    case Some(writeIndex) =>
      NoOrderFlagsIff(table, writeIndex);
      var w :| 0 <= w < |table| && table[w] == (WRITE, writeIndex);
      assert ops[w].tag == WRITE && at[w] == writeIndex;
      forall v | 0 <= v < |ops| && ops[v].tag == WRITE ensures v == w {
      }
      forall i | 0 <= i < |ops| ensures OrderFlag(table[i], writeIndex) == [] <==> InOrder(ops[i].tag, at[i], at[w]) {
      }
  }

  /** With distinct tags no flag is raised exactly when the picked calls exist and lie in order around the write. */
  lemma NoFlagsIff(calls: seq<CallTrace>, results: seq<ResultTrace>, ops: seq<Operation>)
    requires DistinctTags(ops)
    ensures var byId := ResultById(results);
            AllFlags(MatchAll(NOTHING_MATCHED, calls, byId, ops)) == []
            <==> Picks({}, calls, byId, ops).Some?
                 && |Picks({}, calls, byId, ops).value| == |ops| && WriteOrdered(ops, Picks({}, calls, byId, ops).value)
  {
    var byId := ResultById(results);
    UnflaggedIffPicked(NOTHING_MATCHED, calls, byId, ops);
    hide MatchAll, Picks, OrderFlags, GetTag, Paired, WriteOrdered, ResultById, DistinctTags;
    if Picks({}, calls, byId, ops).Some? {
      TableIsPaired(NOTHING_MATCHED, calls, byId, ops);
      var at := Picks({}, calls, byId, ops).value;
      assert [] + Paired(ops, at) == Paired(ops, at);
      OrderedIff(ops, at);
    }
  }

  /** The check is sound: nothing is flagged only if each operation has its own successful call, in order around the write. */
  lemma Sound(calls: seq<CallTrace>, results: seq<ResultTrace>, ops: seq<Operation>)
    requires DistinctTags(ops) && AllFlags(MatchAll(NOTHING_MATCHED, calls, ResultById(results), ops)) == []
    ensures exists at :: Assigns(calls, ResultById(results), ops, at) && WriteOrdered(ops, at)
  {
    NoFlagsIff(calls, results, ops);
    PicksAssign({}, calls, ResultById(results), ops);
    hide AllFlags, MatchAll, Picks, WriteOrdered, ResultById;
    var at := Picks({}, calls, ResultById(results), ops).value;
    assert Assigns(calls, ResultById(results), ops, at) && WriteOrdered(ops, at);
  }

  // ----- when first-fit misses nothing -----

  /**
   * Of two operations that share a call, the earlier is at least as narrow: every call that fulfils
   * it fulfils the later one too.
   */
  ghost predicate NarrowFirst(calls: seq<CallTrace>, byId: map<string, ResultTrace>, ops: seq<Operation>) {
    forall i, j, k, l :: 0 <= i < j < |ops| && 0 <= k < |calls| && 0 <= l < |calls|
                         && Fulfils(calls[k], byId, ops[i]) && Fulfils(calls[k], byId, ops[j]) && Fulfils(calls[l], byId, ops[i])
                         ==> Fulfils(calls[l], byId, ops[j])
  }

  /** Picking the first fit finds an assignment whenever there is one, provided that overlapping operations come narrow first. */
  lemma {:induction false} CompleteIfNarrowFirst(used: set<nat>, calls: seq<CallTrace>, byId: map<string, ResultTrace>,
                                                 ops: seq<Operation>, at: seq<nat>)
    requires NarrowFirst(calls, byId, ops) && Assigns(calls, byId, ops, at) && forall i :: 0 <= i < |at| ==> at[i] !in used
    ensures Picks(used, calls, byId, ops).Some?
    decreases |ops|
  {
    if ops != [] {
      FirstFitIs(calls, byId, ops[0], used, 0);
      assert Fulfils(calls[at[0]], byId, ops[0]);
      hide FirstFit, Fulfils;
      var k := FirstFit(calls, byId, ops[0], used, 0).value;
      var swapped := GiveFirst(calls, byId, ops, at, k);
      TailAssigns(calls, byId, ops, swapped);
      forall i | 0 <= i < |swapped[1..]| ensures swapped[1..][i] !in used + {k} {
        assert swapped[1..][i] == swapped[i + 1];
        assert swapped[0] != swapped[i + 1];
      }
      CompleteIfNarrowFirst(used + {k}, calls, byId, ops[1..], swapped[1..]);
    }
  }

  /** An assignment in which the first operation gets a given call: whoever had it takes the first one's call instead. */
  lemma GiveFirst(calls: seq<CallTrace>, byId: map<string, ResultTrace>, ops: seq<Operation>, at: seq<nat>, k: nat)
    returns (swapped: seq<nat>)
    requires NarrowFirst(calls, byId, ops) && Assigns(calls, byId, ops, at) && ops != []
    requires k < |calls| && Fulfils(calls[k], byId, ops[0])
    ensures Assigns(calls, byId, ops, swapped) && swapped[0] == k
    ensures forall i :: 0 <= i < |swapped| ==> swapped[i] == k || swapped[i] in at
  {
    hide Fulfils;
    if j: nat :| j < |at| && at[j] == k {
      swapped := at[j := at[0]][0 := k];
      assert Fulfils(calls[at[0]], byId, ops[0]);
      if j > 0 {
        assert Fulfils(calls[at[j]], byId, ops[j]);
      }
    } else {
      swapped := at[0 := k];
    }
  }

  lemma TailAssigns(calls: seq<CallTrace>, byId: map<string, ResultTrace>, ops: seq<Operation>, at: seq<nat>)
    requires ops != [] && NarrowFirst(calls, byId, ops) && Assigns(calls, byId, ops, at)
    ensures NarrowFirst(calls, byId, ops[1..]) && Assigns(calls, byId, ops[1..], at[1..])
  {
    hide Fulfils;
    var tail, rest := ops[1..], at[1..];
    assert forall i :: 0 <= i < |tail| ==> tail[i] == ops[i + 1] && rest[i] == at[i + 1];
    forall i, j, k, l | 0 <= i < j < |tail| && 0 <= k < |calls| && 0 <= l < |calls|
                        && Fulfils(calls[k], byId, tail[i]) && Fulfils(calls[k], byId, tail[j]) && Fulfils(calls[l], byId, tail[i])
      ensures Fulfils(calls[l], byId, tail[j])
    {
      assert tail[i] == ops[i + 1] && tail[j] == ops[j + 1];
    }
  }

  /** First-fit finds calls for these operations in every trace in which there are any. */
  ghost predicate NeverMisses(byId: map<string, ResultTrace>, ops: seq<Operation>) {
    forall calls, at :: Assigns(calls, byId, ops, at) ==> Picks({}, calls, byId, ops).Some?
  }

  /** Over all calls there could be: of two overlapping operations the first is at least as narrow. */
  ghost predicate Narrower(byId: map<string, ResultTrace>, first: Operation, second: Operation) {
    forall c, d: CallTrace :: Fulfils(c, byId, first) && Fulfils(c, byId, second) && Fulfils(d, byId, first)
                              ==> Fulfils(d, byId, second)
  }

  /**
   * First-fit misses nothing for any two of the operations, taken in order, exactly when overlapping
   * operations come narrow first; and then it misses nothing for all of them together.
   */
  lemma NeverMissesIff(byId: map<string, ResultTrace>, ops: seq<Operation>)
    ensures (forall i, j :: 0 <= i < j < |ops| ==> NeverMisses(byId, [ops[i], ops[j]]))
            <==> (forall i, j :: 0 <= i < j < |ops| ==> Narrower(byId, ops[i], ops[j]))
    ensures (forall i, j :: 0 <= i < j < |ops| ==> Narrower(byId, ops[i], ops[j])) ==> NeverMisses(byId, ops)
  {
    hide Narrower, NeverMisses;
    forall i, j | 0 <= i < j < |ops| ensures NeverMisses(byId, [ops[i], ops[j]]) <==> Narrower(byId, ops[i], ops[j]) {
      PairNeverMissesIff(byId, ops[i], ops[j]);
    }
    if forall i, j :: 0 <= i < j < |ops| ==> Narrower(byId, ops[i], ops[j]) {
      NarrowListNeverMisses(byId, ops);
    }
  }

  lemma NarrowListNeverMisses(byId: map<string, ResultTrace>, ops: seq<Operation>)
    requires forall i, j :: 0 <= i < j < |ops| ==> Narrower(byId, ops[i], ops[j])
    ensures NeverMisses(byId, ops)
  {
    hide Fulfils;
    forall calls, at | Assigns(calls, byId, ops, at) ensures Picks({}, calls, byId, ops).Some? {
      forall i, j, k, l | 0 <= i < j < |ops| && 0 <= k < |calls| && 0 <= l < |calls|
                          && Fulfils(calls[k], byId, ops[i]) && Fulfils(calls[k], byId, ops[j]) && Fulfils(calls[l], byId, ops[i])
        ensures Fulfils(calls[l], byId, ops[j])
      {
        assert Narrower(byId, ops[i], ops[j]);
      }
      CompleteIfNarrowFirst({}, calls, byId, ops, at);
    }
  }

  lemma PairNeverMissesIff(byId: map<string, ResultTrace>, first: Operation, second: Operation)
    ensures NeverMisses(byId, [first, second]) <==> Narrower(byId, first, second)
  {
    hide Fulfils, FirstFit;
    if Narrower(byId, first, second) {
      var ops := [first, second];
      NarrowListNeverMisses(byId, ops);
    }
    if !Narrower(byId, first, second) {
      var c, d: CallTrace :| Fulfils(c, byId, first) && Fulfils(c, byId, second) && Fulfils(d, byId, first)
                             && !Fulfils(d, byId, second);
      BroadTakesTheShared(byId, first, second, c, d);
      assert Assigns([c, d], byId, [first, second], [1, 0]);
    }
  }

  /** The shared call is picked for the broad operation, and nothing is left for the narrow one. */
  lemma BroadTakesTheShared(byId: map<string, ResultTrace>, first: Operation, second: Operation, c: CallTrace, d: CallTrace)
    requires Fulfils(c, byId, first) && Fulfils(c, byId, second) && Fulfils(d, byId, first) && !Fulfils(d, byId, second)
    ensures Picks({}, [c, d], byId, [first, second]) == None
  {
    hide Fulfils;
    var calls, ops := [c, d], [first, second];
    FirstFitIs(calls, byId, second, {0}, 0);
    assert FirstFit(calls, byId, first, {}, 0) == Some(0);
    assert FirstFit(calls, byId, second, {0}, 0) == None;
    hide FirstFit;
    assert ops[1..] == [second];
    assert {} + {0} == {0 as nat};
    assert Picks({0}, calls, byId, ops[1..]) == None;
  }

  // ----- the verdict when no call fits two operations -----

  /** No call carries out two of the operations. */
  ghost predicate Unambiguous(calls: seq<CallTrace>, byId: map<string, ResultTrace>, ops: seq<Operation>) {
    forall k, i, j :: 0 <= k < |calls| && 0 <= i < j < |ops| && Fulfils(calls[k], byId, ops[i])
                      ==> !Fulfils(calls[k], byId, ops[j])
  }

  /** The first call that fulfils the operation. */
  function FirstCall(calls: seq<CallTrace>, byId: map<string, ResultTrace>, op: Operation): Option<nat> {
    FirstFit(calls, byId, op, {}, 0)
  }

  /** The first call of each operation, if each has one. */
  function FirstCalls(calls: seq<CallTrace>, byId: map<string, ResultTrace>, ops: seq<Operation>): (r: Option<seq<nat>>)
    ensures r.Some? <==> forall i :: 0 <= i < |ops| ==> FirstCall(calls, byId, ops[i]).Some?
    ensures r.Some? ==> |r.value| == |ops| && forall i :: 0 <= i < |ops| ==> FirstCall(calls, byId, ops[i]) == Some(r.value[i])
  {
    if ops == [] then Some([])
    else
      assert forall i :: 0 <= i < |ops[1..]| ==> ops[1..][i] == ops[i + 1];
      var k :- FirstCall(calls, byId, ops[0]);
      var rest :- FirstCalls(calls, byId, ops[1..]);
      Some([k] + rest)
  }

  /** Calls that do not fulfil the operation do not matter for its first fit. */
  lemma {:induction false} FirstFitIgnores(calls: seq<CallTrace>, byId: map<string, ResultTrace>, op: Operation, used: set<nat>, i: nat)
    requires forall k: nat :: k in used && k < |calls| ==> !Fulfils(calls[k], byId, op)
    ensures FirstFit(calls, byId, op, used, i) == FirstFit(calls, byId, op, {}, i)
    decreases |calls| - i
  {
    hide Fulfils;
    if i < |calls| {
      FirstFitIgnores(calls, byId, op, used, i + 1);
    }
  }

  lemma {:induction false} PicksAreFirstCalls(used: set<nat>, calls: seq<CallTrace>, byId: map<string, ResultTrace>, ops: seq<Operation>)
    requires Unambiguous(calls, byId, ops)
    requires forall k: nat, i :: k in used && k < |calls| && 0 <= i < |ops| ==> !Fulfils(calls[k], byId, ops[i])
    ensures Picks(used, calls, byId, ops) == FirstCalls(calls, byId, ops)
    decreases |ops|
  {
    if ops != [] {
      FirstFitIgnores(calls, byId, ops[0], used, 0);
      FirstFitIs(calls, byId, ops[0], used, 0);
      hide FirstFit, Fulfils;
      var first := FirstFit(calls, byId, ops[0], used, 0);
      assert forall i :: 0 <= i < |ops[1..]| ==> ops[1..][i] == ops[i + 1];
      if first.Some? {
        var k := first.value;
        forall l: nat, i | l in used + {k} && l < |calls| && 0 <= i < |ops[1..]| ensures !Fulfils(calls[l], byId, ops[1..][i]) {
          assert ops[1..][i] == ops[i + 1];
        }
        PicksAreFirstCalls(used + {k}, calls, byId, ops[1..]);
      }
    }
  }

  /**
   * If no call fits two operations, nothing is flagged exactly when each operation has a call that
   * fulfils it, the first verification lies after the first write, and every other first call before it.
   */
  lemma VerdictIff(calls: seq<CallTrace>, results: seq<ResultTrace>, ops: seq<Operation>)
    requires DistinctTags(ops) && Unambiguous(calls, ResultById(results), ops)
    ensures var firsts := FirstCalls(calls, ResultById(results), ops);
            AllFlags(MatchAll(NOTHING_MATCHED, calls, ResultById(results), ops)) == []
            <==> firsts.Some? && WriteOrdered(ops, firsts.value)
  {
    NoFlagsIff(calls, results, ops);
    PicksAreFirstCalls({}, calls, ResultById(results), ops);
  }

  // ----- the check told by the recorded run itself -----

  /** A "\r" with a "\n" behind it. */
  predicate EndsLine(s: string, k: nat) {
    k + 1 < |s| && s[k] == '\r' && s[k + 1] == '\n'
  }

  /** `u` is `s` without every "\r" that stands before a "\n"; `at` says where its characters come from. */
  ghost predicate IsUnixForm(s: string, u: string, at: seq<nat>) {
    && |at| == |u| && Rising(at)
    && (forall i :: 0 <= i < |at| ==> at[i] < |s| && u[i] == s[at[i]])
    && forall k: nat :: k < |s| ==> (k in at <==> !EndsLine(s, k))
  }

  /** `t` is `u` without the line ends behind it. */
  ghost predicate IsChopped(u: string, t: string) {
    && |t| <= |u| && t == u[..|t|] && (t == "" || t[|t| - 1] != '\n')
    && forall k :: |t| <= k < |u| ==> u[k] == '\n'
  }

  ghost predicate ComparedAs(key: string, text: string, form: string) {
    if key == "content" then exists u, at :: IsUnixForm(text, u, at) && IsChopped(u, form)
    else exists i :: IsTrimmed(text, form, i)
  }

  ghost predicate AsExpected(args: map<string, string>, key: string, expected: string) {
    exists form :: ComparedAs(key, if key in args then args[key] else "", form) && ComparedAs(key, expected, form)
  }

  ghost predicate Fits(call: CallTrace, op: Operation) {
    call.name == op.name && forall key :: key in op.args ==> AsExpected(call.args, key, op.args[key])
  }

  ghost predicate IsLastResult(results: seq<ResultTrace>, id: string, k: nat) {
    && k < |results| && id != "" && results[k].toolCallId == id
    && forall j :: k < j < |results| ==> results[j].toolCallId != id
  }

  /** "Error:" stands at the front, white space aside. */
  ghost predicate Failed(content: string) {
    exists i: nat :: Occurs(content, "Error:", i) && forall k :: 0 <= k < i ==> IsSpace(content[k])
  }

  /** The call fits, and the last result under its id is no failure. */
  ghost predicate Counts(call: CallTrace, results: seq<ResultTrace>, op: Operation) {
    Fits(call, op) && exists k: nat :: IsLastResult(results, call.toolCallId, k) && !Failed(results[k].content)
  }

  lemma {:induction false} UnixFormIs(s: string) returns (at: seq<nat>)
    ensures IsUnixForm(s, UnixLines(s), at)
  {
    if s == "" {
      at := [];
    } else {
      var n := if EndsLine(s, 0) then 2 else 1;
      var rest := UnixFormIs(s[n..]);
      at := [n - 1] + Shift(rest, n);
      UnixFormStep(s, UnixLines(s[n..]), rest, n);
    }
  }

  lemma UnixFormStep(s: string, u: string, at: seq<nat>, n: nat)
    requires s != "" && n == (if EndsLine(s, 0) then 2 else 1) && IsUnixForm(s[n..], u, at)
    ensures IsUnixForm(s, [s[n - 1]] + u, [n - 1] + Shift(at, n))
  {
    var at' := [n - 1] + Shift(at, n);
    assert forall i :: 0 < i < |at'| ==> at'[i] == at[i - 1] + n;
    forall k: nat | k < |s| ensures k in at' <==> !EndsLine(s, k) {
      InShift(at, n, k);
      hide Shift;
      if k >= n {
        assert EndsLine(s, k) <==> EndsLine(s[n..], k - n);
      }
    }
    forall i | 0 <= i < |at'| ensures at'[i] < |s| && ([s[n - 1]] + u)[i] == s[at'[i]] {
      hide EndsLine, Shift;
      if i > 0 {
        assert at[i - 1] < |s[n..]| && u[i - 1] == s[n..][at[i - 1]];
      }
    }
  }

  lemma {:induction false} ChoppedIs(u: string)
    ensures IsChopped(u, DropTrailingLines(u))
  {
    if u != "" && u[|u| - 1] == '\n' {
      ChoppedIs(u[..|u| - 1]);
    }
  }

  lemma ChoppedUnique(u: string, t: string, t': string)
    requires IsChopped(u, t) && IsChopped(u, t')
    ensures t == t'
  {
    assert t != "" ==> u[|t| - 1] == t[|t| - 1];
    assert t' != "" ==> u[|t'| - 1] == t'[|t'| - 1];
  }

  /** An argument is compared by one form, and `NormalizeArg` is that form. */
  lemma ComparedIff(key: string, args: map<string, string>, form: string)
    ensures ComparedAs(key, if key in args then args[key] else "", form) <==> form == NormalizeArg(key, args)
  {
    var text := if key in args then args[key] else "";
    if key == "content" {
      var at := UnixFormIs(text);
      ChoppedIs(UnixLines(text));
      assert ComparedAs(key, text, NormalizeArg(key, args));
      if ComparedAs(key, text, form) {
        var u, at' :| IsUnixForm(text, u, at') && IsChopped(u, form);
        UnixUnique(text, u, at', UnixLines(text), at);
        ChoppedUnique(u, form, NormalizeArg(key, args));
      }
    } else {
      var i := TrimIs(text);
      hide Trim;
      if ComparedAs(key, text, form) {
        var i' :| IsTrimmed(text, form, i');
        TrimmedUnique(text, form, i', Trim(text), i);
      }
    }
  }

  lemma BelowLength(s: string, u: string, at: seq<nat>, k: nat)
    requires IsUnixForm(s, u, at) && k in at
    ensures k < |s|
  {
    var i :| 0 <= i < |at| && at[i] == k;
  }

  lemma UnixUnique(s: string, u: string, at: seq<nat>, u': string, at': seq<nat>)
    requires IsUnixForm(s, u, at) && IsUnixForm(s, u', at')
    ensures u == u'
  {
    forall k: nat ensures k in at <==> k in at' {
      if k in at {
        BelowLength(s, u, at, k);
      }
      if k in at' {
        BelowLength(s, u', at', k);
      }
    }
    RisingUnique(at, at');
  }

  lemma FitsIff(call: CallTrace, op: Operation)
    ensures Fits(call, op) <==> call.name == op.name && MatchesArgs(call, op)
  {
    hide ComparedAs, NormalizeArg;
    forall key | key in op.args
      ensures AsExpected(call.args, key, op.args[key]) <==> NormalizeArg(key, call.args) == NormalizeArg(key, op.args)
    {
      ComparedIff(key, call.args, NormalizeArg(key, op.args));
      ComparedIff(key, op.args, NormalizeArg(key, op.args));
      forall form ensures ComparedAs(key, op.args[key], form) <==> form == NormalizeArg(key, op.args) {
        ComparedIff(key, op.args, form);
      }
    }
  }

  lemma {:induction false} LastResultIs(results: seq<ResultTrace>, id: string)
    ensures id in ResultById(results) ==> exists k: nat :: IsLastResult(results, id, k) && ResultById(results)[id] == results[k]
    ensures id !in ResultById(results) ==> forall k: nat :: !IsLastResult(results, id, k)
  {
    if results != [] {
      var n := |results| - 1;
      var front := results[..n];
      LastResultIs(front, id);
      if results[n].toolCallId == id && id != "" {
        assert IsLastResult(results, id, n);
      } else if id in ResultById(front) {
        var k: nat :| IsLastResult(front, id, k) && ResultById(front)[id] == front[k];
        assert IsLastResult(results, id, k);
      } else {
        forall k: nat ensures !IsLastResult(results, id, k) {
          if IsLastResult(results, id, k) {
            assert IsLastResult(front, id, k);
          }
        }
      }
    }
  }

  lemma FailedIff(r: ResultTrace)
    ensures Failed(r.content) <==> !Succeeded(r)
  {
    var s := r.content;
    TrimStartSpec(s);
    var n := |s| - |TrimStart(s)|;
    if !Succeeded(r) {
      assert s[n..n + 6] == TrimStart(s)[..6];
      assert Occurs(s, "Error:", n);
    }
    if Failed(s) {
      var i: nat :| Occurs(s, "Error:", i) && forall k :: 0 <= k < i ==> IsSpace(s[k]);
      assert s[i] == s[i..i + 6][0] == 'E';
      if TrimStart(s) != "" {
        assert TrimStart(s)[0] == s[n];
      }
      assert i == n;
      assert TrimStart(s)[..6] == s[n..n + 6];
    }
  }

  /** A call is taken for an operation by exactly what was recorded of it. */
  lemma FulfilsIff(call: CallTrace, results: seq<ResultTrace>, op: Operation)
    ensures Fulfils(call, ResultById(results), op) <==> Counts(call, results, op)
  {
    FitsIff(call, op);
    var id := call.toolCallId;
    LastResultIs(results, id);
    hide Fits, MatchesArgs, ResultById, Succeeded, Failed;
    forall k: nat | IsLastResult(results, id, k) ensures Failed(results[k].content) <==> !Succeeded(results[k]) {
      FailedIff(results[k]);
    }
  }

  // ----- the whole verdict told so -----

  /** No operation before the `i`-th one has taken call `k`. */
  ghost predicate Free(picks: seq<Option<nat>>, i: nat, k: nat) {
    forall j :: 0 <= j < i && j < |picks| ==> picks[j] != Some(k)
  }

  /** The `i`-th operation takes the first free call that counts for it, if there is one. */
  ghost predicate TakesFirst(calls: seq<CallTrace>, results: seq<ResultTrace>, op: Operation, picks: seq<Option<nat>>, i: nat)
    requires i < |picks|
  {
    && (picks[i].Some? ==> picks[i].value < |calls| && Free(picks, i, picks[i].value)
                           && Counts(calls[picks[i].value], results, op))
    && forall k: nat :: k < |calls| && Free(picks, i, k) && (picks[i].None? || k < picks[i].value)
                        ==> !Counts(calls[k], results, op)
  }

  /** What is said of an operation that takes no call; `i` of the picks are made. */
  ghost predicate Explains(flag: Flag, calls: seq<CallTrace>, results: seq<ResultTrace>, op: Operation,
                           picks: seq<Option<nat>>, i: nat)
  {
    match flag
    case Missing(tag) => tag == op.tag && forall k: nat :: k < |calls| && Free(picks, i, k) ==> calls[k].name != op.name
    case Mismatch(tag) =>
      && tag == op.tag
      && (exists k: nat :: k < |calls| && Free(picks, i, k) && calls[k].name == op.name)
      && forall k: nat :: k < |calls| && Free(picks, i, k) ==> !Fits(calls[k], op)
    case ResultMissing(tag) =>
      tag == op.tag && exists k: nat :: FirstFitting(calls, op, picks, i, k)
                                        && forall at: nat :: !IsLastResult(results, calls[k].toolCallId, at)
    case ResultError(tag) =>
      tag == op.tag && exists k: nat, at: nat :: FirstFitting(calls, op, picks, i, k)
                                                 && IsLastResult(results, calls[k].toolCallId, at) && Failed(results[at].content)
    case VerifyNotAfterWrite => false
    case NotBeforeWrite(_) => false
  }

  ghost predicate FirstFitting(calls: seq<CallTrace>, op: Operation, picks: seq<Option<nat>>, i: nat, k: nat) {
    && k < |calls| && Free(picks, i, k) && Fits(calls[k], op)
    && forall l: nat :: l < k && Free(picks, i, l) ==> !Fits(calls[l], op)
  }

  /** The positions at which a call was taken, or at which none was. */
  ghost predicate Positions(at: seq<nat>, picks: seq<Option<nat>>, taken: bool) {
    Rising(at) && forall i: nat :: i in at <==> i < |picks| && picks[i].Some? == taken
  }

  ghost predicate LastPick(ops: seq<Operation>, picks: seq<Option<nat>>, tag: string, k: nat)
    requires |picks| == |ops|
  {
    exists i :: 0 <= i < |ops| && ops[i].tag == tag && picks[i] == Some(k)
                && forall j :: i < j < |ops| && ops[j].tag == tag ==> picks[j].None?
  }

  /** Tag `a` got its first call before tag `b` did. */
  ghost predicate TakenBefore(ops: seq<Operation>, picks: seq<Option<nat>>, a: string, b: string)
    requires |picks| == |ops|
  {
    exists i :: 0 <= i < |ops| && ops[i].tag == a && picks[i].Some?
                && forall j :: 0 <= j <= i && ops[j].tag == b ==> picks[j].None?
  }

  /** Every tag with its last call, in the order in which the tags got their first. */
  ghost predicate IsTable(table: seq<(string, nat)>, ops: seq<Operation>, picks: seq<Option<nat>>)
    requires |picks| == |ops|
  {
    && (forall tag: string, k: nat :: (tag, k) in table <==> LastPick(ops, picks, tag, k))
    && forall i, j :: 0 <= i < j < |table| ==> TakenBefore(ops, picks, table[i].0, table[j].0)
  }

  ghost predicate Validates(validated: seq<string>, ops: seq<Operation>, picks: seq<Option<nat>>)
    requires |picks| == |ops|
  {
    exists hit: seq<nat> :: Positions(hit, picks, true) && |hit| == |validated|
                            && forall j :: 0 <= j < |hit| ==> hit[j] < |ops| && validated[j] == ops[hit[j]].tag
  }

  ghost predicate ExplainsEach(flags: seq<Flag>, calls: seq<CallTrace>, results: seq<ResultTrace>, ops: seq<Operation>,
                               picks: seq<Option<nat>>)
    requires |picks| == |ops|
  {
    exists missed: seq<nat> ::
      && Positions(missed, picks, false) && |missed| == |flags|
      && forall j :: 0 <= j < |missed|
                     ==> missed[j] < |ops| && Explains(flags[j], calls, results, ops[missed[j]], picks, missed[j])
  }

  /** A verification that does not come after the write, or anything else that does not come before it. */
  ghost predicate Misplaced(entry: (string, nat), writeIndex: nat) {
    if entry.0 == "verify_output" then entry.1 <= writeIndex else entry.0 != "write_output" && entry.1 >= writeIndex
  }

  ghost predicate TellsOrder(flags: seq<Flag>, table: seq<(string, nat)>) {
    && ((forall w: nat :: ("write_output", w) !in table) ==> flags == [])
    && forall w: nat :: ("write_output", w) in table
                        ==> exists late :: ListsMisplaced(late, table, w) && NamesEach(flags, table, late)
  }

  ghost predicate ListsMisplaced(late: seq<nat>, table: seq<(string, nat)>, w: nat) {
    Rising(late) && forall k: nat :: k in late <==> k < |table| && Misplaced(table[k], w)
  }

  ghost predicate NamesEach(flags: seq<Flag>, table: seq<(string, nat)>, late: seq<nat>) {
    && |flags| == |late|
    && forall j :: 0 <= j < |late| ==> && late[j] < |table|
                                       && var tag := table[late[j]].0;
                                          flags[j] == if tag == "verify_output" then VerifyNotAfterWrite else NotBeforeWrite(tag)
  }

  ghost predicate IsUsed(used: set<nat>, picks: seq<Option<nat>>) {
    forall k: nat :: k in used <==> !Free(picks, |picks|, k)
  }

  /** What has been found after these operations. */
  ghost predicate Tells(m: Matching, calls: seq<CallTrace>, results: seq<ResultTrace>, ops: seq<Operation>, picks: seq<Option<nat>>) {
    && |picks| == |ops|
    && IsUsed(m.used, picks)
    && (forall i :: 0 <= i < |ops| ==> TakesFirst(calls, results, ops[i], picks, i))
    && IsTable(m.byTag, ops, picks) && Validates(m.validated, ops, picks)
    && ExplainsEach(m.flags, calls, results, ops, picks)
  }

  /**
   * The verdict: every operation in turn takes the first free call that counts for it. The operations that took one
   * are validated, in order; the flags explain each of the others, in order, and then name what lies on the wrong
   * side of the write.
   */
  ghost predicate IsVerdict(calls: seq<CallTrace>, results: seq<ResultTrace>, ops: seq<Operation>,
                            validated: seq<string>, flags: seq<Flag>)
  {
    exists m: Matching, picks, order :: && Tells(m, calls, results, ops, picks) && TellsOrder(order, m.byTag)
                                        && validated == m.validated && flags == m.flags + order
  }

  lemma FreeInFront(picks: seq<Option<nat>>, pick: Option<nat>, i: nat, k: nat)
    requires i <= |picks|
    ensures Free(picks + [pick], i, k) <==> Free(picks, i, k)
  {
    var more := picks + [pick];
    assert forall j :: 0 <= j < |picks| ==> more[j] == picks[j];
  }

  lemma FreeAfter(picks: seq<Option<nat>>, pick: Option<nat>, k: nat)
    ensures Free(picks + [pick], |picks| + 1, k) <==> Free(picks, |picks|, k) && pick != Some(k)
  {
    var more := picks + [pick];
    assert more[|picks|] == pick;
    assert forall j :: 0 <= j < |picks| ==> more[j] == picks[j];
  }

  lemma TakesFirstStays(calls: seq<CallTrace>, results: seq<ResultTrace>, op: Operation, picks: seq<Option<nat>>,
                        pick: Option<nat>, i: nat)
    requires i < |picks| && TakesFirst(calls, results, op, picks, i)
    ensures TakesFirst(calls, results, op, picks + [pick], i)
  {
    hide Free, Counts;
    forall k ensures Free(picks + [pick], i, k) <==> Free(picks, i, k) {
      FreeInFront(picks, pick, i, k);
    }
  }

  lemma ExplainsStays(flag: Flag, calls: seq<CallTrace>, results: seq<ResultTrace>, op: Operation, picks: seq<Option<nat>>,
                      pick: Option<nat>, i: nat)
    requires i <= |picks| && Explains(flag, calls, results, op, picks, i)
    ensures Explains(flag, calls, results, op, picks + [pick], i)
  {
    hide Free, Fits, Failed, IsLastResult;
    forall k ensures Free(picks + [pick], i, k) <==> Free(picks, i, k) {
      FreeInFront(picks, pick, i, k);
    }
  }

  lemma PositionsNext(at: seq<nat>, picks: seq<Option<nat>>, taken: bool, pick: Option<nat>)
    requires Positions(at, picks, taken)
    ensures Positions(if pick.Some? == taken then at + [|picks|] else at, picks + [pick], taken)
  {
    var more := picks + [pick];
    assert more[|picks|] == pick;
    assert forall i :: 0 <= i < |picks| ==> more[i] == picks[i];
    forall i | 0 <= i < |at| ensures at[i] < |picks| {
      assert at[i] in at;
    }
    if pick.Some? == taken {
      var at' := at + [|picks|];
      forall i: nat ensures i in at' <==> i < |more| && more[i].Some? == taken {
        assert i in at' <==> i in at || i == |picks|;
      }
    } else {
      forall i: nat ensures i in at <==> i < |more| && more[i].Some? == taken {
        assert i in at <==> i < |picks| && picks[i].Some? == taken;
      }
    }
  }

  lemma ValidatesNext(validated: seq<string>, ops: seq<Operation>, picks: seq<Option<nat>>, op: Operation, pick: Option<nat>)
    requires |picks| == |ops| && Validates(validated, ops, picks)
    ensures Validates(if pick.Some? then validated + [op.tag] else validated, ops + [op], picks + [pick])
  {
    hide Positions;
    var hit: seq<nat> :| Positions(hit, picks, true) && |hit| == |validated|
                         && forall j :: 0 <= j < |hit| ==> hit[j] < |ops| && validated[j] == ops[hit[j]].tag;
    PositionsNext(hit, picks, true, pick);
  }

  lemma ExplainsNext(flags: seq<Flag>, calls: seq<CallTrace>, results: seq<ResultTrace>, ops: seq<Operation>,
                     picks: seq<Option<nat>>, op: Operation, pick: Option<nat>, flag: Flag)
    requires |picks| == |ops| && ExplainsEach(flags, calls, results, ops, picks)
    requires pick.None? ==> Explains(flag, calls, results, op, picks, |picks|)
    ensures ExplainsEach(if pick.None? then flags + [flag] else flags, calls, results, ops + [op], picks + [pick])
  {
    hide Positions, Explains;
    var missed: seq<nat> :|
      && Positions(missed, picks, false) && |missed| == |flags|
      && forall j :: 0 <= j < |missed|
                     ==> missed[j] < |ops| && Explains(flags[j], calls, results, ops[missed[j]], picks, missed[j]);
    PositionsNext(missed, picks, false, pick);
    var missed', flags' := if pick.None? then missed + [|picks|] else missed, if pick.None? then flags + [flag] else flags;
    forall j | 0 <= j < |missed'|
      ensures missed'[j] < |ops| + 1 && Explains(flags'[j], calls, results, (ops + [op])[missed'[j]], picks + [pick], missed'[j])
    {
      if j < |missed| {
        ExplainsStays(flags[j], calls, results, ops[missed[j]], picks, pick, missed[j]);
      } else {
        ExplainsStays(flag, calls, results, op, picks, pick, |picks|);
      }
    }
  }

  lemma LastPickNext(ops: seq<Operation>, picks: seq<Option<nat>>, op: Operation, pick: Option<nat>, tag: string, k: nat)
    requires |picks| == |ops|
    ensures LastPick(ops + [op], picks + [pick], tag, k)
            <==> if pick.Some? && tag == op.tag then k == pick.value else LastPick(ops, picks, tag, k)
  {
    var ops', picks' := ops + [op], picks + [pick];
    assert ops'[|ops|] == op && picks'[|ops|] == pick;
    if LastPick(ops, picks, tag, k) {
      var i :| 0 <= i < |ops| && ops[i].tag == tag && picks[i] == Some(k)
               && forall j :: i < j < |ops| && ops[j].tag == tag ==> picks[j].None?;
      assert ops'[i].tag == tag && picks'[i] == Some(k);
    }
    if LastPick(ops', picks', tag, k) {
      var i :| 0 <= i < |ops'| && ops'[i].tag == tag && picks'[i] == Some(k)
               && forall j :: i < j < |ops'| && ops'[j].tag == tag ==> picks'[j].None?;
      if i < |ops| {
        assert ops[i].tag == tag && picks[i] == Some(k);
        assert forall j :: i < j < |ops| ==> ops'[j] == ops[j] && picks'[j] == picks[j];
      }
    }
  }

  lemma {:induction false} SomePickIsLast(ops: seq<Operation>, picks: seq<Option<nat>>, i: nat) returns (k: nat)
    requires |picks| == |ops| && i < |ops| && picks[i].Some?
    ensures LastPick(ops, picks, ops[i].tag, k)
  {
    var n := |ops| - 1;
    assert ops == ops[..n] + [ops[n]] && picks == picks[..n] + [picks[n]];
    var tag := ops[i].tag;
    if picks[n].Some? && ops[n].tag == tag {
      k := picks[n].value;
    } else {
      k := SomePickIsLast(ops[..n], picks[..n], i);
    }
    LastPickNext(ops[..n], picks[..n], ops[n], picks[n], tag, k);
  }

  lemma TakenBeforeStays(ops: seq<Operation>, picks: seq<Option<nat>>, op: Operation, pick: Option<nat>, a: string, b: string)
    requires |picks| == |ops| && TakenBefore(ops, picks, a, b)
    ensures TakenBefore(ops + [op], picks + [pick], a, b)
  {
    var i :| 0 <= i < |ops| && ops[i].tag == a && picks[i].Some? && forall j :: 0 <= j <= i && ops[j].tag == b ==> picks[j].None?;
    var ops', picks' := ops + [op], picks + [pick];
    assert ops'[i].tag == a && picks'[i].Some?;
    assert forall j :: 0 <= j <= i ==> ops'[j] == ops[j] && picks'[j] == picks[j];
  }

  lemma {:induction false} SetTagIs(byTag: seq<(string, nat)>, tag: string, index: nat) returns (p: nat)
    ensures p <= |byTag| && forall i :: 0 <= i < p ==> byTag[i].0 != tag
    ensures p < |byTag| ==> byTag[p].0 == tag && SetTag(byTag, tag, index) == byTag[p := (tag, index)]
    ensures p == |byTag| ==> SetTag(byTag, tag, index) == byTag + [(tag, index)]
  {
    if byTag == [] || byTag[0].0 == tag {
      p := 0;
    } else {
      var q := SetTagIs(byTag[1..], tag, index);
      p := q + 1;
      assert byTag == [byTag[0]] + byTag[1..];
    }
  }

  /** Entering a call keeps the other tags' entries and replaces the tag's own. */
  lemma EntryIn(byTag: seq<(string, nat)>, tag: string, index: nat, t: string, k: nat)
    requires forall i, j :: 0 <= i < j < |byTag| ==> byTag[i].0 != byTag[j].0
    ensures (t, k) in SetTag(byTag, tag, index) <==> if t == tag then k == index else (t, k) in byTag
  {
    var p := SetTagIs(byTag, tag, index);
    var byTag' := SetTag(byTag, tag, index);
    hide SetTag;
    assert byTag'[p] == (tag, index);
    if (t, k) in byTag {
      var i :| 0 <= i < |byTag| && byTag[i] == (t, k);
      assert i != p ==> byTag'[i] == (t, k);
    }
  }

  lemma TableNext(table: seq<(string, nat)>, ops: seq<Operation>, picks: seq<Option<nat>>, op: Operation, k: nat)
    requires |picks| == |ops| && IsTable(table, ops, picks)
    ensures IsTable(SetTag(table, op.tag, k), ops + [op], picks + [Some(k)])
  {
    var table' := SetTag(table, op.tag, k);
    var p := SetTagIs(table, op.tag, k);
    hide SetTag;
    forall i, j | 0 <= i < j < |table| ensures table[i].0 != table[j].0 {
      assert TakenBefore(ops, picks, table[i].0, table[j].0);
    }
    forall t: string, l: nat ensures (t, l) in table' <==> LastPick(ops + [op], picks + [Some(k)], t, l) {
      EntryIn(table, op.tag, k, t, l);
      LastPickNext(ops, picks, op, Some(k), t, l);
    }
    hide LastPick;
    forall i, j | 0 <= i < j < |table'| ensures TakenBefore(ops + [op], picks + [Some(k)], table'[i].0, table'[j].0) {
      if j < |table| {
        TakenBeforeStays(ops, picks, op, Some(k), table[i].0, table[j].0);
      } else {
        NewTagIsLast(table, ops, picks, op.tag, i);
        TakenBeforeStays(ops, picks, op, Some(k), table[i].0, op.tag);
      }
    }
  }

  lemma EntryHasTag(table: seq<(string, nat)>, tag: string, k: nat)
    requires (tag, k) in table
    ensures exists j :: 0 <= j < |table| && table[j].0 == tag
  {
  }

  lemma NewTagIsLast(table: seq<(string, nat)>, ops: seq<Operation>, picks: seq<Option<nat>>, tag: string, i: nat)
    requires |picks| == |ops| && IsTable(table, ops, picks) && i < |table| && forall j :: 0 <= j < |table| ==> table[j].0 != tag
    ensures TakenBefore(ops, picks, table[i].0, tag)
  {
    assert (table[i].0, table[i].1) in table;
    var at :| 0 <= at < |ops| && ops[at].tag == table[i].0 && picks[at] == Some(table[i].1);
    forall j | 0 <= j <= at && ops[j].tag == tag ensures picks[j].None? {
      if picks[j].Some? {
        var k := SomePickIsLast(ops, picks, j);
        EntryHasTag(table, tag, k);
        assert false;
      }
    }
  }

  lemma TableStays(table: seq<(string, nat)>, ops: seq<Operation>, picks: seq<Option<nat>>, op: Operation)
    requires |picks| == |ops| && IsTable(table, ops, picks)
    ensures IsTable(table, ops + [op], picks + [None])
  {
    hide LastPick, TakenBefore;
    forall t: string, l: nat ensures (t, l) in table <==> LastPick(ops + [op], picks + [None], t, l) {
      LastPickNext(ops, picks, op, None, t, l);
    }
    forall i, j | 0 <= i < j < |table| ensures TakenBefore(ops + [op], picks + [None], table[i].0, table[j].0) {
      TakenBeforeStays(ops, picks, op, None, table[i].0, table[j].0);
    }
  }

  lemma {:induction false} FirstExcuseIs(calls: seq<CallTrace>, byId: map<string, ResultTrace>, op: Operation, used: set<nat>, i: nat)
    requires forall k: nat :: i <= k < |calls| && k !in used ==> !Fulfils(calls[k], byId, op)
    ensures match FirstExcuse(calls, byId, op, used, i)
            case Some(flag) =>
              exists k: nat :: i <= k < |calls| && k !in used && calls[k].name == op.name && MatchesArgs(calls[k], op)
                               && Excuse(calls[k], byId, op) == Some(flag)
                               && forall l: nat :: i <= l < k && l !in used ==> !(calls[l].name == op.name && MatchesArgs(calls[l], op))
            case None => forall k: nat :: i <= k < |calls| && k !in used ==> !(calls[k].name == op.name && MatchesArgs(calls[k], op))
    decreases |calls| - i
  {
    hide MatchesArgs, Excuse;
    if i < |calls| {
      FirstExcuseIs(calls, byId, op, used, i + 1);
    }
  }

  lemma {:induction false} SawNameIff(calls: seq<CallTrace>, op: Operation, used: set<nat>, i: nat)
    ensures SawName(calls, op, used, i) <==> exists k: nat :: i <= k < |calls| && k !in used && calls[k].name == op.name
    decreases |calls| - i
  {
    if i < |calls| {
      SawNameIff(calls, op, used, i + 1);
    }
  }

  /** The flag of an operation that finds no call explains it. */
  lemma FailureExplains(calls: seq<CallTrace>, results: seq<ResultTrace>, op: Operation, used: set<nat>, picks: seq<Option<nat>>)
    requires IsUsed(used, picks)
    requires FirstFit(calls, ResultById(results), op, used, 0).None?
    ensures Explains(FailureFlag(calls, ResultById(results), op, used), calls, results, op, picks, |picks|)
  {
    var byId := ResultById(results);
    FirstFitIs(calls, byId, op, used, 0);
    FirstExcuseIs(calls, byId, op, used, 0);
    SawNameIff(calls, op, used, 0);
    hide FirstFit, FirstExcuse, SawName, Fits, MatchesArgs, Free, Fulfils;
    forall k: nat | k < |calls| ensures Fits(calls[k], op) <==> calls[k].name == op.name && MatchesArgs(calls[k], op) {
      FitsIff(calls[k], op);
    }
    match FirstExcuse(calls, byId, op, used, 0)
    case Some(flag) =>
      var k: nat :| k < |calls| && k !in used && calls[k].name == op.name && MatchesArgs(calls[k], op)
                    && Excuse(calls[k], byId, op) == Some(flag)
                    && forall l: nat :: l < k && l !in used ==> !(calls[l].name == op.name && MatchesArgs(calls[l], op));
      assert FirstFitting(calls, op, picks, |picks|, k);
      ExcuseSays(calls[k], results, op);
    case None =>
  }

  lemma ExcuseSays(call: CallTrace, results: seq<ResultTrace>, op: Operation)
    requires Excuse(call, ResultById(results), op).Some?
    ensures match Excuse(call, ResultById(results), op).value
            case ResultMissing(tag) => tag == op.tag && forall at: nat :: !IsLastResult(results, call.toolCallId, at)
            case ResultError(tag) =>
              tag == op.tag && exists at: nat :: IsLastResult(results, call.toolCallId, at) && Failed(results[at].content)
            case _ => false
  {
    LastResultIs(results, call.toolCallId);
    hide ResultById, Succeeded, Failed;
    forall k: nat | IsLastResult(results, call.toolCallId, k) ensures Failed(results[k].content) <==> !Succeeded(results[k]) {
      FailedIff(results[k]);
    }
  }

  /** The operation takes the first fit, and the earlier ones keep theirs. */
  lemma TakesNext(calls: seq<CallTrace>, results: seq<ResultTrace>, ops: seq<Operation>, picks: seq<Option<nat>>,
                  used: set<nat>, op: Operation)
    requires |picks| == |ops| && IsUsed(used, picks)
    requires forall i :: 0 <= i < |ops| ==> TakesFirst(calls, results, ops[i], picks, i)
    ensures var pick, ops' := FirstFit(calls, ResultById(results), op, used, 0), ops + [op];
            && IsUsed(if pick.Some? then used + {pick.value} else used, picks + [pick])
            && forall i :: 0 <= i < |ops'| ==> TakesFirst(calls, results, ops'[i], picks + [pick], i)
  {
    var byId, n := ResultById(results), |picks|;
    var pick, ops' := FirstFit(calls, byId, op, used, 0), ops + [op];
    FirstFitIs(calls, byId, op, used, 0);
    hide FirstFit, ResultById, Fulfils, Counts, Free;
    forall k: nat | k < |calls| ensures Fulfils(calls[k], byId, op) <==> Counts(calls[k], results, op) {
      FulfilsIff(calls[k], results, op);
    }
    forall k: nat
      ensures Free(picks + [pick], n, k) <==> Free(picks, n, k)
      ensures Free(picks + [pick], n + 1, k) <==> Free(picks, n, k) && pick != Some(k)
    {
      FreeInFront(picks, pick, n, k);
      FreeAfter(picks, pick, k);
    }
    assert (picks + [pick])[n] == pick;
    assert TakesFirst(calls, results, op, picks + [pick], n);
    forall i | 0 <= i < n ensures TakesFirst(calls, results, ops'[i], picks + [pick], i) {
      TakesFirstStays(calls, results, ops[i], picks, pick, i);
    }
  }

  lemma TellsNext(m: Matching, calls: seq<CallTrace>, results: seq<ResultTrace>, ops: seq<Operation>, picks: seq<Option<nat>>,
                  op: Operation)
    returns (pick: Option<nat>)
    requires Tells(m, calls, results, ops, picks)
    ensures Tells(MatchNext(m, calls, ResultById(results), op), calls, results, ops + [op], picks + [pick])
  {
    hide FirstFit, ResultById, FailureFlag, Free, TakesFirst, IsTable, Validates, ExplainsEach, Explains, SetTag;
    var byId := ResultById(results);
    pick := FirstFit(calls, byId, op, m.used, 0);
    TakesNext(calls, results, ops, picks, m.used, op);
    ValidatesNext(m.validated, ops, picks, op, pick);
    if pick.None? {
      FailureExplains(calls, results, op, m.used, picks);
      TableStays(m.byTag, ops, picks, op);
      ExplainsNext(m.flags, calls, results, ops, picks, op, pick, FailureFlag(calls, byId, op, m.used));
    } else {
      TableNext(m.byTag, ops, picks, op, pick.value);
      ExplainsNext(m.flags, calls, results, ops, picks, op, pick, Missing(op.tag));
    }
  }

  lemma {:induction false} AllTold(m: Matching, calls: seq<CallTrace>, results: seq<ResultTrace>, done: seq<Operation>,
                                   ops: seq<Operation>, picks: seq<Option<nat>>)
    returns (picks': seq<Option<nat>>)
    requires Tells(m, calls, results, done, picks)
    ensures Tells(MatchAll(m, calls, ResultById(results), ops), calls, results, done + ops, picks')
    decreases |ops|
  {
    hide Tells, ResultById, MatchNext;
    if ops == [] {
      picks' := picks;
      assert done + ops == done;
    } else {
      var pick := TellsNext(m, calls, results, done, picks, ops[0]);
      picks' := AllTold(MatchNext(m, calls, ResultById(results), ops[0]), calls, results, done + [ops[0]], ops[1..], picks + [pick]);
      assert done + [ops[0]] + ops[1..] == done + ops;
    }
  }

  lemma {:induction false} OrderFlagsTell(table: seq<(string, nat)>, w: nat) returns (late: seq<nat>)
    ensures ListsMisplaced(late, table, w) && NamesEach(OrderFlags(table, w), table, late)
  {
    if table == [] {
      late := [];
    } else {
      var rest := OrderFlagsTell(table[1..], w);
      late := (if Misplaced(table[0], w) then [0] else []) + Shift(rest, 1);
      MisplacedNext(rest, table, w);
      NamesNext(OrderFlags(table[1..], w), rest, table, w);
    }
  }

  lemma MisplacedNext(rest: seq<nat>, table: seq<(string, nat)>, w: nat)
    requires table != [] && ListsMisplaced(rest, table[1..], w)
    ensures ListsMisplaced((if Misplaced(table[0], w) then [0] else []) + Shift(rest, 1), table, w)
  {
    hide Misplaced;
    var late := (if Misplaced(table[0], w) then [0] else []) + Shift(rest, 1);
    forall k: nat ensures k in late <==> k < |table| && Misplaced(table[k], w) {
      InShift(rest, 1, k);
      hide Shift;
      assert k in late <==> (k == 0 && Misplaced(table[0], w)) || k in Shift(rest, 1);
      if k > 0 {
        assert k < |table| ==> table[k] == table[1..][k - 1];
        assert k - 1 in rest <==> k - 1 < |table[1..]| && Misplaced(table[1..][k - 1], w);
      }
    }
  }

  lemma NamesNext(flags: seq<Flag>, rest: seq<nat>, table: seq<(string, nat)>, w: nat)
    requires table != [] && NamesEach(flags, table[1..], rest)
    ensures NamesEach(OrderFlag(table[0], w) + flags, table, (if Misplaced(table[0], w) then [0] else []) + Shift(rest, 1))
  {
    assert forall j :: 0 <= j < |rest| ==> table[1..][rest[j]] == table[rest[j] + 1];
  }

  /** What the check reports is the verdict on the recorded run, told without its tables. */
  lemma ReportIsVerdict(calls: seq<CallTrace>, results: seq<ResultTrace>, ops: seq<Operation>)
    ensures var m := MatchAll(NOTHING_MATCHED, calls, ResultById(results), ops);
            IsVerdict(calls, results, ops, m.validated, AllFlags(m))
  {
    hide ResultById, MatchAll, Tells, GetTag, OrderFlags, TellsOrder;
    var m := MatchAll(NOTHING_MATCHED, calls, ResultById(results), ops);
    NothingTells(calls, results);
    var picks := AllTold(NOTHING_MATCHED, calls, results, [], ops, []);
    assert [] + ops == ops;
    var order := OrderTells(m, calls, results, ops, picks);
    assert IsVerdict(calls, results, ops, m.validated, m.flags + order);
  }

  lemma OrderTells(m: Matching, calls: seq<CallTrace>, results: seq<ResultTrace>, ops: seq<Operation>, picks: seq<Option<nat>>)
    returns (order: seq<Flag>)
    requires Tells(m, calls, results, ops, picks)
    ensures TellsOrder(order, m.byTag) && AllFlags(m) == m.flags + order
  {
    GetTagIs(m.byTag, WRITE);
    match GetTag(m.byTag, WRITE)
    case None =>
      order := [];
    case Some(w) =>
      OneWrite(m.byTag, ops, picks, w);
      var late := OrderFlagsTell(m.byTag, w);
      hide ListsMisplaced, NamesEach;
      order := OrderFlags(m.byTag, w);
  }

  lemma OneWrite(table: seq<(string, nat)>, ops: seq<Operation>, picks: seq<Option<nat>>, w: nat)
    requires |picks| == |ops| && IsTable(table, ops, picks) && (WRITE, w) in table
    ensures forall v: nat :: (WRITE, v) in table ==> v == w
  {
    forall v: nat | (WRITE, v) in table ensures v == w {
      var i :| 0 <= i < |table| && table[i] == (WRITE, w);
      var j :| 0 <= j < |table| && table[j] == (WRITE, v);
      assert i < j ==> TakenBefore(ops, picks, table[i].0, table[j].0);
      assert j < i ==> TakenBefore(ops, picks, table[j].0, table[i].0);
    }
  }

  lemma NothingTells(calls: seq<CallTrace>, results: seq<ResultTrace>)
    ensures Tells(NOTHING_MATCHED, calls, results, [], [])
  {
    var none: seq<nat> := [];
    assert Positions(none, [], true) && Positions(none, [], false);
  }

  const WRITE_CALL := CallTrace("write_file", "w", map[])
  const VERIFY_CALL := CallTrace("read_file", "v", map[])
  const RUN_RESULTS := [ResultTrace("w", ""), ResultTrace("v", "")]
  const WRITE_OP := Operation(WRITE, "write_file", map[])
  const VERIFY_OP := Operation(VERIFY, "read_file", map[])

  /** Reading once more before the write is flagged, although the output is verified after the write. */
  lemma EarlyVerificationIsFlagged()
    ensures var calls, ops := [VERIFY_CALL, WRITE_CALL, VERIFY_CALL], [WRITE_OP, VERIFY_OP];
            var byId := ResultById(RUN_RESULTS);
            && DistinctTags(ops) && Unambiguous(calls, byId, ops)
            && Assigns(calls, byId, ops, [1, 2]) && WriteOrdered(ops, [1, 2])
            && AllFlags(MatchAll(NOTHING_MATCHED, calls, byId, ops)) != []
  {
    var calls, ops := [VERIFY_CALL, WRITE_CALL, VERIFY_CALL], [WRITE_OP, VERIFY_OP];
    var byId := ResultById(RUN_RESULTS);
    assert RUN_RESULTS[..1] == [ResultTrace("w", "")] && RUN_RESULTS[..1][..0] == [];
    assert TrimStart("") == "";
    assert Fulfils(WRITE_CALL, byId, WRITE_OP) && !Fulfils(WRITE_CALL, byId, VERIFY_OP);
    assert Fulfils(VERIFY_CALL, byId, VERIFY_OP) && !Fulfils(VERIFY_CALL, byId, WRITE_OP);
    hide Fulfils, ResultById;
    VerdictIff(calls, RUN_RESULTS, ops);
    FirstFitIs(calls, byId, WRITE_OP, {}, 0);
    assert !Fulfils(calls[0], byId, WRITE_OP) && Fulfils(calls[1], byId, WRITE_OP) && !Fulfils(calls[2], byId, WRITE_OP);
    assert FirstCall(calls, byId, VERIFY_OP) == Some(0) && FirstCall(calls, byId, WRITE_OP) == Some(1);
    var firsts := FirstCalls(calls, byId, ops);
    assert ops[0] == WRITE_OP && ops[1] == VERIFY_OP;
    assert firsts.Some? && firsts.value[0] == 1 && firsts.value[1] == 0;
    assert !InOrder(ops[1].tag, firsts.value[1], firsts.value[0]);
  }

  const NARROW_CALL := CallTrace("read", "1", map["path" := "x"])
  const OTHER_CALL := CallTrace("read", "2", map[])
  const BOTH_SUCCEEDED := map["1" := ResultTrace("1", ""), "2" := ResultTrace("2", "")]
  const BROAD := Operation("a", "read", map[])
  const NARROW := Operation("b", "read", map["path" := "x"])

  lemma WhoFulfilsWhat()
    ensures Fulfils(NARROW_CALL, BOTH_SUCCEEDED, BROAD) && Fulfils(OTHER_CALL, BOTH_SUCCEEDED, BROAD)
    ensures Fulfils(NARROW_CALL, BOTH_SUCCEEDED, NARROW) && !Fulfils(OTHER_CALL, BOTH_SUCCEEDED, NARROW)
  {
    TrimmedIff("x");
    TrimmedIff("");
    assert TrimStart("") == "";
    assert "path" in NARROW.args;
  }

  /** A broad requirement listed first takes the call that a narrow one needs. */
  lemma GreedyMissesAnAssignment()
    ensures var calls, ops := [NARROW_CALL, OTHER_CALL], [BROAD, NARROW];
            && DistinctTags(ops)
            && Assigns(calls, BOTH_SUCCEEDED, ops, [1, 0])
            && MatchAll(NOTHING_MATCHED, calls, BOTH_SUCCEEDED, ops).flags != []
  {
    var calls, ops := [NARROW_CALL, OTHER_CALL], [BROAD, NARROW];
    WhoFulfilsWhat();
    BroadTakesTheShared(BOTH_SUCCEEDED, BROAD, NARROW, NARROW_CALL, OTHER_CALL);
    hide Fulfils, Picks;
    UnflaggedIffPicked(NOTHING_MATCHED, calls, BOTH_SUCCEEDED, ops);
  }
}
