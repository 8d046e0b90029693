/**
 * The arena's two coupled state machines: a run and its branches (src/arena/ArenaStore.ts).
 * Ids of events, timestamps and the contents of proposals and judge results are left out.
 */
module ArenaStore {
  import opened Messages
  import opened Text

  datatype RunStatus = Draft | Preparing | Running | Paused | Judging | ProposalReady | Applied | Closed

  datatype BranchStatus =
    | BranchDraft | BranchPreparing | BranchRunning | BranchPaused | Submitted | Reopened
    | Blocked | Failed | Cancelled | Frozen | Promoted

  datatype Contestant = Contestant(id: string, displayName: string, profileId: string, model: string)

  datatype Judge = Judge(profileId: string, model: string)

  datatype Submission = Submission(complete: bool, summary: string, evidence: seq<string>)

  datatype Branch = Branch(
    id: string, status: BranchStatus, contestant: Contestant, sessionId: Option<string>, workspaceDir: Option<string>,
    promoted: bool, submission: Option<Submission>)

  datatype Run = Run(
    id: string, status: RunStatus, contestants: seq<Contestant>, judge: Judge, branches: seq<Branch>,
    winner: Option<string>, judgeRunId: Option<string>, timeline: nat, updatedAt: int)

  const MAX_CONTESTANTS := 4

  // ----- configuration -----

  /** Trims a contestant and fills in its defaults; a contestant without a model is refused. */
  function NormalizeContestant(c: Contestant, index: nat): Option<Contestant> {
    if Trim(c.profileId) == "" || Trim(c.model) == "" then None
    else
      Some(Contestant(
        if Trim(c.id) == "" then "contestant-" + Print(index + 1) else Trim(c.id),
        if Trim(c.displayName) == "" then "Contestant " + Print(index + 1) else Trim(c.displayName),
        Trim(c.profileId),
        Trim(c.model)))
  }

  function NormalizeFrom(cs: seq<Contestant>, index: nat): (r: Option<seq<Contestant>>)
    requires index <= |cs|
    ensures r.Some? ==> |r.value| == |cs| - index
    decreases |cs| - index
  {
    if index == |cs| then Some([])
    else
      var first :- NormalizeContestant(cs[index], index);
      var rest :- NormalizeFrom(cs, index + 1);
      Some([first] + rest)
  }

  function NormalizeContestants(cs: seq<Contestant>): (r: Option<seq<Contestant>>)
    ensures r.Some? ==> 1 <= |r.value| == |cs| <= MAX_CONTESTANTS
  {
    if |cs| < 1 || |cs| > MAX_CONTESTANTS then None else NormalizeFrom(cs, 0)
  }

  function NormalizeJudge(j: Judge): Option<Judge> {
    if Trim(j.profileId) == "" || Trim(j.model) == "" then None else Some(Judge(Trim(j.profileId), Trim(j.model)))
  }

  function BranchId(index: nat): string {
    "branch-" + Print(index + 1)
  }

  function ToBranches(cs: seq<Contestant>): (bs: seq<Branch>)
    ensures |bs| == |cs| && forall i :: 0 <= i < |bs| ==> bs[i] == Branch(BranchId(i), BranchDraft, cs[i], None, None, false, None)
  {
    seq(|cs|, i requires 0 <= i < |cs| => Branch(BranchId(i), BranchDraft, cs[i], None, None, false, None))
  }

  // ----- transitions -----

  function AllowedNext(s: RunStatus): set<RunStatus> {
    match s
    case Draft => {Preparing, Closed}
    case Preparing => {Running, Paused, Closed}
    case Running => {Paused, Judging, ProposalReady, Applied, Closed}
    case Paused => {Running, Judging, ProposalReady, Applied, Closed}
    case Judging => {ProposalReady, Applied, Closed}
    case ProposalReady => {Applied, Closed}
    case Applied => {}
    case Closed => {}
  }

  function AllowedBranchNext(s: BranchStatus): set<BranchStatus> {
    match s
    case BranchDraft => {BranchPreparing, Cancelled}
    case BranchPreparing => {BranchRunning, BranchPaused, Failed, Cancelled}
    case BranchRunning => {BranchPaused, Submitted, Blocked, Failed, Cancelled}
    case BranchPaused => {BranchRunning, Cancelled}
    case Submitted => {Reopened, Frozen, Promoted}
    case Reopened => {BranchRunning, BranchPaused, Submitted, Blocked, Failed, Cancelled}
    case Blocked => {Reopened, Frozen, Promoted}
    case Failed => {Reopened, Cancelled}
    case Cancelled => {Reopened}
    case Frozen => {Promoted}
    case Promoted => {}
  }

  predicate JudgeStarted(s: RunStatus) {
    s == Judging || s == ProposalReady || s == Applied || s == Closed
  }

  // ----- operations -----

  datatype BranchOp =
    | SetStatus(status: BranchStatus)
    | AssignSession(sessionId: string, workspaceDir: string)
    | Submit(submission: Submission)

  datatype Op =
    | UpdateConfig(contestants: Option<seq<Contestant>>, judge: Option<Judge>)
    | SetRunStatus(status: RunStatus)
    | OnBranch(branchId: string, change: BranchOp)
    | SelectWinner(winnerId: string)
    | SetProposal
    | SetJudgeRun(judgeRunId: string)
    | SetJudgeResult
    | AppendTimeline

  function KeepNonBlank(items: seq<string>): seq<string> {
    if items == [] then []
    else (if Trim(items[0]) == "" then [] else [Trim(items[0])]) + KeepNonBlank(items[1..])
  }

  /** The change of one branch, or nothing when it is refused. */
  function ChangeBranch(run: RunStatus, b: Branch, change: BranchOp): (r: Option<Branch>)
    ensures r.Some? ==> r.value.id == b.id
  {
    match change
    case SetStatus(status) =>
      if (status == Reopened && JudgeStarted(run)) || status !in AllowedBranchNext(b.status) then None
      else Some(b.(status := status, promoted := status == Promoted || b.promoted))
    case AssignSession(sessionId, workspaceDir) =>
      if Trim(sessionId) == "" then None
      else Some(b.(sessionId := Some(Trim(sessionId)),
                   workspaceDir := if Trim(workspaceDir) == "" then b.workspaceDir else Some(Trim(workspaceDir))))
    case Submit(submission) =>
      if b.status != BranchRunning && b.status != Reopened then None
      else Some(b.(status := if submission.complete then Submitted else Blocked,
                   submission := Some(Submission(
                     submission.complete, Trim(submission.summary), KeepNonBlank(submission.evidence)))))
  }

  /** Applies the change to every branch with the id. */
  function ChangeBranches(run: RunStatus, bs: seq<Branch>, id: string, change: BranchOp): (r: Option<seq<Branch>>)
    ensures r.Some? ==> |r.value| == |bs|
    ensures r.Some? ==> forall i :: 0 <= i < |bs| ==>
                          if bs[i].id == id then ChangeBranch(run, bs[i], change) == Some(r.value[i]) else r.value[i] == bs[i]
    ensures r == None ==> exists i :: 0 <= i < |bs| && bs[i].id == id && ChangeBranch(run, bs[i], change) == None
  {
    if bs == [] then Some([])
    else
      var first :- if bs[0].id == id then ChangeBranch(run, bs[0], change) else Some(bs[0]);
      var rest :- ChangeBranches(run, bs[1..], id, change);
      Some([first] + rest)
  }

  predicate HasBranch(run: Run, id: string) {
    exists i :: 0 <= i < |run.branches| && run.branches[i].id == id
  }

  /** One operation on a run; `None` is the error that leaves the stored run as it was. */
  function Step(run: Run, op: Op): Option<Run> {
    match op
    case UpdateConfig(contestants, judge) =>
      if run.status != Draft then None
      else
        var cs :- NormalizeContestants(if contestants.Some? then contestants.value else run.contestants);
        var j :- NormalizeJudge(if judge.Some? then judge.value else run.judge);
        Some(run.(contestants := cs, judge := j, branches := ToBranches(cs)))
    case SetRunStatus(status) =>
      if status !in AllowedNext(run.status) then None else Some(run.(status := status))
    case OnBranch(branchId, change) =>
      var branches :- ChangeBranches(run.status, run.branches, Trim(branchId), change);
      if HasBranch(run, Trim(branchId)) then Some(run.(branches := branches)) else None
    case SelectWinner(branchId) =>
      if Trim(branchId) == "" || !HasBranch(run, Trim(branchId)) then None
      else Some(run.(winner := Some(Trim(branchId))))
    case SetProposal => Some(run)
    case SetJudgeRun(judgeRunId) =>
      if Trim(judgeRunId) == "" then None else Some(run.(judgeRunId := Some(Trim(judgeRunId))))
    case SetJudgeResult => Some(run)
    case AppendTimeline => Some(run.(timeline := run.timeline + 1))
  }

  /** Any sequence of operations; refused ones change nothing. */
  function After(run: Run, ops: seq<Op>): Run
    decreases |ops|
  {
    if ops == [] then run else After(Next(run, ops[0]), ops[1..])
  }

  function Next(run: Run, op: Op): Run {
    if Step(run, op).Some? then Step(run, op).value else run
  }

  lemma StepKeepsTime(run: Run, op: Op)
    ensures Step(run, op).Some? ==> Step(run, op).value.updatedAt == run.updatedAt
  {
  }

  // ----- what an operation may do, and does -----

  /**
   * A run may be closed until it is at its end. Up to its first turn it goes one stage at a time, and from then
   * on to any other stage that is not behind it.
   */
  lemma TransitionsIff(s: RunStatus, t: RunStatus)
    ensures t in AllowedNext(s) <==>
              && s != Applied && s != Closed
              && (t == Closed || if Rank(s) < 2 then Rank(t) == Rank(s) + 1 else Rank(t) >= Rank(s) && t != s)
  {
  }

  /** Where a branch can come from, status by status. */
  lemma BranchTransitionsIff(s: BranchStatus, t: BranchStatus)
    ensures t in AllowedBranchNext(s) <==>
              match t
              case BranchDraft => false
              case BranchPreparing => s == BranchDraft
              case BranchRunning => s in {BranchPreparing, BranchPaused, Reopened}
              case BranchPaused => s in {BranchPreparing, BranchRunning, Reopened}
              case Submitted => s in {BranchRunning, Reopened}
              case Blocked => s in {BranchRunning, Reopened}
              case Failed => s in {BranchPreparing, BranchRunning, Reopened}
              case Cancelled => s in {BranchDraft, BranchPreparing, BranchRunning, BranchPaused, Reopened, Failed}
              case Reopened => s in {Submitted, Blocked, Failed, Cancelled}
              case Frozen => s in {Submitted, Blocked}
              case Promoted => s in {Submitted, Blocked, Frozen}
  {
  }

  /** `kept` holds the items that are not blank, in order and without the blanks around them. */
  ghost predicate KeepsItems(items: seq<string>, kept: seq<string>) {
    exists at: seq<nat> ::
      && |at| == |kept|
      && (forall i :: 0 <= i < |at| ==> at[i] < |items| && kept[i] == Trim(items[at[i]]) != "")
      && (forall i, j :: 0 <= i < j < |at| ==> at[i] < at[j])
      && forall k: nat :: k < |items| && k !in at ==> Trim(items[k]) == ""
  }

  /** What a change leaves of a branch. */
  ghost predicate BranchEffect(b: Branch, change: BranchOp, b': Branch) {
    && b'.id == b.id && b'.contestant == b.contestant
    && match change
       case SetStatus(status) =>
         && b'.status == status && (b'.promoted <==> b.promoted || status == Promoted)
         && b'.sessionId == b.sessionId && b'.workspaceDir == b.workspaceDir && b'.submission == b.submission
       case AssignSession(sessionId, workspaceDir) =>
         && b'.status == b.status && b'.promoted == b.promoted && b'.submission == b.submission
         && b'.sessionId == Some(Trim(sessionId))
         && b'.workspaceDir == if Trim(workspaceDir) != "" then Some(Trim(workspaceDir)) else b.workspaceDir
       case Submit(submission) =>
         && (b'.status == Submitted <==> submission.complete) && (b'.status == Blocked <==> !submission.complete)
         && b'.promoted == b.promoted && b'.sessionId == b.sessionId && b'.workspaceDir == b.workspaceDir
         && b'.submission.Some? && b'.submission.value.complete == submission.complete
         && b'.submission.value.summary == Trim(submission.summary)
         && KeepsItems(submission.evidence, b'.submission.value.evidence)
  }

  ghost predicate IsBare(s: string, t: string) {
    exists i: nat :: IsTrimmed(s, t, i)
  }

  /** A contestant as it was given, without blanks around its texts; a missing id or name is made from its place. */
  ghost predicate IsContestant(given: Contestant, place: nat, c: Contestant) {
    && c.profileId != "" && IsBare(given.profileId, c.profileId) && c.model != "" && IsBare(given.model, c.model)
    && (if IsBare(given.id, "") then c.id == "contestant-" + Print(place) else IsBare(given.id, c.id))
    && (if IsBare(given.displayName, "") then c.displayName == "Contestant " + Print(place)
        else IsBare(given.displayName, c.displayName))
  }

  ghost predicate AreContestants(given: seq<Contestant>, cs: seq<Contestant>) {
    |cs| == |given| && forall i :: 0 <= i < |cs| ==> IsContestant(given[i], i + 1, cs[i])
  }

  ghost predicate IsJudge(given: Judge, j: Judge) {
    j.profileId != "" && IsBare(given.profileId, j.profileId) && j.model != "" && IsBare(given.model, j.model)
  }

  lemma BareIff(s: string, t: string)
    ensures IsBare(s, t) <==> t == Trim(s)
  {
    var i := TrimIs(s);
    hide Trim;
    if IsBare(s, t) {
      var k: nat :| IsTrimmed(s, t, k);
      TrimmedUnique(s, t, k, Trim(s), i);
    }
  }

  lemma ContestantIs(given: Contestant, index: nat)
    ensures NormalizeContestant(given, index).Some? ==>
              IsContestant(given, index + 1, NormalizeContestant(given, index).value)
  {
    hide Trim, IsBare;
    BareIff(given.id, "");
    BareIff(given.id, Trim(given.id));
    BareIff(given.displayName, "");
    BareIff(given.displayName, Trim(given.displayName));
    BareIff(given.profileId, Trim(given.profileId));
    BareIff(given.model, Trim(given.model));
  }

  lemma JudgeIs(j: Judge)
    ensures NormalizeJudge(j).Some? ==> IsJudge(j, NormalizeJudge(j).value)
  {
    hide Trim, IsBare;
    BareIff(j.profileId, Trim(j.profileId));
    BareIff(j.model, Trim(j.model));
  }

  lemma ContestantsAre(cs: seq<Contestant>)
    ensures NormalizeContestants(cs).Some? ==> AreContestants(cs, NormalizeContestants(cs).value)
  {
    hide NormalizeContestant, IsContestant, NormalizeFrom;
    NormalizedAt(cs, 0);
    forall i | 0 <= i < |cs|
      ensures NormalizeContestant(cs[i], i).Some? ==> IsContestant(cs[i], i + 1, NormalizeContestant(cs[i], i).value)
    {
      ContestantIs(cs[i], i);
    }
  }

  lemma ConfigIs(cs: seq<Contestant>, j: Judge)
    ensures NormalizeContestants(cs).Some? ==> AreContestants(cs, NormalizeContestants(cs).value)
    ensures NormalizeJudge(j).Some? ==> IsJudge(j, NormalizeJudge(j).value)
  {
    hide *;
    ContestantsAre(cs);
    JudgeIs(j);
  }

  /** What a draft is made of: what was given, else the last configuration, else two contestants with the current model. */
  ghost predicate DraftsFrom(contestants: Option<seq<Contestant>>, judge: Option<Judge>, last: Option<Config>, current: Judge, run: Run) {
    && (contestants.Some? ==> AreContestants(contestants.value, run.contestants))
    && (contestants.None? && last.Some? ==> AreContestants(last.value.contestants, run.contestants))
    && (contestants.None? && last.None? ==>
          && |run.contestants| == 2
          && forall i: nat :: i < 2 ==> && run.contestants[i].id == "contestant-" + Print(i + 1)
                                        && run.contestants[i].displayName == "Contestant " + Print(i + 1)
                                        && IsBare(current.profileId, run.contestants[i].profileId)
                                        && IsBare(current.model, run.contestants[i].model))
    && IsJudge(if judge.Some? then judge.value else if last.Some? then last.value.judge else current, run.judge)
    && BranchesFrom(run)
  }

  ghost predicate BranchesFrom(run: Run) {
    && |run.branches| == |run.contestants|
    && forall i :: 0 <= i < |run.branches| ==>
         && run.branches[i].contestant == run.contestants[i] && run.branches[i].status == BranchDraft
         && run.branches[i].submission == None && !run.branches[i].promoted
         && run.branches[i].sessionId == None && run.branches[i].workspaceDir == None
  }

  lemma DraftIs(contestants: Option<seq<Contestant>>, judge: Option<Judge>, last: Option<Config>, current: Judge, run: Run)
    requires var c := NormalizeConfig(Chosen(contestants, judge, last, current));
             c.Some? && run.contestants == c.value.contestants && run.judge == c.value.judge
    requires run.branches == ToBranches(run.contestants)
    ensures DraftsFrom(contestants, judge, last, current, run)
  {
    var chosen := Chosen(contestants, judge, last, current);
    ConfigIs(chosen.contestants, chosen.judge);
    if contestants.None? && last.None? {
      DefaultsAre(current, run.contestants);
    }
  }

  lemma DefaultsAre(current: Judge, cs: seq<Contestant>)
    requires AreContestants(DefaultContestants(current), cs)
    ensures |cs| == 2
    ensures forall i: nat :: i < 2 ==> && cs[i].id == "contestant-" + Print(i + 1) && cs[i].displayName == "Contestant " + Print(i + 1)
                                       && IsBare(current.profileId, cs[i].profileId) && IsBare(current.model, cs[i].model)
  {
    forall i: nat | i < 2
      ensures && cs[i].id == "contestant-" + Print(i + 1) && cs[i].displayName == "Contestant " + Print(i + 1)
              && IsBare(current.profileId, cs[i].profileId) && IsBare(current.model, cs[i].model)
    {
      DefaultIs(current, i, cs[i]);
    }
  }

  lemma DefaultIs(current: Judge, i: nat, c: Contestant)
    requires i < 2 && IsContestant(DefaultContestants(current)[i], i + 1, c)
    ensures c.id == "contestant-" + Print(i + 1) && c.displayName == "Contestant " + Print(i + 1)
    ensures IsBare(current.profileId, c.profileId) && IsBare(current.model, c.model)
  {
    DefaultTexts(current, i);
    DefaultTrimmed(i);
    hide Trim, IsBare, Print, DefaultContestants;
    var given := DefaultContestants(current)[i];
    BareIff(given.id, "");
    BareIff(given.id, c.id);
    BareIff(given.displayName, "");
    BareIff(given.displayName, c.displayName);
  }

  lemma DefaultTexts(current: Judge, i: nat)
    requires i < 2
    ensures var given := DefaultContestants(current)[i];
            && given.id == "contestant-" + Print(i + 1) && given.displayName == "Contestant " + Print(i + 1)
            && given.profileId == current.profileId && given.model == current.model
  {
    assert Print(i + 1) == if i == 0 then "1" else "2";
  }

  lemma DefaultTrimmed(index: nat)
    ensures var id, name := "contestant-" + Print(index + 1), "Contestant " + Print(index + 1);
            Trim(id) == id != "" && Trim(name) == name != ""
  {
    PrintRead(index + 1);
    hide Trim;
    TrimmedIff("contestant-" + Print(index + 1));
    TrimmedIff("Contestant " + Print(index + 1));
  }

  /** What an accepted operation leaves of a run, and what it leaves alone. */
  ghost predicate HasEffect(run: Run, op: Op, run': Run) {
    && run'.id == run.id
    && (run'.status == if op.SetRunStatus? then op.status else run.status)
    && (!op.UpdateConfig? ==> run'.contestants == run.contestants && run'.judge == run.judge && |run'.branches| == |run.branches|)
    && (op.UpdateConfig? ==>
          && AreContestants(if op.contestants.Some? then op.contestants.value else run.contestants, run'.contestants)
          && IsJudge(if op.judge.Some? then op.judge.value else run.judge, run'.judge) && BranchesFrom(run'))
    && (op.OnBranch? ==>
          forall i :: 0 <= i < |run.branches| ==>
            if run.branches[i].id == Trim(op.branchId) then BranchEffect(run.branches[i], op.change, run'.branches[i])
            else run'.branches[i] == run.branches[i])
    && (!op.UpdateConfig? && !op.OnBranch? ==> run'.branches == run.branches)
    && (run'.winner == if op.SelectWinner? then Some(Trim(op.winnerId)) else run.winner)
    && (run'.judgeRunId == if op.SetJudgeRun? then Some(Trim(op.judgeRunId)) else run.judgeRunId)
    && run'.timeline == run.timeline + if op.AppendTimeline? then 1 else 0
  }

  /** When a change of a branch is accepted. */
  ghost predicate BranchAccepts(run: RunStatus, b: Branch, change: BranchOp) {
    match change
    case SetStatus(status) => status in AllowedBranchNext(b.status) && !(status == Reopened && Rank(run) >= 3)
    case AssignSession(sessionId, _) => Trim(sessionId) != ""
    case Submit(_) => b.status in {BranchRunning, Reopened}
  }

  predicate AllHaveModels(cs: seq<Contestant>) {
    forall i :: 0 <= i < |cs| ==> Trim(cs[i].profileId) != "" && Trim(cs[i].model) != ""
  }

  /** When an operation is accepted; the configuration must hold one to four contestants, each with a model, and a judge with one. */
  ghost predicate Accepts(run: Run, op: Op) {
    match op
    case UpdateConfig(contestants, judge) =>
      var cs, j := if contestants.Some? then contestants.value else run.contestants, if judge.Some? then judge.value else run.judge;
      && run.status == Draft && 1 <= |cs| <= 4 && AllHaveModels(cs)
      && Trim(j.profileId) != "" && Trim(j.model) != ""
    case SetRunStatus(status) => status in AllowedNext(run.status)
    case OnBranch(id, change) =>
      && (exists i :: 0 <= i < |run.branches| && run.branches[i].id == Trim(id))
      && forall i :: 0 <= i < |run.branches| && run.branches[i].id == Trim(id) ==> BranchAccepts(run.status, run.branches[i], change)
    case SelectWinner(id) => Trim(id) != "" && exists i :: 0 <= i < |run.branches| && run.branches[i].id == Trim(id)
    case SetJudgeRun(id) => Trim(id) != ""
    case _ => true
  }

  /** The places from `from` on of the items that are kept. */
  ghost predicate KeptAt(items: seq<string>, from: nat, at: seq<nat>, kept: seq<string>) {
    && |at| == |kept|
    && (forall i :: 0 <= i < |at| ==> from <= at[i] < |items| && kept[i] == Trim(items[at[i]]) != "")
    && (forall i, j :: 0 <= i < j < |at| ==> at[i] < at[j])
    && forall k: nat :: from <= k < |items| && k !in at ==> Trim(items[k]) == ""
  }

  lemma {:induction false} KeepsFrom(items: seq<string>, from: nat) returns (at: seq<nat>)
    requires from <= |items|
    ensures KeptAt(items, from, at, KeepNonBlank(items[from..]))
    decreases |items| - from
  {
    if from == |items| {
      at := [];
    } else {
      hide Trim, KeptAt;
      at := KeepsFrom(items, from + 1);
      assert items[from..][0] == items[from] && items[from..][1..] == items[from + 1..];
      if Trim(items[from]) != "" {
        KeptFirst(items, from, at, KeepNonBlank(items[from + 1..]));
        at := [from] + at;
      } else {
        KeptLater(items, from, at, KeepNonBlank(items[from + 1..]));
      }
    }
  }

  lemma KeptLater(items: seq<string>, from: nat, at: seq<nat>, kept: seq<string>)
    requires from < |items| && KeptAt(items, from + 1, at, kept) && Trim(items[from]) == ""
    ensures KeptAt(items, from, at, kept)
  {
    hide Trim;
  }

  lemma KeptFirst(items: seq<string>, from: nat, at: seq<nat>, kept: seq<string>)
    requires from < |items| && KeptAt(items, from + 1, at, kept) && Trim(items[from]) != ""
    ensures KeptAt(items, from, [from] + at, [Trim(items[from])] + kept)
  {
    hide Trim;
    var all, texts := [from] + at, [Trim(items[from])] + kept;
    forall i | 0 <= i < |all| ensures from <= all[i] < |items| && texts[i] == Trim(items[all[i]]) != "" {
      if i > 0 {
        assert all[i] == at[i - 1] && texts[i] == kept[i - 1];
      }
    }
    forall k: nat | from <= k < |items| && k !in all ensures Trim(items[k]) == "" {
      NotAdded(from, at, k);
    }
    AllLater(from, at);
  }

  lemma NotAdded(first: nat, at: seq<nat>, k: nat)
    requires k !in [first] + at
    ensures k != first && k !in at
  {
    assert ([first] + at)[0] == first;
    assert forall i :: 0 <= i < |at| ==> at[i] == ([first] + at)[i + 1];
  }

  lemma AllLater(first: nat, at: seq<nat>)
    requires forall i :: 0 <= i < |at| ==> first < at[i]
    requires forall i, j :: 0 <= i < j < |at| ==> at[i] < at[j]
    ensures forall i, j :: 0 <= i < j < |[first] + at| ==> ([first] + at)[i] < ([first] + at)[j]
  {
    assert forall i :: 0 < i < |[first] + at| ==> ([first] + at)[i] == at[i - 1];
  }

  lemma SubmissionKeeps(items: seq<string>)
    ensures KeepsItems(items, KeepNonBlank(items))
  {
    hide Trim;
    var at := KeepsFrom(items, 0);
    assert items[0..] == items;
  }

  lemma ChangeHasEffect(run: RunStatus, b: Branch, change: BranchOp)
    ensures ChangeBranch(run, b, change).Some? <==> BranchAccepts(run, b, change)
    ensures ChangeBranch(run, b, change).Some? ==> BranchEffect(b, change, ChangeBranch(run, b, change).value)
  {
    hide Trim, KeepNonBlank, AllowedBranchNext, KeepsItems;
    if change.Submit? {
      SubmissionKeeps(change.submission.evidence);
    }
  }

  lemma {:induction false} ChangesAcceptedIff(run: RunStatus, bs: seq<Branch>, id: string, change: BranchOp)
    ensures ChangeBranches(run, bs, id, change).Some?
            <==> forall i :: 0 <= i < |bs| && bs[i].id == id ==> BranchAccepts(run, bs[i], change)
  {
    hide ChangeBranch, BranchAccepts;
    if bs != [] {
      ChangesAcceptedIff(run, bs[1..], id, change);
      ChangeHasEffect(run, bs[0], change);
      assert forall i :: 1 <= i < |bs| ==> bs[i] == bs[1..][i - 1];
    }
  }

  lemma ConfigAcceptedIff(cs: seq<Contestant>, j: Judge)
    ensures NormalizeContestants(cs).Some? <==>
              1 <= |cs| <= 4 && AllHaveModels(cs)
    ensures NormalizeJudge(j).Some? <==> Trim(j.profileId) != "" && Trim(j.model) != ""
  {
    hide Trim;
    NormalizedAt(cs, 0);
  }

  /** An operation is accepted exactly when it may be, and then has the effect it is named for and no other. */
  lemma StepIff(run: Run, op: Op)
    ensures Step(run, op).Some? <==> Accepts(run, op)
    ensures Step(run, op).Some? ==> HasEffect(run, op, Step(run, op).value)
  {
    hide Trim, AllowedNext, ChangeBranch, BranchAccepts, BranchEffect, NormalizeContestants, NormalizeJudge, AllHaveModels;
    hide AreContestants, IsJudge;
    match op {
      case UpdateConfig(contestants, judge) =>
        var cs, j := if contestants.Some? then contestants.value else run.contestants, if judge.Some? then judge.value else run.judge;
        ConfigAcceptedIff(cs, j);
        ConfigIs(cs, j);
        assert Step(run, op).Some? <==> run.status == Draft && NormalizeContestants(cs).Some? && NormalizeJudge(j).Some?;
      case OnBranch(id, change) =>
        ChangesAcceptedIff(run.status, run.branches, Trim(id), change);
        forall b: Branch ensures ChangeBranch(run.status, b, change).Some? ==>
                                   BranchEffect(b, change, ChangeBranch(run.status, b, change).value)
        {
          ChangeHasEffect(run.status, b, change);
        }
      case _ =>
    }
  }

  lemma EffectAtAnyTime(run: Run, op: Op, run': Run, now: int)
    requires HasEffect(run, op, run')
    ensures HasEffect(run, op, run'.(updatedAt := now))
  {
    hide Trim, BranchEffect, AreContestants, IsJudge;
  }

  // ----- the stored runs -----

  /** A run put in front of the first that was not updated later. */
  function Inserted(r: Run, runs: seq<Run>): seq<Run> {
    if runs == [] || runs[0].updatedAt <= r.updatedAt then [r] + runs else [runs[0]] + Inserted(r, runs[1..])
  }

  /** The runs by their last update, latest first; runs updated at one time keep their order. */
  function ByUpdate(runs: seq<Run>): seq<Run> {
    if runs == [] then [] else Inserted(runs[0], ByUpdate(runs[1..]))
  }

  predicate LatestFirst(runs: seq<Run>) {
    forall i, j :: 0 <= i < j < |runs| ==> runs[i].updatedAt >= runs[j].updatedAt
  }

  /** The runs updated at one time. */
  function UpdatedAt(runs: seq<Run>, time: int): seq<Run> {
    if runs == [] then []
    else (if runs[0].updatedAt == time then [runs[0]] else []) + UpdatedAt(runs[1..], time)
  }

  lemma {:induction false} InsertedMembers(r: Run, runs: seq<Run>)
    ensures multiset(Inserted(r, runs)) == multiset(runs) + multiset{r}
  {
    if runs != [] && runs[0].updatedAt > r.updatedAt {
      InsertedMembers(r, runs[1..]);
      assert runs == [runs[0]] + runs[1..];
    }
  }

  lemma {:induction false} InsertedSorts(r: Run, runs: seq<Run>)
    requires LatestFirst(runs)
    ensures LatestFirst(Inserted(r, runs))
  {
    if runs != [] && runs[0].updatedAt > r.updatedAt {
      InsertedSorts(r, runs[1..]);
      InsertedMembers(r, runs[1..]);
      var rest := Inserted(r, runs[1..]);
      forall j | 0 <= j < |rest| ensures runs[0].updatedAt >= rest[j].updatedAt {
        assert rest[j] in multiset(rest);
        assert rest[j] in runs[1..] || rest[j] == r;
      }
    }
  }

  lemma {:induction false} InsertedKeepsTies(r: Run, runs: seq<Run>, time: int)
    requires LatestFirst(runs)
    ensures UpdatedAt(Inserted(r, runs), time) == (if r.updatedAt == time then [r] else []) + UpdatedAt(runs, time)
  {
    hide UpdatedAt;
    if runs == [] || runs[0].updatedAt <= r.updatedAt {
      assert ([r] + runs)[1..] == runs;
      UpdatedAtUnfolds([r] + runs, time);
    } else {
      InsertedKeepsTies(r, runs[1..], time);
      assert Inserted(r, runs)[1..] == Inserted(r, runs[1..]);
      UpdatedAtUnfolds(Inserted(r, runs), time);
      UpdatedAtUnfolds(runs, time);
    }
  }

  /** Ordering the runs loses and invents none, and does not swap runs that were updated at one time. */
  lemma {:induction false} ByUpdateSorts(runs: seq<Run>, time: int)
    ensures LatestFirst(ByUpdate(runs)) && multiset(ByUpdate(runs)) == multiset(runs)
    ensures UpdatedAt(ByUpdate(runs), time) == UpdatedAt(runs, time)
  {
    if runs != [] {
      hide Inserted, LatestFirst, UpdatedAt;
      ByUpdateSorts(runs[1..], time);
      InsertedSorts(runs[0], ByUpdate(runs[1..]));
      InsertedMembers(runs[0], ByUpdate(runs[1..]));
      InsertedKeepsTies(runs[0], ByUpdate(runs[1..]), time);
      assert runs == [runs[0]] + runs[1..];
      UpdatedAtUnfolds(runs, time);
    } else {
      assert ByUpdate(runs) == runs;
    }
  }

  lemma UpdatedAtUnfolds(runs: seq<Run>, time: int)
    requires runs != []
    ensures UpdatedAt(runs, time) == (if runs[0].updatedAt == time then [runs[0]] else []) + UpdatedAt(runs[1..], time)
  {
  }

  /** A configuration; the last accepted one is kept for the next draft. */
  datatype Config = Config(contestants: seq<Contestant>, judge: Judge)

  function DefaultContestants(current: Judge): seq<Contestant> {
    [Contestant("contestant-1", "Contestant 1", current.profileId, current.model),
     Contestant("contestant-2", "Contestant 2", current.profileId, current.model)]
  }

  /** What was given, else the last configuration, else two contestants and a judge with the current model. */
  function Chosen(contestants: Option<seq<Contestant>>, judge: Option<Judge>, last: Option<Config>, current: Judge): Config {
    Config(
      if contestants.Some? then contestants.value else if last.Some? then last.value.contestants else DefaultContestants(current),
      if judge.Some? then judge.value else if last.Some? then last.value.judge else current)
  }

  function NormalizeConfig(c: Config): Option<Config> {
    var cs :- NormalizeContestants(c.contestants);
    var j :- NormalizeJudge(c.judge);
    Some(Config(cs, j))
  }

  lemma {:induction false} NormalizedAt(cs: seq<Contestant>, index: nat)
    requires index <= |cs|
    ensures NormalizeFrom(cs, index).Some? <==> forall i :: index <= i < |cs| ==> NormalizeContestant(cs[i], i).Some?
    ensures NormalizeFrom(cs, index).Some? ==>
              forall i :: index <= i < |cs| ==> NormalizeFrom(cs, index).value[i - index] == NormalizeContestant(cs[i], i).value
    decreases |cs| - index
  {
    hide NormalizeContestant;
    if index < |cs| {
      NormalizedAt(cs, index + 1);
    }
  }

  lemma NormalizedContestantStays(c: Contestant, index: nat)
    ensures var r := NormalizeContestant(c, index); r.Some? ==> NormalizeContestant(r.value, index) == r
  {
    DefaultTrimmed(index);
    hide Trim;
    TrimIdempotent(c.id);
    TrimIdempotent(c.displayName);
    TrimIdempotent(c.profileId);
    TrimIdempotent(c.model);
  }

  /** Normalising an accepted configuration again changes nothing. */
  lemma NormalizedConfigStays(c: Config)
    ensures NormalizeConfig(c).Some? ==> NormalizeConfig(NormalizeConfig(c).value) == NormalizeConfig(c)
  {
    hide NormalizeContestants, NormalizeJudge;
    NormalizedJudgeStays(c.judge);
    NormalizedContestantsStay(c.contestants);
  }

  lemma NormalizedJudgeStays(j: Judge)
    ensures NormalizeJudge(j).Some? ==> NormalizeJudge(NormalizeJudge(j).value) == NormalizeJudge(j)
  {
    hide Trim;
    TrimIdempotent(j.profileId);
    TrimIdempotent(j.model);
  }

  lemma NormalizedContestantsStay(cs: seq<Contestant>)
    ensures var r := NormalizeContestants(cs); r.Some? ==> NormalizeContestants(r.value) == r
  {
    hide NormalizeContestant, NormalizeFrom;
    var r := NormalizeContestants(cs);
    if r.Some? {
      NormalizedAt(cs, 0);
      NormalizedAt(r.value, 0);
      forall i | 0 <= i < |r.value| ensures NormalizeContestant(r.value[i], i) == Some(r.value[i]) {
        NormalizedContestantStays(cs[i], i);
      }
      assert NormalizeFrom(r.value, 0).value == r.value;
    }
  }

  class RunStore {
    var runs: seq<Run>
    var lastConfig: Option<Config>

    /** The configuration kept for the next draft, and that of every run, is an accepted one. */
    ghost predicate Valid()
      reads this
    {
      && (lastConfig.Some? ==> NormalizeConfig(lastConfig.value) == lastConfig)
      && forall run :: run in runs ==> NormalizeConfig(Config(run.contestants, run.judge)) == Some(Config(run.contestants, run.judge))
    }

    constructor ()
      ensures runs == [] && lastConfig == None && Valid()
    {
      runs, lastConfig := [], None;
    }

    /**
     * A new run starts in draft, with one branch for each contestant, in front of the others, which
     * are brought into the order of their last update. What is not given is taken over from the last
     * configuration, which is never refused.
     */
    method CreateDraft(
      sourceSessionId: string, id: string, contestants: Option<seq<Contestant>>, judge: Option<Judge>, current: Judge, now: int)
      returns (r: Option<Run>)
      modifies this
      ensures old(Valid()) ==> Valid()
      ensures var chosen := Chosen(contestants, judge, old(lastConfig), current);
              && (r == None <==> Trim(sourceSessionId) == "" || NormalizeConfig(chosen) == None)
              && (r == None ==> runs == old(runs) && lastConfig == old(lastConfig))
              && (r.Some? ==>
                    && runs == [r.value] + ByUpdate(old(runs)) && r.value.updatedAt == now
                    && lastConfig == Some(Config(r.value.contestants, r.value.judge)) == NormalizeConfig(chosen)
                    && r.value.id == id && r.value.status == Draft && WellShaped(r.value) && WinnerExists(r.value)
                    && |r.value.branches| == |chosen.contestants|)
      ensures r.Some? ==> DraftsFrom(contestants, judge, old(lastConfig), current, r.value)
      ensures old(Valid()) && old(lastConfig).Some? && contestants == None && judge == None && Trim(sourceSessionId) != "" ==>
                r.Some? && lastConfig == old(lastConfig)
    {
      hide NormalizeConfig, ByUpdate, Trim, DraftsFrom;
      var config := NormalizeConfig(Chosen(contestants, judge, lastConfig, current));
      if Trim(sourceSessionId) == "" || config == None {
        return None;
      }
      NormalizedConfigStays(Chosen(contestants, judge, lastConfig, current));
      NormalizedLength(Chosen(contestants, judge, lastConfig, current));
      SameRuns(runs);
      r := Some(Run(
        id, Draft, config.value.contestants, config.value.judge, ToBranches(config.value.contestants), None, None, 1, now));
      DraftIs(contestants, judge, lastConfig, current, r.value);
      runs := [r.value] + ByUpdate(runs);
      lastConfig := config;
    }

    /** The operation reaches the first run with the id and nothing else. */
    method UpdateRun(arenaId: string, op: Op, now: int) returns (r: Option<Run>)
      modifies this
      ensures old(Valid()) ==> Valid()
      ensures r == None ==> runs == old(runs)
      ensures lastConfig == if op.UpdateConfig? && r.Some? then Some(Config(r.value.contestants, r.value.judge)) else old(lastConfig)
      ensures r.Some? ==>
                exists k :: 0 <= k < |old(runs)| && old(runs)[k].id == Trim(arenaId)
                            && (forall i :: 0 <= i < k ==> old(runs)[i].id != Trim(arenaId))
                            && Step(old(runs)[k], op) == Some(r.value.(updatedAt := old(runs)[k].updatedAt))
                            && r.value.updatedAt == now && runs == old(runs)[k := r.value]
                            && Accepts(old(runs)[k], op) && HasEffect(old(runs)[k], op, r.value)
      ensures r == None ==>
                || (forall i :: 0 <= i < |old(runs)| ==> old(runs)[i].id != Trim(arenaId))
                || exists k :: 0 <= k < |old(runs)| && old(runs)[k].id == Trim(arenaId)
                               && (forall i :: 0 <= i < k ==> old(runs)[i].id != Trim(arenaId))
                               && Step(old(runs)[k], op) == None && !Accepts(old(runs)[k], op)
    {
      hide Step, NormalizeConfig, Trim, Accepts, HasEffect;
      var normalizedId := Trim(arenaId);
      var index := 0;
      while index < |runs| && runs[index].id != normalizedId
        invariant 0 <= index <= |runs| && runs == old(runs) && lastConfig == old(lastConfig)
        invariant forall i :: 0 <= i < index ==> runs[i].id != normalizedId
      {
        index := index + 1;
      }
      if index == |runs| {
        return None;
      }
      StepKeepsTime(runs[index], op);
      StepIff(runs[index], op);
      if Valid() {
        StepKeepsConfig(runs[index], op);
      }
      r := Step(runs[index], op);
      if r.Some? {
        EffectAtAnyTime(runs[index], op, r.value, now);
        r := Some(r.value.(updatedAt := now));
        runs := runs[index := r.value];
        if op.UpdateConfig? {
          lastConfig := Some(Config(r.value.contestants, r.value.judge));
        }
      }
    }
  }

  lemma NormalizedLength(c: Config)
    ensures NormalizeConfig(c).Some? ==> |NormalizeConfig(c).value.contestants| == |c.contestants|
  {
  }

  lemma SameRuns(runs: seq<Run>)
    ensures forall run :: run in ByUpdate(runs) <==> run in runs
  {
    hide ByUpdate;
    ByUpdateSorts(runs, 0);
    forall run ensures run in ByUpdate(runs) <==> run in runs {
      assert run in ByUpdate(runs) <==> run in multiset(ByUpdate(runs));
    }
  }

  /** An operation leaves a run with an accepted configuration. */
  lemma StepKeepsConfig(run: Run, op: Op)
    requires NormalizeConfig(Config(run.contestants, run.judge)) == Some(Config(run.contestants, run.judge))
    ensures Step(run, op).Some? ==>
              var next := Step(run, op).value;
              NormalizeConfig(Config(next.contestants, next.judge)) == Some(Config(next.contestants, next.judge))
  {
    hide NormalizeContestants, NormalizeJudge, ChangeBranches, Trim;
    if op.UpdateConfig? {
      NormalizedConfigStays(Config(
        if op.contestants.Some? then op.contestants.value else run.contestants,
        if op.judge.Some? then op.judge.value else run.judge));
    }
  }

  // ----- what every run of operations keeps -----

  function Rank(s: RunStatus): nat {
    match s
    case Draft => 0
    case Preparing => 1
    case Running => 2
    case Paused => 2
    case Judging => 3
    case ProposalReady => 4
    case Applied => 5
    case Closed => 6
  }

  /** A status is never left for a lower one; only running and paused alternate. */
  lemma {:induction false} RankNeverDecreases(run: Run, ops: seq<Op>)
    ensures Rank(run.status) <= Rank(After(run, ops).status)
    ensures run.status == Applied || run.status == Closed ==> After(run, ops).status == run.status
    decreases |ops|
  {
    if ops != [] {
      hide ChangeBranches, NormalizeContestants, NormalizeJudge;
      RankNeverDecreases(Next(run, ops[0]), ops[1..]);
    }
  }

  /** A branch that has handed in its work. */
  predicate Settled(b: Branch) {
    b.status == Submitted || b.status == Blocked || b.status == Frozen || b.status == Promoted
  }

  lemma ChangeKeepsSettled(run: RunStatus, b: Branch, change: BranchOp)
    requires JudgeStarted(run) && Settled(b)
    ensures var r := ChangeBranch(run, b, change);
            r.Some? ==> Settled(r.value) && r.value.submission == b.submission
  {
  }

  /** Once judging has started, no operation touches the outcome of a settled branch. */
  lemma {:induction false} FrozenAfterJudging(run: Run, ops: seq<Op>, i: nat)
    requires JudgeStarted(run.status) && i < |run.branches| && Settled(run.branches[i])
    ensures var later := After(run, ops);
            && JudgeStarted(later.status) && |later.branches| == |run.branches|
            && later.branches[i].id == run.branches[i].id
            && Settled(later.branches[i]) && later.branches[i].submission == run.branches[i].submission
    decreases |ops|
  {
    if ops != [] {
      if Step(run, ops[0]).Some? {
        StepKeepsSettled(run, ops[0], i);
      }
      FrozenAfterJudging(Next(run, ops[0]), ops[1..], i);
    }
  }

  lemma StepKeepsSettled(run: Run, op: Op, i: nat)
    requires JudgeStarted(run.status) && i < |run.branches| && Settled(run.branches[i]) && Step(run, op).Some?
    ensures var next := Step(run, op).value;
            && JudgeStarted(next.status) && |next.branches| == |run.branches|
            && next.branches[i].id == run.branches[i].id
            && Settled(next.branches[i]) && next.branches[i].submission == run.branches[i].submission
  {
    hide ChangeBranch, NormalizeContestants;
    if op.OnBranch? {
      ChangeKeepsSettled(run.status, run.branches[i], op.change);
    }
  }

  /** A branch not reopened when judging starts is never reopened again. */
  lemma {:induction false} NoReopenAfterJudging(run: Run, ops: seq<Op>, i: nat)
    requires JudgeStarted(run.status) && i < |run.branches| && run.branches[i].status != Reopened
    ensures i < |After(run, ops).branches| && After(run, ops).branches[i].status != Reopened
    decreases |ops|
  {
    if ops != [] {
      if Step(run, ops[0]).Some? {
        StepKeepsClosed(run, ops[0], i);
      }
      NoReopenAfterJudging(Next(run, ops[0]), ops[1..], i);
    }
  }

  lemma StepKeepsClosed(run: Run, op: Op, i: nat)
    requires JudgeStarted(run.status) && i < |run.branches| && run.branches[i].status != Reopened && Step(run, op).Some?
    ensures JudgeStarted(Step(run, op).value.status)
    ensures i < |Step(run, op).value.branches| && Step(run, op).value.branches[i].status != Reopened
  {
    hide NormalizeContestants, NormalizeJudge, ToBranches, Trim;
  }

  /**
   * The shape every stored run has: branches are numbered in order, and a branch is flagged
   * promoted exactly when that is its status.
   */
  predicate WellShaped(run: Run) {
    forall i :: 0 <= i < |run.branches| ==>
      run.branches[i].id == BranchId(i) && (run.branches[i].promoted <==> run.branches[i].status == Promoted)
  }

  lemma ChangeKeepsPromoted(run: RunStatus, b: Branch, change: BranchOp)
    requires b.promoted <==> b.status == Promoted
    ensures var r := ChangeBranch(run, b, change); r.Some? ==> (r.value.promoted <==> r.value.status == Promoted)
  {
  }

  lemma StepKeepsShape(run: Run, op: Op)
    requires WellShaped(run) && Step(run, op).Some?
    ensures WellShaped(Step(run, op).value)
    ensures run.status != Draft ==> |Step(run, op).value.branches| == |run.branches|
  {
    hide ChangeBranch, NormalizeContestants, NormalizeJudge;
    if op.OnBranch? {
      forall i | 0 <= i < |run.branches| {
        ChangeKeepsPromoted(run.status, run.branches[i], op.change);
      }
    }
  }

  /** Every run of operations keeps the shape, and outside draft the branches stay the same ones. */
  lemma {:induction false} ShapeKept(run: Run, ops: seq<Op>)
    requires WellShaped(run)
    ensures WellShaped(After(run, ops))
    ensures run.status != Draft ==> |After(run, ops).branches| == |run.branches|
    decreases |ops|
  {
    if ops != [] {
      if Step(run, ops[0]).Some? {
        StepKeepsShape(run, ops[0]);
        RankNeverDecreases(run, ops[..1]);
        assert After(run, ops[..1]) == Step(run, ops[0]).value by { assert ops[..1][1..] == []; }
      }
      ShapeKept(Next(run, ops[0]), ops[1..]);
    }
  }

  predicate WinnerExists(run: Run) {
    run.winner.Some? ==> HasBranch(run, run.winner.value)
  }

  lemma BranchIdsDistinct(i: nat, j: nat)
    requires BranchId(i) == BranchId(j)
    ensures i == j
  {
    assert BranchId(i)[7..] == Print(i + 1) && BranchId(j)[7..] == Print(j + 1);
    PrintInjective(i + 1, j + 1);
  }

  /** Shrinking the field while a winner is picked leaves the winner dangling exactly when it is cut off. */
  lemma WinnerAfterUpdateIff(run: Run, op: Op, w: nat)
    requires WellShaped(run) && op.UpdateConfig? && Step(run, op).Some? && run.winner == Some(BranchId(w))
    ensures WinnerExists(Step(run, op).value) <==> w < |if op.contestants.Some? then op.contestants.value else run.contestants|
  {
    var next := Step(run, op).value;
    if w < |next.branches| {
      assert next.branches[w].id == BranchId(w);
    } else if HasBranch(next, BranchId(w)) {
      var i :| 0 <= i < |next.branches| && next.branches[i].id == BranchId(w);
      BranchIdsDistinct(i, w);
    }
  }

  lemma BranchIdTrimmed(i: nat)
    ensures Trim(BranchId(i)) == BranchId(i) != ""
  {
    PrintRead(i + 1);
    TrimmedIff(BranchId(i));
  }

  /** A winner picked in draft among the contestants that are then taken away: the run names a branch it does not have. */
  lemma WinnerDangles(run: Run, w: nat, fewer: seq<Contestant>)
    requires run.status == Draft && WellShaped(run) && w < |run.branches|
    requires NormalizeContestants(fewer).Some? && |fewer| <= w && NormalizeJudge(run.judge).Some?
    ensures var picked := After(run, [SelectWinner(BranchId(w))]);
            var later := After(run, [SelectWinner(BranchId(w)), UpdateConfig(Some(fewer), None)]);
            picked.winner == later.winner == Some(BranchId(w)) && WinnerExists(picked) && !WinnerExists(later)
  {
    BranchIdTrimmed(w);
    assert run.branches[w].id == BranchId(w);
    assert HasBranch(run, BranchId(w));
    var select, update := SelectWinner(BranchId(w)), UpdateConfig(Some(fewer), None);
    var picked := Next(run, select);
    assert After(picked, []) == picked;
    assert [select][1..] == [] && [select, update][1..] == [update] && [update][1..] == [];
    assert After(run, [select]) == picked;
    assert Step(picked, update).Some?;
    WinnerAfterUpdateIff(picked, update, w);
    assert After(picked, [update]) == Next(picked, update);
  }

  /** Two contestants, the second picked, then only the first kept. */
  lemma DanglingWinnerWitness()
    ensures var a := Contestant("a", "A", "p", "m");
            var run := Run("r", Draft, [a, a], Judge("p", "m"), ToBranches([a, a]), None, None, 1, 0);
            var later := After(run, [SelectWinner(BranchId(1)), UpdateConfig(Some([a]), None)]);
            later.winner == Some(BranchId(1)) && !WinnerExists(later)
  {
    TrimmedIff("p");
    TrimmedIff("m");
    TrimmedIff("a");
    TrimmedIff("A");
    var a := Contestant("a", "A", "p", "m");
    assert NormalizeContestant(a, 0) == Some(a);
    assert NormalizeFrom([a], 1) == Some([]);
    assert NormalizeContestants([a]).Some?;
    WinnerDangles(Run("r", Draft, [a, a], Judge("p", "m"), ToBranches([a, a]), None, None, 1, 0), 1, [a]);
  }

  /** Outside draft an existing winner exists for ever. */
  lemma {:induction false} WinnerKept(run: Run, ops: seq<Op>)
    requires WinnerExists(run) && run.status != Draft
    ensures WinnerExists(After(run, ops))
    decreases |ops|
  {
    if ops != [] {
      if Step(run, ops[0]).Some? {
        StepKeepsWinner(run, ops[0]);
      }
      WinnerKept(Next(run, ops[0]), ops[1..]);
    }
  }

  lemma StepKeepsWinner(run: Run, op: Op)
    requires WinnerExists(run) && run.status != Draft && Step(run, op).Some?
    ensures WinnerExists(Step(run, op).value) && Step(run, op).value.status != Draft
  {
    hide ChangeBranch;
    var next := Step(run, op).value;
    if op.OnBranch? && run.winner.Some? {
      var i :| 0 <= i < |run.branches| && run.branches[i].id == run.winner.value;
      assert next.branches[i].id == run.winner.value;
    }
  }
}
