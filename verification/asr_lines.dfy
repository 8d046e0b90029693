/**
 * Reading the speech worker's output line by line (src/asr/persistent-local-process-asr.ts:175-182).
 * Output arrives in chunks that may be cut anywhere, also inside a line break.
 */
module AsrLines {

  /** The length of the line break, "\r\n" or "\n", that starts at i. */
  function BreakAt(s: string, i: nat): (n: nat)
    ensures i + n <= |s| || n == 0
  {
    if i < |s| && s[i] == '\n' then 1
    else if i + 1 < |s| && s[i] == '\r' && s[i + 1] == '\n' then 2
    else 0
  }

  function FirstBreak(s: string, i: nat): (k: nat)
    requires i <= |s|
    ensures i <= k <= |s|
    ensures forall j: nat :: i <= j < k ==> BreakAt(s, j) == 0
    ensures k < |s| ==> BreakAt(s, k) > 0
    decreases |s| - i
  {
    if i == |s| || BreakAt(s, i) > 0 then i else FirstBreak(s, i + 1)
  }

  /** The text cut at its line breaks, leftmost first. */
  function Split(s: string): (lines: seq<string>)
    ensures lines != []
    decreases |s|
  {
    var k := FirstBreak(s, 0);
    if k == |s| then [s] else [s[..k]] + Split(s[k + BreakAt(s, k)..])
  }

  function Init<T>(s: seq<T>): seq<T>
    requires s != []
  {
    s[..|s| - 1]
  }

  function Last<T>(s: seq<T>): T
    requires s != []
  {
    s[|s| - 1]
  }

  lemma FirstBreakIs(s: string, k: nat)
    requires k <= |s| && forall j: nat :: j < k ==> BreakAt(s, j) == 0
    requires k < |s| ==> BreakAt(s, k) > 0
    ensures FirstBreak(s, 0) == k
  {
    var f: nat := FirstBreak(s, 0);
    if f < k {
      assert false;
    }
  }

  lemma UnbrokenIsOneLine(s: string)
    requires '\n' !in s
    ensures Split(s) == [s]
  {
    forall j: nat | j < |s| ensures BreakAt(s, j) == 0 {
    }
    FirstBreakIs(s, |s|);
  }

  function LineBreak(wide: bool): string {
    if wide then "\r\n" else "\n"
  }

  /** A reader sees this line end here: no line end inside, no "\r" before a bare "\n". */
  predicate EndsAt(line: string, wide: bool) {
    '\n' !in line && (!wide ==> line == "" || line[|line| - 1] != '\r')
  }

  lemma BreakAfter(line: string, wide: bool, rest: string)
    requires EndsAt(line, wide)
    ensures var s := line + (LineBreak(wide) + rest);
            FirstBreak(s, 0) == |line| && BreakAt(s, |line|) == |LineBreak(wide)|
  {
    var s := line + (LineBreak(wide) + rest);
    var k := |line|;
    assert s[k] == LineBreak(wide)[0] && (wide ==> s[k + 1] == LineBreak(wide)[1]);
    forall j: nat | j < k ensures BreakAt(s, j) == 0 {
      assert s[j] == line[j];
      assert j + 1 < k ==> s[j + 1] == line[j + 1];
    }
    hide FirstBreak;
    FirstBreakIs(s, k);
  }

  lemma FirstLine(line: string, wide: bool, rest: string)
    requires EndsAt(line, wide)
    ensures Split(line + (LineBreak(wide) + rest)) == [line] + Split(rest)
  {
    BreakAfter(line, wide, rest);
    var s := line + (LineBreak(wide) + rest);
    hide BreakAt, FirstBreak;
    assert s[..|line|] == line && s[|line| + |LineBreak(wide)|..] == rest;
  }

  /** Every text that is not a single line starts with a line and its break. */
  lemma TakeLine(s: string) returns (line: string, wide: bool, rest: string)
    requires '\n' in s
    ensures s == line + (LineBreak(wide) + rest) && EndsAt(line, wide) && |rest| < |s|
  {
    hide FirstBreak, EndsAt;
    var k: nat := FirstBreak(s, 0);
    var j: nat :| j < |s| && s[j] == '\n';
    assert BreakAt(s, j) == 1;
    var n := BreakAt(s, k);
    line, wide, rest := s[..k], n == 2, s[k + n..];
    assert s == s[..k] + s[k..];
    assert s[k..] == s[k..k + n] + s[k + n..];
    assert s[k..k + n] == LineBreak(wide);
    forall j: nat | j < k ensures s[j] != '\n' && BreakAt(s, j) == 0 {
      assert BreakAt(s, j) == 0;
    }
    EndsAtFirst(s, k);
  }

  lemma EndsAtFirst(s: string, k: nat)
    requires k < |s| && BreakAt(s, k) > 0 && forall j: nat :: j < k ==> s[j] != '\n' && BreakAt(s, j) == 0
    ensures EndsAt(s[..k], BreakAt(s, k) == 2)
  {
    if k > 0 {
      assert BreakAt(s, k - 1) == 0;
    }
  }

  /** More text only touches the last line, whatever was cut at the seam. */
  lemma {:induction false} SplitAppend(a: string, b: string)
    ensures Split(a + b) == Init(Split(a)) + Split(Last(Split(a)) + b)
    decreases |a|
  {
    hide Split, LineBreak, EndsAt;
    if '\n' in a {
      var line, wide, rest := TakeLine(a);
      FirstLine(line, wide, rest);
      FirstLine(line, wide, rest + b);
      assert a + b == line + (LineBreak(wide) + (rest + b));
      SplitAppend(rest, b);
      assert Init([line] + Split(rest)) == [line] + Init(Split(rest));
    } else {
      UnbrokenIsOneLine(a);
      assert Init([a]) == [] && Last([a]) == a;
    }
  }

  // ----- the line breaks put back -----

  /** The lines joined by "\r\n" where marked and by "\n" elsewhere. */
  function Weave(lines: seq<string>, wide: seq<bool>): string
    requires |lines| == |wide| + 1
  {
    if wide == [] then lines[0] else lines[0] + (LineBreak(wide[0]) + Weave(lines[1..], wide[1..]))
  }

  /** A reader can tell the joined lines apart. */
  predicate Separable(lines: seq<string>, wide: seq<bool>)
    requires |lines| == |wide| + 1
  {
    (forall i :: 0 <= i < |wide| ==> EndsAt(lines[i], wide[i])) && '\n' !in lines[|wide|]
  }

  /** What was joined from separable lines is split into those lines. */
  lemma {:induction false} SplitOfWeave(lines: seq<string>, wide: seq<bool>)
    requires |lines| == |wide| + 1 && Separable(lines, wide)
    ensures Split(Weave(lines, wide)) == lines
    decreases |lines|
  {
    hide Split, LineBreak, EndsAt;
    if wide == [] {
      UnbrokenIsOneLine(lines[0]);
      assert lines == [lines[0]];
    } else {
      FirstLine(lines[0], wide[0], Weave(lines[1..], wide[1..]));
      SplitOfWeave(lines[1..], wide[1..]);
      assert lines == [lines[0]] + lines[1..];
    }
  }

  /** Every text is its lines joined again, and those lines are separable: nothing is lost or made up. */
  lemma {:induction false} WeaveOfSplit(s: string) returns (wide: seq<bool>)
    ensures |Split(s)| == |wide| + 1
    ensures Separable(Split(s), wide) && Weave(Split(s), wide) == s
    decreases |s|
  {
    hide Split, LineBreak, EndsAt;
    if '\n' in s {
      var line, isWide, rest := TakeLine(s);
      FirstLine(line, isWide, rest);
      var others := WeaveOfSplit(rest);
      wide := [isWide] + others;
      var lines := [line] + Split(rest);
      assert lines[1..] == Split(rest) && wide[1..] == others;
      assert forall i :: 1 <= i < |lines| ==> lines[i] == Split(rest)[i - 1];
    } else {
      wide := [];
      UnbrokenIsOneLine(s);
    }
  }
}
