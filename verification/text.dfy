/**
 * The string operations of the JavaScript library that the modelled code relies on:
 * `trim`, `indexOf`, `startsWith` and decimal printing and reading of counters.
 */
module Text {

  /** The characters matched by `\s` and removed by `trim`. */
  predicate IsSpace(c: char) {
    var k := c as int;
    || 9 <= k <= 13 || k == 32 || k == 0xA0 || k == 0x1680 || 0x2000 <= k <= 0x200A
    || k == 0x2028 || k == 0x2029 || k == 0x202F || k == 0x205F || k == 0x3000 || k == 0xFEFF
  }

  function TrimStart(s: string): string {
    if s == "" || !IsSpace(s[0]) then s else TrimStart(s[1..])
  }

  function TrimEnd(s: string): string {
    if s == "" || !IsSpace(s[|s| - 1]) then s else TrimEnd(s[..|s| - 1])
  }

  function Trim(s: string): string {
    TrimEnd(TrimStart(s))
  }

  /** `TrimStart` removes exactly the leading white space. */
  lemma {:induction false} TrimStartSpec(s: string)
    ensures var t := TrimStart(s);
            && |t| <= |s| && t == s[|s| - |t|..]
            && (t == "" || !IsSpace(t[0]))
            && forall i :: 0 <= i < |s| - |t| ==> IsSpace(s[i])
  {
    if s != "" && IsSpace(s[0]) {
      TrimStartSpec(s[1..]);
      var t := TrimStart(s[1..]);
      forall i | 0 <= i < |s| - |t| ensures IsSpace(s[i]) {
        assert i > 0 ==> s[i] == s[1..][i - 1];
      }
    }
  }

  /** `TrimEnd` removes exactly the trailing white space. */
  lemma {:induction false} TrimEndSpec(s: string)
    ensures var t := TrimEnd(s);
            && |t| <= |s| && t == s[..|t|]
            && (t == "" || !IsSpace(t[|t| - 1]))
            && forall i :: |t| <= i < |s| ==> IsSpace(s[i])
  {
    if s != "" && IsSpace(s[|s| - 1]) {
      TrimEndSpec(s[..|s| - 1]);
    }
  }

  /** A string is already trimmed exactly when neither end is white space. */
  lemma TrimmedIff(s: string)
    ensures Trim(s) == s <==> s == "" || (!IsSpace(s[0]) && !IsSpace(s[|s| - 1]))
  {
    TrimStartSpec(s);
    TrimEndSpec(TrimStart(s));
  }

  /** `t` is `s` without the white space at both ends; it stands in `s` at `i`. */
  ghost predicate IsTrimmed(s: string, t: string, i: nat) {
    && i + |t| <= |s| && s[i..i + |t|] == t
    && (forall k :: 0 <= k < |s| && (k < i || i + |t| <= k) ==> IsSpace(s[k]))
    && (t == "" || (!IsSpace(t[0]) && !IsSpace(t[|t| - 1])))
  }

  lemma TrimIs(s: string) returns (i: nat)
    ensures IsTrimmed(s, Trim(s), i)
  {
    TrimStartSpec(s);
    TrimEndSpec(TrimStart(s));
    i := |s| - |TrimStart(s)|;
    var t := TrimStart(s);
    forall k | i + |Trim(s)| <= k < |s| ensures IsSpace(s[k]) {
      assert s[k] == t[k - i];
    }
  }

  lemma TrimmedUnique(s: string, t: string, i: nat, t': string, i': nat)
    requires IsTrimmed(s, t, i) && IsTrimmed(s, t', i')
    ensures t == t'
  {
    assert t != "" ==> s[i] == t[0] && s[i + |t| - 1] == t[|t| - 1];
    assert t' != "" ==> s[i'] == t'[0] && s[i' + |t'| - 1] == t'[|t'| - 1];
  }

  lemma TrimIdempotent(s: string)
    ensures Trim(Trim(s)) == Trim(s)
  {
    TrimStartSpec(s);
    TrimEndSpec(TrimStart(s));
    TrimmedIff(Trim(s));
  }

  predicate StartsWith(s: string, p: string) {
    |p| <= |s| && s[..|p|] == p
  }

  /** A text cut to a number of characters, with a mark in place of the rest. */
  function Truncate(value: string, maxChars: nat): string {
    if |value| <= maxChars then value
    else value[..if maxChars < 18 then 0 else maxChars - 18] + "...(truncated)"
  }

  /** `p` occurs in `s` at position `i`. */
  predicate Occurs(s: string, p: string, i: nat) {
    i + |p| <= |s| && s[i..i + |p|] == p
  }

  /** `p` occurs somewhere in `s`. */
  ghost predicate Holds(s: string, p: string) {
    exists i: nat :: Occurs(s, p, i)
  }

  lemma HoldsBetween(front: string, p: string, back: string)
    ensures Holds(front + p + back, p)
  {
    var s := front + p + back;
    assert s[|front|..|front| + |p|] == p;
    assert Occurs(s, p, |front|);
  }

  lemma HoldsWithin(front: string, s: string, back: string, p: string)
    requires Holds(s, p)
    ensures Holds(front + s + back, p)
  {
    var i: nat :| Occurs(s, p, i);
    var all := front + s + back;
    assert all[|front| + i..|front| + i + |p|] == s[i..i + |p|];
    assert Occurs(all, p, |front| + i);
  }

  /** The first occurrence at or after `from`, or -1. */
  function IndexFrom(s: string, p: string, from: nat): (r: int)
    ensures r < 0 ==> r == -1 && forall i: nat :: from <= i ==> !Occurs(s, p, i)
    ensures 0 <= r ==> from <= r && Occurs(s, p, r) && forall i: nat :: from <= i < r ==> !Occurs(s, p, i)
    decreases |s| - from
  {
    if from + |p| > |s| then -1
    else if Occurs(s, p, from) then from
    else IndexFrom(s, p, from + 1)
  }

  function IndexOf(s: string, p: string): int {
    IndexFrom(s, p, 0)
  }

  predicate IsDigit(c: char) {
    '0' <= c <= '9'
  }

  predicate IsDecimal(s: string) {
    s != "" && forall i :: 0 <= i < |s| ==> IsDigit(s[i])
  }

  function DigitChar(d: nat): char
    requires d < 10
  {
    ('0' as int + d) as char
  }

  /** The decimal form of a natural number, as template literals print it. */
  function Print(n: nat): string {
    if n < 10 then [DigitChar(n)] else Print(n / 10) + [DigitChar(n % 10)]
  }

  /** The number a string of digits stands for; leading zeros are allowed. */
  function Read(s: string): nat
    requires IsDecimal(s)
  {
    var d := s[|s| - 1] as int - '0' as int;
    if |s| == 1 then d else Read(s[..|s| - 1]) * 10 + d
  }

  lemma {:induction false} PrintRead(n: nat)
    ensures IsDecimal(Print(n)) && Read(Print(n)) == n
  {
    if n >= 10 {
      PrintRead(n / 10);
      assert Print(n)[..|Print(n)| - 1] == Print(n / 10);
    }
  }

  lemma PrintInjective(m: nat, n: nat)
    requires Print(m) == Print(n)
    ensures m == n
  {
    PrintRead(m);
    PrintRead(n);
  }
}
