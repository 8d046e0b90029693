/**
 * Convergence of the automatic loop (src/auto-loop/AutoLoopController.ts): the cosine similarity
 * of word counts, its average over the last outputs, and the rounds of the controller.
 * An output is given as the list of its words; splitting text into words is not part of this
 * model. Arithmetic is exact; the square root is a parameter.
 */
module AutoLoop {
  import opened Messages

  type Words = seq<string>
  type Freq = map<string, nat>

  /** How often each word of at least two characters occurs. */
  function WordFreq(words: Words): Freq {
    map w | w in words && |w| > 1 :: multiset(words)[w]
  }

  function Get(f: Freq, w: string): nat {
    if w in f then f[w] else 0
  }

  /** Every counted word was seen. */
  predicate Counted(f: Freq) {
    forall w :: w in f ==> f[w] > 0
  }

  lemma WordFreqCounted(words: Words)
    ensures Counted(WordFreq(words))
  {
  }

  /** Exactly the words of two characters or more are counted, each as often as it occurs. */
  ghost predicate CountsWords(freq: Freq, words: Words) {
    forall w :: (w in freq <==> w in words && |w| >= 2) && (w in freq ==> freq[w] == multiset(words)[w])
  }

  lemma WordFreqCounts(words: Words)
    ensures CountsWords(WordFreq(words), words)
  {
  }

  method GetWordFreq(words: Words) returns (freq: Freq)
    ensures freq == WordFreq(words)
    ensures CountsWords(freq, words)
  {
    hide CountsWords;
    WordFreqCounts(words);
    freq := map[];
    var i := 0;
    while i < |words|
      invariant 0 <= i <= |words|
      invariant freq == WordFreq(words[..i])
    {
      var w := words[i];
      assert words[..i + 1] == words[..i] + [w];
      if |w| > 1 {
        freq := freq[w := Get(freq, w) + 1];
      }
      i := i + 1;
    }
    assert words[..i] == words;
  }

  // ----- sums over sets of words -----

  function Times(m: nat, n: nat): nat {
    m * n
  }

  /** The sum of the products of two counts over a set of words. */
  ghost function Dot(a: Freq, b: Freq, s: set<string>): nat {
    if s == {} then 0
    else
      var w :| w in s;
      Times(Get(a, w), Get(b, w)) + Dot(a, b, s - {w})
  }

  /** The words may be summed in any order. */
  lemma {:induction false} DotPick(a: Freq, b: Freq, s: set<string>, w: string)
    requires w in s
    ensures Dot(a, b, s) == Times(Get(a, w), Get(b, w)) + Dot(a, b, s - {w})
  {
    hide Times;
    var v :| v in s && Dot(a, b, s) == Times(Get(a, v), Get(b, v)) + Dot(a, b, s - {v});
    if v != w {
      DotPick(a, b, s - {v}, w);
      DotPick(a, b, s - {w}, v);
      assert s - {v} - {w} == s - {w} - {v};
    }
  }

  /** Words that neither side counts add nothing. */
  lemma {:induction false} DotExtend(a: Freq, b: Freq, s: set<string>, t: set<string>)
    requires s <= t && forall w :: w in t && w !in s ==> w !in a || w !in b
    ensures Dot(a, b, s) == Dot(a, b, t)
    decreases |t|
  {
    if s != t {
      var w :| w in t && w !in s;
      DotPick(a, b, t, w);
      DotExtend(a, b, s, t - {w});
    }
  }

  lemma {:induction false} DotSymmetric(a: Freq, b: Freq, s: set<string>)
    ensures Dot(a, b, s) == Dot(b, a, s)
  {
    if s != {} {
      var w :| w in s;
      DotPick(a, b, s, w);
      DotPick(b, a, s, w);
      DotSymmetric(a, b, s - {w});
    }
  }

  /** A sum of products of counts is zero exactly when no word is counted on both sides. */
  lemma {:induction false} DotZeroIff(a: Freq, b: Freq, s: set<string>)
    requires Counted(a) && Counted(b)
    ensures Dot(a, b, s) == 0 <==> forall w :: w in s ==> w !in a || w !in b
  {
    if s != {} {
      var w :| w in s;
      DotPick(a, b, s, w);
      DotZeroIff(a, b, s - {w});
      ProductZeroIff(Get(a, w), Get(b, w));
    }
  }

  lemma ProductZeroIff(x: nat, y: nat)
    ensures Times(x, y) == 0 <==> x == 0 || y == 0
  {
  }

  // ----- the Cauchy-Schwarz inequality -----

  ghost function Cross(a: Freq, b: Freq, s: set<string>, x: int, y: int): nat {
    if s == {} then 0
    else
      var w :| w in s;
      Skew(Get(a, w), Get(b, w), x, y) + Cross(a, b, s - {w}, x, y)
  }

  /** How far two pairs of numbers are from being in proportion. */
  function Skew(p: int, q: int, x: int, y: int): nat {
    SquareIsNat(p * y - q * x);
    Square(p * y - q * x)
  }

  function Square(n: int): int {
    n * n
  }

  lemma SquareIsNat(n: int)
    ensures Square(n) >= 0
    ensures Square(n) == 0 <==> n == 0
  {
  }

  function Expand(pp: int, qq: int, pq: int, x: int, y: int): int {
    pp * (y * y) + qq * (x * x) - 2 * (pq * (x * y))
  }

  lemma SkewExpands(p: nat, q: nat, x: int, y: int)
    ensures Skew(p, q, x, y) == Expand(Times(p, p), Times(q, q), Times(p, q), x, y)
  {
    var u, v := p * y, q * x;
    assert Square(u - v) == u * u + v * v - 2 * (u * v);
    assert u * u == (p * p) * (y * y);
    assert v * v == (q * q) * (x * x);
    assert u * v == (p * q) * (x * y);
  }

  lemma SkewZeroIff(p: int, q: int, x: int, y: int)
    ensures Skew(p, q, x, y) == 0 <==> Balanced(p, q, x, y)
  {
    SquareIsNat(p * y - q * x);
  }

  lemma CrossUnfolds(a: Freq, b: Freq, s: set<string>, x: int, y: int) returns (w: string)
    requires s != {}
    ensures w in s && Cross(a, b, s, x, y) == Skew(Get(a, w), Get(b, w), x, y) + Cross(a, b, s - {w}, x, y)
  {
    hide Skew;
    w :| w in s && Cross(a, b, s, x, y) == Skew(Get(a, w), Get(b, w), x, y) + Cross(a, b, s - {w}, x, y);
  }

  lemma {:induction false} CrossExpands(a: Freq, b: Freq, s: set<string>, x: int, y: int)
    ensures Cross(a, b, s, x, y) == Expand(Dot(a, a, s), Dot(b, b, s), Dot(a, b, s), x, y)
  {
    if s != {} {
      hide Dot, Cross, Skew, Times, Get, Expand;
      var w := CrossUnfolds(a, b, s, x, y);
      var p, q := Get(a, w), Get(b, w);
      CrossExpands(a, b, s - {w}, x, y);
      DotPick(a, a, s, w);
      DotPick(b, b, s, w);
      DotPick(a, b, s, w);
      SkewExpands(p, q, x, y);
      ExpandAdd(Times(p, p), Times(q, q), Times(p, q), Dot(a, a, s - {w}), Dot(b, b, s - {w}), Dot(a, b, s - {w}), x, y);
    }
  }

  lemma ExpandAdd(pp: int, qq: int, pq: int, pp': int, qq': int, pq': int, x: int, y: int)
    ensures Expand(pp, qq, pq, x, y) + Expand(pp', qq', pq', x, y) == Expand(pp + pp', qq + qq', pq + pq', x, y)
  {
    Distribute(pp, pp', y * y);
    Distribute(qq, qq', x * x);
    Distribute(pq, pq', x * y);
  }

  lemma Distribute(m: int, n: int, k: int)
    ensures (m + n) * k == m * k + n * k
  {
  }

  lemma {:induction false} CrossZeroIff(a: Freq, b: Freq, s: set<string>, x: int, y: int)
    ensures Cross(a, b, s, x, y) == 0 <==> forall v :: v in s ==> Balanced(Get(a, v), Get(b, v), x, y)
  {
    if s != {} {
      hide Cross, Skew, Balanced;
      var w := CrossUnfolds(a, b, s, x, y);
      SkewZeroIff(Get(a, w), Get(b, w), x, y);
      CrossZeroIff(a, b, s - {w}, x, y);
    }
  }

  /** Two pairs of numbers are in proportion. */
  predicate Balanced(p: int, q: int, x: int, y: int) {
    p * y == q * x
  }

  /** The two counts are in the same proportion for every word. */
  ghost predicate Proportional(a: Freq, b: Freq, s: set<string>) {
    forall v, w :: v in s && w in s ==> Balanced(Get(a, v), Get(b, v), Get(a, w), Get(b, w))
  }

  function Gap(n1: int, n2: int, d: int): int {
    n1 * n2 - Square(d)
  }

  lemma GapStep(n1: nat, n2: nat, d: nat, x: nat, y: nat)
    ensures Gap(Times(x, x) + n1, Times(y, y) + n2, Times(x, y) + d) == Gap(n1, n2, d) + Expand(n1, n2, d, x, y)
  {
    var p := x * y;
    assert (x * x + n1) * (y * y + n2) == (x * x) * (y * y) + (x * x) * n2 + n1 * (y * y) + n1 * n2;
    assert (x * x) * (y * y) == p * p;
    assert Square(p + d) == p * p + 2 * (d * p) + Square(d);
  }

  lemma GapGrows(a: Freq, b: Freq, s: set<string>, w: string)
    requires w in s
    ensures Gap(Dot(a, a, s), Dot(b, b, s), Dot(a, b, s))
            == Gap(Dot(a, a, s - {w}), Dot(b, b, s - {w}), Dot(a, b, s - {w})) + Cross(a, b, s - {w}, Get(a, w), Get(b, w))
  {
    hide Dot, Cross, Gap, Times, Expand, Get;
    DotPick(a, a, s, w);
    DotPick(b, b, s, w);
    DotPick(a, b, s, w);
    GapStep(Dot(a, a, s - {w}), Dot(b, b, s - {w}), Dot(a, b, s - {w}), Get(a, w), Get(b, w));
    CrossExpands(a, b, s - {w}, Get(a, w), Get(b, w));
  }

  /** The norms never fall below the product, and meet it exactly for proportional counts. */
  lemma {:induction false} GapIsNat(a: Freq, b: Freq, s: set<string>)
    ensures Gap(Dot(a, a, s), Dot(b, b, s), Dot(a, b, s)) >= 0
    ensures Gap(Dot(a, a, s), Dot(b, b, s), Dot(a, b, s)) == 0 <==> Proportional(a, b, s)
  {
    if s == {} {
      NoGapInNothing(a, b);
    } else {
      hide *;
      var w :| w in s;
      GapIsNat(a, b, s - {w});
      GapGrows(a, b, s, w);
      CrossZeroIff(a, b, s - {w}, Get(a, w), Get(b, w));
      ProportionalStep(a, b, s, w);
    }
  }

  lemma NoGapInNothing(a: Freq, b: Freq)
    ensures Gap(Dot(a, a, {}), Dot(b, b, {}), Dot(a, b, {})) == 0 && Proportional(a, b, {})
  {
  }

  /** The product of two word counts never exceeds their norms, and reaches them exactly for proportional counts. */
  lemma CauchySchwarz(a: Freq, b: Freq, s: set<string>)
    ensures Square(Dot(a, b, s)) <= Dot(a, a, s) * Dot(b, b, s)
    ensures Square(Dot(a, b, s)) == Dot(a, a, s) * Dot(b, b, s) <==> Proportional(a, b, s)
  {
    hide Dot, Proportional, Square;
    GapIsNat(a, b, s);
  }

  lemma ProportionalStep(a: Freq, b: Freq, s: set<string>, w: string)
    requires w in s
    ensures Proportional(a, b, s)
            <==> Proportional(a, b, s - {w}) && forall v :: v in s - {w} ==> Balanced(Get(a, v), Get(b, v), Get(a, w), Get(b, w))
  {
    if Proportional(a, b, s - {w}) && forall v :: v in s - {w} ==> Balanced(Get(a, v), Get(b, v), Get(a, w), Get(b, w)) {
      forall u, v | u in s && v in s ensures Balanced(Get(a, u), Get(b, u), Get(a, v), Get(b, v)) {
        if u == w && v != w {
          assert Balanced(Get(a, v), Get(b, v), Get(a, w), Get(b, w));
        }
      }
    }
  }

  // ----- cosine similarity -----

  /** The norm of a word count, summed over its own words. */
  ghost function Norm(f: Freq): nat {
    Dot(f, f, f.Keys)
  }

  ghost function DotProduct(a: Freq, b: Freq): nat {
    Dot(a, b, a.Keys + b.Keys)
  }

  /** The square root taken as exact. */
  ghost predicate IsRoot(root: nat -> real) {
    forall n: nat :: root(n) >= 0.0 && root(n) * root(n) == n as real
  }

  lemma RootSquares(root: nat -> real, n: nat)
    requires IsRoot(root)
    ensures root(n) * root(n) == n as real
  {
  }

  lemma RootPositive(root: nat -> real, n: nat)
    requires IsRoot(root) && n > 0
    ensures root(n) > 0.0
  {
    assert root(n) * root(n) == n as real;
  }

  lemma PositiveProduct(x: real, y: real)
    requires x > 0.0 && y > 0.0
    ensures x * y > 0.0
  {
  }

  function Ratio(d: nat, x: real, y: real): real
    requires x > 0.0 && y > 0.0
  {
    PositiveProduct(x, y);
    d as real / (x * y)
  }

  ghost function Cosine(a: Freq, b: Freq, root: nat -> real): real
    requires IsRoot(root)
  {
    if Norm(a) == 0 || Norm(b) == 0 then 0.0
    else
      RootPositive(root, Norm(a));
      RootPositive(root, Norm(b));
      Ratio(DotProduct(a, b), root(Norm(a)), root(Norm(b)))
  }

  lemma NormZeroIff(f: Freq)
    requires Counted(f)
    ensures Norm(f) == 0 <==> f == map[]
  {
    DotZeroIff(f, f, f.Keys);
    assert (forall w :: w in f.Keys ==> w !in f) ==> f.Keys == {};
  }

  /** Over all words of both sides the norms are the same. */
  lemma NormOverAll(a: Freq, b: Freq)
    ensures Norm(a) == Dot(a, a, a.Keys + b.Keys) && Norm(b) == Dot(b, b, a.Keys + b.Keys)
  {
    DotExtend(a, a, a.Keys, a.Keys + b.Keys);
    DotExtend(b, b, b.Keys, a.Keys + b.Keys);
  }

  lemma RootsOfProduct(x: real, y: real, n1: nat, n2: nat)
    requires x > 0.0 && y > 0.0 && x * x == n1 as real && y * y == n2 as real
    ensures (x * y) * (x * y) == (n1 * n2) as real
  {
    calc {
      (x * y) * (x * y);
      (x * x) * (y * y);
      n1 as real * n2 as real;
      (n1 * n2) as real;
    }
  }

  lemma RatioBounds(d: nat, n1: nat, n2: nat, x: real, y: real)
    requires x > 0.0 && y > 0.0 && x * x == n1 as real && y * y == n2 as real && Square(d) <= n1 * n2
    ensures 0.0 <= Ratio(d, x, y) <= 1.0
    ensures Ratio(d, x, y) == 1.0 <==> Square(d) == n1 * n2
    ensures Ratio(d, x, y) == 0.0 <==> d == 0
  {
    PositiveProduct(x, y);
    RootsOfProduct(x, y, n1, n2);
    QuotientBounds(d, n1 * n2, x * y);
  }

  lemma SquareMonotone(x: real, y: real)
    requires 0.0 <= x < y
    ensures x * x < y * y
  {
    PositiveProduct(y - x, y);
    assert (y - x) * y == y * y - x * y;
    assert x * (y - x) >= 0.0;
    assert x * (y - x) == x * y - x * x;
  }

  lemma QuotientBounds(d: nat, n: nat, q: real)
    requires q > 0.0 && q * q == n as real && Square(d) <= n
    ensures 0.0 <= d as real / q <= 1.0
    ensures d as real / q == 1.0 <==> Square(d) == n
    ensures d as real / q == 0.0 <==> d == 0
  {
    var e := d as real;
    assert e * e == Square(d) as real;
    if e > q {
      SquareMonotone(q, e);
    }
    assert e / q * q == e;
    if e < q {
      SquareMonotone(e, q);
    }
  }

  /** The two texts hold counted words in the same proportions. */
  ghost predicate SameProportions(a: Freq, b: Freq) {
    a != map[] && b != map[] && Proportional(a, b, a.Keys + b.Keys)
  }

  lemma IdenticalAreProportional(f: Freq)
    requires f != map[]
    ensures SameProportions(f, f)
  {
    forall v, w | v in f && w in f ensures Balanced(f[v], f[v], f[w], f[w]) {
    }
  }

  /** Similarity lies between nothing in common and the same proportions. */
  lemma CosineBounds(a: Freq, b: Freq, root: nat -> real)
    requires IsRoot(root) && Counted(a) && Counted(b)
    ensures 0.0 <= Cosine(a, b, root) <= 1.0
    ensures Cosine(a, b, root) == 1.0 <==> a != map[] && b != map[] && Proportional(a, b, a.Keys + b.Keys)
    ensures Cosine(a, b, root) == 0.0 <==> a.Keys !! b.Keys
    ensures a == b && a != map[] ==> Cosine(a, b, root) == 1.0
  {
    if a == b && a != map[] {
      IdenticalAreProportional(a);
    }
    NormZeroIff(a);
    NormZeroIff(b);
    DotZeroIff(a, b, a.Keys + b.Keys);
    hide Dot, Norm, Proportional, Square, IsRoot;
    if Norm(a) != 0 && Norm(b) != 0 {
      CosineOfNonEmpty(a, b, root);
    }
  }

  lemma CosineOfNonEmpty(a: Freq, b: Freq, root: nat -> real)
    requires IsRoot(root) && Norm(a) != 0 && Norm(b) != 0
    ensures 0.0 <= Cosine(a, b, root) <= 1.0
    ensures Cosine(a, b, root) == 1.0 <==> Proportional(a, b, a.Keys + b.Keys)
    ensures Cosine(a, b, root) == 0.0 <==> Dot(a, b, a.Keys + b.Keys) == 0
  {
    hide Dot, Norm, Proportional, IsRoot, Ratio;
    RootSquares(root, Norm(a));
    RootSquares(root, Norm(b));
    NormOverAll(a, b);
    CauchySchwarz(a, b, a.Keys + b.Keys);
    RootPositive(root, Norm(a));
    RootPositive(root, Norm(b));
    hide Square;
    RatioBounds(DotProduct(a, b), Norm(a), Norm(b), root(Norm(a)), root(Norm(b)));
  }

  lemma CosineSymmetric(a: Freq, b: Freq, root: nat -> real)
    requires IsRoot(root)
    ensures Cosine(a, b, root) == Cosine(b, a, root)
  {
    assert a.Keys + b.Keys == b.Keys + a.Keys;
    DotSymmetric(a, b, a.Keys + b.Keys);
    if Norm(a) != 0 && Norm(b) != 0 {
      RootPositive(root, Norm(a));
      RootPositive(root, Norm(b));
      assert root(Norm(a)) * root(Norm(b)) == root(Norm(b)) * root(Norm(a));
    }
  }

  /** The sum of the products over a set, in the order in which its words come up. */
  method SumProducts(a: Freq, b: Freq, s: set<string>) returns (sum: nat)
    ensures sum == Dot(a, b, s)
  {
    sum := 0;
    var rest := s;
    while rest != {}
      invariant rest <= s
      invariant sum + Dot(a, b, rest) == Dot(a, b, s)
      decreases |rest|
    {
      var w :| w in rest;
      DotPick(a, b, rest, w);
      sum := sum + Times(Get(a, w), Get(b, w));
      rest := rest - {w};
    }
  }

  method CosineSimilarity(text1: Words, text2: Words, root: nat -> real) returns (similarity: real)
    requires IsRoot(root)
    ensures similarity == Cosine(WordFreq(text1), WordFreq(text2), root)
  {
    hide Dot, WordFreq, IsRoot;
    var freq1 := GetWordFreq(text1);
    var freq2 := GetWordFreq(text2);
    var dotProduct := SumProducts(freq1, freq2, freq1.Keys + freq2.Keys);
    var norm1 := SumProducts(freq1, freq1, freq1.Keys);
    var norm2 := SumProducts(freq2, freq2, freq2.Keys);
    if norm1 == 0 || norm2 == 0 {
      return 0.0;
    }
    RootPositive(root, norm1);
    RootPositive(root, norm2);
    PositiveProduct(root(norm1), root(norm2));
    similarity := dotProduct as real / (root(norm1) * root(norm2));
  }

  // ----- the average over all pairs -----

  ghost function Pair(texts: seq<Words>, i: nat, j: nat, root: nat -> real): real
    requires IsRoot(root) && i < |texts| && j < |texts|
  {
    Cosine(WordFreq(texts[i]), WordFreq(texts[j]), root)
  }

  /** The similarities of text i with the texts from j on. */
  ghost function RowSum(texts: seq<Words>, i: nat, j: nat, root: nat -> real): real
    requires IsRoot(root) && i < |texts|
    decreases |texts| - j
  {
    if j >= |texts| then 0.0 else Pair(texts, i, j, root) + RowSum(texts, i, j + 1, root)
  }

  ghost function TotalFrom(texts: seq<Words>, i: nat, root: nat -> real): real
    requires IsRoot(root)
    decreases |texts| - i
  {
    if i >= |texts| then 0.0 else RowSum(texts, i, i + 1, root) + TotalFrom(texts, i + 1, root)
  }

  /** The number of pairs among n texts. */
  function Pairs(n: nat): nat {
    if n == 0 then 0 else Pairs(n - 1) + (n - 1)
  }

  lemma {:induction false} PairsIs(n: nat)
    ensures 2 * Pairs(n) == n * (n - 1)
    ensures n >= 2 ==> Pairs(n) > 0
  {
    if n > 0 {
      PairsIs(n - 1);
      assert n * (n - 1) == (n - 1) * (n - 2) + 2 * (n - 1);
    }
  }

  ghost function Similarity(texts: seq<Words>, root: nat -> real): real
    requires IsRoot(root)
  {
    if |texts| < 2 then 0.0
    else
      PairsIs(|texts|);
      TotalFrom(texts, 0, root) / Pairs(|texts|) as real
  }

  method CalculateSimilarity(texts: seq<Words>, root: nat -> real) returns (similarity: real)
    requires IsRoot(root)
    ensures similarity == Similarity(texts, root)
  {
    hide WordFreq, Cosine, IsRoot;
    if |texts| < 2 {
      return 0.0;
    }
    var totalSimilarity := 0.0;
    var pairs := 0;
    var i := 0;
    while i < |texts|
      invariant 0 <= i <= |texts|
      invariant totalSimilarity + TotalFrom(texts, i, root) == TotalFrom(texts, 0, root)
      invariant pairs + Pairs(|texts| - i) == Pairs(|texts|)
    {
      var j := i + 1;
      while j < |texts|
        invariant i < j <= |texts|
        invariant totalSimilarity + RowSum(texts, i, j, root) + TotalFrom(texts, i + 1, root) == TotalFrom(texts, 0, root)
        invariant pairs + (|texts| - j) + Pairs(|texts| - i - 1) == Pairs(|texts|)
      {
        var similar := CosineSimilarity(texts[i], texts[j], root);
        totalSimilarity := totalSimilarity + similar;
        pairs := pairs + 1;
        j := j + 1;
      }
      i := i + 1;
    }
    PairsIs(|texts|);
    similarity := if pairs > 0 then totalSimilarity / pairs as real else 0.0;
  }

  lemma PairBounds(texts: seq<Words>, i: nat, j: nat, root: nat -> real)
    requires IsRoot(root) && i < |texts| && j < |texts|
    ensures 0.0 <= Pair(texts, i, j, root) <= 1.0
    ensures Pair(texts, i, j, root) == 1.0 <==> SameProportions(WordFreq(texts[i]), WordFreq(texts[j]))
  {
    WordFreqCounted(texts[i]);
    WordFreqCounted(texts[j]);
    CosineBounds(WordFreq(texts[i]), WordFreq(texts[j]), root);
  }

  /** From text j on every text has the proportions of text i. */
  ghost predicate RowAgrees(texts: seq<Words>, i: nat, j: nat)
    requires i < |texts|
  {
    forall k: nat :: j <= k < |texts| ==> SameProportions(WordFreq(texts[i]), WordFreq(texts[k]))
  }

  lemma {:induction false} RowBounds(texts: seq<Words>, i: nat, j: nat, root: nat -> real)
    requires IsRoot(root) && i < |texts| && j <= |texts|
    ensures 0.0 <= RowSum(texts, i, j, root) <= (|texts| - j) as real
    ensures RowSum(texts, i, j, root) == (|texts| - j) as real <==> RowAgrees(texts, i, j)
    decreases |texts| - j
  {
    if j < |texts| {
      PairBounds(texts, i, j, root);
      RowBounds(texts, i, j + 1, root);
      RowAgreesStep(texts, i, j);
      assert RowSum(texts, i, j, root) == Pair(texts, i, j, root) + RowSum(texts, i, j + 1, root);
      hide *;
    }
  }

  lemma RowAgreesStep(texts: seq<Words>, i: nat, j: nat)
    requires i < |texts| && j < |texts|
    ensures RowAgrees(texts, i, j) <==> SameProportions(WordFreq(texts[i]), WordFreq(texts[j])) && RowAgrees(texts, i, j + 1)
  {
    hide SameProportions, WordFreq;
  }

  ghost predicate AgreesWithLater(texts: seq<Words>, i: nat)
    requires i < |texts|
  {
    RowAgrees(texts, i, i + 1)
  }

  ghost predicate AllAgreeFrom(texts: seq<Words>, i: nat) {
    forall k: nat :: i <= k < |texts| ==> AgreesWithLater(texts, k)
  }

  lemma AllAgreeStep(texts: seq<Words>, i: nat)
    requires i < |texts|
    ensures AllAgreeFrom(texts, i) <==> RowAgrees(texts, i, i + 1) && AllAgreeFrom(texts, i + 1)
  {
    hide RowAgrees;
    assert AllAgreeFrom(texts, i) ==> AgreesWithLater(texts, i);
  }

  lemma {:induction false} TotalBounds(texts: seq<Words>, i: nat, root: nat -> real)
    requires IsRoot(root) && i <= |texts|
    ensures 0.0 <= TotalFrom(texts, i, root) <= Pairs(|texts| - i) as real
    ensures TotalFrom(texts, i, root) == Pairs(|texts| - i) as real <==> AllAgreeFrom(texts, i)
    decreases |texts| - i
  {
    hide *;
    if i < |texts| {
      RowBounds(texts, i, i + 1, root);
      TotalBounds(texts, i + 1, root);
      TotalStep(texts, i, root);
      PairsStep(|texts| - i);
      AllAgreeStep(texts, i);
    } else {
      TotalEnd(texts, root);
    }
  }

  lemma TotalStep(texts: seq<Words>, i: nat, root: nat -> real)
    requires IsRoot(root) && i < |texts|
    ensures TotalFrom(texts, i, root) == RowSum(texts, i, i + 1, root) + TotalFrom(texts, i + 1, root)
  {
    hide RowSum, IsRoot;
  }

  lemma TotalEnd(texts: seq<Words>, root: nat -> real)
    requires IsRoot(root)
    ensures TotalFrom(texts, |texts|, root) == 0.0 && Pairs(0) == 0 && AllAgreeFrom(texts, |texts|)
  {
    hide RowSum, IsRoot;
  }

  lemma PairsStep(left: nat)
    requires left > 0
    ensures Pairs(left) == Pairs(left - 1) + (left - 1)
  {
  }

  lemma AverageBounds(total: real, n: nat)
    requires n > 0 && 0.0 <= total <= n as real
    ensures 0.0 <= total / n as real <= 1.0
    ensures total / n as real == 1.0 <==> total == n as real
  {
    var m := n as real;
    var average := total / m;
    assert average * m == total;
    assert (average - 1.0) * m == total - m;
    if average > 1.0 {
      PositiveProduct(average - 1.0, m);
    } else if average < 1.0 {
      PositiveProduct(1.0 - average, m);
      assert (1.0 - average) * m == m - total;
    }
  }

  /** The average stays between zero and one, and is one exactly when all pairs have the same proportions. */
  lemma SimilarityBounds(texts: seq<Words>, root: nat -> real)
    requires IsRoot(root)
    ensures 0.0 <= Similarity(texts, root) <= 1.0
    ensures Similarity(texts, root) == 1.0
            <==> |texts| >= 2 && forall i: nat, j: nat :: i < j < |texts| ==> SameProportions(WordFreq(texts[i]), WordFreq(texts[j]))
  {
    if |texts| >= 2 {
      PairsIs(|texts|);
      TotalBounds(texts, 0, root);
      AverageBounds(TotalFrom(texts, 0, root), Pairs(|texts|));
      hide SameProportions, WordFreq, IsRoot;
      if AllAgreeFrom(texts, 0) {
        forall i: nat, j: nat | i < j < |texts| ensures SameProportions(WordFreq(texts[i]), WordFreq(texts[j])) {
          assert AgreesWithLater(texts, i);
        }
      }
    }
  }

  // ----- the controller -----

  datatype Config = Config(enabled: bool, maxRounds: int, maxDurationMinutes: real, similarityThreshold: real, compareRounds: int)

  datatype StopReason = UserStop | ToolExit | MaxRounds | Timeout | Converged

  datatype LoopState = LoopState(
    isRunning: bool, exitRequested: bool, currentRound: nat, startTime: int, lastOutputs: seq<Words>,
    stopReason: Option<StopReason>)

  function Stopped(s: LoopState, reason: StopReason): LoopState {
    if s.isRunning then s.(isRunning := false, exitRequested := false, stopReason := Some(reason)) else s
  }

  function ElapsedMinutes(startTime: int, now: int): real {
    (now - startTime) as real / 60000.0
  }

  /** The window after one more output: pushed at the end, at most one dropped in front. */
  function Slide(window: seq<Words>, output: Words, compareRounds: int): seq<Words> {
    var pushed := window + [output];
    if |pushed| > compareRounds then pushed[1..] else pushed
  }

  /** Why the loop ends after this output, if it does. */
  ghost function Verdict(s: LoopState, config: Config, ignoreSimilarity: bool, now: int, root: nat -> real): Option<StopReason>
    requires IsRoot(root)
  {
    if s.currentRound >= config.maxRounds then Some(MaxRounds)
    else if ElapsedMinutes(s.startTime, now) >= config.maxDurationMinutes then Some(Timeout)
    else if !ignoreSimilarity && |s.lastOutputs| >= config.compareRounds
            && Similarity(s.lastOutputs, root) >= config.similarityThreshold then Some(Converged)
    else None
  }

  /** The state after one question whether to go on; the loop goes on exactly when it is still running. */
  ghost function AfterRound(s: LoopState, config: Config, output: Words, ignoreSimilarity: bool, now: int, root: nat -> real)
    : LoopState
    requires IsRoot(root)
  {
    if !s.isRunning || !config.enabled then s
    else if s.exitRequested then Stopped(s, ToolExit)
    else
      var counted := s.(currentRound := s.currentRound + 1, lastOutputs := Slide(s.lastOutputs, output, config.compareRounds));
      match Verdict(counted, config, ignoreSimilarity, now, root)
      case Some(reason) => Stopped(counted, reason)
      case None => counted
  }

  function Started(s: LoopState, now: int): LoopState {
    if s.isRunning then s else LoopState(true, false, 0, now, [], None)
  }

  function ExitRequested(s: LoopState, config: Config): LoopState {
    if s.isRunning && config.enabled then s.(exitRequested := true) else s
  }

  ghost predicate IsStopped(s: LoopState, why: StopReason) {
    !s.isRunning && !s.exitRequested && s.stopReason == Some(why)
  }

  /** Why the loop stops after a counted round: the first of the limits that is reached. */
  ghost predicate Reaches(why: StopReason, s: LoopState, config: Config, ignoreSimilarity: bool, now: int, root: nat -> real)
    requires IsRoot(root)
  {
    var rounds, time := s.currentRound >= config.maxRounds, (now - s.startTime) as real >= 60000.0 * config.maxDurationMinutes;
    match why
    case MaxRounds => rounds
    case Timeout => !rounds && time
    case Converged => && !rounds && !time && !ignoreSimilarity && |s.lastOutputs| >= config.compareRounds
                      && Similarity(s.lastOutputs, root) >= config.similarityThreshold
    case UserStop => false
    case ToolExit => false
  }

  /** One round in the fields of the state. */
  ghost predicate IsRound(s: LoopState, config: Config, output: Words, ignoreSimilarity: bool, now: int, root: nat -> real,
                          s': LoopState)
    requires IsRoot(root)
  {
    if !(s.isRunning && config.enabled) then s' == s
    else
      && s'.startTime == s.startTime
      && if s.exitRequested then IsStopped(s', ToolExit) && s'.currentRound == s.currentRound && s'.lastOutputs == s.lastOutputs
         else
           && s'.currentRound == s.currentRound + 1
           && s'.lastOutputs == (s.lastOutputs + [output])[if |s.lastOutputs| >= config.compareRounds then 1 else 0..]
           && if s'.isRunning then
                && !s'.exitRequested && s'.stopReason == s.stopReason
                && forall why :: !Reaches(why, s', config, ignoreSimilarity, now, root)
              else exists why :: Reaches(why, s', config, ignoreSimilarity, now, root) && IsStopped(s', why)
  }

  lemma RoundIs(s: LoopState, config: Config, output: Words, ignoreSimilarity: bool, now: int, root: nat -> real)
    requires IsRoot(root)
    ensures IsRound(s, config, output, ignoreSimilarity, now, root, AfterRound(s, config, output, ignoreSimilarity, now, root))
  {
    hide Similarity, IsRoot;
    if s.isRunning && config.enabled && !s.exitRequested {
      var counted := s.(currentRound := s.currentRound + 1, lastOutputs := Slide(s.lastOutputs, output, config.compareRounds));
      match Verdict(counted, config, ignoreSimilarity, now, root)
      case Some(why) =>
        assert Reaches(why, Stopped(counted, why), config, ignoreSimilarity, now, root);
      case None =>
    }
  }

  class AutoLoopController {
    var config: Config
    var state: LoopState

    constructor (config: Config)
      ensures this.config == config && state == LoopState(false, false, 0, 0, [], None)
    {
      this.config := config;
      state := LoopState(false, false, 0, 0, [], None);
    }

    method Start(now: int)
      modifies this`state
      ensures state == Started(old(state), now)
      ensures if old(state.isRunning) then state == old(state) else state == LoopState(true, false, 0, now, [], None)
    {
      if state.isRunning {
        return;
      }
      state := LoopState(true, false, 0, now, [], None);
    }

    method Stop(reason: StopReason)
      modifies this`state
      ensures state == Stopped(old(state), reason)
      ensures if old(state.isRunning) then IsStopped(state, reason) else state == old(state)
    {
      if !state.isRunning {
        return;
      }
      state := state.(isRunning := false);
      state := state.(exitRequested := false);
      state := state.(stopReason := Some(reason));
    }

    method RequestExit() returns (accepted: bool)
      modifies this`state
      ensures state == ExitRequested(old(state), config)
      ensures state == if accepted then old(state).(exitRequested := true) else old(state)
      ensures accepted <==> old(state).isRunning && config.enabled
    {
      if !state.isRunning || !config.enabled {
        return false;
      }
      if !state.exitRequested {
        state := state.(exitRequested := true);
      }
      accepted := true;
    }

    method ShouldContinue(lastOutput: Words, ignoreSimilarity: bool, now: int, root: nat -> real) returns (goOn: bool)
      requires IsRoot(root)
      modifies this`state
      ensures state == AfterRound(old(state), config, lastOutput, ignoreSimilarity, now, root)
      ensures goOn <==> state.isRunning && config.enabled
      ensures IsRound(old(state), config, lastOutput, ignoreSimilarity, now, root, state)
    {
      hide Similarity, IsRoot, IsRound;
      RoundIs(state, config, lastOutput, ignoreSimilarity, now, root);
      if !state.isRunning || !config.enabled {
        return false;
      }
      if state.exitRequested {
        Stop(ToolExit);
        return false;
      }
      state := state.(currentRound := state.currentRound + 1);
      state := state.(lastOutputs := state.lastOutputs + [lastOutput]);
      if |state.lastOutputs| > config.compareRounds {
        state := state.(lastOutputs := state.lastOutputs[1..]);
      }
      if state.currentRound >= config.maxRounds {
        Stop(MaxRounds);
        return false;
      }
      if ElapsedMinutes(state.startTime, now) >= config.maxDurationMinutes {
        Stop(Timeout);
        return false;
      }
      if !ignoreSimilarity && |state.lastOutputs| >= config.compareRounds {
        var similarity := CalculateSimilarity(state.lastOutputs, root);
        if similarity >= config.similarityThreshold {
          Stop(Converged);
          return false;
        }
      }
      goOn := true;
    }
  }

  // ----- whole runs of the loop -----

  datatype Event =
    | Round(output: Words, ignoreSimilarity: bool, now: int)
    | ExitRequest
    | UserStops

  ghost function Apply(s: LoopState, config: Config, e: Event, root: nat -> real): LoopState
    requires IsRoot(root)
  {
    match e
    case Round(output, ignoreSimilarity, now) => AfterRound(s, config, output, ignoreSimilarity, now, root)
    case ExitRequest => ExitRequested(s, config)
    case UserStops => Stopped(s, UserStop)
  }

  ghost function Run(s: LoopState, config: Config, events: seq<Event>, root: nat -> real): LoopState
    requires IsRoot(root)
    decreases |events|
  {
    if events == [] then s else Run(Apply(s, config, events[0], root), config, events[1..], root)
  }

  /** How often the answer was to go on. */
  ghost function GoOns(s: LoopState, config: Config, events: seq<Event>, root: nat -> real): nat
    requires IsRoot(root)
    decreases |events|
  {
    if events == [] then 0
    else
      var s' := Apply(s, config, events[0], root);
      (if events[0].Round? && s'.isRunning && config.enabled then 1 else 0) + GoOns(s', config, events[1..], root)
  }

  /** Whatever is said, asked to stop or timed out, the loop goes on fewer than `maxRounds` times. */
  lemma {:induction false} GoOnsBounded(s: LoopState, config: Config, events: seq<Event>, root: nat -> real)
    requires IsRoot(root)
    ensures GoOns(s, config, events, root) > 0
            ==> s.isRunning && s.currentRound + GoOns(s, config, events, root) < config.maxRounds
    decreases |events|
  {
    if events != [] {
      hide Similarity, IsRoot;
      GoOnsBounded(Apply(s, config, events[0], root), config, events[1..], root);
    }
  }

  /** The outputs of the rounds that were asked about. */
  function Outputs(events: seq<Event>): seq<Words> {
    if events == [] then []
    else (if events[0].Round? then [events[0].output] else []) + Outputs(events[1..])
  }

  /** The last n of a list, or all of it. */
  function LastOf(outputs: seq<Words>, n: nat): seq<Words> {
    if |outputs| <= n then outputs else outputs[|outputs| - n..]
  }

  lemma SlideIsLast(outputs: seq<Words>, output: Words, n: nat)
    ensures Slide(LastOf(outputs, n), output, n) == LastOf(outputs + [output], n)
  {
  }

  /** While the loop runs its window holds the last outputs of the run, `compareRounds` of them once there are so many. */
  lemma {:induction false} WindowIsLastOutputs(s: LoopState, config: Config, seen: seq<Words>, events: seq<Event>, root: nat -> real)
    requires IsRoot(root) && config.enabled && config.compareRounds >= 0
    requires s.lastOutputs == LastOf(seen, config.compareRounds) && s.currentRound == |seen|
    ensures var s' := Run(s, config, events, root);
            s'.isRunning ==> s'.lastOutputs == LastOf(seen + Outputs(events), config.compareRounds)
                             && s'.currentRound == |seen| + |Outputs(events)|
    decreases |events|
  {
    if events == [] {
      assert seen + Outputs(events) == seen;
    } else {
      var s1 := Apply(s, config, events[0], root);
      hide Similarity, IsRoot, LastOf, Slide;
      if !s1.isRunning {
        StoppedStays(s1, config, events[1..], root);
      } else if events[0].Round? {
        var output := events[0].output;
        SlideIsLast(seen, output, config.compareRounds);
        WindowIsLastOutputs(s1, config, seen + [output], events[1..], root);
        assert seen + [output] + Outputs(events[1..]) == seen + Outputs(events);
      } else {
        WindowIsLastOutputs(s1, config, seen, events[1..], root);
        assert seen + Outputs(events[1..]) == seen + Outputs(events);
      }
    }
  }

  lemma {:induction false} StoppedStays(s: LoopState, config: Config, events: seq<Event>, root: nat -> real)
    requires IsRoot(root) && !s.isRunning
    ensures !Run(s, config, events, root).isRunning && GoOns(s, config, events, root) == 0
    decreases |events|
  {
    if events != [] {
      StoppedStays(s, config, events[1..], root);
    }
  }

  /** All of these outputs hold counted words in one proportion. */
  ghost predicate Repetitive(outputs: seq<Words>) {
    forall i: nat, j: nat :: i < j < |outputs| ==> SameProportions(WordFreq(outputs[i]), WordFreq(outputs[j]))
  }

  /**
   * With a threshold of at most one, repeating oneself over the compared rounds ends the loop, unless
   * the comparison is switched off; with a threshold of one nothing else ends it as converged.
   */
  lemma RepetitionStops(s: LoopState, config: Config, output: Words, ignoreSimilarity: bool, now: int, root: nat -> real)
    requires IsRoot(root) && config.compareRounds >= 2
    ensures var window := Slide(s.lastOutputs, output, config.compareRounds);
            && (Repetitive(window) && |window| >= config.compareRounds && config.similarityThreshold <= 1.0 && !ignoreSimilarity
                ==> !(AfterRound(s, config, output, ignoreSimilarity, now, root).isRunning && config.enabled))
            && (s.isRunning && config.enabled && !s.exitRequested && config.similarityThreshold == 1.0
                && AfterRound(s, config, output, ignoreSimilarity, now, root).stopReason == Some(Converged)
                && s.stopReason != Some(Converged)
                ==> Repetitive(window))
  {
    var window := Slide(s.lastOutputs, output, config.compareRounds);
    SimilarityBounds(window, root);
    hide Similarity, SameProportions, WordFreq, IsRoot, Slide;
  }
}
