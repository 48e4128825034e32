/** Shared vocabulary: optional values, results, the skill generator's
    errors, and the few Python sequence idioms (slicing with a possibly
    negative bound, ordered de-duplication) that the rest of the model
    relies on. */
module Base {

  datatype Option<+T> = None | Some(value: T)

  datatype Result<+T, +E> = Success(value: T) | Failure(error: E)

  /** The exceptions the skill generator's operations raise, one
      constructor per cause: its `ValueError`s, the `IndexError` of a
      missing column, and the `ZeroDivisionError` of an empty table. */
  datatype Error =
    | NoDataLoaded
    | UnsupportedFormat(ext: string)
    | NotFileOrFrame
    | InvalidChartType(name: string)
    | ColumnIndexOutOfRange
    | ZeroDivision

  /** `a` can be obtained from `b` by deleting elements, keeping order. */
  predicate IsSubseq<T(==)>(a: seq<T>, b: seq<T>)
    decreases |b|
  {
    |a| == 0 || (|b| > 0 && ((a[0] == b[0] && IsSubseq(a[1..], b[1..])) || IsSubseq(a, b[1..])))
  }

  /** No element occurs twice. */
  predicate Distinct<T(==)>(xs: seq<T>) {
    forall i, j :: 0 <= i < j < |xs| ==> xs[i] != xs[j]
  }

  function Min(a: int, b: int): int { if a <= b then a else b }

  function Max(a: int, b: int): int { if a >= b then a else b }

  /** Python's `xs[:k]`: a non-negative bound keeps at most `k` elements,
      a negative bound drops `-k` elements from the end. */
  function PyPrefix<T>(xs: seq<T>, k: int): (r: seq<T>)
    ensures 0 <= k ==> |r| == Min(k, |xs|)
    ensures k < 0 ==> |r| == Max(0, |xs| + k)
    ensures r == xs[..|r|]
  {
    if k >= 0 then (if k <= |xs| then xs[..k] else xs)
    else if |xs| + k <= 0 then []
    else xs[..|xs| + k]
  }

  /** The elements of `xs` in order of first occurrence, each once. */
  function Dedup<T(==)>(xs: seq<T>): (r: seq<T>)
    ensures Distinct(r)
    ensures forall i :: 0 <= i < |xs| ==> xs[i] in r
    ensures forall i :: 0 <= i < |r| ==> r[i] in xs
    ensures |r| <= |xs|
  {
    if |xs| == 0 then []
    else
      var rest := Dedup(xs[..|xs| - 1]);
      if xs[|xs| - 1] in rest then rest else rest + [xs[|xs| - 1]]
  }

  /** `p * k`: `k` copies of `p` one after another. */
  function Repeat<T>(p: seq<T>, k: nat): (r: seq<T>) {
    if k == 0 then [] else p + Repeat(p, k - 1)
  }

  /** `k` copies of `p` hold `k * |p|` elements. */
  lemma {:induction false} RepeatLength<T>(p: seq<T>, k: nat)
    ensures |Repeat(p, k)| == k * |p|
  {
    if k > 0 {
      RepeatLength(p, k - 1);
      assert k * |p| == (k - 1) * |p| + |p|;
    }
  }

  /** Copy `j` holds element `c` at position `j * |p| + c`. */
  lemma {:induction false} RepeatAt<T>(p: seq<T>, k: nat, j: nat, c: nat)
    requires j < k && c < |p|
    ensures j * |p| + c < |Repeat(p, k)| && Repeat(p, k)[j * |p| + c] == p[c]
  {
    var n := |p|;
    if j > 0 {
      RepeatAt(p, k - 1, j - 1, c);
      assert j * n + c == n + ((j - 1) * n + c);
    }
  }

  /** Cutting `n // |p| + 1` copies of `p` to `n` elements cycles through `p`. */
  lemma RepetitionCycles<T>(p: seq<T>, n: nat)
    requires 0 < |p| < n
    ensures var r := PyPrefix(Repeat(p, n / |p| + 1), n);
      |r| == n && forall i :: 0 <= i < n ==> r[i] == p[i % |p|]
  {
    var k := n / |p| + 1;
    RepeatLength(p, k);
    EnoughCopies(n, |p|);
    forall i | 0 <= i < n ensures Repeat(p, k)[i] == p[i % |p|] {
      CycleIndex(p, n, i);
    }
  }

  /** Position `i < n` of `n // |p| + 1` copies of `p` holds `p[i % |p|]`. */
  lemma CycleIndex<T>(p: seq<T>, n: nat, i: nat)
    requires 0 < |p| && i < n
    ensures i < |Repeat(p, n / |p| + 1)| && Repeat(p, n / |p| + 1)[i] == p[i % |p|]
  {
    var m := |p|;
    var k := n / m + 1;
    assert i == (i / m) * m + i % m;
    DivisionMonotone(i, n, m);
    RepeatAt(p, k, i / m, i % m);
  }

  lemma DivisionMonotone(i: nat, n: nat, m: nat)
    requires m > 0 && i <= n
    ensures i / m <= n / m
  {
    var q, top := i / m, n / m;
    assert i == q * m + i % m;
    assert n == top * m + n % m;
    if q > top {
      ProductMonotone(q - top - 1, m);
      assert false;
    }
  }

  lemma ProductMonotone(d: nat, m: nat)
    ensures d * m >= 0
  {
  }

  /** `n // m + 1` copies of `m` elements are more than `n`. */
  lemma EnoughCopies(n: nat, m: nat)
    requires m > 0
    ensures n < (n / m + 1) * m
  {
    assert n == (n / m) * m + n % m;
  }
}
