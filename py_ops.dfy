/** Python's integer and slicing semantics, written out where they differ
    from Dafny's built-in operators. */
module PyOps {

  function Min(a: int, b: int): int { if a <= b then a else b }
  function Max(a: int, b: int): int { if a <= b then b else a }

  /** Python's `a // b`: the quotient rounded towards minus infinity.
      Dafny's `/` is Euclidean, which agrees with it for b > 0 only. */
  function FloorDiv(a: int, b: int): (q: int)
    requires b != 0
    ensures b > 0 ==> q * b <= a < q * b + b
    ensures b < 0 ==> q * b >= a > q * b + b
  {
    if b > 0 then a / b else (-a) / (-b)
  }

  /** Python's `s[-k:]` for an integer k: the last k elements when k > 0,
      the whole sequence when k == 0 (because -0 == 0), and everything but
      the first -k elements when k < 0. */
  function PySuffix<T>(s: seq<T>, k: int): (r: seq<T>)
    ensures k > 0 ==> |r| == Min(k, |s|)
    ensures k == 0 ==> r == s
    ensures k < 0 ==> |r| == Max(0, |s| + k)
    ensures r == s[|s| - |r|..]
  {
    if k == 0 then s
    else if k > 0 then (if k >= |s| then s else s[|s| - k..])
    else (if -k >= |s| then [] else s[-k..])
  }

  /** Python's `math.floor` and `math.ceil`. */
  function Floor(x: real): (r: int)
    ensures r as real <= x < r as real + 1.0
  {
    x.Floor
  }

  function Ceil(x: real): (r: int)
    ensures r as real - 1.0 < x <= r as real
  {
    -((-x).Floor)
  }

  /** Python 3's `round` on a float: the nearest integer, ties to even. */
  function Round(x: real): (r: int)
    ensures x - 0.5 <= r as real <= x + 0.5
  {
    var f := x.Floor;
    var frac := x - f as real;
    if frac < 0.5 then f
    else if frac > 0.5 then f + 1
    else if f % 2 == 0 then f
    else f + 1
  }

  /** Rounding keeps a value that lies in [0, n] inside [0, n]. */
  lemma RoundWithin(x: real, n: int)
    requires 0.0 <= x <= n as real
    ensures 0 <= Round(x) <= n
  {
    var f := x.Floor;
    assert 0 <= f <= n;
    if f == n {
      assert x - f as real == 0.0;
    }
  }

  /** Rounding a whole number gives it back. */
  lemma RoundOfInteger(n: int)
    ensures Round(n as real) == n
  {
    assert (n as real).Floor == n;
  }

  lemma MulNonneg(x: int, y: int)
    requires x >= 0 && y >= 0
    ensures x * y >= 0
  {
  }

  /** Division with a positive divisor is determined by quotient and
      remainder: a == q * b + r with 0 <= r < b fixes both. */
  lemma DivModUnique(a: int, b: int, q: int, r: int)
    requires b > 0 && a == q * b + r && 0 <= r < b
    ensures a / b == q && a % b == r
  {
    var q', r' := a / b, a % b;
    assert a == q' * b + r';
    var d := q - q';
    assert d * b == r' - r;
    if d > 0 {
      MulNonneg(d - 1, b);
    } else if d < 0 {
      MulNonneg(-d - 1, b);
    }
  }

  /** Floor division by a positive number is monotone. */
  lemma FloorDivMonotone(a: int, b: int, p: int)
    requires p > 0 && a <= b
    ensures FloorDiv(a, p) <= FloorDiv(b, p)
  {
    var qa, qb := a / p, b / p;
    assert a == qa * p + a % p && b == qb * p + b % p;
    if qa > qb {
      MulNonneg(qa - qb - 1, p);
    }
  }

  /** For a positive k, `s[-k:]` is the slice from `max(0, len(s) - k)`. */
  lemma SuffixIsSlice<T>(s: seq<T>, k: int)
    requires k > 0
    ensures PySuffix(s, k) == s[Max(0, |s| - k)..]
  {
  }
}
