/** Arithmetic helpers shared by the chart models: sums and extrema of
    sequences, and the Kotlin conversions `Float.toInt()` and `coerceIn`. */
module Numbers {

  /** `kotlin.math.PI`, the double closest to pi. */
  const PI: real := 3.141592653589793

  /** Sum of a sequence of reals (Kotlin `sum()`), folded from the left. */
  function Sum(s: seq<real>): real
  {
    if s == [] then 0.0 else Sum(s[..|s| - 1]) + s[|s| - 1]
  }

  /** Sum of a sequence of integers. */
  function SumInts(s: seq<int>): int
  {
    if s == [] then 0 else SumInts(s[..|s| - 1]) + s[|s| - 1]
  }

  /** Smallest element (Kotlin `minOrNull()` on a non-empty list). */
  function Min(s: seq<real>): (m: real)
    requires |s| > 0
    ensures forall i :: 0 <= i < |s| ==> m <= s[i]
    ensures exists i :: 0 <= i < |s| && s[i] == m
  {
    if |s| == 1 then s[0]
    else
      var m0 := Min(s[..|s| - 1]);
      assert forall i :: 0 <= i < |s| - 1 ==> s[..|s| - 1][i] == s[i];
      if s[|s| - 1] < m0 then s[|s| - 1] else m0
  }

  /** Largest element (Kotlin `maxOrNull()` on a non-empty list). */
  function Max(s: seq<real>): (m: real)
    requires |s| > 0
    ensures forall i :: 0 <= i < |s| ==> s[i] <= m
    ensures exists i :: 0 <= i < |s| && s[i] == m
  {
    if |s| == 1 then s[0]
    else
      var m0 := Max(s[..|s| - 1]);
      assert forall i :: 0 <= i < |s| - 1 ==> s[..|s| - 1][i] == s[i];
      if s[|s| - 1] > m0 then s[|s| - 1] else m0
  }

  /** Largest element of a non-empty integer sequence (`IntArray.maxOrNull()`). */
  function MaxInt(s: seq<int>): (m: int)
    requires |s| > 0
    ensures forall i :: 0 <= i < |s| ==> s[i] <= m
    ensures exists i :: 0 <= i < |s| && s[i] == m
  {
    if |s| == 1 then s[0]
    else
      var m0 := MaxInt(s[..|s| - 1]);
      assert forall i :: 0 <= i < |s| - 1 ==> s[..|s| - 1][i] == s[i];
      if s[|s| - 1] > m0 then s[|s| - 1] else m0
  }

  /** `Float.toInt()` on a finite value: rounds toward zero. */
  function Trunc(r: real): (n: int)
    ensures r >= 0.0 ==> 0 <= n && n as real <= r < n as real + 1.0
    ensures r < 0.0 ==> n <= 0 && n as real - 1.0 < r <= n as real
  {
    if r >= 0.0 then r.Floor else -((-r).Floor)
  }

  /** `Int.coerceIn(lo, hi)`. */
  function ClampInt(v: int, lo: int, hi: int): (c: int)
    requires lo <= hi
    ensures lo <= c <= hi
    ensures lo <= v <= hi ==> c == v
    ensures v < lo ==> c == lo
    ensures v > hi ==> c == hi
  {
    if v < lo then lo else if v > hi then hi else v
  }

  /** `Float.coerceIn(lo, hi)`. */
  function ClampReal(v: real, lo: real, hi: real): (c: real)
    requires lo <= hi
    ensures lo <= c <= hi
    ensures lo <= v <= hi ==> c == v
    ensures v < lo ==> c == lo
    ensures v > hi ==> c == hi
  {
    if v < lo then lo else if v > hi then hi else v
  }

  /** The sum of n values each at least lo and at most hi lies between n*lo and n*hi. */
  lemma {:induction false} SumBounds(s: seq<real>, lo: real, hi: real)
    requires forall i :: 0 <= i < |s| ==> lo <= s[i] <= hi
    ensures |s| as real * lo <= Sum(s) <= |s| as real * hi
  {
    if s != [] {
      var p := s[..|s| - 1];
      assert forall i :: 0 <= i < |p| ==> p[i] == s[i];
      SumBounds(p, lo, hi);
      assert |s| as real * lo == |p| as real * lo + lo;
      assert |s| as real * hi == |p| as real * hi + hi;
    }
  }

  /** A sum of non-negative values is non-negative. */
  lemma {:induction false} SumNonNegative(s: seq<real>)
    requires forall i :: 0 <= i < |s| ==> 0.0 <= s[i]
    ensures 0.0 <= Sum(s)
  {
    if s != [] {
      var p := s[..|s| - 1];
      assert forall i :: 0 <= i < |p| ==> p[i] == s[i];
      SumNonNegative(p);
    }
  }

  /** Sum distributes over concatenation. */
  lemma {:induction false} SumAppend(a: seq<real>, b: seq<real>)
    ensures Sum(a + b) == Sum(a) + Sum(b)
  {
    if b == [] {
      assert a + b == a;
    } else {
      assert (a + b)[..|a + b| - 1] == a + b[..|b| - 1];
      SumAppend(a, b[..|b| - 1]);
    }
  }

  /** Incrementing one entry of an integer sequence adds one to its sum. */
  lemma {:induction false} SumIntsIncrement(s: seq<int>, k: nat)
    requires k < |s|
    ensures SumInts(s[k := s[k] + 1]) == SumInts(s) + 1
  {
    var t := s[k := s[k] + 1];
    if k == |s| - 1 {
      assert t[..|t| - 1] == s[..|s| - 1];
    } else {
      assert t[..|t| - 1] == s[..|s| - 1][k := s[k] + 1];
      SumIntsIncrement(s[..|s| - 1], k);
    }
  }

  /** Dividing by a non-zero real and multiplying back is the identity. */
  lemma {:induction false} DivMul(a: real, n: real)
    requires n != 0.0
    ensures a / n * n == a
  {
  }

  /** If n*lo <= a <= n*hi with n positive, then lo <= a/n <= hi. */
  lemma {:induction false} DivBounds(a: real, n: real, lo: real, hi: real)
    requires n > 0.0 && n * lo <= a <= n * hi
    ensures lo <= a / n <= hi
  {
  }

  /** A quotient of a non-negative real by a positive one is non-negative. */
  lemma {:induction false} DivNonNegative(a: real, n: real)
    requires 0.0 <= a && 0.0 < n
    ensures 0.0 <= a / n
  {
  }

  /** The mean of values that all lie in [lo, hi] lies in [lo, hi]. */
  lemma {:induction false} MeanBetween(s: seq<real>, lo: real, hi: real)
    requires |s| > 0
    requires forall i :: 0 <= i < |s| ==> lo <= s[i] <= hi
    ensures lo <= Sum(s) / |s| as real <= hi
  {
    SumBounds(s, lo, hi);
    DivBounds(Sum(s), |s| as real, lo, hi);
  }

  /** u is the linear combination a*v + b*w. */
  predicate Combines(u: real, v: real, w: real, a: real, b: real)
  {
    u == a * v + b * w
  }

  /** Summing u[i] == a*v[i] + b*w[i] over a sequence gives a*Sum(v) + b*Sum(w). */
  lemma {:induction false} SumLinear(u: seq<real>, v: seq<real>, w: seq<real>, a: real, b: real)
    requires |u| == |v| == |w|
    requires forall i :: 0 <= i < |u| ==> Combines(u[i], v[i], w[i], a, b)
    ensures Combines(Sum(u), Sum(v), Sum(w), a, b)
  {
    if u != [] {
      var k := |u| - 1;
      var u0, v0, w0 := u[..k], v[..k], w[..k];
      assert forall i :: 0 <= i < k ==> u0[i] == u[i] && v0[i] == v[i] && w0[i] == w[i];
      SumLinear(u0, v0, w0, a, b);
      assert Sum(u) == Sum(u0) + u[k] && Sum(v) == Sum(v0) + v[k] && Sum(w) == Sum(w0) + w[k];
      LinearStep(Sum(u0), Sum(v0), Sum(w0), u[k], v[k], w[k], a, b);
    } else {
      assert Sum(v) == 0.0 && Sum(w) == 0.0;
    }
  }

  /** One step of SumLinear, on plain reals. */
  lemma {:induction false} LinearStep(su: real, sv: real, sw: real, uk: real, vk: real, wk: real, a: real, b: real)
    requires Combines(su, sv, sw, a, b) && Combines(uk, vk, wk, a, b)
    ensures Combines(su + uk, sv + vk, sw + wk, a, b)
  {
  }

  /** Summing u[i] == a*v[i] + b over a sequence gives a*Sum(v) + |u|*b. */
  lemma {:induction false} SumAffine(u: seq<real>, v: seq<real>, a: real, b: real)
    requires |u| == |v|
    requires forall i :: 0 <= i < |u| ==> u[i] == a * v[i] + b
    ensures Sum(u) == a * Sum(v) + |u| as real * b
  {
    AffineTerms(u, v, a, b);
    SumAffineCombines(u, v, a, b);
    AffineSum(Sum(u), Sum(v), |u| as real, a, b);
  }

  /** Each equation u[i] == a*v[i] + b combines v[i] and 1. */
  lemma {:induction false} AffineTerms(u: seq<real>, v: seq<real>, a: real, b: real)
    requires |u| == |v|
    requires forall i :: 0 <= i < |u| ==> u[i] == a * v[i] + b
    ensures forall i :: 0 <= i < |u| ==> Combines(u[i], v[i], 1.0, a, b)
  {
  }

  /** A combination of sv and n with coefficients a and b, written out. */
  lemma {:induction false} AffineSum(su: real, sv: real, n: real, a: real, b: real)
    requires Combines(su, sv, n, a, b)
    ensures su == a * sv + n * b
  {
  }

  /** SumAffine with each equation kept whole: u[i] combines v[i] and 1. */
  lemma {:induction false} SumAffineCombines(u: seq<real>, v: seq<real>, a: real, b: real)
    requires |u| == |v|
    requires forall i :: 0 <= i < |u| ==> Combines(u[i], v[i], 1.0, a, b)
    ensures Combines(Sum(u), Sum(v), |u| as real, a, b)
  {
    if u != [] {
      var k := |u| - 1;
      var u0, v0 := u[..k], v[..k];
      assert forall i :: 0 <= i < k ==> u0[i] == u[i] && v0[i] == v[i];
      SumAffineCombines(u0, v0, a, b);
      assert Sum(u) == Sum(u0) + u[k] && Sum(v) == Sum(v0) + v[k];
      assert Combines(u[k], v[k], 1.0, a, b);
      LinearStep(Sum(u0), Sum(v0), k as real, u[k], v[k], 1.0, a, b);
    } else {
      assert Sum(v) == 0.0;
    }
  }

  /** Multiplication distributes over addition. */
  lemma {:induction false} Distribute(a: real, x: real, y: real)
    ensures a * (x + y) == a * x + a * y
  {
  }

  /** A quotient num / den equals a when num is a times the non-zero den. */
  lemma {:induction false} QuotientOf(num: real, den: real, a: real)
    requires den != 0.0 && num == a * den
    ensures num / den == a
  {
  }

  /** A fraction in [0, 1] of a non-negative amount lies between 0 and that amount. */
  lemma {:induction false} ScaledFraction(f: real, a: real)
    requires 0.0 <= f <= 1.0 && a >= 0.0
    ensures 0.0 <= f * a <= a
  {
  }
}
