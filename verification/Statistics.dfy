/**
 Statistical helpers (internal/statistics/statistics.go) over the reals: the
 Wilson score interval and the R-7 sample quantile.  The square root is any
 function with the defining property of one.
 */
module Statistics {
  import opened Common
  import Sorting

  // ----- real arithmetic

  lemma SquareOrder(x: real, y: real)
    requires y >= 0.0 && x * x <= y * y
    ensures x <= y
  {
    if x > y { SquareGrows(y, x); }
  }

  lemma SquareGrows(y: real, x: real)
    requires 0.0 <= y < x
    ensures y * y < x * x
  {
    ProductPositive(x - y, x + y);
    assert (x - y) * (x + y) == x * x - y * y;
  }

  lemma SquareNonnegative(x: real)
    ensures x * x >= 0.0
  {
  }

  lemma ProductNonnegative(x: real, y: real)
    requires x >= 0.0 && y >= 0.0
    ensures x * y >= 0.0
  {
  }

  lemma ProductPositive(x: real, y: real)
    requires x > 0.0 && y > 0.0
    ensures x * y > 0.0
  {
  }

  lemma DivideOrder(x: real, y: real, d: real)
    requires d > 0.0
    ensures x / d <= y / d <==> x <= y
  {
    assert x == (x / d) * d && y == (y / d) * d;
    if x / d <= y / d { assert (x / d) * d <= (y / d) * d; }
    if x / d > y / d { assert (x / d) * d > (y / d) * d; }
  }

  // ----- the Wilson score interval

  datatype Interval = Interval(samples: int, estimate: real, lower: real, upper: real)

  type SquareRoot = real -> real

  ghost predicate IsSquareRoot(sqrt: SquareRoot)
  {
    forall x: real :: x >= 0.0 ==> sqrt(x) >= 0.0 && sqrt(x) * sqrt(x) == x
  }

  function Max(x: real, y: real): real { if x >= y then x else y }

  function Min(x: real, y: real): real { if x <= y then x else y }

  predicate ValidSample(successes: int, samples: int, z: real)
  {
    samples > 0 && 0 <= successes <= samples && z > 0.0
  }

  function Center(p: real, n: real, z: real): real
    requires n > 0.0 && 1.0 + z * z / n != 0.0
  {
    (p + z * z / (2.0 * n)) / (1.0 + z * z / n)
  }

  function Margin(p: real, n: real, z: real, sqrt: SquareRoot): real
    requires n > 0.0 && 1.0 + z * z / n != 0.0
  {
    z * sqrt((p * (1.0 - p) + z * z / (4.0 * n)) / n) / (1.0 + z * z / n)
  }

  lemma DenominatorPositive(n: real, z: real)
    requires n > 0.0
    ensures z * z / n >= 0.0 && 1.0 + z * z / n >= 1.0
  {
    SquareNonnegative(z);
    assert z * z / n == z * z * (1.0 / n);
    ProductNonnegative(z * z, 1.0 / n);
  }

  function Wilson(successes: int, samples: int, z: real, sqrt: SquareRoot): Option<Interval>
  {
    if !ValidSample(successes, samples, z) then None
    else
      var n := samples as real;
      var p := successes as real / n;
      DenominatorPositive(n, z);
      var center, margin := Center(p, n, z), Margin(p, n, z, sqrt);
      Some(Interval(samples, p, Max(0.0, center - margin), Min(1.0, center + margin)))
  }

  /**
   The quantities the proofs work with: the weight a = z^2/n and the scaled
   margin m = margin * (1 + a), whose square is a p (1 - p) + a^2 / 4.
   */
  ghost predicate Scaled(p: real, a: real, m: real)
  {
    0.0 <= p <= 1.0 && a > 0.0 && m >= 0.0 && m * m == a * (p * (1.0 - p)) + a * a / 4.0
  }

  function Low(p: real, a: real, m: real): real requires a > 0.0 { (p + a / 2.0 - m) / (1.0 + a) }

  function High(p: real, a: real, m: real): real requires a > 0.0 { (p + a / 2.0 + m) / (1.0 + a) }

  lemma VarianceNonnegative(p: real)
    requires 0.0 <= p <= 1.0
    ensures p * (1.0 - p) >= 0.0
  {
    ProductNonnegative(p, 1.0 - p);
  }

  lemma BelowCenter(p: real, a: real, m: real)
    requires Scaled(p, a, m)
    ensures m <= p + a / 2.0
  {
    var c := p + a / 2.0;
    assert c * c == m * m + p * p + a * (p * p);
    SquareNonnegative(p);
    ProductNonnegative(a, p * p);
    SquareOrder(m, c);
  }

  lemma MirrorScaled(p: real, a: real, m: real)
    requires Scaled(p, a, m)
    ensures Scaled(1.0 - p, a, m)
  {
    var q := 1.0 - p;
    assert q * (1.0 - q) == p * (1.0 - p);
  }

  lemma BeyondEstimate(p: real, a: real, m: real)
    requires Scaled(p, a, m)
    ensures a * p - a / 2.0 <= m
  {
    var d := a * p - a / 2.0;
    var v := p * (1.0 - p);
    VarianceNonnegative(p);
    assert d * d == a * a / 4.0 - a * (a * v) by {
      assert d * d == a * p * (a * p) - a * p * a + a * a / 4.0;
    }
    ProductNonnegative(a, v);
    ProductNonnegative(a, a * v);
    assert m * m == a * v + a * a / 4.0;
    SquareOrder(d, m);
  }

  lemma LowBounds(p: real, a: real, m: real)
    requires Scaled(p, a, m)
    ensures 0.0 <= Low(p, a, m) <= p
  {
    var d := 1.0 + a;
    BelowCenter(p, a, m);
    MirrorScaled(p, a, m);
    BeyondEstimate(1.0 - p, a, m);
    var c, q := p + a / 2.0 - m, 1.0 - p;
    assert a * q == a - a * p;
    assert p * d == p + a * p;
    Fraction(c, p, d);
  }

  lemma Fraction(c: real, p: real, d: real)
    requires d > 0.0 && 0.0 <= c <= p * d
    ensures 0.0 <= c / d <= p
  {
    DivideOrder(0.0, c, d);
    DivideOrder(c, p * d, d);
    assert 0.0 / d == 0.0 && p * d / d == p;
  }

  /** Clamping never acts, and the estimate lies inside. */
  lemma ScaledBounds(p: real, a: real, m: real)
    requires Scaled(p, a, m)
    ensures 0.0 <= Low(p, a, m) <= p <= High(p, a, m) <= 1.0
  {
    hide Low, High;
    LowBounds(p, a, m);
    MirrorScaled(p, a, m);
    LowBounds(1.0 - p, a, m);
    ScaledMirror(p, a, m);
  }

  /** The interval holds exactly the proportions that the score test does not reject. */
  lemma ScaledScore(p: real, a: real, m: real, x: real)
    requires Scaled(p, a, m)
    ensures Low(p, a, m) <= x <= High(p, a, m) <==> (p - x) * (p - x) <= a * (x * (1.0 - x))
  {
    var d := 1.0 + a;
    var c := p + a / 2.0;
    var y := x * d - c;
    var gap := (p - x) * (p - x) - a * (x * (1.0 - x));
    CompletedSquare(p, a, m, x);
    assert y * y - m * m == d * gap;
    assert x == x * d / d;
    DivideOrder(c - m, x * d, d);
    DivideOrder(x * d, c + m, d);
    assert Low(p, a, m) <= x <= High(p, a, m) <==> -m <= y <= m;
    WithinMargin(y, m);
    if gap <= 0.0 { assert d * gap <= 0.0; } else { ProductPositive(d, gap); }
  }

  lemma WithinMargin(y: real, m: real)
    requires m >= 0.0
    ensures -m <= y <= m <==> y * y <= m * m
  {
    if y * y <= m * m {
      SquareOrder(y, m);
      assert (-y) * (-y) == y * y;
      SquareOrder(-y, m);
    }
    if -m <= y <= m {
      ProductNonnegative(m - y, m + y);
      assert (m - y) * (m + y) == m * m - y * y;
    }
  }

  lemma CompletedSquare(p: real, a: real, m: real, x: real)
    requires Scaled(p, a, m)
    ensures var y := x * (1.0 + a) - (p + a / 2.0);
            y * y - m * m == (1.0 + a) * ((p - x) * (p - x) - a * (x * (1.0 - x)))
  {
    var d, c := 1.0 + a, p + a / 2.0;
    var y := x * d - c;
    var xd := x * d;
    assert y * y == xd * xd - 2.0 * (xd * c) + c * c;
    assert c * c - m * m == d * (p * p) by { assert c * c == p * p + a * p + a * a / 4.0; assert m * m == a * p - a * (p * p) + a * a / 4.0; }
    assert xd * xd == d * (d * (x * x));
    assert 2.0 * (xd * c) == d * (2.0 * (x * c));
    var inner := d * (x * x) - 2.0 * (x * c) + p * p;
    assert y * y - m * m == d * inner;
    assert inner == (p - x) * (p - x) - a * (x * (1.0 - x)) by {
      assert d * (x * x) == x * x + a * (x * x);
      assert 2.0 * (x * c) == 2.0 * (x * p) + a * x;
      assert (p - x) * (p - x) == p * p - 2.0 * (x * p) + x * x;
      assert a * (x * (1.0 - x)) == a * x - a * (x * x);
    }
  }

  lemma ScaledMirror(p: real, a: real, m: real)
    requires a > 0.0
    ensures Low(1.0 - p, a, m) == 1.0 - High(p, a, m) && High(1.0 - p, a, m) == 1.0 - Low(p, a, m)
  {
    var d := 1.0 + a;
    assert 1.0 == d / d;
    SplitQuotient(d, p + a / 2.0 + m, d);
    SplitQuotient(d, p + a / 2.0 - m, d);
  }

  // ----- from the formula to the scaled quantities

  lemma Proportion(successes: int, samples: int)
    requires samples > 0 && 0 <= successes <= samples
    ensures 0.0 <= successes as real / samples as real <= 1.0
  {
    var n := samples as real;
    DivideOrder(0.0, successes as real, n);
    DivideOrder(successes as real, n, n);
    assert 0.0 / n == 0.0 && n / n == 1.0;
  }

  lemma WeightPositive(n: real, z: real)
    requires n > 0.0 && z > 0.0
    ensures z * z / n > 0.0
  {
    var zz := SquarePositive(z);
    DivideStrictly(zz, n);
  }

  lemma SquarePositive(z: real) returns (zz: real)
    requires z > 0.0
    ensures zz == z * z && zz > 0.0
  {
    zz := z * z;
    SquareGrows(0.0, z);
  }

  lemma DivideStrictly(x: real, d: real)
    requires x > 0.0 && d > 0.0
    ensures x / d > 0.0
  {
    assert x / d * d == x;
  }

  /** The source's centre and margin, in scaled terms. */
  lemma WilsonScales(p: real, n: real, z: real, sqrt: SquareRoot) returns (a: real, m: real)
    requires IsSquareRoot(sqrt) && 0.0 <= p <= 1.0 && n > 0.0 && z > 0.0
    ensures a == z * z / n && Scaled(p, a, m) && 1.0 + z * z / n > 1.0
    ensures Center(p, n, z) - Margin(p, n, z, sqrt) == Low(p, a, m)
    ensures Center(p, n, z) + Margin(p, n, z, sqrt) == High(p, a, m)
  {
    hide Scaled;
    a := z * z / n;
    WeightPositive(n, z);
    var r := ScaledRoot(p, n, z, a, sqrt);
    m := z * r;
    SplitQuotient(p + a / 2.0, m, 1.0 + a);
  }

  /** The root that the margin takes, and its square once scaled. */
  lemma ScaledRoot(p: real, n: real, z: real, a: real, sqrt: SquareRoot) returns (r: real)
    requires IsSquareRoot(sqrt) && 0.0 <= p <= 1.0 && n > 0.0 && z > 0.0 && a == z * z / n && a > 0.0
    ensures r == sqrt((p * (1.0 - p) + z * z / (4.0 * n)) / n) && Scaled(p, a, z * r)
    ensures z * z / (2.0 * n) == a / 2.0
  {
    var v := p * (1.0 - p);
    VarianceNonnegative(p);
    Quarters(z * z, n, a);
    RadicandNonnegative(v, a, n);
    r := sqrt((v + a / 4.0) / n);
    ProductNonnegative(z, r);
    MarginSquare(z, r, n, v, a);
  }

  lemma Quarters(zz: real, n: real, a: real)
    requires n > 0.0 && a == zz / n
    ensures zz / (2.0 * n) == a / 2.0 && zz / (4.0 * n) == a / 4.0
  {
    assert zz == a * n;
    assert a * n / (2.0 * n) == a / 2.0 && a * n / (4.0 * n) == a / 4.0;
  }

  lemma RadicandNonnegative(v: real, a: real, n: real)
    requires v >= 0.0 && a > 0.0 && n > 0.0
    ensures (v + a / 4.0) / n >= 0.0
  {
    DivideOrder(0.0, v + a / 4.0, n);
    assert 0.0 / n == 0.0;
  }

  lemma MarginSquare(z: real, r: real, n: real, v: real, a: real)
    requires n > 0.0 && a == z * z / n && r * r == (v + a / 4.0) / n
    ensures (z * r) * (z * r) == a * v + a * a / 4.0
  {
    var w := v + a / 4.0;
    assert (z * r) * (z * r) == (z * z) * (r * r);
    assert z * z == a * n;
    assert (a * n) * (w / n) == a * w;
    assert a * w == a * v + a * a / 4.0;
  }

  lemma SplitQuotient(x: real, y: real, d: real)
    requires d > 0.0
    ensures x / d - y / d == (x - y) / d && x / d + y / d == (x + y) / d
  {
    assert x / d - y / d == (x - y) / d;
  }

  /** An interval is given exactly for at least one sample, a possible number of successes and a positive z;
      it is centred on the observed proportion's score interval over all the samples. */
  lemma WilsonIff(successes: int, samples: int, z: real, sqrt: SquareRoot)
    ensures Wilson(successes, samples, z, sqrt).Some? <==> 1 <= samples && 0 <= successes && successes <= samples && 0.0 < z
    ensures Wilson(successes, samples, z, sqrt).Some? ==>
              var i := Wilson(successes, samples, z, sqrt).value;
              i.samples == samples && i.estimate * samples as real == successes as real
  {
    hide Center, Margin;
    if ValidSample(successes, samples, z) { assert successes as real / samples as real * samples as real == successes as real; }
  }

  /** Without any clamp the bounds already satisfy 0 <= lower <= estimate <= upper <= 1. */
  lemma WilsonBounds(successes: int, samples: int, z: real, sqrt: SquareRoot)
    requires IsSquareRoot(sqrt) && ValidSample(successes, samples, z)
    ensures 1.0 + z * z / samples as real != 0.0
    ensures var n := samples as real; var p := successes as real / n;
            var lower, upper := Center(p, n, z) - Margin(p, n, z, sqrt), Center(p, n, z) + Margin(p, n, z, sqrt);
            && 0.0 <= lower <= p <= upper <= 1.0
            && Wilson(successes, samples, z, sqrt) == Some(Interval(samples, p, lower, upper))
  {
    hide Center, Margin, Scaled, Low, High;
    var n := samples as real;
    var p := successes as real / n;
    Proportion(successes, samples);
    var a, m := WilsonScales(p, n, z, sqrt);
    ScaledBounds(p, a, m);
  }

  /** The interval is the score interval: x is inside iff (p - x)^2 <= z^2 x (1 - x) / n. */
  lemma WilsonIsScoreInterval(successes: int, samples: int, z: real, sqrt: SquareRoot, x: real)
    requires IsSquareRoot(sqrt) && ValidSample(successes, samples, z)
    ensures var i := Wilson(successes, samples, z, sqrt).value;
            i.lower <= x <= i.upper <==>
            (i.estimate - x) * (i.estimate - x) <= z * z / samples as real * (x * (1.0 - x))
  {
    hide Center, Margin, Scaled, Low, High;
    var n := samples as real;
    var p := successes as real / n;
    Proportion(successes, samples);
    WilsonBounds(successes, samples, z, sqrt);
    var a, m := WilsonScales(p, n, z, sqrt);
    ScaledScore(p, a, m, x);
  }

  /** Swapping successes with failures mirrors the interval. */
  lemma WilsonMirrors(successes: int, samples: int, z: real, sqrt: SquareRoot)
    requires IsSquareRoot(sqrt) && ValidSample(successes, samples, z)
    ensures var i, j := Wilson(successes, samples, z, sqrt).value, Wilson(samples - successes, samples, z, sqrt).value;
            j.estimate == 1.0 - i.estimate && j.lower == 1.0 - i.upper && j.upper == 1.0 - i.lower
  {
    hide Center, Margin, Scaled, Low, High;
    var n := samples as real;
    var p, q := successes as real / n, (samples - successes) as real / n;
    Complement(successes, samples);
    Proportion(successes, samples);
    WilsonBounds(successes, samples, z, sqrt);
    WilsonBounds(samples - successes, samples, z, sqrt);
    var a, m := WilsonScales(p, n, z, sqrt);
    var b, k := WilsonScales(q, n, z, sqrt);
    SameMargin(p, n, z, sqrt, a, m, k);
    ScaledMirror(p, a, m);
  }

  lemma Complement(successes: int, samples: int)
    requires samples > 0
    ensures (samples - successes) as real / samples as real == 1.0 - successes as real / samples as real
  {
    var n := samples as real;
    assert n / n == 1.0;
    SplitQuotient(n, successes as real, n);
  }

  lemma SameMargin(p: real, n: real, z: real, sqrt: SquareRoot, a: real, m: real, k: real)
    requires Scaled(p, a, m) && Scaled(1.0 - p, a, k)
    ensures m == k
  {
    MirrorScaled(p, a, m);
    SquareOrder(m, k);
    SquareOrder(k, m);
  }

  /** A larger z widens the interval. */
  lemma WilsonNests(successes: int, samples: int, z: real, wider: real, sqrt: SquareRoot)
    requires IsSquareRoot(sqrt) && ValidSample(successes, samples, z) && z <= wider
    ensures var i, j := Wilson(successes, samples, z, sqrt).value, Wilson(successes, samples, wider, sqrt).value;
            j.lower <= i.lower && i.upper <= j.upper
  {
    hide Wilson, Center, Margin;
    WilsonBounds(successes, samples, z, sqrt);
    var i := Wilson(successes, samples, z, sqrt).value;
    Inside(successes, samples, z, wider, sqrt, i.lower);
    Inside(successes, samples, z, wider, sqrt, i.upper);
  }

  lemma Inside(successes: int, samples: int, z: real, wider: real, sqrt: SquareRoot, x: real)
    requires IsSquareRoot(sqrt) && ValidSample(successes, samples, z) && z <= wider
    requires var i := Wilson(successes, samples, z, sqrt).value; i.lower <= x <= i.upper && 0.0 <= x <= 1.0
    ensures var j := Wilson(successes, samples, wider, sqrt).value; j.lower <= x <= j.upper
  {
    hide Wilson;
    WilsonIsScoreInterval(successes, samples, z, sqrt, x);
    WilsonIsScoreInterval(successes, samples, wider, sqrt, x);
    SameEstimate(successes, samples, z, wider, sqrt);
    var n, v := samples as real, x * (1.0 - x);
    VarianceNonnegative(x);
    ProductNonnegative(wider - z, wider + z);
    assert z * z <= wider * wider by { assert (wider - z) * (wider + z) == wider * wider - z * z; }
    DivideOrder(z * z, wider * wider, n);
    ProductNonnegative(wider * wider / n - z * z / n, v);
    assert z * z / n * v <= wider * wider / n * v;
  }

  lemma SameEstimate(successes: int, samples: int, z: real, wider: real, sqrt: SquareRoot)
    requires ValidSample(successes, samples, z) && ValidSample(successes, samples, wider)
    ensures Wilson(successes, samples, z, sqrt).value.estimate == Wilson(successes, samples, wider, sqrt).value.estimate
  {
  }

  // ----- the R-7 quantile

  predicate RealLe(x: real, y: real) { x <= y }

  lemma RealLeOrder()
    ensures Sorting.TotalOrder(RealLe)
  {
  }

  ghost predicate Ascends(s: seq<real>)
  {
    forall i, j :: 0 <= i <= j < |s| ==> s[i] <= s[j]
  }

  /** Linear interpolation between neighbouring order statistics. */
  function Interpolate(s: seq<real>, x: real): real
    requires |s| > 0 && 0.0 <= x <= (|s| - 1) as real
  {
    var i := x.Floor;
    if i as real == x then s[i] else s[i] + (x - i as real) * (s[i + 1] - s[i])
  }

  function Sorted(s: seq<real>): (r: seq<real>)
    ensures multiset(r) == multiset(s) && |r| == |s|
  {
    Sorting.Sort(s, RealLe)
  }

  lemma SortedAscends(s: seq<real>)
    ensures Ascends(Sorted(s))
  {
    RealLeOrder();
    Sorting.SortAscends(s, RealLe);
    var r := Sorted(s);
    forall i, j | 0 <= i <= j < |r| ensures r[i] <= r[j] {
      if i < j { assert RealLe(r[i], r[j]); }
    }
  }

  /** Where a probability falls among n order statistics. */
  function Position(n: nat, p: real): real
  {
    p * (n - 1) as real
  }

  lemma PositionInRange(n: nat, p: real)
    requires n > 0 && 0.0 <= p <= 1.0
    ensures 0.0 <= Position(n, p) <= (n - 1) as real
  {
    var m := (n - 1) as real;
    ProductNonnegative(p, m);
    ProductNonnegative(1.0 - p, m);
    assert (1.0 - p) * m == m - p * m;
  }

  function QuantileOf(s: seq<real>, p: real): real
    requires |s| > 0 && 0.0 <= p <= 1.0
  {
    PositionInRange(|s|, p);
    Interpolate(Sorted(s), Position(|s|, p))
  }

  datatype QuantileError = NoValues | BadProbability

  /** Copies and sorts; the caller's array is not in any modifies clause. */
  method Quantile(values: array<real>, probability: real) returns (r: Result<real, QuantileError>)
    ensures r.Ok? <==> values.Length > 0 && 0.0 <= probability <= 1.0
    ensures r.Ok? ==> r.value == QuantileOf(values[..], probability)
  {
    hide Sorted, Position;
    if values.Length == 0 { return Err(NoValues); }
    if probability < 0.0 || probability > 1.0 { return Err(BadProbability); }
    var sorted := Sorted(values[..]);
    PositionInRange(|sorted|, probability);
    if |sorted| == 1 { return Ok(sorted[0]); }
    var position := Position(|sorted|, probability);
    var lower := position.Floor;
    var upper := if lower as real == position then lower else lower + 1;
    if lower == upper { return Ok(sorted[lower]); }
    var fraction := position - lower as real;
    r := Ok(sorted[lower] + fraction * (sorted[upper] - sorted[lower]));
  }

  /** An interpolated value lies between its neighbours. */
  lemma InterpolateBetween(s: seq<real>, x: real)
    requires Ascends(s) && |s| > 0 && 0.0 <= x <= (|s| - 1) as real
    ensures s[x.Floor] <= Interpolate(s, x)
    ensures x.Floor + 1 < |s| ==> Interpolate(s, x) <= s[x.Floor + 1]
  {
    var i := x.Floor;
    if i as real != x {
      var f, gap := x - i as real, s[i + 1] - s[i];
      assert s[i] <= s[i + 1];
      ProductNonnegative(f, gap);
      ProductNonnegative(1.0 - f, gap);
      assert (1.0 - f) * gap == gap - f * gap;
    }
  }

  lemma InterpolateRises(s: seq<real>, x: real, y: real)
    requires Ascends(s) && |s| > 0 && 0.0 <= x <= y <= (|s| - 1) as real
    ensures Interpolate(s, x) <= Interpolate(s, y)
  {
    var i, j := x.Floor, y.Floor;
    InterpolateBetween(s, x);
    InterpolateBetween(s, y);
    if i == j {
      if i as real != y {
        var gap := s[i + 1] - s[i];
        assert s[i] <= s[i + 1];
        ProductNonnegative(y - x, gap);
        assert (y - x) * gap == (y - i as real) * gap - (x - i as real) * gap;
      }
    } else {
      assert s[i + 1] <= s[j];
    }
  }

  lemma PositionRises(n: nat, p: real, q: real)
    requires n > 0 && p <= q
    ensures Position(n, p) <= Position(n, q)
  {
    var m := (n - 1) as real;
    ProductNonnegative(q - p, m);
    assert (q - p) * m == q * m - p * m;
  }

  /** The quantile rises with the probability. */
  lemma QuantileRises(s: seq<real>, p: real, q: real)
    requires |s| > 0 && 0.0 <= p <= q <= 1.0
    ensures QuantileOf(s, p) <= QuantileOf(s, q)
  {
    hide Sorted, Interpolate, Position;
    SortedAscends(s);
    PositionInRange(|s|, p);
    PositionInRange(|s|, q);
    PositionRises(|s|, p, q);
    InterpolateRises(Sorted(s), Position(|s|, p), Position(|s|, q));
  }

  /** It runs from a least to a greatest value of the sample. */
  lemma QuantileEnds(s: seq<real>)
    requires |s| > 0
    ensures QuantileOf(s, 0.0) in s && forall x :: x in s ==> QuantileOf(s, 0.0) <= x
    ensures QuantileOf(s, 1.0) in s && forall x :: x in s ==> x <= QuantileOf(s, 1.0)
  {
    hide Sorted;
    var r := Sorted(s);
    SortedAscends(s);
    assert Position(|s|, 0.0) == 0.0 && Position(|s|, 1.0) == (|s| - 1) as real;
    assert QuantileOf(s, 0.0) == r[0] && QuantileOf(s, 1.0) == r[|r| - 1];
    assert r[0] in multiset(r) && r[|r| - 1] in multiset(r);
    forall x | x in s ensures r[0] <= x <= r[|r| - 1] {
      assert x in multiset(s) && x in multiset(r);
      var i :| 0 <= i < |r| && r[i] == x;
    }
  }

  /** Every quantile lies between the least and the greatest value. */
  lemma QuantileBetween(s: seq<real>, p: real)
    requires |s| > 0 && 0.0 <= p <= 1.0
    ensures QuantileOf(s, 0.0) <= QuantileOf(s, p) <= QuantileOf(s, 1.0)
  {
    QuantileRises(s, 0.0, p);
    QuantileRises(s, p, 1.0);
  }

  /** The order of the sample does not matter. */
  lemma QuantileIgnoresOrder(s: seq<real>, t: seq<real>, p: real)
    requires |s| > 0 && 0.0 <= p <= 1.0 && multiset(s) == multiset(t)
    ensures |t| == |s| && QuantileOf(s, p) == QuantileOf(t, p)
  {
    hide Position, Interpolate;
    assert |t| == |multiset(t)| == |multiset(s)| == |s|;
    RealLeOrder();
    Sorting.SortIgnoresOrder(s, t, RealLe);
  }

  // ----- what fixes the quantile

  /** How many values lie below x, or at or below it. */
  function Count(s: seq<real>, x: real, inclusive: bool): nat
  {
    if s == [] then 0
    else
      var n := |s| - 1;
      Count(s[..n], x, inclusive) + if s[n] < x || (inclusive && s[n] == x) then 1 else 0
  }

  lemma {:induction false} CountSplit(s: seq<real>, t: seq<real>, x: real, inclusive: bool)
    ensures Count(s + t, x, inclusive) == Count(s, x, inclusive) + Count(t, x, inclusive)
  {
    if t == [] {
      assert s + t == s;
    } else {
      var n := |t| - 1;
      CountSplit(s, t[..n], x, inclusive);
      assert (s + t)[..|s| + n] == s + t[..n] && (s + t)[|s| + n] == t[n];
    }
  }

  lemma {:induction false} CountIgnoresOrder(s: seq<real>, t: seq<real>, x: real, inclusive: bool)
    requires multiset(s) == multiset(t)
    ensures Count(s, x, inclusive) == Count(t, x, inclusive)
  {
    if s == [] {
      assert |t| == |multiset(t)| == 0;
    } else {
      hide Count;
      var n := |s| - 1;
      var i := FindOne(s[n], s, t);
      RemoveOne(s, n);
      RemoveOne(t, i);
      assert s[..n] + s[n + 1..] == s[..n];
      CountIgnoresOrder(s[..n], t[..i] + t[i + 1..], x, inclusive);
      CountWithout(t, i, x, inclusive);
      CountWithout(s, n, x, inclusive);
    }
  }

  lemma FindOne(x: real, s: seq<real>, t: seq<real>) returns (i: nat)
    requires multiset(s) == multiset(t) && x in s
    ensures i < |t| && t[i] == x
  {
    assert x in multiset(t);
    i :| 0 <= i < |t| && t[i] == x;
  }

  lemma RemoveOne(t: seq<real>, i: nat)
    requires i < |t|
    ensures multiset(t[..i] + t[i + 1..]) == multiset(t) - multiset{t[i]}
  {
    assert t == t[..i] + [t[i]] + t[i + 1..];
  }

  lemma CountWithout(t: seq<real>, i: nat, x: real, inclusive: bool)
    requires i < |t|
    ensures Count(t, x, inclusive) ==
            Count(t[..i] + t[i + 1..], x, inclusive) + if t[i] < x || (inclusive && t[i] == x) then 1 else 0
  {
    assert t == t[..i + 1] + t[i + 1..] && t[..i + 1][..i] == t[..i];
    CountSplit(t[..i], t[i + 1..], x, inclusive);
    CountSplit(t[..i + 1], t[i + 1..], x, inclusive);
  }

  lemma {:induction false} CountNone(s: seq<real>, x: real)
    requires forall i :: 0 <= i < |s| ==> s[i] >= x
    ensures Count(s, x, false) == 0
  {
    if s != [] { CountNone(s[..|s| - 1], x); }
  }

  lemma {:induction false} CountAll(s: seq<real>, x: real)
    requires forall i :: 0 <= i < |s| ==> s[i] <= x
    ensures Count(s, x, true) == |s|
  {
    if s != [] { CountAll(s[..|s| - 1], x); }
  }

  lemma {:induction false} CountAtMost(s: seq<real>, x: real, inclusive: bool)
    ensures Count(s, x, inclusive) <= |s|
  {
    if s != [] { CountAtMost(s[..|s| - 1], x, inclusive); }
  }

  /** Element k of an ascending list has at most k values below it and more than k at or below it. */
  lemma RankCounts(r: seq<real>, k: nat)
    requires Ascends(r) && k < |r|
    ensures Count(r, r[k], false) <= k < Count(r, r[k], true)
  {
    var x := r[k];
    assert r == r[..k] + r[k..] && r == r[..k + 1] + r[k + 1..];
    CountSplit(r[..k], r[k..], x, false);
    CountAtMost(r[..k], x, false);
    CountNone(r[k..], x);
    CountSplit(r[..k + 1], r[k + 1..], x, true);
    CountAll(r[..k + 1], x);
  }

  /** At probability k / (n - 1) the quantile is the k-th order statistic: a sample value with at most k
      values below it and more than k at or below it. */
  lemma QuantileAtRank(s: seq<real>, k: nat)
    requires k < |s| && |s| > 1
    ensures 0.0 <= k as real / (|s| - 1) as real <= 1.0
    ensures var x := QuantileOf(s, k as real / (|s| - 1) as real);
            x in s && Count(s, x, false) <= k < Count(s, x, true)
  {
    hide Sorted, Interpolate, Count;
    Proportion(k, |s| - 1);
    var r := Sorted(s);
    QuantileIsSorted(s, k);
    SortedAscends(s);
    RankCounts(r, k);
    CountIgnoresOrder(s, r, r[k], false);
    CountIgnoresOrder(s, r, r[k], true);
    assert r[k] in multiset(r);
  }

  lemma QuantileIsSorted(s: seq<real>, k: nat)
    requires k < |s| && |s| > 1
    ensures 0.0 <= k as real / (|s| - 1) as real <= 1.0
    ensures QuantileOf(s, k as real / (|s| - 1) as real) == Sorted(s)[k]
  {
    hide Sorted;
    var n := (|s| - 1) as real;
    Proportion(k, |s| - 1);
    assert Position(|s|, k as real / n) == k as real;
  }

  /** Between neighbouring ranks the quantile is linear. */
  lemma QuantileIsLinear(s: seq<real>, k: nat, f: real)
    requires k + 1 < |s| && 0.0 <= f <= 1.0
    ensures var n := (|s| - 1) as real;
            && 0.0 <= k as real / n <= 1.0 && 0.0 <= (k as real + f) / n <= 1.0 && 0.0 <= (k + 1) as real / n <= 1.0
            && QuantileOf(s, (k as real + f) / n) ==
               (1.0 - f) * QuantileOf(s, k as real / n) + f * QuantileOf(s, (k + 1) as real / n)
  {
    hide Sorted, Interpolate, Position;
    var n, r := (|s| - 1) as real, Sorted(s);
    QuantileIsSorted(s, k);
    QuantileIsSorted(s, k + 1);
    DivideOrder(k as real, k as real + f, n);
    DivideOrder(k as real + f, (k + 1) as real, n);
    PositionOf(|s|, k as real + f);
    PositionInRange(|s|, (k as real + f) / n);
    InterpolateWeighs(r, k, f);
  }

  lemma PositionOf(n: nat, x: real)
    requires n > 1
    ensures Position(n, x / (n - 1) as real) == x
  {
  }

  lemma Weigh(a: real, b: real, f: real)
    ensures a + f * (b - a) == (1.0 - f) * a + f * b
  {
  }

  lemma InterpolateWeighs(r: seq<real>, k: nat, f: real)
    requires k + 1 < |r| && 0.0 <= f <= 1.0
    ensures Interpolate(r, k as real + f) == (1.0 - f) * r[k] + f * r[k + 1]
  {
    var x := k as real + f;
    Weigh(r[k], r[k + 1], f);
    if f < 1.0 {
      assert x.Floor == k;
      var step := x - k as real;
      assert step == f && step * (r[k + 1] - r[k]) == f * (r[k + 1] - r[k]);
    } else {
      assert x == (k + 1) as real && x.Floor == k + 1;
    }
  }
}
