/** Small-sample statistics: app/learning/stats.py, in exact reals. The square root is a parameter: any
    non-negative `root` whose square is the radicand. */
module Stats {
  import opened Base

  // -------------------------------------------------------------- the Wilson interval

  function Rate(positives: int, n: int): real
    requires 0 < n
  {
    positives as real / n as real
  }

  /** `zz` is z squared throughout. */
  function Radicand(p: real, n: real, zz: real): real
    requires 0.0 < n
  {
    p * (1.0 - p) / n + zz / (4.0 * n * n)
  }

  predicate IsRoot(root: real, x: real) {
    0.0 <= root && root * root == x
  }

  function MaxR(a: real, b: real): real { if a < b then b else a }
  function MinR(a: real, b: real): real { if b < a then b else a }

  datatype Interval = Interval(low: real, high: real)

  predicate Covers(i: Interval, r: real) {
    i.low <= r <= i.high
  }

  function Widening(n: real, zz: real): real
    requires 0.0 < n
  {
    1.0 + zz / n
  }

  function Centre(p: real, n: real, zz: real): real
    requires 0.0 < n && 0.0 <= zz
  {
    WideningPositive(n, zz);
    (p + zz / (2.0 * n)) / Widening(n, zz)
  }

  function Half(n: real, z: real, zz: real, root: real): real
    requires 0.0 < n && 0.0 <= zz
  {
    WideningPositive(n, zz);
    z * root / Widening(n, zz)
  }

  /** `wilson_interval`. */
  function Wilson(positives: int, n: int, z: real, root: real): Interval {
    if n <= 0 then Interval(0.0, 1.0)
    else
      var p := Rate(positives, n);
      var zz := z * z;
      Squared(z, zz);
      Interval(
        MaxR(0.0, Centre(p, n as real, zz) - Half(n as real, z, zz, root)),
        MinR(1.0, Centre(p, n as real, zz) + Half(n as real, z, zz, root)))
  }

  /** The score test accepts rate `r` for the observed proportion `p`. */
  predicate Accepts(p: real, n: real, zz: real, r: real) {
    n * ((p - r) * (p - r)) <= zz * (r * (1.0 - r))
  }

  // ------------------------------------------------------------------- algebra

  lemma ProductIs(x: real, y: real, xy: real)
    requires xy == x * y && 0.0 < x && 0.0 < y
    ensures 0.0 < xy
  {
  }

  lemma Squared(x: real, xx: real)
    requires xx == x * x
    ensures 0.0 <= xx && (x != 0.0 ==> 0.0 < xx)
  {
    if 0.0 < x {
      ProductIs(x, x, xx);
    } else if x < 0.0 {
      ProductIs(-x, -x, xx);
    }
  }

  lemma ProductPositive(x: real, y: real)
    requires 0.0 < x && 0.0 < y
    ensures 0.0 < x * y
  {
  }

  lemma ProductNonNegative(x: real, y: real)
    requires 0.0 <= x && 0.0 <= y
    ensures 0.0 <= x * y
  {
  }

  lemma Distribute(w: real, x: real, y: real)
    ensures w * (x - y) == w * x - w * y && w * (x + y) == w * x + w * y
  {
  }

  lemma OrderScaled(w: real, x: real, y: real)
    requires 0.0 < w
    ensures x <= y <==> w * x <= w * y
  {
    Distribute(w, y, x);
    Distribute(w, x, y);
    if x <= y {
      ProductNonNegative(w, y - x);
    } else {
      ProductPositive(w, x - y);
    }
  }

  lemma Cancel(w: real, x: real, y: real)
    requires 0.0 < w && w * x == w * y
    ensures x == y
  {
    OrderScaled(w, x, y);
    OrderScaled(w, y, x);
  }

  lemma Quotient(x: real, y: real, q: real)
    requires 0.0 < y && y * q == x
    ensures x / y == q
  {
    assert y * (x / y) == x;
    Cancel(y, x / y, q);
  }

  lemma SquareLess(x: real, y: real)
    requires 0.0 <= x < y
    ensures x * x < y * y
  {
    ProductPositive(y - x, y + x);
    assert (y - x) * (y + x) == y * y - x * x;
  }

  /** |u| <= b, said with squares. */
  lemma SquareBound(u: real, b: real)
    requires 0.0 <= b
    ensures u * u <= b * b <==> -b <= u <= b
  {
    var v := if u < 0.0 then -u else u;
    assert v * v == u * u;
    if b < v {
      SquareLess(b, v);
    } else if v < b {
      SquareLess(v, b);
    }
  }

  lemma WideningPositive(n: real, zz: real)
    requires 0.0 < n && 0.0 <= zz
    ensures 0.0 < Widening(n, zz) && n * Widening(n, zz) == n + zz
  {
    var q := zz / n;
    assert n * q == zz;
    OrderScaled(n, 0.0, q);
  }

  lemma CentreScaled(p: real, n: real, zz: real)
    requires 0.0 < n && 0.0 <= zz
    ensures (n + zz) * Centre(p, n, zz) == n * p + zz / 2.0
  {
    WideningPositive(n, zz);
    var d := Widening(n, zz);
    var y := p + zz / (2.0 * n);
    assert d * (y / d) == y;
    assert (n + zz) * Centre(p, n, zz) == n * (d * (y / d));
    assert n * (zz / (2.0 * n)) == zz / 2.0;
  }

  lemma HalfScaled(n: real, z: real, zz: real, root: real)
    requires 0.0 < n && 0.0 <= zz
    ensures (n + zz) * Half(n, z, zz, root) == n * (z * root)
  {
    WideningPositive(n, zz);
    var d := Widening(n, zz);
    var y := z * root;
    assert d * (y / d) == y;
    assert (n + zz) * Half(n, z, zz, root) == n * (d * (y / d));
  }

  lemma RadicandScaled(q: real, n: real, nn: real, zz: real)
    requires 0.0 < n && nn == n * n && 0.0 < nn
    ensures nn * (q / n + zz / (4.0 * nn)) == n * q + zz / 4.0
  {
    var m := 4.0 * nn;
    assert n * (q / n) == q;
    assert nn * (q / n) == n * (n * (q / n));
    assert m * (zz / m) == zz;
    Distribute(nn, q / n, zz / m);
  }

  lemma RootScaled(p: real, n: real, z: real, zz: real, root: real, b: real)
    requires 0.0 < n && zz == z * z && IsRoot(root, Radicand(p, n, zz)) && b == n * (z * root)
    ensures b * b == zz * (n * (p * (1.0 - p)) + zz / 4.0)
  {
    var nn := n * n;
    Squared(n, nn);
    assert 4.0 * n * n == 4.0 * nn;
    RadicandScaled(p * (1.0 - p), n, nn, zz);
    var rr := root * root;
    assert b * b == zz * (nn * rr);
  }

  /** Completing the square; `zz` stands for z^2. */
  lemma CompletedSquare(p: real, n: real, zz: real, r: real, w: real, a: real)
    requires w == n + zz && a == n * p + zz / 2.0
    ensures w * (n * ((p - r) * (p - r)) - zz * (r * (1.0 - r)))
      == (w * r - a) * (w * r - a) - zz * (n * (p * (1.0 - p)) + zz / 4.0)
  {
    assert n * ((p - r) * (p - r)) - zz * (r * (1.0 - r)) == w * (r * r) - 2.0 * (a * r) + n * (p * p) by {
      assert (p - r) * (p - r) == p * p - 2.0 * (p * r) + r * r;
      assert a * r == n * (p * r) + zz * r / 2.0;
    }
    assert a * a - w * (n * (p * p)) == zz * (n * (p * (1.0 - p)) + zz / 4.0) by {
      assert a * a == n * p * (n * p) + zz * (n * p) + zz * zz / 4.0;
      assert w * (n * (p * p)) == n * p * (n * p) + zz * (n * p) * p;
      assert zz * (n * (p * (1.0 - p))) == zz * (n * p) - zz * (n * p) * p;
    }
    assert (w * r - a) * (w * r - a) == w * (w * (r * r)) - 2.0 * (w * (a * r)) + a * a;
  }

  lemma SignOfExcess(w: real, excess: real, u: real, b: real)
    requires 0.0 < w && 0.0 <= b && w * excess == u * u - b * b
    ensures excess <= 0.0 <==> -b <= u <= b
  {
    OrderScaled(w, excess, 0.0);
    SquareBound(u, b);
  }

  lemma AcceptanceScaled(p: real, n: real, zz: real, r: real, w: real, a: real, b: real)
    requires 0.0 < w && w == n + zz && a == n * p + zz / 2.0
    requires 0.0 <= b && b * b == zz * (n * (p * (1.0 - p)) + zz / 4.0)
    ensures Accepts(p, n, zz, r) <==> a - b <= w * r <= a + b
  {
    var excess, u := n * ((p - r) * (p - r)) - zz * (r * (1.0 - r)), w * r - a;
    CompletedSquare(p, n, zz, r, w, a);
    SignOfExcess(w, excess, u, b);
  }

  lemma Sandwich(w: real, centre: real, half: real, a: real, b: real, r: real)
    requires 0.0 < w && w * centre == a && w * half == b
    ensures a - b <= w * r <= a + b <==> centre - half <= r <= centre + half
  {
    Distribute(w, centre, half);
    OrderScaled(w, centre - half, r);
    OrderScaled(w, r, centre + half);
  }

  /** Before clamping, the closed form is exactly the set the score test accepts. */
  lemma UnclampedIsAcceptance(p: real, n: real, z: real, zz: real, root: real, r: real)
    requires 0.0 < n && 0.0 <= z && zz == z * z && 0.0 <= zz && IsRoot(root, Radicand(p, n, zz))
    ensures Accepts(p, n, zz, r) <==>
      Centre(p, n, zz) - Half(n, z, zz, root) <= r <= Centre(p, n, zz) + Half(n, z, zz, root)
  {
    var w, a, b := n + zz, n * p + zz / 2.0, n * (z * root);
    RootScaled(p, n, z, zz, root, b);
    ProductNonNegative(z, root);
    ProductNonNegative(n, z * root);
    AcceptanceScaled(p, n, zz, r, w, a, b);
    CentreScaled(p, n, zz);
    HalfScaled(n, z, zz, root);
    Sandwich(w, Centre(p, n, zz), Half(n, z, zz, root), a, b, r);
  }

  lemma OnlyRatesSpread(r: real, spread: real)
    requires spread == r * (1.0 - r) && 0.0 <= spread
    ensures 0.0 <= r <= 1.0
  {
    var s := 1.0 - r;
    assert spread == r * s;
  }

  lemma AcceptedIsRate(p: real, n: real, z: real, zz: real, r: real)
    requires 0.0 < n && 0.0 <= p <= 1.0 && zz == z * z && Accepts(p, n, zz, r)
    ensures 0.0 <= r <= 1.0
  {
    var gap := (p - r) * (p - r);
    var spread := r * (1.0 - r);
    Squared(p - r, gap);
    Squared(z, zz);
    ProductNonNegative(n, gap);
    if zz == 0.0 {
      OrderScaled(n, gap, 0.0);
    } else {
      OrderScaled(zz, 0.0, spread);
      OnlyRatesSpread(r, spread);
    }
  }

  lemma RateBounds(positives: int, n: int)
    requires 0 <= positives <= n && 0 < n
    ensures 0.0 <= Rate(positives, n) <= 1.0
    ensures Rate(n - positives, n) == 1.0 - Rate(positives, n)
  {
    var x, y := positives as real, n as real;
    assert y * (x / y) == x;
    OrderScaled(y, 0.0, x / y);
    OrderScaled(y, x / y, 1.0);
    assert (n - positives) as real == y - x;
    Distribute(y, 1.0, x / y);
    Quotient(y - x, y, 1.0 - x / y);
  }

  // ---------------------------------------------------------------- theorems

  lemma ScoreTest(p: real, n: real, z: real, zz: real, root: real)
    requires 0.0 < n && 0.0 <= p <= 1.0 && 0.0 <= z && zz == z * z && 0.0 <= zz && IsRoot(root, Radicand(p, n, zz))
    ensures var i := Interval(Centre(p, n, zz) - Half(n, z, zz, root), Centre(p, n, zz) + Half(n, z, zz, root));
      && 0.0 <= i.low <= p <= i.high <= 1.0
      && (forall r: real :: Covers(i, r) <==> 0.0 <= r <= 1.0 && Accepts(p, n, zz, r))
  {
    var i := Interval(Centre(p, n, zz) - Half(n, z, zz, root), Centre(p, n, zz) + Half(n, z, zz, root));
    ProductNonNegative(p, 1.0 - p);
    ProductNonNegative(zz, p * (1.0 - p));
    assert Accepts(p, n, zz, p);
    UnclampedIsAcceptance(p, n, z, zz, root, p);
    UnclampedIsAcceptance(p, n, z, zz, root, i.low);
    UnclampedIsAcceptance(p, n, z, zz, root, i.high);
    AcceptedIsRate(p, n, z, zz, i.low);
    AcceptedIsRate(p, n, z, zz, i.high);
    forall r: real ensures Covers(i, r) <==> 0.0 <= r <= 1.0 && Accepts(p, n, zz, r) {
      UnclampedIsAcceptance(p, n, z, zz, root, r);
    }
  }

  /** The Wilson interval is exactly the set of rates the score test accepts, the observed rate is one of
      them, and neither clamp changes anything. */
  lemma WilsonIsScoreTest(positives: int, n: int, z: real, zz: real, root: real)
    requires 0 <= positives <= n && 0 < n && 0.0 <= z && zz == z * z && 0.0 <= zz
    requires IsRoot(root, Radicand(Rate(positives, n), n as real, zz))
    ensures var p, i := Rate(positives, n), Wilson(positives, n, z, root);
      && (forall r: real :: Covers(i, r) <==> 0.0 <= r <= 1.0 && Accepts(p, n as real, zz, r))
      && Covers(i, p)
      && i == Interval(Centre(p, n as real, zz) - Half(n as real, z, zz, root),
                       Centre(p, n as real, zz) + Half(n as real, z, zz, root))
  {
    RateBounds(positives, n);
    ScoreTest(Rate(positives, n), n as real, z, zz, root);
  }

  /** Swapping successes and failures reflects the interval about one half. */
  lemma WilsonReflects(positives: int, n: int, z: real, zz: real, root: real)
    requires 0 <= positives <= n && 0 < n && 0.0 <= z && zz == z * z && 0.0 <= zz
    requires IsRoot(root, Radicand(Rate(positives, n), n as real, zz))
    ensures var i := Wilson(positives, n, z, root);
      Wilson(n - positives, n, z, root) == Interval(1.0 - i.high, 1.0 - i.low)
  {
    var p := Rate(positives, n);
    RateBounds(positives, n);
    assert (1.0 - p) * (1.0 - (1.0 - p)) == p * (1.0 - p);
    WilsonIsScoreTest(positives, n, z, zz, root);
    WilsonIsScoreTest(n - positives, n, z, zz, root);
    CentreReflects(p, n as real, zz);
  }

  lemma CentreReflects(p: real, n: real, zz: real)
    requires 0.0 < n && 0.0 <= zz
    ensures Centre(1.0 - p, n, zz) == 1.0 - Centre(p, n, zz)
  {
    CentreScaled(p, n, zz);
    CentreScaled(1.0 - p, n, zz);
    Distribute(n, 1.0, p);
    Reflected(n + zz, Centre(p, n, zz), Centre(1.0 - p, n, zz), n * p + zz / 2.0);
  }

  lemma Reflected(w: real, x: real, y: real, a: real)
    requires 0.0 < w && w * x == a && w * y == w - a
    ensures y == 1.0 - x
  {
    Distribute(w, 1.0, x);
    Cancel(w, y, 1.0 - x);
  }

  /** Asking for more confidence never loses a rate. */
  lemma WilsonWidens(positives: int, n: int, z: real, zz: real, root: real, z': real, zz': real, root': real)
    requires 0 <= positives <= n && 0 < n && 0.0 <= z <= z' && zz == z * z && zz' == z' * z' && 0.0 <= zz <= zz'
    requires IsRoot(root, Radicand(Rate(positives, n), n as real, zz))
    requires IsRoot(root', Radicand(Rate(positives, n), n as real, zz'))
    ensures Wilson(positives, n, z', root').low <= Wilson(positives, n, z, root).low
    ensures Wilson(positives, n, z, root).high <= Wilson(positives, n, z', root').high
  {
    WilsonIsScoreTest(positives, n, z, zz, root);
    WilsonIsScoreTest(positives, n, z', zz', root');
    Nested(Wilson(positives, n, z, root), Wilson(positives, n, z', root'), Rate(positives, n), n as real, zz, zz');
  }

  lemma Nested(i: Interval, i': Interval, p: real, n: real, zz: real, zz': real)
    requires 0.0 <= zz <= zz' && i.low <= i.high
    requires forall r: real :: Covers(i, r) <==> 0.0 <= r <= 1.0 && Accepts(p, n, zz, r)
    requires forall r: real :: Covers(i', r) <==> 0.0 <= r <= 1.0 && Accepts(p, n, zz', r)
    ensures i'.low <= i.low && i.high <= i'.high
  {
    assert Covers(i, i.low) && Covers(i, i.high);
    StillAccepted(p, n, zz, zz', i.low);
    StillAccepted(p, n, zz, zz', i.high);
    assert Covers(i', i.low) && Covers(i', i.high);
  }

  lemma StillAccepted(p: real, n: real, zz: real, zz': real, r: real)
    requires zz <= zz' && 0.0 <= r <= 1.0 && Accepts(p, n, zz, r)
    ensures Accepts(p, n, zz', r)
  {
    var v := r * (1.0 - r);
    ProductNonNegative(r, 1.0 - r);
    ProductNonNegative(zz' - zz, v);
    Distribute(v, zz', zz);
  }

  /** A negative z is not refused: it returns the two bounds in the wrong order. */
  lemma NegativeZSwaps(positives: int, n: int, z: real, zz: real, root: real)
    requires 0 <= positives <= n && 0 < n && z < 0.0 && zz == z * z && 0.0 <= zz
    requires IsRoot(root, Radicand(Rate(positives, n), n as real, zz))
    ensures var i := Wilson(positives, n, -z, root);
      Wilson(positives, n, z, root) == Interval(i.high, i.low)
  {
    assert zz == (-z) * (-z);
    WilsonIsScoreTest(positives, n, -z, zz, root);
    HalfNegates(n as real, z, zz, root);
    RateBounds(positives, n);
    ScoreTest(Rate(positives, n), n as real, -z, zz, root);
  }

  lemma HalfNegates(n: real, z: real, zz: real, root: real)
    requires 0.0 < n && 0.0 <= zz
    ensures Half(n, -z, zz, root) == -Half(n, z, zz, root)
  {
    WideningPositive(n, zz);
    var d, y := Widening(n, zz), z * root;
    assert (-z) * root == -y;
    assert d * (y / d) == y;
    assert d * (-(y / d)) == -y;
    Quotient(-y, d, -(y / d));
  }

  // --------------------------------------------------------------- shrinkage

  datatype Smoothed = Smoothed(rate: real) | OutOfRange

  function Clamp(x: real): real {
    MinR(1.0, MaxR(0.0, x))
  }

  /** `smoothed_rate`. */
  function SmoothedRate(positives: int, n: int, prior: real, strength: real): Smoothed {
    if n < 0 || positives < 0 || positives > n then OutOfRange
    else if n as real + strength <= 0.0 then Smoothed(Clamp(prior))
    else Smoothed((positives as real + Clamp(prior) * strength) / (n as real + strength))
  }

  predicate Between(a: real, x: real, b: real) {
    a <= x <= b || b <= x <= a
  }

  /** The smoothed rate, relative to the raw one. */
  lemma SmoothedOffset(positives: int, n: int, prior: real, strength: real)
    requires 0 <= positives <= n && 0 < n && 0.0 < n as real + strength
    ensures (n as real + strength) * (SmoothedRate(positives, n, prior, strength).rate - Rate(positives, n))
      == strength * (Clamp(prior) - Rate(positives, n))
  {
    var d := n as real + strength;
    var y := positives as real + Clamp(prior) * strength;
    assert d * (y / d) == y;
    assert n as real * Rate(positives, n) == positives as real;
    assert d * Rate(positives, n) == positives as real + strength * Rate(positives, n);
  }

  /** The smoothed rate lies between the raw rate and the clamped baseline exactly when the strength
      is not negative, or the two coincide, or the prior outweighs the sample and is returned itself. */
  lemma SmoothedBetween(positives: int, n: int, prior: real, strength: real)
    requires 0 <= positives <= n && 0 < n
    ensures var p, b := Rate(positives, n), Clamp(prior);
      Between(p, SmoothedRate(positives, n, prior, strength).rate, b) <==>
      (0.0 <= strength || p == b || n as real + strength <= 0.0)
  {
    var d := n as real + strength;
    if 0.0 < d {
      var p := Rate(positives, n);
      SmoothedOffset(positives, n, prior, strength);
      Weighted(n as real, strength, p, SmoothedRate(positives, n, prior, strength).rate, Clamp(prior));
    }
  }

  lemma Weighted(n: real, k: real, p: real, s: real, b: real)
    requires 0.0 < n && 0.0 < n + k && (n + k) * (s - p) == k * (b - p)
    ensures Between(p, s, b) <==> 0.0 <= k || p == b
  {
    var d := n + k;
    Distribute(d, b - p, s - p);
    assert d * (b - p) == n * (b - p) + k * (b - p);
    assert d * (b - s) == n * (b - p) by { assert b - s == (b - p) - (s - p); }
    OrderScaled(d, 0.0, s - p);
    OrderScaled(d, s - p, 0.0);
    OrderScaled(d, 0.0, b - s);
    OrderScaled(d, b - s, 0.0);
    SignOf(k, b - p);
    SignOf(n, b - p);
  }

  lemma SignOf(k: real, x: real)
    ensures 0.0 <= k && 0.0 <= x ==> 0.0 <= k * x
    ensures 0.0 <= k && x <= 0.0 ==> k * x <= 0.0
    ensures k < 0.0 && 0.0 < x ==> k * x < 0.0
    ensures k < 0.0 && x < 0.0 ==> 0.0 < k * x
  {
  }

  /** An empty group is the baseline. */
  lemma SmoothedOfNothing(prior: real, strength: real)
    ensures SmoothedRate(0, 0, prior, strength) == Smoothed(Clamp(prior))
  {
    if 0.0 < strength {
      var b := Clamp(prior);
      assert 0 as real + strength == strength && 0 as real + b * strength == b * strength;
      assert strength * (b * strength / strength) == b * strength;
      OrderScaled(strength, b, b * strength / strength);
      OrderScaled(strength, b * strength / strength, b);
    }
  }

  function AbsR(x: real): real { if x < 0.0 then -x else x }

  /** More data at the same rate is pulled less towards the baseline. */
  lemma MoreDataIsPulledLess(positives: int, n: int, times: int, prior: real, strength: real)
    requires 0 <= positives <= n && 0 < n && 1 <= times && 0.0 <= strength
    ensures 0 <= times * positives <= times * n
    ensures Rate(times * positives, times * n) == Rate(positives, n)
    ensures AbsR(SmoothedRate(times * positives, times * n, prior, strength).rate - Rate(positives, n))
      <= AbsR(SmoothedRate(positives, n, prior, strength).rate - Rate(positives, n))
  {
    SameRate(positives, n, times);
    SmoothedOffset(positives, n, prior, strength);
    SmoothedOffset(times * positives, times * n, prior, strength);
    SmallerQuotient(n as real + strength, (times * n) as real + strength,
      SmoothedRate(positives, n, prior, strength).rate - Rate(positives, n),
      SmoothedRate(times * positives, times * n, prior, strength).rate - Rate(positives, n));
  }

  lemma SameRate(positives: int, n: int, times: int)
    requires 0 <= positives <= n && 0 < n && 1 <= times
    ensures n <= times * n && 0 <= times * positives <= times * n
    ensures Rate(times * positives, times * n) == Rate(positives, n)
  {
    assert 0 <= times * (n - positives) && 0 <= (times - 1) * n;
    var x, y, t := positives as real, n as real, times as real;
    assert (times * positives) as real == t * x && (times * n) as real == t * y;
    assert y * (x / y) == x;
    ProductPositive(t, y);
    assert (t * y) * (x / y) == t * (y * (x / y));
    Quotient(t * x, t * y, x / y);
  }

  lemma SmallerQuotient(d: real, d': real, u: real, u': real)
    requires 0.0 < d <= d' && d * u == d' * u'
    ensures AbsR(u') <= AbsR(u)
  {
    if 0.0 <= u' {
      SmallerPositive(d, d', u, u');
    } else {
      assert d * (-u) == -(d * u) && d' * (-u') == -(d' * u');
      SmallerPositive(d, d', -u, -u');
    }
  }

  lemma SmallerPositive(d: real, d': real, u: real, u': real)
    requires 0.0 < d <= d' && 0.0 <= u' && d * u == d' * u'
    ensures u' <= u
  {
    ProductNonNegative(d' - d, u');
    Distribute(u', d', d);
    OrderScaled(d, u', u);
  }
}
