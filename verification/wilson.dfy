/** The score interval of a proportion. The normal quantile and the square root are given, because
    exact reals compute neither. */
module Wilson {
  import opened Options

  datatype Interval = Interval(lower: real, upper: real)

  function Square(x: real): (r: real)
    ensures r >= 0.0
  {
    x * x
  }

  function Share(successes: nat, trials: nat): real
    requires trials > 0
  {
    successes as real / trials as real
  }

  /** What the interval's square root is taken of. */
  function Radicand(successes: nat, trials: nat, z: real): real
    requires trials > 0
  {
    var n, share := trials as real, Share(successes, trials);
    share * (1.0 - share) / n + Square(z) / n / (4.0 * n)
  }

  predicate RootGiven(successes: nat, trials: nat, z: real, root: real) {
    trials > 0 ==> root >= 0.0 && Square(root) == Radicand(successes, trials, z)
  }

  function Center(n: real, z2: real, share: real): real
    requires n > 0.0 && z2 >= 0.0
  {
    (share + z2 / (2.0 * n)) / (1.0 + z2 / n)
  }

  function Radius(n: real, z2: real, spread: real): real
    requires n > 0.0 && z2 >= 0.0
  {
    spread / (1.0 + z2 / n)
  }

  function Clamped(center: real, radius: real): Interval {
    Interval(
      if center - radius >= 0.0 then center - radius else 0.0,
      if center + radius <= 1.0 then center + radius else 1.0)
  }

  function IntervalOf(successes: nat, trials: nat, z: real, root: real): Interval {
    if trials == 0 then Interval(0.0, 1.0)
    else
      var n := trials as real;
      Clamped(Center(n, Square(z), Share(successes, trials)), Radius(n, Square(z), z * root))
  }

  /** The score test keeps a probability when the observed share is within `z` standard errors of it,
      the standard error being the one that probability has. */
  predicate ScoreKeeps(successes: nat, trials: nat, z: real, p: real) {
    trials == 0 || trials as real * Square(Share(successes, trials) - p) <= Square(z) * (p * (1.0 - p))
  }

  /** Between zero and one, the interval holds exactly the probabilities that the test keeps. */
  ghost predicate InvertsTest(interval: Interval, successes: nat, trials: nat, z: real) {
    && 0.0 <= interval.lower <= interval.upper <= 1.0
    && forall p :: 0.0 <= p <= 1.0 ==>
         (interval.lower <= p <= interval.upper <==> ScoreKeeps(successes, trials, z, p))
  }

  // Arithmetic.

  lemma Product(x: real, y: real)
    ensures x >= 0.0 && y >= 0.0 ==> x * y >= 0.0
    ensures x > 0.0 && y > 0.0 ==> x * y > 0.0
  {
  }

  lemma FactorOrder(d: real, x: real)
    requires d > 0.0
    ensures d * x <= 0.0 <==> x <= 0.0
  {
    Product(d, x);
    Product(d, -x);
  }

  /** A quotient times its denominator, and how it compares to zero and one. */
  lemma Ratio(a: real, n: real)
    requires n > 0.0
    ensures a / n * n == a
    ensures (a >= 0.0 ==> a / n >= 0.0) && (a <= n ==> a / n <= 1.0) && (-n <= a ==> -1.0 <= a / n)
  {
    var q := a / n;
    assert n * (0.0 - q) == 0.0 - a && n * (q - 1.0) == a - n && n * (-1.0 - q) == -n - a;
    FactorOrder(n, 0.0 - q);
    FactorOrder(n, q - 1.0);
    FactorOrder(n, -1.0 - q);
  }

  lemma Greater(a: real, b: real, c: real)
    requires a > b && c > 0.0
    ensures a * c > b * c
  {
  }

  lemma AtLeast(a: real, b: real, c: real)
    requires a >= b && c >= 0.0
    ensures a * c >= b * c
  {
  }

  lemma SquareAbove(x: real, r: real)
    requires x > r >= 0.0
    ensures Square(x) > r * r
  {
    calc {
      Square(x);
    ==
      x * x;
    >  { Greater(x, r, x); }
      r * x;
    >= { AtLeast(x, r, r); }
      r * r;
    }
  }

  lemma SquareUpTo(x: real, r: real)
    requires 0.0 <= x <= r
    ensures Square(x) <= r * r
  {
    calc {
      Square(x);
    ==
      x * x;
    <= { AtLeast(r, x, x); }
      r * x;
    <= { AtLeast(r, x, r); }
      r * r;
    }
  }

  lemma SquareOrder(x: real, r: real)
    requires r >= 0.0
    ensures Square(x) <= r * r <==> -r <= x <= r
  {
    var size := if x >= 0.0 then x else -x;
    assert Square(size) == Square(x);
    hide Square;
    if size > r {
      SquareAbove(size, r);
    } else {
      SquareUpTo(size, r);
    }
  }

  lemma Quotient(x: real, y: real, q: real)
    requires y > 0.0 && q * y == x
    ensures x / y == q
  {
  }

  lemma NotNegative(x: real, y: real)
    requires x >= 0.0 && y > 0.0
    ensures x / y >= 0.0 && x / y * y == x
  {
  }

  /** `w` is the squared quantile over the trials. */
  lemma Halves(n: real, w: real, z2: real)
    requires n > 0.0 && w * n == z2
    ensures z2 / (2.0 * n) == w / 2.0
    ensures w / (4.0 * n) == w / 4.0 / n
  {
    assert w / 4.0 / n * n == w / 4.0;
    Quotient(w, 4.0 * n, w / 4.0 / n);
    Quotient(z2, 2.0 * n, w / 2.0);
  }

  // The duality.

  /** With `w` the squared quantile over the trials, the score test asks whether this is at most zero. */
  function Test(s: real, w: real, p: real): real {
    Square(s - p) - w * (p * (1.0 - p))
  }

  function Spread(s: real, w: real): real {
    w * (s * (1.0 - s) + w / 4.0)
  }

  function Distance(s: real, w: real, p: real): real {
    (1.0 + w) * p - (s + w / 2.0)
  }

  /** Both quadratics vanish at the same two points. */
  lemma Completed(s: real, w: real, p: real)
    requires w >= 0.0
    ensures Square(Distance(s, w, p)) <= Spread(s, w) <==> Test(s, w, p) <= 0.0
  {
    SamePolynomial(s, w, p);
    FactorOrder(1.0 + w, Test(s, w, p));
    hide *;
  }

  lemma SamePolynomial(s: real, w: real, p: real)
    ensures Square(Distance(s, w, p)) - Spread(s, w) == (1.0 + w) * Test(s, w, p)
  {
    var d, c := 1.0 + w, s + w / 2.0;
    var dp, pp, ss, sp := d * p, p * p, s * s, s * p;
    assert Test(s, w, p) == d * pp - 2.0 * (c * p) + ss;
    assert Square(Distance(s, w, p)) == dp * dp - 2.0 * (c * dp) + c * c;
    assert c * c - Spread(s, w) == d * ss;
    Distributed(d, c, p, ss);
  }

  lemma Distributed(d: real, c: real, p: real, ss: real)
    ensures d * (d * (p * p) - 2.0 * (c * p) + ss) == (d * p) * (d * p) - 2.0 * (c * (d * p)) + d * ss
  {
  }

  /** Dividing by the denominator keeps the comparison. */
  lemma Divided(d: real, c: real, r: real, p: real)
    requires d > 0.0
    ensures -r <= d * p - c <= r <==> c / d - r / d <= p <= c / d + r / d
  {
    FactorOrder(d, (c / d - r / d) - p);
    FactorOrder(d, p - (c / d + r / d));
    assert d * ((c / d - r / d) - p) == (c - r) - d * p;
    assert d * (p - (c / d + r / d)) == d * p - (c + r);
  }

  lemma Cleared(n: real, z2: real, s: real, r: real, p: real)
    requires n > 0.0 && z2 >= 0.0
    ensures var w := z2 / n;
      Center(n, z2, s) - Radius(n, z2, r) <= p <= Center(n, z2, s) + Radius(n, z2, r)
      <==> -r <= Distance(s, w, p) <= r
  {
    var w := z2 / n;
    NotNegative(z2, n);
    Halves(n, w, z2);
    Divided(1.0 + w, s + w / 2.0, r, p);
  }

  lemma ClampedHolds(center: real, radius: real, p: real)
    requires 0.0 <= p <= 1.0
    ensures var interval := Clamped(center, radius);
      interval.lower <= p <= interval.upper <==> center - radius <= p <= center + radius
    ensures 0.0 <= Clamped(center, radius).lower && Clamped(center, radius).upper <= 1.0
  {
  }

  lemma RadicandScaled(successes: nat, trials: nat, z: real)
    requires trials > 0
    ensures var n, s, w := trials as real, Share(successes, trials), Square(z) / trials as real;
      w * n == Square(z) && Radicand(successes, trials, z) == s * (1.0 - s) / n + w / 4.0 / n
  {
    var n, s, w := trials as real, Share(successes, trials), Square(z) / trials as real;
    hide Share, Square;
    NotNegative(Square(z), n);
    Halves(n, w, Square(z));
    assert Radicand(successes, trials, z) == s * (1.0 - s) / n + Square(z) / n / (4.0 * n);
    hide Radicand;
  }

  lemma RootSquared(successes: nat, trials: nat, z: real, root: real)
    requires trials > 0 && RootGiven(successes, trials, z, root)
    ensures var s, w := Share(successes, trials), Square(z) / trials as real;
      w >= 0.0 && Square(z * root) == Spread(s, w)
  {
    var n, s, w := trials as real, Share(successes, trials), Square(z) / trials as real;
    RadicandScaled(successes, trials, z);
    Regrouped(z, root);
    hide Share, Square, Radicand, Spread;
    NotNegative(Square(z), n);
    Scaled(n, w, Square(z), Square(root), s);
  }

  lemma Regrouped(z: real, root: real)
    ensures Square(z * root) == Square(z) * Square(root)
  {
  }

  lemma Scaled(n: real, w: real, z2: real, x: real, s: real)
    requires n > 0.0 && w * n == z2 && x == s * (1.0 - s) / n + w / 4.0 / n
    ensures z2 * x == Spread(s, w)
  {
    var q := s * (1.0 - s);
    Summed(n, q, w / 4.0, x);
    assert (w * n) * x == w * (n * x);
  }

  lemma Summed(n: real, q: real, v: real, x: real)
    requires n > 0.0 && x == q / n + v / n
    ensures n * x == q + v
  {
  }

  lemma ScaledTest(n: real, w: real, z2: real, a: real, b: real)
    requires n > 0.0 && w == z2 / n
    ensures n * a <= z2 * b <==> a - w * b <= 0.0
  {
    assert w * n == z2;
    assert n * (a - w * b) == n * a - (w * n) * b;
    FactorOrder(n, a - w * b);
  }

  lemma WithinRoot(successes: nat, trials: nat, z: real, root: real, p: real)
    requires trials > 0 && z > 0.0 && RootGiven(successes, trials, z, root)
    ensures var s, w := Share(successes, trials), Square(z) / trials as real;
      -(z * root) <= Distance(s, w, p) <= z * root <==> Test(s, w, p) <= 0.0
  {
    var s, w, r := Share(successes, trials), Square(z) / trials as real, z * root;
    RootSquared(successes, trials, z, root);
    Product(z, root);
    SquareOrder(Distance(s, w, p), r);
    assert Square(r) == r * r;
    hide Square, Share, Radicand, Distance, Spread, Test;
    Completed(s, w, p);
  }

  lemma TestScaled(successes: nat, trials: nat, z: real, p: real)
    requires trials > 0
    ensures Test(Share(successes, trials), Square(z) / trials as real, p) <= 0.0
      <==> ScoreKeeps(successes, trials, z, p)
  {
    var n, s := trials as real, Share(successes, trials);
    hide Square, Share;
    ScaledTest(n, Square(z) / n, Square(z), Square(s - p), p * (1.0 - p));
  }

  /** The interval inverts the score test: it holds exactly the probabilities that the test keeps. */
  lemma IntervalInvertsTest(successes: nat, trials: nat, z: real, root: real, p: real)
    requires successes <= trials && z > 0.0 && 0.0 <= p <= 1.0 && RootGiven(successes, trials, z, root)
    ensures var interval := IntervalOf(successes, trials, z, root);
      interval.lower <= p <= interval.upper <==> ScoreKeeps(successes, trials, z, p)
  {
    if trials > 0 {
      var n, s := trials as real, Share(successes, trials);
      hide Square, Share, Radicand, RootGiven, Center, Radius, Clamped, ScoreKeeps, Distance, Test;
      WithinRoot(successes, trials, z, root, p);
      TestScaled(successes, trials, z, p);
      Cleared(n, Square(z), s, z * root, p);
      ClampedHolds(Center(n, Square(z), s), Radius(n, Square(z), z * root), p);
    }
  }

  lemma ShareRange(successes: nat, trials: nat)
    requires successes <= trials && trials > 0
    ensures 0.0 <= Share(successes, trials) <= 1.0 && Share(successes, trials) * trials as real == successes as real
  {
    Ratio(successes as real, trials as real);
  }

  lemma TestKeepsShare(successes: nat, trials: nat, z: real)
    requires successes <= trials && trials > 0
    ensures ScoreKeeps(successes, trials, z, Share(successes, trials))
  {
    var s := Share(successes, trials);
    ShareRange(successes, trials);
    assert Square(s - s) == 0.0;
    hide Share, Square;
    Product(s, 1.0 - s);
    Product(Square(z), s * (1.0 - s));
  }

  /** The interval lies between zero and one and holds the observed share. */
  lemma IntervalHoldsShare(successes: nat, trials: nat, z: real, root: real)
    requires successes <= trials && z > 0.0 && trials > 0 && RootGiven(successes, trials, z, root)
    ensures var interval := IntervalOf(successes, trials, z, root);
      0.0 <= interval.lower <= Share(successes, trials) <= interval.upper <= 1.0
  {
    var n, s := trials as real, Share(successes, trials);
    ShareRange(successes, trials);
    IntervalInvertsTest(successes, trials, z, root, s);
    TestKeepsShare(successes, trials, z);
    ClampedHolds(Center(n, Square(z), s), Radius(n, Square(z), z * root), s);
    hide Share, Square, Radicand, RootGiven, Center, Radius, Clamped, ScoreKeeps;
  }

  predicate InputValid(successes: int, trials: int, confidence: real) {
    0 <= successes <= trials && 0.0 < confidence < 1.0
  }

  /** `z` is the normal quantile that the confidence asks for; only its sign matters here. */
  function WilsonInterval(
    successes: int, trials: int, confidence: real, z: real, root: real): (interval: Option<Interval>)
    requires InputValid(successes, trials, confidence) ==> z > 0.0 && RootGiven(successes, trials, z, root)
    ensures interval.Some? <==> InputValid(successes, trials, confidence)
    ensures interval.Some? ==> InvertsTest(interval.value, successes, trials, z)
  {
    if !InputValid(successes, trials, confidence) then None
    else
      ScoreInterval(successes, trials, z, root);
      Some(IntervalOf(successes, trials, z, root))
  }

  lemma ScoreInterval(successes: nat, trials: nat, z: real, root: real)
    requires successes <= trials && z > 0.0 && RootGiven(successes, trials, z, root)
    ensures InvertsTest(IntervalOf(successes, trials, z, root), successes, trials, z)
  {
    forall p | 0.0 <= p <= 1.0 {
      IntervalInvertsTest(successes, trials, z, root, p);
    }
    if trials > 0 {
      IntervalHoldsShare(successes, trials, z, root);
    }
    hide Share, Square, Radicand, RootGiven, Clamped, Center, Radius, ScoreKeeps;
  }
}
