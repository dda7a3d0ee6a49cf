/** The binomial distribution over exact reals. */
module Binomial {
  function Choose(n: nat, k: int): nat {
    if k < 0 then 0
    else if k == 0 then 1
    else if n == 0 then 0
    else Choose(n - 1, k - 1) + Choose(n - 1, k)
  }

  function Pow(x: real, n: nat): real {
    if n == 0 then 1.0 else x * Pow(x, n - 1)
  }

  /** The expectation over one trial that succeeds with chance `p`. */
  function Blend(p: real, failed: real, succeeded: real): real {
    (1.0 - p) * failed + p * succeeded
  }

  /** The chance of at most `k` successes in `n` independent trials, one trial at a time. */
  function Cdf(k: int, n: nat, p: real): real
    decreases n
  {
    if n == 0 then (if k >= 0 then 1.0 else 0.0)
    else Blend(p, Cdf(k, n - 1, p), Cdf(k - 1, n - 1, p))
  }

  // Algebra of one trial.

  lemma BlendSum(p: real, a: real, b: real, x: real, y: real)
    ensures Blend(p, a + b, x + y) == Blend(p, a, x) + Blend(p, b, y)
  {
  }

  lemma BlendSame(p: real, x: real)
    ensures Blend(p, x, x) == x && Blend(0.0, x, p) == x && Blend(1.0, p, x) == x
  {
  }

  lemma BlendPositive(p: real, x: real, y: real)
    requires 0.0 <= p <= 1.0 && x >= 0.0 && y >= 0.0
    ensures Blend(p, x, y) >= 0.0
    ensures 0.0 < p < 1.0 && (x > 0.0 || y > 0.0) ==> Blend(p, x, y) > 0.0
  {
    Product(1.0 - p, x);
    Product(p, y);
  }

  lemma Product(x: real, y: real)
    requires x >= 0.0 && y >= 0.0
    ensures x * y >= 0.0
    ensures x > 0.0 && y > 0.0 ==> x * y > 0.0
  {
  }

  lemma BlendGrows(p: real, a: real, b: real, x: real, y: real)
    requires 0.0 <= p <= 1.0 && a >= b && x >= y
    ensures Blend(p, a, x) >= Blend(p, b, y)
    ensures 0.0 < p < 1.0 && (a > b || x > y) ==> Blend(p, a, x) > Blend(p, b, y)
  {
    BlendPositive(p, a - b, x - y);
    BlendSum(p, b, a - b, y, x - y);
    hide Blend;
  }

  lemma BlendFalls(p: real, r: real, x: real, y: real)
    requires p <= r && x >= y
    ensures Blend(p, x, y) >= Blend(r, x, y)
    ensures p < r && x > y ==> Blend(p, x, y) > Blend(r, x, y)
  {
    BlendDifference(p, r, x, y, r - p, x - y);
    hide Blend;
    Product(r - p, x - y);
  }

  lemma BlendDifference(p: real, r: real, x: real, y: real, a: real, b: real)
    requires a == r - p && b == x - y
    ensures Blend(p, x, y) == Blend(r, x, y) + a * b
  {
    assert a * b == a * x - a * y;
  }

  // The sum of point probabilities is the same function.

  function Weight(ways: real, x: real, y: real): real {
    ways * x * y
  }

  function Term(v: int, n: nat, p: real): real {
    if v < 0 || v > n then 0.0 else Weight(Choose(n, v) as real, Pow(p, v), Pow(1.0 - p, n - v))
  }

  function SumTerms(k: int, n: nat, p: real): real
    decreases k + 1
  {
    if k < 0 then 0.0 else SumTerms(k - 1, n, p) + Term(k, n, p)
  }

  lemma {:induction false} ChooseAbove(n: nat, k: int)
    ensures k > n ==> Choose(n, k) == 0
    ensures 0 <= k <= n ==> Choose(n, k) >= 1
    ensures k == n ==> Choose(n, k) == 1
    decreases n
  {
    if n > 0 && k > 0 {
      ChooseAbove(n - 1, k - 1);
      ChooseAbove(n - 1, k);
    }
  }

  lemma Factor(a: real, b: real, p: real, x: real, y: real, px: real, qy: real)
    requires px == p * x && qy == (1.0 - p) * y
    ensures Weight(a + b, px, qy) == Blend(p, Weight(b, px, y), Weight(a, x, qy))
  {
    var q := 1.0 - p;
    assert (a + b) * px * qy == a * px * qy + b * px * qy;
    assert b * px * qy == b * px * (q * y) == q * (b * px * y);
    assert a * px * qy == a * (p * x) * qy == p * (a * x * qy);
  }

  lemma FirstTerm(n: nat, p: real)
    requires n > 0
    ensures Term(0, n, p) == (1.0 - p) * Term(0, n - 1, p)
  {
    assert Pow(p, 0) == 1.0;
    assert Term(0, n, p) == Pow(1.0 - p, n) && Term(0, n - 1, p) == Pow(1.0 - p, n - 1);
  }

  lemma LastTerm(n: nat, p: real)
    requires n > 0
    ensures Term(n, n, p) == p * Term(n - 1, n - 1, p)
  {
    ChooseAbove(n, n);
    ChooseAbove(n - 1, n - 1);
    assert Pow(1.0 - p, 0) == 1.0;
    assert Term(n, n, p) == Pow(p, n) && Term(n - 1, n - 1, p) == Pow(p, n - 1);
  }

  lemma OuterTerms(v: int, n: nat, p: real)
    requires n > 0
    ensures v <= 0 ==> Term(v - 1, n - 1, p) == 0.0
    ensures v >= n ==> Term(v, n - 1, p) == 0.0
    ensures v < 0 || v > n ==> Term(v, n, p) == 0.0 && Term(v, n - 1, p) == 0.0 && Term(v - 1, n - 1, p) == 0.0
  {
  }

  lemma BlendEdges(p: real, x: real)
    ensures Blend(p, x, 0.0) == (1.0 - p) * x && Blend(p, 0.0, x) == p * x
  {
  }

  /** One more trial: either it fails, or it succeeds. */
  lemma TermStep(v: int, n: nat, p: real)
    requires n > 0
    ensures Term(v, n, p) == Blend(p, Term(v, n - 1, p), Term(v - 1, n - 1, p))
  {
    hide Term, Pow, Choose, Blend, Weight;
    OuterTerms(v, n, p);
    BlendSame(p, 0.0);
    if 0 < v < n {
      InnerTerms(v, n, p);
      PowStep(p, v);
      PowStep(1.0 - p, n - v);
      Factor(Choose(n - 1, v - 1) as real, Choose(n - 1, v) as real, p,
             Pow(p, v - 1), Pow(1.0 - p, n - 1 - v), Pow(p, v), Pow(1.0 - p, n - v));
    } else if v == 0 {
      FirstTerm(n, p);
      BlendEdges(p, Term(0, n - 1, p));
    } else if v == n {
      LastTerm(n, p);
      BlendEdges(p, Term(n - 1, n - 1, p));
    }
  }

  lemma PowStep(x: real, n: nat)
    requires n > 0
    ensures Pow(x, n) == x * Pow(x, n - 1)
  {
  }

  lemma InnerTerms(v: int, n: nat, p: real)
    requires 0 < v < n
    ensures Term(v, n, p)
      == Weight(Choose(n - 1, v - 1) as real + Choose(n - 1, v) as real, Pow(p, v), Pow(1.0 - p, n - v))
    ensures Term(v, n - 1, p) == Weight(Choose(n - 1, v) as real, Pow(p, v), Pow(1.0 - p, n - 1 - v))
    ensures Term(v - 1, n - 1, p) == Weight(Choose(n - 1, v - 1) as real, Pow(p, v - 1), Pow(1.0 - p, n - v))
  {
    hide Weight, Pow;
    assert Choose(n, v) as real == Choose(n - 1, v - 1) as real + Choose(n - 1, v) as real;
    assert n - 1 - (v - 1) == n - v;
  }

  lemma {:induction false} SumStep(k: nat, n: nat, p: real)
    requires n > 0
    ensures SumTerms(k, n, p) == Blend(p, SumTerms(k, n - 1, p), SumTerms(k - 1, n - 1, p))
    decreases k
  {
    assert Term(-1, n - 1, p) == 0.0;
    hide Term, Blend;
    TermStep(k, n, p);
    if k > 0 {
      SumStep(k - 1, n, p);
      BlendSum(p, SumTerms(k - 1, n - 1, p), Term(k, n - 1, p), SumTerms(k - 2, n - 1, p), Term(k - 1, n - 1, p));
    } else {
      assert SumTerms(-1, n, p) == 0.0 && SumTerms(-1, n - 1, p) == 0.0;
    }
  }

  lemma {:induction false} SumAtZero(k: nat, p: real)
    ensures SumTerms(k, 0, p) == 1.0
  {
    if k > 0 {
      SumAtZero(k - 1, p);
      assert Term(k, 0, p) == 0.0;
    } else {
      assert SumTerms(-1, 0, p) == 0.0 && Term(0, 0, p) == 1.0;
    }
  }

  /** The distribution function is the sum of the first point probabilities. */
  lemma {:induction false} CdfIsSum(k: int, n: nat, p: real)
    ensures Cdf(k, n, p) == SumTerms(k, n, p)
    decreases n
  {
    hide Blend, Term;
    if n == 0 {
      if k >= 0 {
        SumAtZero(k, p);
      }
    } else {
      CdfIsSum(k, n - 1, p);
      CdfIsSum(k - 1, n - 1, p);
      if k >= 0 {
        SumStep(k, n, p);
      } else {
        BlendSame(p, 0.0);
      }
    }
  }

  // Its shape.

  lemma {:induction false} CdfEnds(k: int, n: nat, p: real)
    ensures k < 0 ==> Cdf(k, n, p) == 0.0
    ensures k >= n ==> Cdf(k, n, p) == 1.0
    decreases n
  {
    hide Blend;
    if n > 0 {
      CdfEnds(k, n - 1, p);
      CdfEnds(k - 1, n - 1, p);
      BlendSame(p, 0.0);
      BlendSame(p, 1.0);
    }
  }

  lemma {:induction false} CdfAtCorners(k: int, n: nat)
    ensures Cdf(k, n, 0.0) == if k >= 0 then 1.0 else 0.0
    ensures Cdf(k, n, 1.0) == if k >= n then 1.0 else 0.0
    decreases n
  {
    hide Blend;
    if n > 0 {
      CdfAtCorners(k, n - 1);
      CdfAtCorners(k - 1, n - 1);
      BlendSame(Cdf(k - 1, n - 1, 0.0), Cdf(k, n - 1, 0.0));
      BlendSame(Cdf(k, n - 1, 1.0), Cdf(k - 1, n - 1, 1.0));
    }
  }

  /** One more success allowed never lowers the chance, and raises it strictly inside. */
  lemma {:induction false} CdfGrows(k: int, n: nat, p: real)
    requires 0.0 <= p <= 1.0
    ensures Cdf(k - 1, n, p) <= Cdf(k, n, p)
    ensures 0.0 < p < 1.0 && 0 <= k <= n ==> Cdf(k - 1, n, p) < Cdf(k, n, p)
    decreases n
  {
    hide Blend;
    if n > 0 {
      CdfGrows(k, n - 1, p);
      CdfGrows(k - 1, n - 1, p);
      BlendGrows(p, Cdf(k, n - 1, p), Cdf(k - 1, n - 1, p), Cdf(k - 1, n - 1, p), Cdf(k - 2, n - 1, p));
    }
  }

  lemma {:induction false} CdfGrowsMany(j: int, k: int, n: nat, p: real)
    requires 0.0 <= p <= 1.0 && j <= k
    ensures Cdf(j, n, p) <= Cdf(k, n, p)
    decreases k - j
  {
    hide Cdf;
    if j < k {
      CdfGrowsMany(j, k - 1, n, p);
      CdfGrows(k, n, p);
    }
  }

  /** The chance of at most `k` successes falls as success becomes likelier, and strictly so below
      certainty. */
  lemma {:induction false} CdfFalls(k: int, n: nat, p: real, r: real)
    requires 0.0 <= p <= r <= 1.0
    ensures Cdf(k, n, p) >= Cdf(k, n, r)
    ensures p < r < 1.0 && 0 <= k < n ==> Cdf(k, n, p) > Cdf(k, n, r)
    decreases n
  {
    hide Blend;
    if n > 0 {
      CdfFalls(k, n - 1, p, r);
      CdfFalls(k - 1, n - 1, p, r);
      CdfGrows(k, n - 1, r);
      BlendGrows(p, Cdf(k, n - 1, p), Cdf(k, n - 1, r), Cdf(k - 1, n - 1, p), Cdf(k - 1, n - 1, r));
      BlendFalls(p, r, Cdf(k, n - 1, r), Cdf(k - 1, n - 1, r));
    }
  }

  lemma CdfRange(k: int, n: nat, p: real)
    requires 0.0 <= p <= 1.0
    ensures 0.0 <= Cdf(k, n, p) <= 1.0
  {
    CdfFalls(k, n, 0.0, p);
    CdfFalls(k, n, p, 1.0);
    CdfAtCorners(k, n);
    hide Cdf;
  }

  /** Exchanging success and failure. */
  lemma {:induction false} CdfSymmetry(k: int, n: nat, p: real)
    ensures Cdf(k, n, p) + Cdf(n - k - 1, n, 1.0 - p) == 1.0
    decreases n
  {
    hide Blend;
    if n > 0 {
      CdfSymmetry(k, n - 1, p);
      CdfSymmetry(k - 1, n - 1, p);
      var a, b := Cdf(k, n - 1, p), Cdf(k - 1, n - 1, p);
      BlendComplement(p, a, b);
      assert Cdf(n - k - 1, n, 1.0 - p) == Blend(1.0 - p, 1.0 - b, 1.0 - a);
    }
  }

  lemma BlendComplement(p: real, a: real, b: real)
    ensures Blend(p, a, b) + Blend(1.0 - p, 1.0 - b, 1.0 - a) == 1.0
  {
  }
}
