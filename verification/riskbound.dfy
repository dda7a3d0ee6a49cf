/** The one-sided exact Clopper-Pearson bound, found by bisection. */
module RiskBound {
  import opened Binomial
  import opened Diagnostics
  import opened Options

  const BISECTIONS: nat := 80

  predicate InputValid(failures: int, trials: int, confidence: real) {
    && 0 <= failures <= trials <= MAX_DIAGNOSTIC_CASES
    && trials > 0
    && 0.5 <= confidence < 1.0
  }

  /** The bound separates, to the given precision, the risks under which so few failures are
      likelier than alpha from those under which they are not. */
  ghost predicate Separates(failures: nat, trials: nat, alpha: real, risk: real, precision: real) {
    && (forall p :: 0.0 <= p <= 1.0 && Cdf(failures, trials, p) > alpha ==> p < risk + precision)
    && (forall p :: 0.0 <= p <= 1.0 && Cdf(failures, trials, p) <= alpha ==> p > risk - precision)
  }

  ghost predicate Bracket(failures: nat, trials: nat, alpha: real, lower: real, upper: real) {
    && 0.0 <= lower < upper <= 1.0
    && Cdf(failures, trials, lower) > alpha >= Cdf(failures, trials, upper)
  }

  /** The bound separates without any gap. */
  ghost predicate SeparatesExactly(failures: nat, trials: nat, alpha: real, risk: real) {
    forall p :: 0.0 <= p <= 1.0 ==> (Cdf(failures, trials, p) > alpha <==> p < risk)
  }

  /** `root` is the root that the closed form without failures takes; exact reals do not compute it. */
  method ExactBinomialRiskUpperBound(failures: int, trials: int, confidence: real, root: real)
    returns (bound: Option<real>)
    requires InputValid(failures, trials, confidence) && failures == 0 ==>
      0.0 <= root <= 1.0 && Pow(root, trials) == 1.0 - confidence
    ensures bound.Some? <==> InputValid(failures, trials, confidence)
    ensures bound.Some? ==> 0.0 < bound.value <= 1.0 && (bound.value == 1.0 <==> failures == trials)
    ensures bound.Some? && failures == 0 ==> SeparatesExactly(0, trials, 1.0 - confidence, bound.value)
    ensures bound.Some? && 0 < failures < trials ==>
      Separates(failures, trials, 1.0 - confidence, bound.value, Pow(0.5, BISECTIONS + 1))
  {
    if !InputValid(failures, trials, confidence) {
      return None;
    }
    if failures == trials {
      return Some(1.0);
    }
    var alpha := 1.0 - confidence;
    if failures == 0 {
      ClosedFormExact(trials, alpha, 1.0 - root);
      return Some(1.0 - root);
    }
    var lower, upper := 0.0, 1.0;
    CdfAtCorners(failures, trials);
    hide Cdf;
    for k := 0 to BISECTIONS
      invariant Bracket(failures, trials, alpha, lower, upper)
      invariant upper - lower == Pow(0.5, k)
    {
      var midpoint := (lower + upper) / 2.0;
      if Cdf(failures, trials, midpoint) > alpha {
        lower := midpoint;
      } else {
        upper := midpoint;
      }
    }
    HalfWidth(BISECTIONS);
    BracketSeparates(failures, trials, alpha, lower, upper);
    hide Separates, Pow;
    return Some((lower + upper) / 2.0);
  }

  lemma HalfWidth(k: nat)
    ensures Pow(0.5, k + 1) == Pow(0.5, k) / 2.0
  {
  }

  lemma BracketSeparates(failures: nat, trials: nat, alpha: real, lower: real, upper: real)
    requires Bracket(failures, trials, alpha, lower, upper)
    ensures Separates(failures, trials, alpha, (lower + upper) / 2.0, (upper - lower) / 2.0)
  {
    hide Cdf;
    forall p | 0.0 <= p <= 1.0 && Cdf(failures, trials, p) > alpha ensures p < upper {
      if p >= upper {
        CdfFalls(failures, trials, upper, p);
      }
    }
    forall p | 0.0 <= p <= 1.0 && Cdf(failures, trials, p) <= alpha ensures p > lower {
      if p <= lower {
        CdfFalls(failures, trials, p, lower);
      }
    }
  }

  /** A separating bound is within the precision of every exact solution. */
  lemma NearEverySolution(failures: nat, trials: nat, alpha: real, risk: real, precision: real, p: real)
    requires Separates(failures, trials, alpha, risk, precision) && precision > 0.0
    requires 0 <= failures < trials && 0.0 < alpha < 1.0
    requires 0.0 <= p <= 1.0 && Cdf(failures, trials, p) == alpha
    ensures risk - precision < p <= risk + precision
  {
    CdfAtCorners(failures, trials);
    hide Cdf;
    assert 0.0 < p < 1.0;
    if p > risk + precision {
      var below := if risk + precision > 0.0 then risk + precision else 0.0;
      CdfFalls(failures, trials, below, p);
    }
  }

  /** There is at most one exact solution. */
  lemma SolutionUnique(failures: nat, trials: nat, alpha: real, p: real, r: real)
    requires failures < trials && 0.0 < alpha < 1.0
    requires 0.0 <= p <= 1.0 && 0.0 <= r <= 1.0
    requires Cdf(failures, trials, p) == alpha == Cdf(failures, trials, r)
    ensures p == r
  {
    CdfAtCorners(failures, trials);
    hide Cdf;
    if p < r {
      CdfFalls(failures, trials, p, r);
    } else if r < p {
      CdfFalls(failures, trials, r, p);
    }
  }

  /** Without failures the equation has the closed form that the source solves by logarithms. */
  lemma {:induction false} NoFailures(trials: nat, p: real)
    ensures Cdf(0, trials, p) == Pow(1.0 - p, trials)
  {
    if trials > 0 {
      NoFailures(trials - 1, p);
      CdfEnds(-1, trials - 1, p);
      hide Pow;
      assert Blend(p, Pow(1.0 - p, trials - 1), 0.0) == (1.0 - p) * Pow(1.0 - p, trials - 1);
    }
  }

  /** The value of the closed form is the exact bound. */
  lemma ClosedFormExact(trials: nat, alpha: real, r: real)
    requires trials > 0 && 0.0 < alpha < 1.0 && 0.0 <= r <= 1.0 && Pow(1.0 - r, trials) == alpha
    ensures 0.0 < r < 1.0 && SeparatesExactly(0, trials, alpha, r)
  {
    NoFailures(trials, r);
    CdfAtCorners(0, trials);
    hide Cdf, Pow;
    forall p | 0.0 <= p <= 1.0 ensures Cdf(0, trials, p) > alpha <==> p < r {
      if p < r {
        CdfFalls(0, trials, p, r);
      } else {
        CdfFalls(0, trials, r, p);
      }
    }
  }
}
