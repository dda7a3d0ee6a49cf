/** The exact one-sided sign test and the paired superiority gate. */
module SignTest {
  import opened Binomial
  import opened Diagnostics
  import opened Options
  import opened Wilson

  const MAX_EXACT_SIGN_TRIALS := MAX_DIAGNOSTIC_CASES

  function PowerOfTwo(n: nat): (r: nat)
    ensures r > 0
  {
    if n == 0 then 1 else 2 * PowerOfTwo(n - 1)
  }

  function TailCount(n: nat, from: nat): nat
    decreases n + 1 - from
  {
    if from > n then 0 else Choose(n, from) + TailCount(n, from + 1)
  }

  /** The chance of at least `wins` successes in `wins + losses` fair trials. */
  function FairTail(wins: nat, losses: nat): real {
    1.0 - Cdf(wins - 1, wins + losses, 0.5)
  }

  method ExactOneSidedSignPValue(wins: int, losses: int) returns (result: Option<real>)
    ensures result.Some? <==> 0 <= wins && 0 <= losses && wins + losses <= MAX_EXACT_SIGN_TRIALS
    ensures result.Some? ==> result.value == FairTail(wins, losses)
  {
    if wins < 0 || losses < 0 {
      return None;
    }
    var n := wins + losses;
    if n == 0 {
      return Some(1.0);
    }
    if n > MAX_EXACT_SIGN_TRIALS {
      return None;
    }
    var numerator := 0;
    for value := wins to n + 1
      invariant numerator + TailCount(n, value) == TailCount(n, wins)
    {
      numerator := numerator + Choose(n, value);
    }
    TailIsFair(wins, losses);
    return Some(numerator as real / PowerOfTwo(n) as real);
  }

  function CountUpTo(n: nat, k: int): nat
    decreases k + 1
  {
    if k < 0 then 0 else CountUpTo(n, k - 1) + Choose(n, k)
  }

  lemma {:induction false} HalfPowers(n: nat)
    ensures Pow(0.5, n) * PowerOfTwo(n) as real == 1.0
  {
    if n > 0 {
      HalfPowers(n - 1);
    }
  }

  lemma {:induction false} HalvesMultiply(a: nat, b: nat)
    ensures Pow(0.5, a) * Pow(0.5, b) == Pow(0.5, a + b)
  {
    if a > 0 {
      HalvesMultiply(a - 1, b);
      var x, y := Pow(0.5, a - 1), Pow(0.5, b);
      assert Pow(0.5, a) * y == 0.5 * (x * y);
    }
  }

  lemma FairTerm(v: nat, n: nat)
    requires v <= n
    ensures Term(v, n, 0.5) == Weighted(Choose(n, v), Pow(0.5, n))
  {
    HalvesMultiply(v, n - v);
    hide Pow, Choose;
    Regroup(Choose(n, v) as real, Pow(0.5, v), Pow(0.5, n - v));
  }

  function Weighted(count: nat, chance: real): real {
    count as real * chance
  }

  lemma WeightedSum(a: nat, b: nat, chance: real)
    ensures Weighted(a + b, chance) == Weighted(a, chance) + Weighted(b, chance) && Weighted(0, chance) == 0.0
  {
  }

  lemma {:induction false} FairSum(k: int, n: nat)
    requires k <= n
    ensures SumTerms(k, n, 0.5) == Weighted(CountUpTo(n, k), Pow(0.5, n))
    decreases k + 1
  {
    hide Weighted, Term, Pow, Choose;
    if k < 0 {
      WeightedSum(0, 0, Pow(0.5, n));
    } else {
      FairSum(k - 1, n);
      FairTerm(k, n);
      WeightedSum(CountUpTo(n, k - 1), Choose(n, k), Pow(0.5, n));
    }
  }

  lemma Regroup(a: real, b: real, c: real)
    ensures a * b * c == a * (b * c)
  {
  }

  lemma {:induction false} CountsAdd(n: nat, from: nat)
    requires from <= n + 1
    ensures CountUpTo(n, from - 1) + TailCount(n, from) == CountUpTo(n, n)
    decreases n + 1 - from
  {
    if from <= n {
      CountsAdd(n, from + 1);
    }
  }

  /** The counted tail over all outcomes is the tail of the fair distribution. */
  lemma TailIsFair(wins: nat, losses: nat)
    ensures TailCount(wins + losses, wins) as real / PowerOfTwo(wins + losses) as real == FairTail(wins, losses)
  {
    var n := wins + losses;
    hide Cdf, SumTerms, CountUpTo, TailCount, Pow, PowerOfTwo;
    CdfIsSum(wins - 1, n, 0.5);
    CdfIsSum(n, n, 0.5);
    CdfEnds(n, n, 0.5);
    FairSum(wins - 1, n);
    FairSum(n, n);
    CountsAdd(n, wins);
    HalfPowers(n);
    TailQuotient(
      CountUpTo(n, wins - 1) as real, TailCount(n, wins) as real, Pow(0.5, n), PowerOfTwo(n) as real);
  }

  lemma TailQuotient(below: real, tail: real, half: real, power: real)
    requires power > 0.0 && half * power == 1.0 && (below + tail) * half == 1.0
    ensures tail / power == 1.0 - below * half
  {
    assert tail * half == 1.0 - below * half;
    assert tail * half * power == tail * (half * power);
    assert tail / power * power == tail;
    assert (tail / power - tail * half) * power == 0.0;
  }

  // What the value means.

  lemma TailRange(wins: nat, losses: nat)
    ensures 0.0 < FairTail(wins, losses) <= 1.0
  {
    CdfRange(wins - 1, wins + losses, 0.5);
    CdfGrowsMany(wins, wins + losses, wins + losses, 0.5);
    CdfGrows(wins, wins + losses, 0.5);
    CdfEnds(wins + losses, wins + losses, 0.5);
    hide Cdf;
  }

  lemma MoreWins(wins: nat, losses: nat)
    ensures FairTail(wins + 1, losses) <= FairTail(wins, losses)
  {
    var n := wins + losses;
    CdfGrows(wins, n, 0.5);
    assert Cdf(wins, n + 1, 0.5) == Blend(0.5, Cdf(wins, n, 0.5), Cdf(wins - 1, n, 0.5));
    hide Cdf;
    BlendGrows(0.5, Cdf(wins, n, 0.5), Cdf(wins - 1, n, 0.5), Cdf(wins - 1, n, 0.5), Cdf(wins - 1, n, 0.5));
    BlendSame(0.5, Cdf(wins - 1, n, 0.5));
  }

  lemma MoreLosses(wins: nat, losses: nat)
    ensures FairTail(wins, losses + 1) >= FairTail(wins, losses)
  {
    var n := wins + losses;
    CdfGrows(wins - 1, n, 0.5);
    assert Cdf(wins - 1, n + 1, 0.5) == Blend(0.5, Cdf(wins - 1, n, 0.5), Cdf(wins - 2, n, 0.5));
    hide Cdf;
    BlendGrows(0.5, Cdf(wins - 1, n, 0.5), Cdf(wins - 1, n, 0.5), Cdf(wins - 1, n, 0.5), Cdf(wins - 2, n, 0.5));
    BlendSame(0.5, Cdf(wins - 1, n, 0.5));
  }

  /** Without more wins than losses the value stays above one half. */
  lemma NoMajorityNoEvidence(wins: nat, losses: nat)
    requires wins <= losses
    ensures FairTail(wins, losses) > 0.5
  {
    var n := wins + losses;
    CdfSymmetry(wins - 1, n, 0.5);
    CdfGrowsMany(wins, losses, n, 0.5);
    CdfGrows(wins, n, 0.5);
    assert n - (wins - 1) - 1 == losses;
    hide Cdf;
  }

  // The gate.

  datatype Diagnostic = Diagnostic(
    caseCount: nat,
    nonTieCount: nat,
    netImprovement: real,
    adjustedWinRate: real,
    nonTieWinRate: Option<real>,
    signPValue: real,
    nonTieInterval: Interval,
    pointMarginPassed: bool,
    superiorityPassed: bool,
    gatePassed: bool)

  predicate GateInput(wins: int, ties: int, losses: int, minimumNet: real, maximumP: real, confidence: real) {
    && 0 <= wins && 0 <= ties && 0 <= losses
    && 1 <= wins + ties + losses <= MAX_DIAGNOSTIC_CASES
    && -1.0 <= minimumNet <= 1.0
    && 0.0 < maximumP < 1.0
    && 0.0 < confidence < 1.0
  }

  /** The counts, and each rate times what it is a rate of. */
  predicate RatesOk(diagnostic: Diagnostic, wins: int, ties: int, losses: int) {
    var cases, nonTies := wins + ties + losses, wins + losses;
    && diagnostic.caseCount == cases && diagnostic.nonTieCount == nonTies
    && -1.0 <= diagnostic.netImprovement <= 1.0
    && diagnostic.netImprovement * cases as real == (wins - losses) as real
    && 0.0 <= diagnostic.adjustedWinRate <= 1.0
    && 2.0 * diagnostic.adjustedWinRate * cases as real == (2 * wins + ties) as real
    && (diagnostic.nonTieWinRate.Some? <==> nonTies > 0)
    && (nonTies > 0 ==>
          && 0.0 <= diagnostic.nonTieWinRate.value <= 1.0
          && diagnostic.nonTieWinRate.value * nonTies as real == wins as real)
  }

  method PairedSuperiorityDiagnostic(
    wins: int, ties: int, losses: int, minimumNet: real, maximumP: real, confidence: real, z: real, root: real)
    returns (result: Option<Diagnostic>)
    requires GateInput(wins, ties, losses, minimumNet, maximumP, confidence) ==>
      z > 0.0 && RootGiven(wins, wins + losses, z, root)
    ensures result.Some? <==> GateInput(wins, ties, losses, minimumNet, maximumP, confidence)
    ensures result.Some? ==> RatesOk(result.value, wins, ties, losses)
    ensures result.Some? ==> result.value.signPValue == FairTail(wins, losses)
    ensures result.Some? ==> InvertsTest(result.value.nonTieInterval, wins, wins + losses, z)
    ensures result.Some? ==> (result.value.pointMarginPassed <==> result.value.netImprovement >= minimumNet)
    ensures result.Some? ==>
      (result.value.superiorityPassed <==> wins > losses && FairTail(wins, losses) <= maximumP)
    ensures result.Some? ==> (result.value.gatePassed <==>
      && result.value.netImprovement >= minimumNet
      && wins > losses && FairTail(wins, losses) <= maximumP)
    ensures result.Some? && maximumP <= 0.5 ==>
      (result.value.superiorityPassed <==> FairTail(wins, losses) <= maximumP)
  {
    hide InvertsTest, RootGiven, FairTail, Net, WinRate, Share, RatesOk;
    if !GateInput(wins, ties, losses, minimumNet, maximumP, confidence) {
      return None;
    }
    if wins <= losses {
      NoMajorityNoEvidence(wins, losses);
    }
    var cases, nonTies := wins + ties + losses, wins + losses;
    var net := Net(wins, ties, losses);
    var share := if nonTies > 0 then Some(Share(wins, nonTies)) else None;
    var signP := ExactOneSidedSignPValue(wins, losses);
    var interval := WilsonInterval(wins, nonTies, confidence, z, root);
    var margin := net >= minimumNet;
    var significant := nonTies > 0 && wins > losses && signP.value <= maximumP;
    var diagnostic := Diagnostic(
      cases, nonTies, net, WinRate(wins, ties, losses), share, signP.value, interval.value,
      margin, significant, margin && significant);
    RatesKnown(diagnostic, wins, ties, losses);
    return Some(diagnostic);
  }

  function Net(wins: nat, ties: nat, losses: nat): real
    requires wins + ties + losses > 0
  {
    (wins - losses) as real / (wins + ties + losses) as real
  }

  function WinRate(wins: nat, ties: nat, losses: nat): real
    requires wins + ties + losses > 0
  {
    (wins as real + 0.5 * ties as real) / (wins + ties + losses) as real
  }

  lemma RatesKnown(diagnostic: Diagnostic, wins: nat, ties: nat, losses: nat)
    requires wins + ties + losses > 0
    requires diagnostic.caseCount == wins + ties + losses && diagnostic.nonTieCount == wins + losses
    requires diagnostic.netImprovement == Net(wins, ties, losses)
    requires diagnostic.adjustedWinRate == WinRate(wins, ties, losses)
    requires diagnostic.nonTieWinRate == if wins + losses > 0 then Some(Share(wins, wins + losses)) else None
    ensures RatesOk(diagnostic, wins, ties, losses)
  {
    NetRange(wins, ties, losses);
    WinRateRange(wins, ties, losses);
    if wins + losses > 0 {
      ShareRange(wins, wins + losses);
    }
    hide Net, WinRate, Share;
  }

  lemma NetRange(wins: nat, ties: nat, losses: nat)
    requires wins + ties + losses > 0
    ensures var net := Net(wins, ties, losses);
      -1.0 <= net <= 1.0 && net * (wins + ties + losses) as real == (wins - losses) as real
  {
    Ratio((wins - losses) as real, (wins + ties + losses) as real);
  }

  lemma WinRateRange(wins: nat, ties: nat, losses: nat)
    requires wins + ties + losses > 0
    ensures var rate := WinRate(wins, ties, losses);
      0.0 <= rate <= 1.0 && 2.0 * rate * (wins + ties + losses) as real == (2 * wins + ties) as real
  {
    Ratio(wins as real + 0.5 * ties as real, (wins + ties + losses) as real);
  }
}
