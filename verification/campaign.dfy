/** The campaign's budget components and their worst case. */
module Campaign {
  import opened Budget
  import opened Options

  datatype Component = Component(
    componentId: Id,
    unitCount: int,
    attemptsPerUnit: int,
    maxInputTokens: int,
    maxOutputTokens: int,
    maxMoneyMicrounits: int,
    maxWallClockMs: int,
    modelIds: seq<Id>,
    purposes: seq<Id>)
  {
    /** The reservation of one attempt of this component. */
    function Maximums(): Amounts {
      Amounts(1, maxInputTokens, maxOutputTokens, maxMoneyMicrounits, maxWallClockMs)
    }

    function Capacity(): int {
      unitCount * attemptsPerUnit
    }

    predicate WellFormed() {
      && 1 <= unitCount <= MAX_BUDGET_VALUE
      && 1 <= attemptsPerUnit <= MAX_BUDGET_VALUE
      && Maximums().InRange()
    }

    /** The worst case of all attempts of this component. */
    function WorstCase(): Amounts {
      Maximums().Scaled(Capacity())
    }
  }

  /** The worst case of a system on one axis: every attempt of every component at its maximum. */
  function WorstCases(components: seq<Component>, axis: Axis): seq<int> {
    seq(|components|, i requires 0 <= i < |components| => components[i].WorstCase().At(axis))
  }

  ghost predicate IsWorstCase(components: seq<Component>, total: Amounts) {
    forall axis: Axis :: total.At(axis) == Total(WorstCases(components, axis))
  }

  lemma WorstCasesAppend(components: seq<Component>, last: Component, axis: Axis)
    ensures Total(WorstCases(components + [last], axis))
      == Total(WorstCases(components, axis)) + last.WorstCase().At(axis)
  {
    assert WorstCases(components + [last], axis)
      == WorstCases(components, axis) + [last.WorstCase().At(axis)];
    TotalAppend(WorstCases(components, axis), last.WorstCase().At(axis));
  }

  lemma ProductNonNegative(a: int, b: int)
    requires 0 <= a && 0 <= b
    ensures 0 <= a * b
  {
  }

  lemma WorstCaseNonNegative(component: Component, axis: Axis)
    requires component.WellFormed()
    ensures 0 <= component.WorstCase().At(axis)
  {
    ProductNonNegative(component.unitCount, component.attemptsPerUnit);
    OnEveryAxis(ZERO, component.Maximums());
    ProductNonNegative(component.Capacity(), component.Maximums().At(axis));
  }

  /** Adding components never lowers the worst case, so a prefix over the limit stays over it. */
  lemma {:induction false} WorstCaseGrows(components: seq<Component>, n: nat, axis: Axis)
    requires n <= |components|
    requires forall i :: n <= i < |components| ==> components[i].WellFormed()
    ensures Total(WorstCases(components[..n], axis)) <= Total(WorstCases(components, axis))
    decreases |components| - n
  {
    if n == |components| {
      assert components[..n] == components;
    } else {
      assert components[..n + 1] == components[..n] + [components[n]];
      WorstCasesAppend(components[..n], components[n], axis);
      WorstCaseNonNegative(components[n], axis);
      WorstCaseGrows(components, n + 1, axis);
    }
  }

  ghost predicate WithinSafeRange(components: seq<Component>, n: nat)
    requires n <= |components|
  {
    forall axis: Axis :: Total(WorstCases(components[..n], axis)) <= MAX_BUDGET_VALUE
  }

  lemma WorstCaseStep(components: seq<Component>, n: nat, totals: Amounts)
    requires n < |components| && IsWorstCase(components[..n], totals)
    ensures IsWorstCase(components[..n + 1], totals.Plus(components[n].WorstCase()))
  {
    hide Component.WorstCase;
    assert components[..n + 1] == components[..n] + [components[n]];
    forall axis: Axis {
      WorstCasesAppend(components[..n], components[n], axis);
    }
  }

  /** A running total out of range stays out of range. */
  lemma OutOfRange(components: seq<Component>, n: nat, totals: Amounts)
    requires n <= |components| && IsWorstCase(components[..n], totals) && !totals.Leq(LARGEST)
    requires forall component :: component in components ==> component.WellFormed()
    ensures !WithinSafeRange(components, |components|)
  {
    hide Component.WellFormed, WorstCases, Total;
    OnEveryAxis(totals, LARGEST);
    var axis: Axis :| totals.At(axis) > LARGEST.At(axis);
    WorstCaseGrows(components, n, axis);
    assert components[..|components|] == components;
  }

  lemma StartAtZero()
    ensures IsWorstCase([], ZERO) && ZERO.Leq(LARGEST)
  {
  }

  lemma InRange(components: seq<Component>, totals: Amounts)
    requires IsWorstCase(components[..|components|], totals) && totals.Leq(LARGEST)
    ensures WithinSafeRange(components, |components|)
  {
    hide Total, WorstCases;
    OnEveryAxis(totals, LARGEST);
  }

  /** Computes the worst case, giving up at the first malformed component and as soon as a
      running total leaves the safe integer range. Because the totals only grow, giving up early
      is the same as the whole sum leaving the range. */
  method ComputedWorstCase(components: seq<Component>) returns (worst: Option<Amounts>)
    ensures worst.Some? <==>
      && components != []
      && (forall component :: component in components ==> component.WellFormed())
      && WithinSafeRange(components, |components|)
    ensures worst.Some? ==> IsWorstCase(components, worst.value)
  {
    if components == [] {
      return None;
    }
    hide IsWorstCase, Component.WellFormed, Component.WorstCase;
    var totals := ZERO;
    StartAtZero();
    for n := 0 to |components|
      invariant IsWorstCase(components[..n], totals)
      invariant forall i :: 0 <= i < n ==> components[i].WellFormed()
      invariant totals.Leq(LARGEST)
    {
      var component := components[n];
      if !component.WellFormed() {
        assert component in components;
        return None;
      }
      WorstCaseStep(components, n, totals);
      totals := totals.Plus(component.WorstCase());
      if !totals.Leq(LARGEST) {
        if forall component :: component in components ==> component.WellFormed() {
          OutOfRange(components, n + 1, totals);
        }
        return None;
      }
    }
    InRange(components, totals);
    assert components[..|components|] == components;
    return Some(totals);
  }

  /** Admission: the worst case is computable and fits under the hard ceilings. */
  ghost predicate Admitted(components: seq<Component>, ceilings: Amounts) {
    && components != []
    && (forall component :: component in components ==> component.WellFormed())
    && (forall axis: Axis :: Total(WorstCases(components, axis)) <= ceilings.At(axis))
  }

  /** The budget check of the campaign validator. The declared worst case must match. */
  method BudgetAdmitted(components: seq<Component>, declared: Amounts, ceilings: Amounts) returns (ok: bool)
    requires ceilings.InRange()
    ensures ok <==> Admitted(components, ceilings) && IsWorstCase(components, declared)
  {
    var computed := ComputedWorstCase(components);
    OnEveryAxis(ceilings, LARGEST);
    assert components[..|components|] == components;
    if computed.None? {
      assert !Admitted(components, ceilings);
      return false;
    }
    OnEveryAxis(declared, computed.value);
    OnEveryAxis(computed.value, ceilings);
    ok := declared == computed.value && computed.value.Leq(ceilings);
  }
}
