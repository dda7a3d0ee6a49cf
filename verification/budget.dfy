/** Resource vectors over the five budget axes, and sums of them. */
module Budget {
  type Id = string

  const MAX_BUDGET_VALUE := 9_007_199_254_740_991

  datatype Axis = Calls | InputTokens | OutputTokens | MoneyMicrounits | WallClockMs

  /** One amount per axis. Amounts arrive unchecked, so the fields are plain integers. */
  datatype Amounts = Amounts(
    calls: int,
    inputTokens: int,
    outputTokens: int,
    moneyMicrounits: int,
    wallClockMs: int)
  {
    function At(axis: Axis): int {
      match axis
      case Calls => calls
      case InputTokens => inputTokens
      case OutputTokens => outputTokens
      case MoneyMicrounits => moneyMicrounits
      case WallClockMs => wallClockMs
    }

    function Plus(other: Amounts): Amounts {
      Amounts(
        calls + other.calls,
        inputTokens + other.inputTokens,
        outputTokens + other.outputTokens,
        moneyMicrounits + other.moneyMicrounits,
        wallClockMs + other.wallClockMs)
    }

    function Minus(other: Amounts): Amounts {
      Amounts(
        calls - other.calls,
        inputTokens - other.inputTokens,
        outputTokens - other.outputTokens,
        moneyMicrounits - other.moneyMicrounits,
        wallClockMs - other.wallClockMs)
    }

    function Scaled(n: int): Amounts {
      Amounts(n * calls, n * inputTokens, n * outputTokens, n * moneyMicrounits, n * wallClockMs)
    }

    /** At most `other` on every axis. */
    predicate Leq(other: Amounts) {
      && calls <= other.calls
      && inputTokens <= other.inputTokens
      && outputTokens <= other.outputTokens
      && moneyMicrounits <= other.moneyMicrounits
      && wallClockMs <= other.wallClockMs
    }

    /** Every axis lies in the portable integer range. */
    predicate InRange() {
      ZERO.Leq(this) && Leq(LARGEST)
    }

    /** The vector of one provider attempt: in range and exactly one call. */
    predicate OneCall() {
      InRange() && calls == 1
    }
  }

  const ZERO := Amounts(0, 0, 0, 0, 0)
  const LARGEST := Amounts(
    MAX_BUDGET_VALUE, MAX_BUDGET_VALUE, MAX_BUDGET_VALUE, MAX_BUDGET_VALUE, MAX_BUDGET_VALUE)

  function Positive(n: int): nat {
    if n > 0 then n else 0
  }

  /** The axes, in budget order, on which `value` exceeds `limit`. */
  function OverAxes(value: Amounts, limit: Amounts): (axes: seq<Axis>)
    ensures axes == [] <==> value.Leq(limit)
    ensures forall axis :: axis in axes <==> value.At(axis) > limit.At(axis)
  {
    (if value.calls > limit.calls then [Calls] else [])
    + (if value.inputTokens > limit.inputTokens then [InputTokens] else [])
    + (if value.outputTokens > limit.outputTokens then [OutputTokens] else [])
    + (if value.moneyMicrounits > limit.moneyMicrounits then [MoneyMicrounits] else [])
    + (if value.wallClockMs > limit.wallClockMs then [WallClockMs] else [])
  }

  lemma OnEveryAxis(left: Amounts, right: Amounts)
    ensures left.Leq(right) <==> forall axis: Axis :: left.At(axis) <= right.At(axis)
    ensures left == right <==> forall axis: Axis :: left.At(axis) == right.At(axis)
  {
    if forall axis: Axis :: left.At(axis) <= right.At(axis) {
      assert left.At(Calls) <= right.At(Calls) && left.At(InputTokens) <= right.At(InputTokens);
      assert left.At(OutputTokens) <= right.At(OutputTokens);
      assert left.At(MoneyMicrounits) <= right.At(MoneyMicrounits);
      assert left.At(WallClockMs) <= right.At(WallClockMs);
    }
    if forall axis: Axis :: left.At(axis) == right.At(axis) {
      assert left.At(Calls) == right.At(Calls) && left.At(InputTokens) == right.At(InputTokens);
      assert left.At(OutputTokens) == right.At(OutputTokens);
      assert left.At(MoneyMicrounits) == right.At(MoneyMicrounits);
      assert left.At(WallClockMs) == right.At(WallClockMs);
    }
  }

  // Totals of one axis.

  function Total(values: seq<int>): int {
    if values == [] then 0 else Total(values[..|values| - 1]) + values[|values| - 1]
  }

  lemma TotalAppend(values: seq<int>, last: int)
    ensures Total(values + [last]) == Total(values) + last
  {
    assert (values + [last])[..|values|] == values;
  }

  lemma {:induction false} TotalConcat(left: seq<int>, right: seq<int>)
    ensures Total(left + right) == Total(left) + Total(right)
    decreases right
  {
    if right == [] {
      assert left + right == left;
    } else {
      var init, last := right[..|right| - 1], right[|right| - 1];
      assert left + right == (left + init) + [last];
      TotalConcat(left, init);
      TotalAppend(left + init, last);
    }
  }

  function Mapped<T>(items: seq<T>, amount: T -> int): seq<int> {
    seq(|items|, i requires 0 <= i < |items| => amount(items[i]))
  }

  function Without<T>(items: seq<T>, i: nat): seq<T>
    requires i < |items|
  {
    items[..i] + items[i + 1..]
  }

  lemma MultisetRemove<T>(items: seq<T>, i: nat)
    requires i < |items|
    ensures multiset(Without(items, i)) == multiset(items) - multiset{items[i]}
    ensures |Without(items, i)| == |items| - 1
  {
    assert items == items[..i] + [items[i]] + items[i + 1..];
  }

  lemma TotalRemove<T>(items: seq<T>, i: nat, amount: T -> int)
    requires i < |items|
    ensures Total(Mapped(items, amount)) == Total(Mapped(Without(items, i), amount)) + amount(items[i])
  {
    var before, after := Mapped(items[..i], amount), Mapped(items[i + 1..], amount);
    assert Mapped(items, amount) == before + [amount(items[i])] + after;
    assert Mapped(Without(items, i), amount) == before + after;
    TotalConcat(before + [amount(items[i])], after);
    TotalConcat(before, after);
    TotalAppend(before, amount(items[i]));
  }

  /** The total of an amount over some records does not depend on their order. */
  lemma {:induction false} TotalPermutation<T>(left: seq<T>, right: seq<T>, amount: T -> int)
    requires multiset(left) == multiset(right)
    ensures Total(Mapped(left, amount)) == Total(Mapped(right, amount))
    decreases |left|
  {
    if left == [] {
      assert |multiset(right)| == 0;
    } else {
      assert left[0] in multiset(right);
      var i :| 0 <= i < |right| && right[i] == left[0];
      MultisetRemove(left, 0);
      MultisetRemove(right, i);
      hide Without, Mapped;
      TotalPermutation(Without(left, 0), Without(right, i), amount);
      TotalRemove(left, 0, amount);
      TotalRemove(right, i, amount);
    }
  }

  lemma {:induction false} TotalNonNegative(values: seq<int>)
    requires forall i :: 0 <= i < |values| ==> 0 <= values[i]
    ensures 0 <= Total(values)
  {
    if values != [] {
      TotalNonNegative(values[..|values| - 1]);
    }
  }

  lemma {:induction false} TotalZero(values: seq<int>)
    requires forall i :: 0 <= i < |values| ==> values[i] == 0
    ensures Total(values) == 0
  {
    if values != [] {
      TotalZero(values[..|values| - 1]);
    }
  }
}
