/**
 * The summary shown above the budget list: estimated, actual and paid totals,
 * each a left fold over the current item list.
 */
module BudgetSummary {
  import opened Optional
  import opened Values
  import opened BudgetItems

  /** `items.reduce((sum, item) => sum + amount(item), 0)`, folded from the left. */
  function Fold(items: seq<BudgetItem>, amount: BudgetItem -> int): int
    decreases |items|
  {
    if |items| == 0 then 0
    else Fold(items[..|items| - 1], amount) + amount(items[|items| - 1])
  }

  /** `items.filter(keep)`, in list order. */
  function Filter(items: seq<BudgetItem>, keep: BudgetItem -> bool): (kept: seq<BudgetItem>)
    ensures |kept| <= |items|
    // The two membership clauses are corollaries of the multiset clause below.
    ensures forall i :: 0 <= i < |kept| ==> keep(kept[i]) && kept[i] in items
    ensures forall i :: 0 <= i < |items| && keep(items[i]) ==> items[i] in kept
    ensures forall x :: multiset(kept)[x] == if keep(x) then multiset(items)[x] else 0
    decreases |items|
  {
    if |items| == 0 then []
    else
      var front := Filter(items[..|items| - 1], keep);
      assert items == items[..|items| - 1] + [items[|items| - 1]];
      if keep(items[|items| - 1]) then front + [items[|items| - 1]] else front
  }

  /** Filtering keeps list order: filtering a concatenation concatenates the filtered parts. */
  lemma {:induction false} FilterAppend(a: seq<BudgetItem>, b: seq<BudgetItem>, keep: BudgetItem -> bool)
    ensures Filter(a + b, keep) == Filter(a, keep) + Filter(b, keep)
    decreases |b|
  {
    if |b| == 0 {
      assert a + b == a;
    } else {
      var front := b[..|b| - 1];
      assert (a + b)[..|a + b| - 1] == a + front;
      assert (a + b)[|a + b| - 1] == b[|b| - 1];
      FilterAppend(a, front, keep);
    }
  }

  function Estimated(item: BudgetItem): int {
    item.estimatedCost
  }

  /** `item.actualCost ?? 0`. */
  function Actual(item: BudgetItem): int {
    item.actualCost.Coalesce(0)
  }

  /** `item.actualCost ?? item.estimatedCost`. */
  function PaidAmount(item: BudgetItem): int {
    item.actualCost.Coalesce(item.estimatedCost)
  }

  /** `item.status === 'paid'`. */
  predicate IsPaid(item: BudgetItem) {
    item.status == PAID
  }

  predicate HasActual(item: BudgetItem) {
    item.actualCost.Some?
  }

  /** Costs as the data model describes them: estimates and actual costs are never negative. */
  predicate NonNegativeCosts(items: seq<BudgetItem>) {
    forall i :: 0 <= i < |items| ==>
      items[i].estimatedCost >= 0 && (items[i].actualCost.Some? ==> items[i].actualCost.value >= 0)
  }

  /** `budgetItems.reduce((sum, item) => sum + item.estimatedCost, 0)`. */
  function TotalEstimated(items: seq<BudgetItem>): (total: int)
    ensures NonNegativeCosts(items) ==> 0 <= total
    ensures NonNegativeCosts(items) ==> forall i :: 0 <= i < |items| ==> items[i].estimatedCost <= total
  {
    FoldBounds(items, Estimated);
    Fold(items, Estimated)
  }

  /** `budgetItems.reduce((sum, item) => sum + (item.actualCost ?? 0), 0)`. */
  function TotalActual(items: seq<BudgetItem>): (total: int)
    ensures NonNegativeCosts(items) ==> 0 <= total
    ensures NonNegativeCosts(items) ==> forall i :: 0 <= i < |items| && items[i].actualCost.Some? ==> items[i].actualCost.value <= total
  {
    FoldBounds(items, Actual);
    Fold(items, Actual)
  }

  /** `budgetItems.filter(item => item.status === 'paid').reduce((sum, item) => sum + (item.actualCost ?? item.estimatedCost), 0)`. */
  function TotalPaid(items: seq<BudgetItem>): (total: int)
    ensures NonNegativeCosts(items) ==> 0 <= total <= TotalEstimated(items) + TotalActual(items)
  {
    FoldFilter(items, IsPaid, PaidAmount, PaidContribution);
    PaidBound(items);
    Fold(Filter(items, IsPaid), PaidAmount)
  }

  datatype Summary = Summary(totalEstimated: int, totalActual: int, totalPaid: int)

  /** The summary object of `useMemo`: the three totals side by side. */
  function SummaryOf(items: seq<BudgetItem>): (s: Summary)
    ensures NonNegativeCosts(items) ==> 0 <= s.totalEstimated && 0 <= s.totalActual
    ensures NonNegativeCosts(items) ==> 0 <= s.totalPaid <= s.totalEstimated + s.totalActual
  {
    Summary(TotalEstimated(items), TotalActual(items), TotalPaid(items))
  }

  /** A fold of non-negative amounts is non-negative and at least each single amount. */
  lemma {:induction false} FoldBounds(items: seq<BudgetItem>, amount: BudgetItem -> int)
    ensures (forall i :: 0 <= i < |items| ==> amount(items[i]) >= 0) ==>
      0 <= Fold(items, amount) && forall i :: 0 <= i < |items| ==> amount(items[i]) <= Fold(items, amount)
    decreases |items|
  {
    if |items| != 0 && forall i :: 0 <= i < |items| ==> amount(items[i]) >= 0 {
      var front := items[..|items| - 1];
      assert forall i :: 0 <= i < |front| ==> front[i] == items[i];
      FoldBounds(front, amount);
    }
  }

  /** A fold is monotone in the amount, and the fold of a sum of amounts is the sum of the folds. */
  lemma {:induction false} FoldMonotone(items: seq<BudgetItem>, f: BudgetItem -> int, g: BudgetItem -> int)
    requires forall i :: 0 <= i < |items| ==> f(items[i]) <= g(items[i])
    ensures Fold(items, f) <= Fold(items, g)
    decreases |items|
  {
    if |items| != 0 {
      var front := items[..|items| - 1];
      assert forall i :: 0 <= i < |front| ==> front[i] == items[i];
      FoldMonotone(front, f, g);
    }
  }

  lemma {:induction false} FoldSum(items: seq<BudgetItem>, f: BudgetItem -> int, g: BudgetItem -> int, h: BudgetItem -> int)
    requires forall x :: h(x) == f(x) + g(x)
    ensures Fold(items, h) == Fold(items, f) + Fold(items, g)
    decreases |items|
  {
    if |items| != 0 {
      FoldSum(items[..|items| - 1], f, g, h);
    }
  }

  /** Estimate plus actual cost: a bound on what one paid item can contribute. */
  function Spent(item: BudgetItem): int {
    item.estimatedCost + Actual(item)
  }

  /** With non-negative costs the paid contributions sum to at most estimated plus actual. */
  lemma PaidBound(items: seq<BudgetItem>)
    ensures NonNegativeCosts(items) ==>
      0 <= Fold(items, PaidContribution) <= Fold(items, Estimated) + Fold(items, Actual)
  {
    if NonNegativeCosts(items) {
      FoldBounds(items, PaidContribution);
      FoldMonotone(items, PaidContribution, Spent);
      FoldSum(items, Estimated, Actual, Spent);
    }
  }

  /** What one item adds to the paid total, independent of any filtering. */
  function PaidContribution(item: BudgetItem): int {
    if IsPaid(item) then PaidAmount(item) else 0
  }

  /** A fold of a concatenation is the sum of the folds. */
  lemma {:induction false} FoldAppend(a: seq<BudgetItem>, b: seq<BudgetItem>, amount: BudgetItem -> int)
    ensures Fold(a + b, amount) == Fold(a, amount) + Fold(b, amount)
    decreases |b|
  {
    if |b| == 0 {
      assert a + b == a;
    } else {
      var front := b[..|b| - 1];
      assert (a + b)[..|a + b| - 1] == a + front;
      assert (a + b)[|a + b| - 1] == b[|b| - 1];
      FoldAppend(a, front, amount);
    }
  }

  /** Taking one item out of a list takes its amount out of the fold. */
  lemma FoldRemove(b: seq<BudgetItem>, j: int, amount: BudgetItem -> int)
    requires 0 <= j < |b|
    ensures Fold(b, amount) == Fold(b[..j] + b[j + 1..], amount) + amount(b[j])
  {
    assert b == b[..j] + [b[j]] + b[j + 1..];
    FoldAppend(b[..j], [b[j]], amount);
    FoldAppend(b[..j] + [b[j]], b[j + 1..], amount);
    FoldAppend(b[..j], b[j + 1..], amount);
    assert [b[j]][..0] == [];
  }

  /** Taking one item out of a list takes it out of the list's multiset. */
  lemma MultisetRemove(b: seq<BudgetItem>, j: int)
    requires 0 <= j < |b|
    ensures multiset(b[..j] + b[j + 1..]) == multiset(b) - multiset{b[j]}
  {
    assert b == b[..j] + [b[j]] + b[j + 1..];
  }

  /** A fold does not depend on the order of the list. */
  lemma {:induction false} FoldPermutation(a: seq<BudgetItem>, b: seq<BudgetItem>, amount: BudgetItem -> int)
    requires multiset(a) == multiset(b)
    ensures Fold(a, amount) == Fold(b, amount)
    decreases |a|
  {
    if |a| == 0 {
      assert |b| == |multiset(b)| == 0;
    } else {
      var x := a[|a| - 1];
      var front := a[..|a| - 1];
      assert x in b by {
        assert x in multiset(a);
      }
      var j :| 0 <= j < |b| && b[j] == x;
      var rest := b[..j] + b[j + 1..];
      assert multiset(front) == multiset(rest) by {
        MultisetRemove(a, |a| - 1);
        MultisetRemove(b, j);
        assert a[..|a| - 1] + a[|a|..] == front;
      }
      FoldPermutation(front, rest, amount);
      FoldRemove(b, j, amount);
    }
  }

  /** The estimated total is the same for every ordering of the items. */
  lemma TotalEstimatedPermutation(a: seq<BudgetItem>, b: seq<BudgetItem>)
    requires multiset(a) == multiset(b)
    ensures TotalEstimated(a) == TotalEstimated(b)
  {
    FoldPermutation(a, b, Estimated);
  }

  /** Estimated totals of two lists add up. */
  lemma TotalEstimatedAppend(a: seq<BudgetItem>, b: seq<BudgetItem>)
    ensures TotalEstimated(a + b) == TotalEstimated(a) + TotalEstimated(b)
  {
    FoldAppend(a, b, Estimated);
  }

  /**
   * Folding the filtered list equals folding the whole list with every
   * rejected item counted as 0.
   */
  lemma {:induction false} FoldFilter(items: seq<BudgetItem>, keep: BudgetItem -> bool, amount: BudgetItem -> int, masked: BudgetItem -> int)
    requires forall x :: masked(x) == (if keep(x) then amount(x) else 0)
    ensures Fold(Filter(items, keep), amount) == Fold(items, masked)
    decreases |items|
  {
    if |items| != 0 {
      var front := items[..|items| - 1];
      var last := items[|items| - 1];
      FoldFilter(front, keep, amount, masked);
      if keep(last) {
        FoldAppend(Filter(front, keep), [last], amount);
        assert [last][..0] == [];
      }
    }
  }

  /** An item without an actual cost counts as 0: the actual total sums the costs that are present. */
  lemma {:induction false} TotalActualSumsPresentCosts(items: seq<BudgetItem>)
    ensures TotalActual(items) == Fold(Filter(items, HasActual), Actual)
  {
    FoldFilter(items, HasActual, Actual, Actual);
  }

  /** Appending an item with no actual cost leaves the actual total unchanged. */
  lemma {:induction false} TotalActualIgnoresMissing(items: seq<BudgetItem>, item: BudgetItem)
    requires item.actualCost.None?
    ensures TotalActual(items + [item]) == TotalActual(items)
  {
    assert (items + [item])[..|items|] == items;
  }

  /** The paid total is the sum of every item's contribution: paid items only, actual cost first. */
  lemma {:induction false} TotalPaidIsSumOfContributions(items: seq<BudgetItem>)
    ensures TotalPaid(items) == Fold(items, PaidContribution)
  {
    FoldFilter(items, IsPaid, PaidAmount, PaidContribution);
  }

  /** An item whose status is not `paid` never changes the paid total when appended. */
  lemma {:induction false} TotalPaidAppendUnpaid(items: seq<BudgetItem>, item: BudgetItem)
    requires !IsPaid(item)
    ensures TotalPaid(items + [item]) == TotalPaid(items)
  {
    assert (items + [item])[..|items|] == items;
  }

  /** A paid item adds its actual cost when it has one, its estimate otherwise. */
  lemma {:induction false} TotalPaidAppendPaid(items: seq<BudgetItem>, item: BudgetItem)
    requires IsPaid(item)
    ensures item.actualCost.Some? ==> TotalPaid(items + [item]) == TotalPaid(items) + item.actualCost.value
    ensures item.actualCost.None? ==> TotalPaid(items + [item]) == TotalPaid(items) + item.estimatedCost
  {
    assert (items + [item])[..|items|] == items;
    FoldAppend(Filter(items, IsPaid), [item], PaidAmount);
    assert [item][..0] == [];
  }

  /** The paid total does not depend on the order of the items. */
  lemma TotalPaidPermutation(a: seq<BudgetItem>, b: seq<BudgetItem>)
    requires multiset(a) == multiset(b)
    ensures TotalPaid(a) == TotalPaid(b)
  {
    TotalPaidIsSumOfContributions(a);
    TotalPaidIsSumOfContributions(b);
    FoldPermutation(a, b, PaidContribution);
  }

  /** The single paid item with estimate 500 and actual cost 450 makes a paid total of 450. */
  lemma PaidScenario(now: Timestamp)
    ensures var item := BudgetItem("1", Str("Venue"), Undefined, 500, Some(450), PAID, now, None, None, Undefined);
            TotalPaid([item]) == 450
  {
    var item := BudgetItem("1", Str("Venue"), Undefined, 500, Some(450), PAID, now, None, None, Undefined);
    assert [item][..0] == [];
    assert IsPaid(item);
    assert Filter([item], IsPaid) == [item];
    assert Fold([item], PaidAmount) == 450;
  }

  /**
   * Computes the three totals in one pass over the list; each equals the
   * fold the page performs.
   */
  method Summarize(items: seq<BudgetItem>) returns (s: Summary)
    ensures s.totalEstimated == TotalEstimated(items)
    ensures s.totalActual == TotalActual(items)
    ensures s.totalPaid == Fold(items, PaidContribution)
    ensures s == SummaryOf(items)
  {
    var estimated, actual, paid := 0, 0, 0;
    var i := 0;
    while i < |items|
      invariant 0 <= i <= |items|
      invariant estimated == Fold(items[..i], Estimated)
      invariant actual == Fold(items[..i], Actual)
      invariant paid == Fold(items[..i], PaidContribution)
    {
      var item := items[i];
      assert items[..i + 1][..i] == items[..i];
      estimated := estimated + item.estimatedCost;
      actual := actual + item.actualCost.Coalesce(0);
      if item.status == PAID {
        paid := paid + item.actualCost.Coalesce(item.estimatedCost);
      }
      i := i + 1;
    }
    assert items[..i] == items;
    TotalPaidIsSumOfContributions(items);
    s := Summary(estimated, actual, paid);
  }
}
