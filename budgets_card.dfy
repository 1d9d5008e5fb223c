/**
 * components/BudgetsCard.tsx: the overview's donut of budgets. Spending per
 * budget, the total spent and each row's percentage are computed as on the
 * budgets page (`BudgetsPage.BudgetsWithSpent`, `BudgetsPage.TotalSpent`,
 * `BudgetsPage.Pct`); only the denominator of the arcs and the fallback
 * colour differ.
 */
module BudgetsCard {
  import opened Wrappers
  import opened Seqs
  import opened Records
  import Donut
  import BudgetsPage

  /** `sum of the maxima || 1`: the sum itself unless it is 0. */
  function TotalMax(budgets: seq<Budget>): (r: real)
    ensures r != 0.0
    ensures SumOf(budgets, Donut.Maximum) != 0.0 ==> r == SumOf(budgets, Donut.Maximum)
    ensures SumOf(budgets, Donut.Maximum) == 0.0 ==> r == 1.0
  {
    var sum := SumOf(budgets, Donut.Maximum);
    if sum == 0.0 then 1.0 else sum
  }

  /** The card's stops, with `'#7dd3fc'` for a budget without a theme; a list with a non-zero sum closes the circle. */
  method GradientStops(budgets: seq<Budget>) returns (stops: seq<Donut.Stop>)
    ensures |stops| == |budgets|
    ensures |stops| > 0 ==> stops[0].start == 0.0
    ensures forall i :: 0 < i < |stops| ==> stops[i].start == stops[i - 1].end
    ensures forall i :: 0 <= i < |stops| ==> stops[i].color == budgets[i].theme.GetOr("#7dd3fc")
    ensures |stops| > 0 && SumOf(budgets, Donut.Maximum) != 0.0 ==> stops[|stops| - 1].end == 100.0
    ensures |stops| > 0 && SumOf(budgets, Donut.Maximum) == 0.0 ==> stops[|stops| - 1].end == 0.0
  {
    var total := SumOf(budgets, Donut.Maximum);
    stops := Donut.Stops(budgets, TotalMax(budgets), "#7dd3fc");
    if |stops| > 0 {
      Donut.LastEnd(budgets, TotalMax(budgets), stops);
      Donut.Percent(total, TotalMax(budgets));
    }
  }

  /**
   * When every maximum is at least 1, as the budget form demands, the card
   * and the page divide by the same total, so both donuts are the same.
   */
  lemma AgreesWithPage(budgets: seq<Budget>)
    requires forall i :: 0 <= i < |budgets| ==> budgets[i].maximum >= 1.0
    ensures TotalMax(budgets) == BudgetsPage.TotalMax(budgets)
  {
    SumAtLeastLength(budgets);
  }

  lemma {:induction false} SumAtLeastLength(budgets: seq<Budget>)
    requires forall i :: 0 <= i < |budgets| ==> budgets[i].maximum >= 1.0
    ensures SumOf(budgets, Donut.Maximum) >= |budgets| as real
  {
    if budgets != [] {
      SumAtLeastLength(budgets[1..]);
    }
  }

  /** The two totals part ways below 1: a single budget of 0.5 fills the card's circle but half the page's. */
  lemma DiffersBelowOne()
    ensures var bs := [Budget("Dining Out", 0.5, None)];
      TotalMax(bs) == 0.5 && BudgetsPage.TotalMax(bs) == 1.0
  {
    var bs := [Budget("Dining Out", 0.5, None)];
    assert SumOf(bs, Donut.Maximum) == 0.5;
  }
}
