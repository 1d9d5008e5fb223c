/**
 * The conic-gradient stops both budget views draw: each budget gets the arc
 * `maximum / totalMax` of the circle, laid end to end from 0% by a running
 * accumulator (app/budgets/page.tsx and components/BudgetsCard.tsx).
 */
module Donut {
  import opened Wrappers
  import opened Seqs
  import opened Records

  /** One stop: the colour and the start and end of its arc, in percent. */
  datatype Stop = Stop(color: string, start: real, end: real)

  function Maximum(b: Budget): real { b.maximum }

  /** `(b.maximum / totalMax) * 100`: the budget's arc in percent. */
  function ShareOf(totalMax: real): Budget -> real
    requires totalMax != 0.0
  {
    (b: Budget) => b.maximum / totalMax * 100.0
  }

  /**
   * What the stops for the first `|stops|` budgets satisfy: the arcs are
   * contiguous, the first starts at 0, each is as wide as its budget's share,
   * each carries the budget's theme or the fallback colour, and each ends at
   * the running sum of the shares.
   */
  predicate StopsOf(budgets: seq<Budget>, totalMax: real, fallback: string, stops: seq<Stop>)
    requires totalMax != 0.0 && |stops| <= |budgets|
  {
    && (|stops| > 0 ==> stops[0].start == 0.0)
    && (forall i :: 0 < i < |stops| ==> stops[i].start == stops[i - 1].end)
    && (forall i :: 0 <= i < |stops| ==> stops[i].end == stops[i].start + budgets[i].maximum / totalMax * 100.0)
    && (forall i :: 0 <= i < |stops| ==> stops[i].color == budgets[i].theme.GetOr(fallback))
    && (forall i :: 0 <= i < |stops| ==> stops[i].end == SumOf(budgets[..i + 1], ShareOf(totalMax)))
  }

  /** The `acc` loop, which builds one stop per budget. */
  method Stops(budgets: seq<Budget>, totalMax: real, fallback: string) returns (stops: seq<Stop>)
    requires totalMax != 0.0
    ensures |stops| == |budgets|
    ensures StopsOf(budgets, totalMax, fallback, stops)
  {
    var acc := 0.0;
    stops := [];
    var i := 0;
    while i < |budgets|
      invariant 0 <= i <= |budgets| && |stops| == i
      invariant acc == SumOf(budgets[..i], ShareOf(totalMax))
      invariant i > 0 ==> acc == stops[i - 1].end
      invariant StopsOf(budgets, totalMax, fallback, stops)
    {
      var pct := budgets[i].maximum / totalMax * 100.0;
      var start := acc;
      var end := acc + pct;
      StopsExtend(budgets, totalMax, fallback, stops, acc);
      acc := end;
      stops := stops + [Stop(budgets[i].theme.GetOr(fallback), start, end)];
      i := i + 1;
    }
  }

  /** One more turn of the loop keeps `StopsOf`, and the accumulator stays the running sum. */
  lemma StopsExtend(budgets: seq<Budget>, totalMax: real, fallback: string, stops: seq<Stop>, acc: real)
    requires totalMax != 0.0 && |stops| < |budgets|
    requires StopsOf(budgets, totalMax, fallback, stops)
    requires acc == SumOf(budgets[..|stops|], ShareOf(totalMax))
    requires |stops| > 0 ==> acc == stops[|stops| - 1].end
    ensures var b := budgets[|stops|];
      var end := acc + b.maximum / totalMax * 100.0;
      && end == SumOf(budgets[..|stops| + 1], ShareOf(totalMax))
      && StopsOf(budgets, totalMax, fallback, stops + [Stop(b.theme.GetOr(fallback), acc, end)])
  {
    PrefixSum(budgets, |stops|, ShareOf(totalMax));
  }

  /** A prefix sum grows by the next element. */
  lemma PrefixSum<T>(s: seq<T>, i: nat, f: T -> real)
    requires i < |s|
    ensures SumOf(s[..i + 1], f) == SumOf(s[..i], f) + f(s[i])
  {
    assert s[..i + 1] == s[..i] + [s[i]];
    SumOfAppend(s[..i], [s[i]], f);
  }

  /** The shares add up to the sum of the maxima, as a percentage of `totalMax`. */
  lemma {:induction false} ShareSum(budgets: seq<Budget>, totalMax: real)
    requires totalMax != 0.0
    ensures SumOf(budgets, ShareOf(totalMax)) == SumOf(budgets, Maximum) / totalMax * 100.0
  {
    if budgets != [] {
      ShareSum(budgets[1..], totalMax);
      DivAdd(budgets[0].maximum, SumOf(budgets[1..], Maximum), totalMax);
    }
  }

  lemma DivAdd(a: real, b: real, t: real)
    requires t != 0.0
    ensures a / t * 100.0 + b / t * 100.0 == (a + b) / t * 100.0
  {
  }

  /** A whole is 100 percent of itself, and nothing is 0 percent. */
  lemma Percent(part: real, whole: real)
    requires whole != 0.0
    ensures part == whole ==> part / whole * 100.0 == 100.0
    ensures part == 0.0 ==> part / whole * 100.0 == 0.0
  {
  }

  /** Where the last arc ends: the sum of the maxima as a percentage of `totalMax`. */
  lemma LastEnd(budgets: seq<Budget>, totalMax: real, stops: seq<Stop>)
    requires totalMax != 0.0 && |stops| == |budgets| > 0
    requires stops[|stops| - 1].end == SumOf(budgets[..|budgets|], ShareOf(totalMax))
    ensures stops[|stops| - 1].end == SumOf(budgets, Maximum) / totalMax * 100.0
  {
    assert budgets[..|budgets|] == budgets;
    ShareSum(budgets, totalMax);
  }
}
