/**
 * components/bills/BillsSummaryDetails.tsx: the bills split by their day of
 * the month against today's day into paid (already passed), due soon (the
 * next two days) and upcoming (later this month).
 */
module BillsSummary {
  import opened Seqs
  import opened Records

  /** `getUTCDate() <= today`. */
  function PaidBy(today: int): Bill -> bool {
    (b: Bill) => b.date.day <= today
  }

  /** `d === today + 1 || d === today + 2`. */
  function DueSoonBy(today: int): Bill -> bool {
    (b: Bill) => b.date.day == today + 1 || b.date.day == today + 2
  }

  /** `getUTCDate() > today + 2`. */
  function UpcomingBy(today: int): Bill -> bool {
    (b: Bill) => b.date.day > today + 2
  }

  function Amount(b: Bill): real { b.amount }

  datatype Summary = Summary(paidTotal: real, upcomingTotal: real, dueSoonCount: nat)

  /** The summary of `bills` on the day of the month `today`. */
  function SummaryOf(bills: seq<Bill>, today: Day): Summary {
    Summary(
      SumOf(Filter(bills, PaidBy(today)), Amount),
      SumOf(Filter(bills, UpcomingBy(today)), Amount),
      |Filter(bills, DueSoonBy(today))|)
  }

  /** Every bill falls in exactly one of the three buckets. */
  lemma BucketsPartition(bills: seq<Bill>, today: Day)
    ensures forall i :: 0 <= i < |bills| ==>
      ExactlyOne(PaidBy(today), DueSoonBy(today), UpcomingBy(today), bills[i])
    ensures |Filter(bills, PaidBy(today))| + |Filter(bills, DueSoonBy(today))|
      + |Filter(bills, UpcomingBy(today))| == |bills|
    ensures var s := SummaryOf(bills, today);
      s.paidTotal + SumOf(Filter(bills, DueSoonBy(today)), Amount) + s.upcomingTotal == SumOf(bills, Amount)
  {
    ThreeWayPartition(bills, PaidBy(today), DueSoonBy(today), UpcomingBy(today), Amount);
  }

  /**
   * A bill is counted as due soon exactly when its day is one of the next two,
   * and it then adds to neither total.
   */
  lemma DueSoonMeans(bills: seq<Bill>, today: Day, b: Bill)
    ensures b in Filter(bills, DueSoonBy(today)) <==>
      b in bills && (b.date.day == today + 1 || b.date.day == today + 2)
    ensures b in Filter(bills, DueSoonBy(today)) ==>
      b !in Filter(bills, PaidBy(today)) && b !in Filter(bills, UpcomingBy(today))
  {
  }

  /** From the 29th on nothing is upcoming: no day of the month is after the 31st. */
  lemma NothingUpcomingLate(bills: seq<Bill>, today: Day)
    requires today >= 29
    ensures Filter(bills, UpcomingBy(today)) == []
    ensures SummaryOf(bills, today).upcomingTotal == 0.0
  {
  }

  /**
   * The `paid` flag of a bill plays no part: two lists with the same days and
   * amounts have the same summary.
   */
  lemma {:induction false} IgnoresPaidFlag(a: seq<Bill>, b: seq<Bill>, today: Day)
    requires |a| == |b|
    requires forall i :: 0 <= i < |a| ==> a[i].date.day == b[i].date.day && a[i].amount == b[i].amount
    ensures SummaryOf(a, today) == SummaryOf(b, today)
  {
    if a != [] {
      IgnoresPaidFlag(a[1..], b[1..], today);
    }
  }

  /** With non-negative amounts both totals are at most the sum of all the bills. */
  lemma TotalsBounded(bills: seq<Bill>, today: Day)
    requires forall i :: 0 <= i < |bills| ==> bills[i].amount >= 0.0
    ensures var s := SummaryOf(bills, today);
      && 0.0 <= s.paidTotal && 0.0 <= s.upcomingTotal
      && s.paidTotal + s.upcomingTotal <= SumOf(bills, Amount)
      && s.dueSoonCount <= |bills|
  {
    BucketsPartition(bills, today);
    NonNegativePart(bills, PaidBy(today));
    NonNegativePart(bills, DueSoonBy(today));
    NonNegativePart(bills, UpcomingBy(today));
  }

  lemma NonNegativePart(bills: seq<Bill>, p: Bill -> bool)
    requires forall i :: 0 <= i < |bills| ==> bills[i].amount >= 0.0
    ensures SumOf(Filter(bills, p), Amount) >= 0.0
  {
    var f := Filter(bills, p);
    forall i | 0 <= i < |f| ensures Amount(f[i]) >= 0.0 {
      assert f[i] in bills;
    }
    SumOfNonNegative(f, Amount);
  }

  /** A bill due on the 3rd, seen on the 2nd, is due soon and in neither total. */
  lemma DueTomorrowExample(b: Bill)
    requires b.date.day == 3
    ensures SummaryOf([b], 2) == Summary(0.0, 0.0, 1)
  {
  }
}
