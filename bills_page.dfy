/**
 * app/bills/page.tsx: the recurring bills derived from the transactions, the
 * searched and sorted `visible` list, and the totals shown beside it.
 */
module BillsPage {
  import opened Seqs
  import opened Sorting
  import opened Text
  import opened Records
  import opened SortOptions
  import ArraySort

  predicate IsRecurring(t: Transaction) {
    t.recurring
  }

  /** The English ordinal suffix of a day of the month. */
  function Suffix(d: int): string {
    if d % 10 == 1 && d != 11 then "st"
    else if d % 10 == 2 && d != 12 then "nd"
    else if d % 10 == 3 && d != 13 then "rd"
    else "th"
  }

  /** The label "Monthly - 3rd" of a bill due on `day`. */
  function DueLabel(day: Day): string {
    "Monthly - " + NatToString(day) + Suffix(day)
  }

  /** The name with every white-space run turned into `-`, then lower-cased. */
  function Slug(name: string): string {
    ToLower(ReplaceSpaceRuns(name))
  }

  /** `${i}-${slug}`. */
  function BillId(i: nat, name: string): string {
    NatToString(i) + "-" + Slug(name)
  }

  function Abs(x: real): real {
    if x < 0.0 then -x else x
  }

  /** The bill built from the recurring transaction at position `i` among the recurring ones. */
  function ToBill(t: Transaction, i: nat): Bill {
    Bill(BillId(i, t.name), t.name, Abs(t.amount), DueLabel(t.date.day), t.amount > 0.0, t.category, t.date)
  }

  /** `.map((t, i) => ...)` over a list whose first element has index `start`. */
  function DeriveFrom(rs: seq<Transaction>, start: nat): (r: seq<Bill>)
    ensures |r| == |rs|
    ensures forall k :: 0 <= k < |rs| ==> r[k] == ToBill(rs[k], start + k)
  {
    if rs == [] then [] else [ToBill(rs[0], start)] + DeriveFrom(rs[1..], start + 1)
  }

  /** `initialBills`: one bill per recurring transaction, in order. */
  function InitialBills(txs: seq<Transaction>): seq<Bill> {
    DeriveFrom(Filter(txs, IsRecurring), 0)
  }

  // ---------------------------------------------------------------- labels and ids

  lemma SuffixRule(d: Day)
    ensures Suffix(d) == "st" <==> d % 10 == 1 && d != 11
    ensures Suffix(d) == "nd" <==> d % 10 == 2 && d != 12
    ensures Suffix(d) == "rd" <==> d % 10 == 3 && d != 13
    ensures Suffix(d) == "th" <==> d % 10 !in {1, 2, 3} || 11 <= d <= 13
  {
  }

  lemma DueLabelExamples()
    ensures DueLabel(1) == "Monthly - 1st" && DueLabel(2) == "Monthly - 2nd"
    ensures DueLabel(3) == "Monthly - 3rd" && DueLabel(4) == "Monthly - 4th"
    ensures DueLabel(11) == "Monthly - 11th" && DueLabel(12) == "Monthly - 12th"
    ensures DueLabel(13) == "Monthly - 13th" && DueLabel(21) == "Monthly - 21st"
    ensures DueLabel(22) == "Monthly - 22nd" && DueLabel(23) == "Monthly - 23rd"
    ensures DueLabel(30) == "Monthly - 30th" && DueLabel(31) == "Monthly - 31st"
  {
  }

  /** Ids built from different indices differ, whatever the names. */
  lemma BillIdInjective(i: nat, a: string, j: nat, b: string)
    requires BillId(i, a) == BillId(j, b)
    ensures i == j
  {
    var di, dj := NatToString(i), NatToString(j);
    var id := BillId(i, a);
    assert id[|di|] == '-' && BillId(j, b)[|dj|] == '-';
    assert |di| == |dj|;
    assert di == id[..|di|] == dj;
    NatToStringInjective(i, j);
  }

  /** The slug of a name contains no white space. */
  lemma SlugHasNoSpace(name: string)
    ensures forall i :: 0 <= i < |Slug(name)| ==> !IsSpace(Slug(name)[i])
  {
  }

  /**
   * The bills are the recurring transactions in their original order, each with
   * its absolute amount, `paid` exactly when the raw amount is positive, the
   * due label of its day and an id unique among the bills.
   */
  lemma InitialBillsSpec(txs: seq<Transaction>)
    ensures var rs, bills := Filter(txs, IsRecurring), InitialBills(txs);
      && |bills| == |rs|
      && (forall k :: 0 <= k < |bills| ==>
            && bills[k].title == rs[k].name
            && bills[k].amount >= 0.0
            && (bills[k].amount == rs[k].amount || bills[k].amount == -rs[k].amount)
            && (bills[k].paid <==> rs[k].amount > 0.0)
            && bills[k].dueLabel == DueLabel(rs[k].date.day)
            && bills[k].id == BillId(k, rs[k].name)
            && bills[k].date == rs[k].date && bills[k].category == rs[k].category)
      && (forall k, m :: 0 <= k < m < |bills| ==> bills[k].id != bills[m].id)
  {
    var rs, bills := Filter(txs, IsRecurring), InitialBills(txs);
    forall k, m | 0 <= k < m < |bills| ensures bills[k].id != bills[m].id {
      if bills[k].id == bills[m].id {
        BillIdInjective(k, rs[k].name, m, rs[m].name);
      }
    }
  }

  // ---------------------------------------------------------------- the visible list

  function BillTime(b: Bill): int { b.date.time }
  function BillTitle(b: Bill): string { b.title }
  function BillAmount(b: Bill): real { b.amount }

  /** The comparator the page passes to `list.sort` for `opt`. */
  function BillLe(opt: SortOption): (Bill, Bill) -> bool {
    ByKeys(opt, BillTime, BillTitle, BillAmount)
  }

  /** `b => b.title.toLowerCase().includes(q)`. */
  function TitleIncludes(q: string): Bill -> bool {
    (b: Bill) => Contains(ToLower(b.title), q)
  }

  /** The list after the search step: everything for a blank query. */
  function Searched(bills: seq<Bill>, query: string): seq<Bill> {
    if Trim(query) == "" then bills else Filter(bills, TitleIncludes(ToLower(query)))
  }

  /** `visible`: the copy of `bills`, searched, then sorted by the chosen option. */
  function Visible(bills: seq<Bill>, query: string, opt: SortOption): seq<Bill> {
    SortBy(Searched(bills, query), BillLe(opt))
  }

  /** The `useMemo` body: the copy `list` searched, then sorted in place. */
  method VisibleBills(bills: seq<Bill>, query: string, opt: SortOption) returns (list: seq<Bill>)
    ensures list == Visible(bills, query, opt)
  {
    list := bills;
    if Trim(query) != "" {
      list := Filter(list, TitleIncludes(ToLower(query)));
    }
    var a := new Bill[|list|](i requires 0 <= i < |list| => list[i]);
    assert a[..] == list;
    ArraySort.SortInPlace(a, BillLe(opt));
    list := a[..];
  }

  /**
   * A blank query keeps every bill, any other keeps those whose lower-cased
   * title contains the lower-cased query, in their original order.
   */
  lemma SearchedSpec(bills: seq<Bill>, query: string)
    ensures AllSpace(query) ==> Searched(bills, query) == bills
    ensures forall b :: b in Searched(bills, query) <==>
      b in bills && (AllSpace(query) || Contains(ToLower(b.title), ToLower(query)))
    ensures Subsequence(Searched(bills, query), bills)
  {
    if AllSpace(query) {
      SubsequenceRefl(bills);
    } else {
      FilterIsSubsequence(bills, TitleIncludes(ToLower(query)));
    }
  }

  lemma {:induction false} SubsequenceRefl<T>(s: seq<T>)
    ensures Subsequence(s, s)
  {
    if s != [] {
      SubsequenceRefl(s[1..]);
    }
  }

  /** Sorted by the comparator of `opt` means ordered by its key. */
  lemma SortedMeans(v: seq<Bill>, opt: SortOption)
    requires Sorted(v, BillLe(opt))
    ensures opt == Highest ==> forall i, j :: 0 <= i < j < |v| ==> v[i].amount >= v[j].amount
    ensures opt == Lowest ==> forall i, j :: 0 <= i < j < |v| ==> v[i].amount <= v[j].amount
    ensures opt == Latest ==> forall i, j :: 0 <= i < j < |v| ==> v[i].date.time >= v[j].date.time
    ensures opt == Oldest ==> forall i, j :: 0 <= i < j < |v| ==> v[i].date.time <= v[j].date.time
  {
    forall i, j | 0 <= i < j < |v|
      ensures KeyLe(opt, v[i].date.time, v[i].title, v[i].amount, v[j].date.time, v[j].title, v[j].amount)
    {
      assert BillLe(opt)(v[i], v[j]);
      ByKeysApply(opt, BillTime, BillTitle, BillAmount, v[i], v[j]);
    }
  }

  /**
   * `visible` is a stable, sorted permutation of the searched list: by amount
   * for highest/lowest, by timestamp for latest/oldest.
   */
  lemma VisibleSpec(bills: seq<Bill>, query: string, opt: SortOption)
    ensures var v, found := Visible(bills, query, opt), Searched(bills, query);
      && multiset(v) == multiset(found)
      && Sorted(v, BillLe(opt))
      && (forall z :: Filter(v, TiedWith(z, BillLe(opt))) == Filter(found, TiedWith(z, BillLe(opt))))
      && (opt == Highest ==> forall i, j :: 0 <= i < j < |v| ==> v[i].amount >= v[j].amount)
      && (opt == Lowest ==> forall i, j :: 0 <= i < j < |v| ==> v[i].amount <= v[j].amount)
      && (opt == Latest ==> forall i, j :: 0 <= i < j < |v| ==> v[i].date.time >= v[j].date.time)
      && (opt == Oldest ==> forall i, j :: 0 <= i < j < |v| ==> v[i].date.time <= v[j].date.time)
  {
    ByKeysTotalPreorder(opt, BillTime, BillTitle, BillAmount);
    SortByCorrect(Searched(bills, query), BillLe(opt));
    SortedMeans(Visible(bills, query, opt), opt);
  }

  // ---------------------------------------------------------------- totals

  predicate IsPaid(b: Bill) {
    b.paid
  }

  datatype BillTotals = BillTotals(totalBills: real, paidBillsTotal: real, upcomingTotal: real, dueSoonCount: nat)

  /** `totalBills`, `paidBillsTotal`, `upcomingTotal` and `dueSoonCount` of a visible list. */
  function Totals(visible: seq<Bill>): BillTotals {
    var total := SumOf(visible, BillAmount);
    var paid := SumOf(Filter(visible, IsPaid), BillAmount);
    BillTotals(total, paid, total - paid, |Filter(visible, Not(IsPaid))|)
  }

  /**
   * The upcoming total is the sum over the unpaid bills, the due-soon count is
   * their number, and with non-negative amounts every total is non-negative.
   */
  lemma TotalsSpec(visible: seq<Bill>)
    ensures var t := Totals(visible);
      && t.totalBills == t.paidBillsTotal + t.upcomingTotal
      && t.upcomingTotal == SumOf(Filter(visible, Not(IsPaid)), BillAmount)
      && t.dueSoonCount <= |visible|
      && ((forall i :: 0 <= i < |visible| ==> visible[i].amount >= 0.0) ==>
            t.paidBillsTotal >= 0.0 && t.upcomingTotal >= 0.0)
  {
    SumOfSplit(visible, IsPaid, BillAmount);
    if forall i :: 0 <= i < |visible| ==> visible[i].amount >= 0.0 {
      FilterAmountsNonNegative(visible, IsPaid);
      FilterAmountsNonNegative(visible, Not(IsPaid));
    }
  }

  lemma FilterAmountsNonNegative(bills: seq<Bill>, p: Bill -> bool)
    requires forall i :: 0 <= i < |bills| ==> bills[i].amount >= 0.0
    ensures SumOf(Filter(bills, p), BillAmount) >= 0.0
  {
    var f := Filter(bills, p);
    forall i | 0 <= i < |f| ensures BillAmount(f[i]) >= 0.0 {
      assert f[i] in bills;
    }
    SumOfNonNegative(f, BillAmount);
  }

  /** The totals do not depend on the sort order. */
  lemma TotalsIgnoreSort(bills: seq<Bill>, query: string, o1: SortOption, o2: SortOption)
    ensures Totals(Visible(bills, query, o1)) == Totals(Visible(bills, query, o2))
  {
    var v1, v2 := Visible(bills, query, o1), Visible(bills, query, o2);
    assert multiset(v1) == multiset(v2);
    SumOfPermutation(v1, v2, BillAmount);
    FilterPermutation(v1, v2, IsPaid);
    SumOfPermutation(Filter(v1, IsPaid), Filter(v2, IsPaid), BillAmount);
    FilterPermutation(v1, v2, Not(IsPaid));
    assert |Filter(v1, Not(IsPaid))| == |multiset(Filter(v1, Not(IsPaid)))|;
    assert |Filter(v2, Not(IsPaid))| == |multiset(Filter(v2, Not(IsPaid)))|;
  }

  /** On the page, where the bills are derived, the upcoming total is never negative. */
  lemma PageTotalsNonNegative(txs: seq<Transaction>, query: string, opt: SortOption)
    ensures var v := Visible(InitialBills(txs), query, opt);
      && Totals(v).paidBillsTotal >= 0.0 && Totals(v).upcomingTotal >= 0.0
      && Totals(v).dueSoonCount <= |v|
  {
    var bills := InitialBills(txs);
    var v := Visible(bills, query, opt);
    InitialBillsSpec(txs);
    SearchedSpec(bills, query);
    assert multiset(v) == multiset(Searched(bills, query));
    forall i | 0 <= i < |v| ensures v[i].amount >= 0.0 {
      assert v[i] in multiset(Searched(bills, query));
      assert v[i] in bills;
    }
    TotalsSpec(v);
  }
}
