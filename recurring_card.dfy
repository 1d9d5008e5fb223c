/**
 * components/RecurringBillsCard.tsx: the overview card's paid, upcoming and
 * due-soon figures over the recurring transactions.
 */
module RecurringCard {
  import opened Seqs
  import opened Records
  import opened JsMath
  import BillsPage

  predicate IsRecurring(t: Transaction) { t.recurring }
  predicate IsIncome(t: Transaction) { t.amount > 0.0 }
  predicate IsExpense(t: Transaction) { t.amount < 0.0 }

  function TxAmount(t: Transaction): real { t.amount }
  function TxAbsAmount(t: Transaction): real { if t.amount < 0.0 then -t.amount else t.amount }

  datatype CardFigures = CardFigures(paid: real, upcoming: real, dueSoon: real)

  /** `paid`: the sum of the positive recurring amounts. */
  function Paid(txs: seq<Transaction>): real {
    SumOf(Filter(Filter(txs, IsRecurring), IsIncome), TxAmount)
  }

  /** `upcoming`: the sum of the magnitudes of the negative recurring amounts. */
  function Upcoming(txs: seq<Transaction>): real {
    SumOf(Filter(Filter(txs, IsRecurring), IsExpense), TxAbsAmount)
  }

  /** `Math.round(upcoming * 0.3 * 100) / 100`: 30% of the upcoming sum, to the cent. */
  function DueSoon(upcoming: real): real {
    Round(upcoming * 0.3 * 100.0) as real / 100.0
  }

  function Card(txs: seq<Transaction>): CardFigures {
    var up := Upcoming(txs);
    CardFigures(Paid(txs), up, DueSoon(up))
  }

  /** Both sums are non-negative, and the due-soon figure is 30% of upcoming within half a cent. */
  lemma CardSpec(txs: seq<Transaction>)
    ensures var c := Card(txs);
      && c.paid >= 0.0 && c.upcoming >= 0.0
      && c.upcoming * 0.3 - 0.005 < c.dueSoon <= c.upcoming * 0.3 + 0.005
  {
    var inc := Filter(Filter(txs, IsRecurring), IsIncome);
    var exp := Filter(Filter(txs, IsRecurring), IsExpense);
    forall i | 0 <= i < |inc| ensures TxAmount(inc[i]) >= 0.0 {
      assert IsIncome(inc[i]);
    }
    SumOfNonNegative(inc, TxAmount);
    SumOfNonNegative(exp, TxAbsAmount);
  }

  /** A transaction that is not recurring, or whose amount is zero, changes no figure. */
  lemma IgnoredTransaction(txs: seq<Transaction>, t: Transaction)
    requires !t.recurring || t.amount == 0.0
    ensures Card(txs + [t]) == Card(txs)
  {
    FilterAppend(txs, [t], IsRecurring);
    var r := Filter(txs, IsRecurring);
    var rt := Filter([t], IsRecurring);
    FilterAppend(r, rt, IsIncome);
    FilterAppend(r, rt, IsExpense);
    assert Filter(rt, IsIncome) == [] && Filter(rt, IsExpense) == [];
    assert r + rt == Filter(txs + [t], IsRecurring);
    assert Filter(r, IsIncome) + [] == Filter(r, IsIncome);
    assert Filter(r, IsExpense) + [] == Filter(r, IsExpense);
  }

  /**
   * The card agrees with the bills page: its paid figure is the page's paid
   * total and its upcoming figure the page's upcoming total, over the bills
   * derived from the same transactions.
   */
  lemma AgreesWithBillsPage(txs: seq<Transaction>)
    ensures Paid(txs) == BillsPage.Totals(BillsPage.InitialBills(txs)).paidBillsTotal
    ensures Upcoming(txs) == BillsPage.Totals(BillsPage.InitialBills(txs)).upcomingTotal
  {
    var rs := Filter(txs, IsRecurring);
    assert rs == Filter(txs, BillsPage.IsRecurring) by {
      SameFilter(txs);
    }
    var bills := BillsPage.InitialBills(txs);
    PaidAgrees(rs, 0);
    UnpaidAgrees(rs, 0);
    SumOfSplit(bills, BillsPage.IsPaid, BillsPage.BillAmount);
  }

  lemma {:induction false} SameFilter(txs: seq<Transaction>)
    ensures Filter(txs, IsRecurring) == Filter(txs, BillsPage.IsRecurring)
  {
    if txs != [] {
      SameFilter(txs[1..]);
    }
  }

  lemma {:induction false} PaidAgrees(rs: seq<Transaction>, start: nat)
    ensures SumOf(Filter(rs, IsIncome), TxAmount)
      == SumOf(Filter(BillsPage.DeriveFrom(rs, start), BillsPage.IsPaid), BillsPage.BillAmount)
  {
    if rs != [] {
      PaidAgrees(rs[1..], start + 1);
      var d := BillsPage.DeriveFrom(rs, start);
      assert d[1..] == BillsPage.DeriveFrom(rs[1..], start + 1);
    }
  }

  lemma {:induction false} UnpaidAgrees(rs: seq<Transaction>, start: nat)
    ensures SumOf(Filter(rs, IsExpense), TxAbsAmount)
      == SumOf(Filter(BillsPage.DeriveFrom(rs, start), Not(BillsPage.IsPaid)), BillsPage.BillAmount)
  {
    if rs != [] {
      UnpaidAgrees(rs[1..], start + 1);
      var d := BillsPage.DeriveFrom(rs, start);
      var rest := BillsPage.DeriveFrom(rs[1..], start + 1);
      assert d[1..] == rest;
      var t, b := rs[0], d[0];
      var unpaid := Not(BillsPage.IsPaid);
      if t.amount < 0.0 {
        assert unpaid(b) && b.amount == TxAbsAmount(t);
        assert Filter(d, unpaid) == [b] + Filter(rest, unpaid);
        assert Filter(rs, IsExpense) == [t] + Filter(rs[1..], IsExpense);
      } else if t.amount == 0.0 {
        assert unpaid(b) && b.amount == 0.0;
        assert Filter(d, unpaid) == [b] + Filter(rest, unpaid);
        assert Filter(rs, IsExpense) == Filter(rs[1..], IsExpense);
      } else {
        assert !unpaid(b);
        assert Filter(d, unpaid) == Filter(rest, unpaid);
        assert Filter(rs, IsExpense) == Filter(rs[1..], IsExpense);
      }
    }
  }
}
