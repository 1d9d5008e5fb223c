/**
 * app/budgets/page.tsx: the budgets with what has been spent in each
 * category, the donut of maxima, each budget card's figures and latest
 * spending, and the add, edit and delete dialogs that replace the list.
 */
module BudgetsPage {
  import opened Wrappers
  import opened Seqs
  import opened Sorting
  import opened Records
  import opened JsMath
  import opened SortOptions
  import Donut

  // ---------------------------------------------------------------- the form

  datatype BudgetForm = BudgetForm(category: string, maximum: NumberField, theme: string)

  /** `budgetSchema`: a category, a maximum of at least 1 and a theme. */
  predicate BudgetSchema(f: BudgetForm) {
    |f.category| >= 1 && f.maximum.Number? && f.maximum.value >= 1.0 && |f.theme| >= 1
  }

  /** The budget an accepted form describes. */
  function FromForm(f: BudgetForm): (b: Budget)
    requires BudgetSchema(f)
    ensures b.category == f.category && b.maximum == f.maximum.value && b.theme == Some(f.theme)
    ensures |b.category| >= 1 && b.maximum >= 1.0
  {
    Budget(f.category, f.maximum.value, Some(f.theme))
  }

  /** The edit form as `resetEdit` fills it from the budget being edited. */
  function EditFormFor(b: Budget): (f: BudgetForm)
    ensures f.category == b.category && f.maximum == Number(b.maximum)
    ensures f.theme == if b.theme.Some? then b.theme.value else ""
  {
    BudgetForm(b.category, Number(b.maximum), b.theme.GetOr(""))
  }

  /** Submitting the edit form untouched gives back the budget, when the schema accepts it. */
  lemma EditFormRoundTrip(b: Budget)
    requires |b.category| >= 1 && b.maximum >= 1.0 && b.theme.Some? && |b.theme.value| >= 1
    ensures BudgetSchema(EditFormFor(b)) && FromForm(EditFormFor(b)) == b
  {
  }

  /** A budget without a theme cannot be saved untouched: its form has an empty theme. */
  lemma EditFormNeedsTheme(b: Budget)
    requires b.theme.None?
    ensures !BudgetSchema(EditFormFor(b))
  {
  }

  // ---------------------------------------------------------------- spent and totals

  /** `t.category === category && t.amount < 0`. */
  function SpendingIn(category: string): Transaction -> bool {
    (t: Transaction) => t.category == category && t.amount < 0.0
  }

  function AbsAmount(t: Transaction): real {
    if t.amount < 0.0 then -t.amount else t.amount
  }

  /** What has been spent in a category: the magnitudes of its negative amounts, added up. */
  function Spent(txs: seq<Transaction>, category: string): real {
    SumOf(Filter(txs, SpendingIn(category)), AbsAmount)
  }

  /** Spending is never negative. */
  lemma SpentNonNegative(txs: seq<Transaction>, category: string)
    ensures Spent(txs, category) >= 0.0
  {
    SumOfNonNegative(Filter(txs, SpendingIn(category)), AbsAmount);
  }

  /** A new transaction changes a category's spending only when it is an expense in that category, and then by its magnitude. */
  lemma SpentAppend(txs: seq<Transaction>, t: Transaction, category: string)
    ensures Spent(txs + [t], category) ==
      Spent(txs, category) + if t.category == category && t.amount < 0.0 then -t.amount else 0.0
  {
    FilterAppend(txs, [t], SpendingIn(category));
    SumOfAppend(Filter(txs, SpendingIn(category)), Filter([t], SpendingIn(category)), AbsAmount);
  }

  datatype WithSpent = WithSpent(budget: Budget, spent: real)

  function WithSpentFor(txs: seq<Transaction>): Budget -> WithSpent {
    (b: Budget) => WithSpent(b, Spent(txs, b.category))
  }

  /** `budgetsWithSpent`. */
  function BudgetsWithSpent(budgets: seq<Budget>, txs: seq<Transaction>): seq<WithSpent> {
    Map(budgets, WithSpentFor(txs))
  }

  function SpentOf(w: WithSpent): real { w.spent }

  /** `totalSpent`. */
  function TotalSpent(budgets: seq<Budget>, txs: seq<Transaction>): real {
    SumOf(BudgetsWithSpent(budgets, txs), SpentOf)
  }

  /** `totalMax = Math.max(1, sum of the maxima)`. */
  function TotalMax(budgets: seq<Budget>): (r: real)
    ensures r >= 1.0 && r >= SumOf(budgets, Donut.Maximum)
    ensures SumOf(budgets, Donut.Maximum) >= 1.0 ==> r == SumOf(budgets, Donut.Maximum)
  {
    Max(1.0, SumOf(budgets, Donut.Maximum))
  }

  /** Each budget keeps its place and gets its own category's spending; the total is never negative. */
  lemma BudgetsWithSpentSpec(budgets: seq<Budget>, txs: seq<Transaction>)
    ensures var ws := BudgetsWithSpent(budgets, txs);
      && |ws| == |budgets|
      && (forall i :: 0 <= i < |ws| ==> ws[i].budget == budgets[i] && ws[i].spent == Spent(txs, budgets[i].category))
      && TotalSpent(budgets, txs) >= 0.0
  {
    var ws := BudgetsWithSpent(budgets, txs);
    forall i | 0 <= i < |ws| ensures SpentOf(ws[i]) >= 0.0 {
      SpentNonNegative(txs, budgets[i].category);
    }
    SumOfNonNegative(ws, SpentOf);
  }

  /** `donutStops`, with `'#ddd'` for a budget without a theme. */
  method DonutStops(budgets: seq<Budget>) returns (stops: seq<Donut.Stop>)
    ensures |stops| == |budgets|
    ensures |stops| > 0 ==> stops[0].start == 0.0
    ensures forall i :: 0 < i < |stops| ==> stops[i].start == stops[i - 1].end
    ensures forall i :: 0 <= i < |stops| ==> stops[i].color == budgets[i].theme.GetOr("#ddd")
    ensures |stops| > 0 ==>
      stops[|stops| - 1].end == SumOf(budgets, Donut.Maximum) / TotalMax(budgets) * 100.0
    ensures |stops| > 0 && SumOf(budgets, Donut.Maximum) >= 1.0 ==> stops[|stops| - 1].end == 100.0
  {
    var total := SumOf(budgets, Donut.Maximum);
    stops := Donut.Stops(budgets, TotalMax(budgets), "#ddd");
    if |stops| > 0 {
      Donut.LastEnd(budgets, TotalMax(budgets), stops);
      Donut.Percent(total, TotalMax(budgets));
    }
  }

  // ---------------------------------------------------------------- a budget card

  /** `pct`: spending as a whole percentage of the maximum, 0 for a zero maximum. */
  function Pct(w: WithSpent): int {
    if w.budget.maximum != 0.0 then Round(w.spent / w.budget.maximum * 100.0) else 0
  }

  /** `remaining = Math.max(0, maximum - spent)`. */
  function Remaining(w: WithSpent): real {
    Max(0.0, w.budget.maximum - w.spent)
  }

  /** The progress bar's width, `Math.min(100, pct)`. */
  function BarWidth(w: WithSpent): real {
    Min(100.0, Pct(w) as real)
  }

  /**
   * The remaining amount is never negative, is 0 exactly when the maximum is
   * spent, and never exceeds the maximum when something has been spent; the
   * percentage is 0 for a zero maximum and within half a point of the exact
   * share otherwise; the bar never passes 100.
   */
  lemma CardFigures(w: WithSpent)
    ensures Remaining(w) >= 0.0
    ensures Remaining(w) == 0.0 <==> w.spent >= w.budget.maximum
    ensures w.spent >= 0.0 && w.budget.maximum >= 0.0 ==> Remaining(w) <= w.budget.maximum
    ensures w.budget.maximum == 0.0 ==> Pct(w) == 0
    ensures w.budget.maximum != 0.0 ==>
      w.spent / w.budget.maximum * 100.0 - 0.5 < Pct(w) as real <= w.spent / w.budget.maximum * 100.0 + 0.5
    ensures BarWidth(w) <= 100.0
    ensures Pct(w) >= 0 ==> BarWidth(w) >= 0.0
  {
  }

  // ---------------------------------------------------------------- latest spending

  function InCategory(category: string): Transaction -> bool {
    (t: Transaction) => t.category == category
  }

  /** `latestTransactionsFor`: the category's transactions, newest first, cut to three. */
  function LatestFor(txs: seq<Transaction>, category: string): seq<Transaction> {
    Slice(SortBy(Filter(txs, InCategory(category)), TxLe(Latest)), 0, 3)
  }

  /**
   * At most three transactions, all of the category, newest first, and no
   * transaction of the category left out is newer than any that is shown;
   * a category with three or more transactions shows three.
   */
  lemma LatestForSpec(txs: seq<Transaction>, category: string)
    ensures var r, found := LatestFor(txs, category), Filter(txs, InCategory(category));
      && |r| <= 3
      && |r| == (if |found| < 3 then |found| else 3)
      && (forall i :: 0 <= i < |r| ==> r[i] in txs && r[i].category == category)
      && (forall i, j :: 0 <= i < j < |r| ==> r[i].date.time >= r[j].date.time)
      && (forall t :: t in found && t !in r ==> forall i :: 0 <= i < |r| ==> r[i].date.time >= t.date.time)
  {
    var found := Filter(txs, InCategory(category));
    var sorted := SortBy(found, TxLe(Latest));
    ByKeysTotalPreorder(Latest, TxTime, TxName, TxAmount);
    SortBySorted(found, TxLe(Latest));
    NewestFirst(sorted);
    var n := if |sorted| < 3 then |sorted| else 3;
    assert LatestFor(txs, category) == sorted[..n];
    LatestPrefix(txs, category, found, sorted, n);
  }

  /** The facts of `LatestForSpec`, for the first `n` of any newest-first permutation of the category's transactions. */
  lemma LatestPrefix(txs: seq<Transaction>, category: string, found: seq<Transaction>, sorted: seq<Transaction>, n: nat)
    requires forall t :: t in found ==> t in txs && t.category == category
    requires multiset(sorted) == multiset(found)
    requires n == if |sorted| < 3 then |sorted| else 3
    requires forall i, j :: 0 <= i < j < |sorted| ==> sorted[i].date.time >= sorted[j].date.time
    ensures var r := sorted[..n];
      && |r| <= 3
      && |r| == (if |found| < 3 then |found| else 3)
      && (forall i :: 0 <= i < |r| ==> r[i] in txs && r[i].category == category)
      && (forall i, j :: 0 <= i < j < |r| ==> r[i].date.time >= r[j].date.time)
      && (forall t :: t in found && t !in r ==> forall i :: 0 <= i < |r| ==> r[i].date.time >= t.date.time)
  {
    assert |sorted| == |multiset(sorted)| == |found|;
    SameElements(found, sorted);
    TopOfSorted(sorted, n);
  }

  /** Two lists with the same multiset have the same elements. */
  lemma SameElements<T>(a: seq<T>, b: seq<T>)
    requires multiset(a) == multiset(b)
    ensures forall t :: t in a <==> t in b
  {
    forall t ensures t in a <==> t in b {
      assert t in a <==> t in multiset(a);
      assert t in b <==> t in multiset(b);
    }
  }

  /** In a newest-first list, nothing after the first `n` is newer than any of them. */
  lemma TopOfSorted(sorted: seq<Transaction>, n: nat)
    requires n <= |sorted|
    requires forall i, j :: 0 <= i < j < |sorted| ==> sorted[i].date.time >= sorted[j].date.time
    ensures forall t :: t in sorted && t !in sorted[..n] ==>
      forall i :: 0 <= i < n ==> sorted[i].date.time >= t.date.time
  {
    forall t | t in sorted && t !in sorted[..n] ensures forall i :: 0 <= i < n ==> sorted[i].date.time >= t.date.time {
      var j :| 0 <= j < |sorted| && sorted[j] == t;
      assert j >= n;
    }
  }

  /** A list sorted by the `latest` comparator has non-increasing timestamps. */
  lemma NewestFirst(sorted: seq<Transaction>)
    requires Sorted(sorted, TxLe(Latest))
    ensures forall i, j :: 0 <= i < j < |sorted| ==> sorted[i].date.time >= sorted[j].date.time
  {
    forall i, j | 0 <= i < j < |sorted| ensures sorted[i].date.time >= sorted[j].date.time {
      ByKeysApply(Latest, TxTime, TxName, TxAmount, sorted[i], sorted[j]);
    }
  }

  // ---------------------------------------------------------------- the list updates

  predicate HasCategory(budgets: seq<Budget>, category: string) {
    exists i :: 0 <= i < |budgets| && budgets[i].category == category
  }

  /** No two budgets share a category. */
  predicate UniqueCategories(budgets: seq<Budget>) {
    forall i, j :: 0 <= i < j < |budgets| ==> budgets[i].category != budgets[j].category
  }

  function ReplaceCategory(category: string, nb: Budget): Budget -> Budget {
    (b: Budget) => if b.category == category then nb else b
  }

  /** `onAdd`: replace the budgets of the same category, or append the new one when there is none. */
  function Upsert(budgets: seq<Budget>, nb: Budget): seq<Budget> {
    if HasCategory(budgets, nb.category) then Map(budgets, ReplaceCategory(nb.category, nb))
    else budgets + [nb]
  }

  /** What `onEdit` replaces: the budgets of the active budget's category; none without an active budget. */
  function ReplaceActive(active: Option<Budget>, edited: Budget): Budget -> Budget {
    (b: Budget) => if active.Some? && b.category == active.value.category then edited else b
  }

  function EditedBudgets(budgets: seq<Budget>, active: Option<Budget>, edited: Budget): seq<Budget> {
    Map(budgets, ReplaceActive(active, edited))
  }

  function NotInCategory(category: string): Budget -> bool {
    (b: Budget) => b.category != category
  }

  /** `onDeleteConfirm`: drop the active budget's category; nothing without an active budget. */
  function DeleteConfirmed(budgets: seq<Budget>, active: Option<Budget>): seq<Budget> {
    if active.None? then budgets else Filter(budgets, NotInCategory(active.value.category))
  }

  /**
   * An existing category is replaced in place, the length kept; a new one is
   * appended. Either way the new budget is in the list and every other
   * category is untouched, and unique categories stay unique.
   */
  lemma UpsertSpec(budgets: seq<Budget>, nb: Budget)
    ensures var r := Upsert(budgets, nb);
      && (HasCategory(budgets, nb.category) ==>
            |r| == |budgets|
            && forall i :: 0 <= i < |r| ==> r[i] == if budgets[i].category == nb.category then nb else budgets[i])
      && (!HasCategory(budgets, nb.category) ==> r == budgets + [nb])
      && nb in r
      && (forall b: Budget :: b.category != nb.category ==> (b in r <==> b in budgets))
      && (UniqueCategories(budgets) ==> UniqueCategories(r))
  {
    var r := Upsert(budgets, nb);
    if HasCategory(budgets, nb.category) {
      var k :| 0 <= k < |budgets| && budgets[k].category == nb.category;
      assert r[k] == nb;
      forall b: Budget | b.category != nb.category ensures b in r <==> b in budgets {
        if b in budgets {
          var i :| 0 <= i < |budgets| && budgets[i] == b;
          assert r[i] == b;
        }
      }
    } else {
      assert r[|budgets|] == nb;
      if UniqueCategories(budgets) {
        forall i, j | 0 <= i < j < |r| ensures r[i].category != r[j].category {
          if j == |budgets| {
            assert budgets[i].category != nb.category;
          }
        }
      }
    }
  }

  /**
   * An edit replaces exactly the budgets of the active category with the
   * edited values; without an active budget it changes nothing. Unique
   * categories stay unique unless the edit takes a category another budget has.
   */
  lemma EditedSpec(budgets: seq<Budget>, active: Option<Budget>, edited: Budget)
    ensures var r := EditedBudgets(budgets, active, edited);
      && |r| == |budgets|
      && (forall i :: 0 <= i < |r| ==>
            r[i] == if active.Some? && budgets[i].category == active.value.category then edited else budgets[i])
      && (active.None? ==> r == budgets)
  {
    var r := EditedBudgets(budgets, active, edited);
    if active.None? {
      assert forall i :: 0 <= i < |r| ==> r[i] == budgets[i];
    }
  }

  lemma EditKeepsUnique(budgets: seq<Budget>, active: Budget, edited: Budget)
    requires UniqueCategories(budgets)
    requires edited.category == active.category || !HasCategory(budgets, edited.category)
    ensures UniqueCategories(EditedBudgets(budgets, Some(active), edited))
  {
    var r := EditedBudgets(budgets, Some(active), edited);
    forall i, j | 0 <= i < j < |r| ensures r[i].category != r[j].category {
      assert r[i] == ReplaceActive(Some(active), edited)(budgets[i]);
      assert r[j] == ReplaceActive(Some(active), edited)(budgets[j]);
    }
  }

  /** A confirmed delete with an active budget removes its whole category and keeps the rest in order. */
  lemma DeleteConfirmedSpec(budgets: seq<Budget>, active: Option<Budget>)
    ensures active.None? ==> DeleteConfirmed(budgets, active) == budgets
    ensures active.Some? ==>
      var r := DeleteConfirmed(budgets, active);
      && (forall b :: b in r <==> b in budgets && b.category != active.value.category)
      && Subsequence(r, budgets)
  {
    if active.Some? {
      FilterIsSubsequence(budgets, NotInCategory(active.value.category));
    }
  }

  /** The page's dialogs: the list, the budget being edited, the one picked for deletion, and which dialog is open. */
  class BudgetsStore {
    var budgets: seq<Budget>
    var activeBudget: Option<Budget>
    var selectedBudget: Option<Budget>
    var editOpen: bool
    var deleteOpen: bool

    /** Only the edit menu sets `activeBudget`, and it opens the edit dialog as it does. */
    predicate Valid()
      reads this
    {
      activeBudget.Some? ==> editOpen
    }

    constructor (initial: seq<Budget>)
      ensures budgets == initial && activeBudget == None && selectedBudget == None
      ensures !editOpen && !deleteOpen && Valid()
    {
      budgets := initial;
      activeBudget := None;
      selectedBudget := None;
      editOpen := false;
      deleteOpen := false;
    }

    /** `onAdd`. */
    method OnAdd(f: BudgetForm)
      requires BudgetSchema(f) && Valid()
      modifies this
      ensures budgets == Upsert(old(budgets), FromForm(f))
      ensures activeBudget == old(activeBudget) && selectedBudget == old(selectedBudget)
      ensures editOpen == old(editOpen) && deleteOpen == old(deleteOpen) && Valid()
    {
      var nb := FromForm(f);
      if exists i :: 0 <= i < |budgets| && budgets[i].category == nb.category {
        budgets := Map(budgets, ReplaceCategory(nb.category, nb));
      } else {
        budgets := budgets + [nb];
      }
    }

    /** A card's Edit entry. */
    method OpenEditMenu(b: Budget)
      requires Valid()
      modifies this
      ensures activeBudget == Some(b) && editOpen
      ensures budgets == old(budgets) && selectedBudget == old(selectedBudget) && deleteOpen == old(deleteOpen)
      ensures Valid()
    {
      activeBudget := Some(b);
      editOpen := true;
    }

    /** The edit dialog's `onOpenChange`: it closes and forgets the budget. */
    method CloseEdit()
      requires Valid()
      modifies this
      ensures activeBudget == None && !editOpen
      ensures budgets == old(budgets) && selectedBudget == old(selectedBudget) && deleteOpen == old(deleteOpen)
      ensures Valid()
    {
      editOpen := false;
      activeBudget := None;
    }

    /** `onEdit`. */
    method OnEdit(f: BudgetForm)
      requires BudgetSchema(f) && Valid()
      modifies this
      ensures budgets == EditedBudgets(old(budgets), old(activeBudget), FromForm(f))
      ensures activeBudget == None && !editOpen
      ensures selectedBudget == old(selectedBudget) && deleteOpen == old(deleteOpen) && Valid()
    {
      budgets := Map(budgets, ReplaceActive(activeBudget, FromForm(f)));
      editOpen := false;
      activeBudget := None;
    }

    /** A card's Delete entry: it records the budget in `selectedBudget`, not `activeBudget`. */
    method OpenDeleteMenu(b: Budget)
      requires Valid()
      modifies this
      ensures selectedBudget == Some(b) && deleteOpen
      ensures budgets == old(budgets) && activeBudget == old(activeBudget) && editOpen == old(editOpen)
      ensures Valid()
    {
      selectedBudget := Some(b);
      deleteOpen := true;
    }

    /** The delete dialog's `onOpenChange` and its "No, Go Back" button. */
    method CloseDelete()
      requires Valid()
      modifies this
      ensures !deleteOpen && activeBudget == None
      ensures budgets == old(budgets) && selectedBudget == old(selectedBudget) && editOpen == old(editOpen)
      ensures Valid()
    {
      deleteOpen := false;
      activeBudget := None;
    }

    /**
     * `onDeleteConfirm`, as written: it reads `activeBudget`. With the edit
     * dialog closed there is no active budget, so confirming a deletion
     * changes nothing at all.
     */
    method OnDeleteConfirm()
      requires Valid()
      modifies this
      ensures old(activeBudget).None? ==>
        budgets == old(budgets) && deleteOpen == old(deleteOpen) && activeBudget == None
      ensures old(activeBudget).Some? ==>
        budgets == DeleteConfirmed(old(budgets), old(activeBudget)) && !deleteOpen && activeBudget == None
      ensures selectedBudget == old(selectedBudget) && editOpen == old(editOpen) && Valid()
      ensures !old(editOpen) ==> budgets == old(budgets)
    {
      if activeBudget.None? {
        return;
      }
      budgets := Filter(budgets, NotInCategory(activeBudget.value.category));
      deleteOpen := false;
      activeBudget := None;
    }

    /** The deletion the dialog asks to confirm: the budget picked from the menu. */
    method OnDeleteConfirmSelected()
      requires Valid()
      modifies this
      ensures old(selectedBudget).None? ==> budgets == old(budgets) && deleteOpen == old(deleteOpen)
      ensures old(selectedBudget).Some? ==>
        budgets == DeleteConfirmed(old(budgets), old(selectedBudget)) && !deleteOpen
      ensures activeBudget == old(activeBudget) && editOpen == old(editOpen) && Valid()
    {
      if selectedBudget.None? {
        return;
      }
      budgets := Filter(budgets, NotInCategory(selectedBudget.value.category));
      deleteOpen := false;
      selectedBudget := None;
    }
  }

  /**
   * The delete as written, on any page: a budget picked from its Delete menu
   * with the edit dialog closed is still there after the confirmation, and
   * the list is exactly as it was.
   */
  method DeleteFromMenuAsWritten(initial: seq<Budget>, b: Budget) returns (after: seq<Budget>)
    ensures after == initial
    ensures b in initial ==> b in after
  {
    var page := new BudgetsStore(initial);
    page.OpenDeleteMenu(b);
    page.OnDeleteConfirm();
    after := page.budgets;
  }

  /** The same steps with the corrected delete: the picked budget and its category are gone. */
  method DeleteFromMenuSelected(initial: seq<Budget>, b: Budget) returns (after: seq<Budget>)
    requires b in initial
    ensures b !in after && |after| < |initial|
    ensures forall x :: x in after <==> x in initial && x.category != b.category
  {
    var page := new BudgetsStore(initial);
    page.OpenDeleteMenu(b);
    page.OnDeleteConfirmSelected();
    after := page.budgets;
    DeleteSelectedRemoves(initial, b);
    DeleteConfirmedSpec(initial, Some(b));
  }

  /** The corrected delete removes the picked budget's category. */
  lemma DeleteSelectedRemoves(budgets: seq<Budget>, selected: Budget)
    requires selected in budgets
    ensures selected !in DeleteConfirmed(budgets, Some(selected))
    ensures forall b :: b in DeleteConfirmed(budgets, Some(selected)) ==> b.category != selected.category
    ensures |DeleteConfirmed(budgets, Some(selected))| < |budgets|
  {
    var p := NotInCategory(selected.category);
    FilterMultiset(budgets, p);
    assert Not(p)(selected);
    assert selected in Filter(budgets, Not(p));
    assert |multiset(Filter(budgets, Not(p)))| > 0;
    assert |multiset(Filter(budgets, p))| + |multiset(Filter(budgets, Not(p)))| == |multiset(budgets)|;
  }
}
