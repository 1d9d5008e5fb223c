/**
 * app/transactions/page.tsx: the transactions table, searched by name,
 * narrowed to a category, sorted by one of six orders and cut into pages of
 * ten, with a page cursor that every filter change sends back to page 1.
 */
module TransactionsPage {
  import opened Seqs
  import opened Sorting
  import opened Text
  import opened Records
  import opened SortOptions
  import ArraySort

  const PerPage: nat := 10

  /** `tr.name.toLowerCase().includes(s)`, for an already lowered query `s`. */
  function NameIncludes(lowered: string): Transaction -> bool {
    (t: Transaction) => Contains(ToLower(t.name), lowered)
  }

  function InCategory(category: string): Transaction -> bool {
    (t: Transaction) => t.category == category
  }

  /** The search step: skipped for a blank search, otherwise the lowered, untrimmed query. */
  function Searched(all: seq<Transaction>, search: string): seq<Transaction> {
    if Trim(search) == [] then all else Filter(all, NameIncludes(ToLower(search)))
  }

  /** The category step: skipped for `'all'`. */
  function InCategoryStep(s: seq<Transaction>, category: string): seq<Transaction> {
    if category == "all" then s else Filter(s, InCategory(category))
  }

  /** `filteredTransactions`. */
  function Filtered(all: seq<Transaction>, search: string, category: string, opt: SortOption): seq<Transaction> {
    SortBy(InCategoryStep(Searched(all, search), category), TxLe(opt))
  }

  /** The `useMemo` body: the copy `t` reassigned through both filters, then sorted in place. */
  method FilterTransactions(all: seq<Transaction>, search: string, category: string, opt: SortOption)
    returns (t: seq<Transaction>)
    ensures t == Filtered(all, search, category, opt)
  {
    t := all;
    if Trim(search) != "" {
      t := Filter(t, NameIncludes(ToLower(search)));
    }
    if category != "all" {
      t := Filter(t, InCategory(category));
    }
    var list := new Transaction[|t|](i requires 0 <= i < |t| => t[i]);
    assert list[..] == t;
    ArraySort.SortInPlace(list, TxLe(opt));
    t := list[..];
  }

  /** Whether a transaction passes both the search and the category filter. */
  predicate Shown(t: Transaction, search: string, category: string) {
    && (AllSpace(search) || Contains(ToLower(t.name), ToLower(search)))
    && (category == "all" || t.category == category)
  }

  /**
   * The table holds exactly the transactions that pass both filters, each as
   * often as in the data, in the order of the chosen sort, ties kept in the
   * data's order.
   */
  lemma FilteredSpec(all: seq<Transaction>, search: string, category: string, opt: SortOption)
    ensures var r := Filtered(all, search, category, opt);
      && (forall t :: t in r <==> t in all && Shown(t, search, category))
      && (forall t :: multiset(r)[t] == if Shown(t, search, category) then multiset(all)[t] else 0)
      && Sorted(r, TxLe(opt))
      && r == SortBy(Filter(all, ShownBy(search, category)), TxLe(opt))
  {
    var shown := ShownBy(search, category);
    KeptIsFiltered(all, search, category);
    ByKeysTotalPreorder(opt, TxTime, TxName, TxAmount);
    SortByCorrect(Filter(all, shown), TxLe(opt));
    PermutationOfFilter(Filtered(all, search, category, opt), all, shown);
  }

  function ShownBy(search: string, category: string): Transaction -> bool {
    (t: Transaction) => Shown(t, search, category)
  }

  /** The two filter steps together keep exactly the transactions `Shown` accepts, in order. */
  lemma {:induction false} KeptIsFiltered(all: seq<Transaction>, search: string, category: string)
    ensures InCategoryStep(Searched(all, search), category) == Filter(all, ShownBy(search, category))
  {
    if all != [] {
      var x, rest := all[0], all[1..];
      KeptIsFiltered(rest, search, category);
      var hit := AllSpace(search) || NameIncludes(ToLower(search))(x);
      SearchedCons(all, search);
      if hit {
        CategoryStepCons(x, Searched(rest, search), category);
      }
    }
  }

  /** The search step on a non-empty list decides the first transaction and moves on. */
  lemma SearchedCons(all: seq<Transaction>, search: string)
    requires all != []
    ensures Searched(all, search) ==
      (if AllSpace(search) || NameIncludes(ToLower(search))(all[0]) then [all[0]] else [])
      + Searched(all[1..], search)
  {
  }

  /** The category step on a list with a known first transaction. */
  lemma CategoryStepCons(x: Transaction, s: seq<Transaction>, category: string)
    ensures InCategoryStep([x] + s, category) ==
      (if category == "all" || x.category == category then [x] else []) + InCategoryStep(s, category)
  {
    assert ([x] + s)[1..] == s;
  }

  /** The search ignores case: two queries that lower to the same text show the same table. */
  lemma SearchIgnoresCase(all: seq<Transaction>, s1: string, s2: string, category: string, opt: SortOption)
    requires ToLower(s1) == ToLower(s2)
    ensures Filtered(all, s1, category, opt) == Filtered(all, s2, category, opt)
  {
    assert |s1| == |s2|;
    assert AllSpace(s1) <==> AllSpace(s2) by {
      assert forall i :: 0 <= i < |s1| ==> (IsSpace(s1[i]) <==> IsSpace(LowerChar(s1[i])));
      assert forall i :: 0 <= i < |s2| ==> (IsSpace(s2[i]) <==> IsSpace(LowerChar(s2[i])));
      assert forall i :: 0 <= i < |s1| ==> LowerChar(s1[i]) == LowerChar(s2[i]);
    }
  }

  /** `Math.ceil(length / perPage)`. */
  function TotalPages(n: nat): (r: nat)
    ensures r * PerPage >= n
    ensures n > 0 ==> (r - 1) * PerPage < n
    ensures n == 0 <==> r == 0
  {
    (n + PerPage - 1) / PerPage
  }

  /** `slice((page - 1) * perPage, page * perPage)`. */
  function Paginated<T>(s: seq<T>, page: nat): seq<T>
    requires page >= 1
  {
    Slice(s, (page - 1) * PerPage, page * PerPage)
  }

  /**
   * A page holds at most ten items, the ones at its positions in the list;
   * a page past the last is empty; every item is on the page its index
   * names, and that page exists.
   */
  lemma PaginatedSpec<T>(s: seq<T>, page: nat)
    requires page >= 1
    ensures var p := Paginated(s, page);
      && |p| <= PerPage
      && (forall k :: 0 <= k < |p| ==> p[k] == s[(page - 1) * PerPage + k])
      && (page > TotalPages(|s|) ==> p == [])
      && (page < TotalPages(|s|) ==> |p| == PerPage)
      && (page <= TotalPages(|s|) ==> |p| > 0)
  {
  }

  lemma EveryItemOnItsPage<T>(s: seq<T>, i: nat)
    requires i < |s|
    ensures 1 <= i / PerPage + 1 <= TotalPages(|s|)
    ensures var p := Paginated(s, i / PerPage + 1);
      i % PerPage < |p| && p[i % PerPage] == s[i]
  {
  }

  /** Pages 1 to `k`, one after the other. */
  function PagesUpTo<T>(s: seq<T>, k: nat): seq<T> {
    if k == 0 then [] else PagesUpTo(s, k - 1) + Paginated(s, k)
  }

  /** The first `k` pages are the first `10 k` items, or all of them. */
  lemma {:induction false} PagesUpToPrefix<T>(s: seq<T>, k: nat)
    ensures PagesUpTo(s, k) == s[..if k * PerPage <= |s| then k * PerPage else |s|]
  {
    if k > 0 {
      PagesUpToPrefix(s, k - 1);
    }
  }

  /** Pages 1 to `totalPages` put back together are the whole list. */
  lemma PagesConcatenate<T>(s: seq<T>)
    ensures PagesUpTo(s, TotalPages(|s|)) == s
  {
    PagesUpToPrefix(s, TotalPages(|s|));
    assert s[..|s|] == s;
  }

  /** The page number is at least 1, and past the last page only while there are no pages at all. */
  predicate PageInRange(n: nat, page: int) {
    1 <= page && (page == 1 || page <= TotalPages(n))
  }

  /** In range, the page shows something exactly when some transaction passes the filters. */
  lemma NonEmptyPage<T>(s: seq<T>, page: nat)
    requires PageInRange(|s|, page)
    ensures |s| > 0 <==> |Paginated(s, page)| > 0
  {
    PaginatedSpec(s, page);
  }

  /** The page's state: the data and the four controls. */
  class Cursor {
    const all: seq<Transaction>
    var search: string
    var sort: SortOption
    var category: string
    var page: nat

    function Current(): seq<Transaction>
      reads this
    {
      Filtered(all, search, category, sort)
    }

    /** What the table shows. */
    function Visible(): seq<Transaction>
      reads this
      requires Valid()
    {
      Paginated(Current(), page)
    }

    predicate Valid()
      reads this
    {
      PageInRange(|Current()|, page)
    }

    /** The initial state: empty search, latest first, all categories, page 1. */
    constructor (data: seq<Transaction>)
      ensures all == data && search == "" && sort == Latest && category == "all" && page == 1
      ensures Valid()
    {
      all := data;
      search := "";
      sort := Latest;
      category := "all";
      page := 1;
    }

    /** The search box's `onChange`. */
    method SetSearch(s: string)
      modifies this
      ensures search == s && page == 1 && sort == old(sort) && category == old(category)
      ensures Valid()
    {
      search := s;
      page := 1;
    }

    /** The sort select's `onValueChange`. */
    method SetSort(opt: SortOption)
      modifies this
      ensures sort == opt && page == 1 && search == old(search) && category == old(category)
      ensures Valid()
    {
      sort := opt;
      page := 1;
    }

    /** The category select's `onValueChange`. */
    method SetCategory(c: string)
      modifies this
      ensures category == c && page == 1 && search == old(search) && sort == old(sort)
      ensures Valid()
    {
      category := c;
      page := 1;
    }

    /** Previous: `page > 1 && setPage(page - 1)`. */
    method Previous()
      requires Valid()
      modifies this
      ensures page == if old(page) > 1 then old(page) - 1 else old(page)
      ensures search == old(search) && sort == old(sort) && category == old(category)
      ensures Valid()
    {
      if page > 1 {
        page := page - 1;
      }
    }

    /** Next: `page < totalPages && setPage(page + 1)`. */
    method Next()
      requires Valid()
      modifies this
      ensures page == if old(page) < TotalPages(|Current()|) then old(page) + 1 else old(page)
      ensures search == old(search) && sort == old(sort) && category == old(category)
      ensures Valid()
    {
      if page < TotalPages(|Filtered(all, search, category, sort)|) {
        page := page + 1;
      }
    }

    /** The button of page `i + 1`; there is one for each page. */
    method GoTo(i: nat)
      requires Valid() && i < TotalPages(|Current()|)
      modifies this
      ensures page == i + 1
      ensures search == old(search) && sort == old(sort) && category == old(category)
      ensures Valid()
    {
      page := i + 1;
    }
  }
}
