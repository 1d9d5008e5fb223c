/**
 * app/pots/page.tsx: the list of savings pots and the handlers that replace
 * it, with the pot the open dialog acts on.
 */
module PotsPage {
  import opened Wrappers
  import opened Seqs
  import opened Records
  import opened JsMath
  import AddPotModal
  import EditPotModal
  import AddMoneyModal
  import WithdrawMoneyModal

  function PotTotal(p: Pot): real { p.total }

  /** `totalSaved`: the sum of the pots' totals. */
  function TotalSaved(ps: seq<Pot>): real {
    SumOf(ps, PotTotal)
  }

  function Named(name: string): Pot -> bool {
    (p: Pot) => p.name == name
  }

  /** `p.name === key ? updated : p`. */
  function ReplaceNamed(key: string, updated: Pot): Pot -> Pot {
    (p: Pot) => if p.name == key then updated else p
  }

  /** `p.name === name ? { ...p, total: p.total + amount } : p`. */
  function DepositInto(name: string, amount: real): Pot -> Pot {
    (p: Pot) => if p.name == name then p.(total := p.total + amount) else p
  }

  /** `p.name === name ? { ...p, total: Math.max(0, p.total - amount) } : p`. */
  function WithdrawFrom(name: string, amount: real): Pot -> Pot {
    (p: Pot) => if p.name == name then p.(total := Max(0.0, p.total - amount)) else p
  }

  /** The list after `handleEdit(updated, originalName)`. */
  function Edited(ps: seq<Pot>, updated: Pot, originalName: Option<string>): seq<Pot> {
    Map(ps, ReplaceNamed(originalName.GetOr(updated.name), updated))
  }

  /** The list after `handleDelete(name)`. */
  function Deleted(ps: seq<Pot>, name: string): seq<Pot> {
    Filter(ps, Not(Named(name)))
  }

  /** The list after a confirmed deposit into the pots named `name`. */
  function Deposited(ps: seq<Pot>, name: string, amount: real): seq<Pot> {
    Map(ps, DepositInto(name, amount))
  }

  /** The list after a confirmed withdrawal from the pots named `name`. */
  function Withdrawn(ps: seq<Pot>, name: string, amount: real): seq<Pot> {
    Map(ps, WithdrawFrom(name, amount))
  }

  /** The invariant the dialogs protect: no pot holds a negative total. */
  predicate NonNegativeTotals(ps: seq<Pot>) {
    forall i :: 0 <= i < |ps| ==> ps[i].total >= 0.0
  }

  /** The number of pots named `name`. */
  function CountNamed(ps: seq<Pot>, name: string): nat {
    |Filter(ps, Named(name))|
  }

  class PotsStore {
    var pots: seq<Pot>
    /** `active`: the pot whose card opened the current dialog. */
    var active: Option<Pot>

    constructor (initial: seq<Pot>)
      ensures pots == initial && active == None
    {
      pots := initial;
      active := None;
    }

    /** A card's Edit, Delete, Add Money or Withdraw entry: remember its pot. */
    method Select(pot: Pot)
      modifies this
      ensures active == Some(pot) && pots == old(pots)
    {
      active := Some(pot);
    }

    /** A dialog closing (`onOpenChange(false)`): forget the pot. */
    method CloseDialog()
      modifies this
      ensures active == None && pots == old(pots)
    {
      active := None;
    }

    /** `handleAdd`. */
    method HandleAdd(p: Pot)
      modifies this
      ensures pots == old(pots) + [p] && active == old(active)
    {
      pots := pots + [p];
    }

    /** `handleEdit`: replace the pots named `originalName`, or `updated.name` when there is none. */
    method HandleEdit(updated: Pot, originalName: Option<string>)
      modifies this
      ensures pots == Edited(old(pots), updated, originalName) && active == old(active)
    {
      pots := Map(pots, ReplaceNamed(originalName.GetOr(updated.name), updated));
    }

    /** `handleDelete`. */
    method HandleDelete(name: string)
      modifies this
      ensures pots == Deleted(old(pots), name) && active == old(active)
    {
      pots := Filter(pots, Not(Named(name)));
    }

    /** The delete dialog's confirm: delete the active pot's name and close; nothing without one. */
    method ConfirmDelete()
      modifies this
      ensures old(active).None? ==> pots == old(pots) && active == None
      ensures old(active).Some? ==> pots == Deleted(old(pots), old(active).value.name) && active == None
    {
      if active.Some? {
        HandleDelete(active.value.name);
        active := None;
      }
    }

    /** `handleConfirmAddMoney`: a no-op without an active pot. */
    method HandleConfirmAddMoney(amount: real)
      modifies this
      ensures active == old(active)
      ensures active.None? ==> pots == old(pots)
      ensures active.Some? ==> pots == Deposited(old(pots), active.value.name, amount)
    {
      if active.Some? {
        pots := Map(pots, DepositInto(active.value.name, amount));
      }
    }

    /** `handleConfirmWithdraw`: a no-op without an active pot. */
    method HandleConfirmWithdraw(amount: real)
      modifies this
      ensures active == old(active)
      ensures active.None? ==> pots == old(pots)
      ensures active.Some? ==> pots == Withdrawn(old(pots), active.value.name, amount)
    {
      if active.Some? {
        pots := Map(pots, WithdrawFrom(active.value.name, amount));
      }
    }
  }

  // ---------------------------------------------------------------- what each update does

  /** An add puts the pot last and leaves the others where they were. */
  lemma AddSpec(ps: seq<Pot>, p: Pot)
    ensures |ps + [p]| == |ps| + 1 && (ps + [p])[|ps|] == p && (ps + [p])[..|ps|] == ps
    ensures TotalSaved(ps + [p]) == TotalSaved(ps) + p.total
  {
    SumOfAppend(ps, [p], PotTotal);
  }

  /** An edit replaces exactly the pots carrying the key and keeps the length. */
  lemma EditedSpec(ps: seq<Pot>, updated: Pot, originalName: Option<string>)
    ensures var key, r := originalName.GetOr(updated.name), Edited(ps, updated, originalName);
      && |r| == |ps|
      && (forall i :: 0 <= i < |ps| && ps[i].name == key ==> r[i] == updated)
      && (forall i :: 0 <= i < |ps| && ps[i].name != key ==> r[i] == ps[i])
  {
  }

  /** A delete removes every pot with the name and keeps the others in order. */
  lemma DeletedSpec(ps: seq<Pot>, name: string)
    ensures var r := Deleted(ps, name);
      && (forall p :: p in r <==> p in ps && p.name != name)
      && Subsequence(r, ps)
      && |r| == |ps| - CountNamed(ps, name)
      && TotalSaved(r) == TotalSaved(ps) - SumOf(Filter(ps, Named(name)), PotTotal)
  {
    var r := Deleted(ps, name);
    forall p ensures p in r <==> p in ps && p.name != name {
      assert Not(Named(name))(p) == (p.name != name);
    }
    FilterIsSubsequence(ps, Not(Named(name)));
    FilterMultiset(ps, Named(name));
    assert |multiset(ps)| == |multiset(Filter(ps, Named(name)))| + |multiset(r)|;
    SumOfSplit(ps, Named(name), PotTotal);
  }

  /** `n` copies of `a` added up: `a * n` without a product the solver must reason about. */
  function Times(a: real, n: nat): real {
    if n == 0 then 0.0 else a + Times(a, n - 1)
  }

  lemma {:induction false} TimesIsProduct(a: real, n: nat)
    ensures Times(a, n) == a * n as real
  {
    if n > 0 {
      TimesIsProduct(a, n - 1);
    }
  }

  /** A deposit raises the total saved by the amount once for every pot with the name. */
  lemma {:induction false} DepositedTotal(ps: seq<Pot>, name: string, amount: real)
    ensures TotalSaved(Deposited(ps, name, amount)) == TotalSaved(ps) + Times(amount, CountNamed(ps, name))
  {
    if ps != [] {
      DepositedTotal(ps[1..], name, amount);
      var d, rest := Deposited(ps, name, amount), Deposited(ps[1..], name, amount);
      assert d[1..] == rest;
      var hit := ps[0].name == name;
      assert d[0].total == ps[0].total + (if hit then amount else 0.0);
      assert CountNamed(ps, name) == CountNamed(ps[1..], name) + if hit then 1 else 0;
    } else {
      assert Deposited(ps, name, amount) == [];
    }
  }

  /** With exactly one pot of that name, a deposit of `amount` raises the total saved by `amount`. */
  lemma DepositIntoOne(ps: seq<Pot>, name: string, amount: real)
    requires CountNamed(ps, name) == 1
    ensures TotalSaved(Deposited(ps, name, amount)) == TotalSaved(ps) + amount
  {
    DepositedTotal(ps, name, amount);
  }

  /** A withdrawal never leaves a matched pot negative, and changes no other pot. */
  lemma WithdrawnSpec(ps: seq<Pot>, name: string, amount: real)
    ensures var r := Withdrawn(ps, name, amount);
      && |r| == |ps|
      && (forall i :: 0 <= i < |ps| && ps[i].name == name ==>
            r[i] == ps[i].(total := Max(0.0, ps[i].total - amount)) && r[i].total >= 0.0)
      && (forall i :: 0 <= i < |ps| && ps[i].name != name ==> r[i] == ps[i])
  {
  }

  /** When no matched pot holds less than the amount, the clamp never acts: each loses exactly `amount`. */
  lemma {:induction false} WithdrawnTotal(ps: seq<Pot>, name: string, amount: real)
    requires forall i :: 0 <= i < |ps| && ps[i].name == name ==> amount <= ps[i].total
    ensures TotalSaved(Withdrawn(ps, name, amount)) == TotalSaved(ps) - Times(amount, CountNamed(ps, name))
  {
    if ps != [] {
      WithdrawnTotal(ps[1..], name, amount);
      var d, rest := Withdrawn(ps, name, amount), Withdrawn(ps[1..], name, amount);
      assert d[1..] == rest;
      var hit := ps[0].name == name;
      assert d[0].total == ps[0].total - (if hit then amount else 0.0);
      assert CountNamed(ps, name) == CountNamed(ps[1..], name) + if hit then 1 else 0;
    } else {
      assert Withdrawn(ps, name, amount) == [];
    }
  }


  // ---------------------------------------------------------------- the invariant

  lemma AddKeeps(ps: seq<Pot>, p: Pot)
    requires NonNegativeTotals(ps) && p.total >= 0.0
    ensures NonNegativeTotals(ps + [p])
  {
  }

  lemma EditKeeps(ps: seq<Pot>, updated: Pot, originalName: Option<string>)
    requires NonNegativeTotals(ps) && updated.total >= 0.0
    ensures NonNegativeTotals(Edited(ps, updated, originalName))
  {
  }

  lemma DeleteKeeps(ps: seq<Pot>, name: string)
    requires NonNegativeTotals(ps)
    ensures NonNegativeTotals(Deleted(ps, name))
  {
    var r := Deleted(ps, name);
    forall i | 0 <= i < |r| ensures r[i].total >= 0.0 {
      assert r[i] in ps;
    }
  }

  lemma DepositKeeps(ps: seq<Pot>, name: string, amount: real)
    requires NonNegativeTotals(ps) && amount >= 0.0
    ensures NonNegativeTotals(Deposited(ps, name, amount))
  {
  }

  /** A withdrawal keeps the invariant whatever the amount: the clamp sees to it. */
  lemma WithdrawKeeps(ps: seq<Pot>, name: string, amount: real)
    requires NonNegativeTotals(ps)
    ensures NonNegativeTotals(Withdrawn(ps, name, amount))
  {
    WithdrawnSpec(ps, name, amount);
  }

  // ---------------------------------------------------------------- the page with its dialogs

  /** A pot from the add dialog keeps every total non-negative. */
  lemma AddDialogKeeps(ps: seq<Pot>, f: AddPotModal.PotForm)
    requires NonNegativeTotals(ps) && AddPotModal.Submit(f).Some?
    ensures NonNegativeTotals(ps + [AddPotModal.Submit(f).value])
  {
  }

  /** An edit from the edit dialog, forwarded with the active pot's name, keeps every total non-negative. */
  lemma EditDialogKeeps(ps: seq<Pot>, active: Option<Pot>, f: EditPotModal.EditForm)
    requires NonNegativeTotals(ps) && EditPotModal.Submit(active, f).Some?
    ensures var e := EditPotModal.Submit(active, f).value;
      NonNegativeTotals(Edited(ps, e.updated, e.originalName))
  {
    var e := EditPotModal.Submit(active, f).value;
    EditKeeps(ps, e.updated, e.originalName);
  }

  /**
   * Renaming through the edit dialog replaces the old entry: no pot keeps the
   * old name unless the new one is the same, and every pot that had it now
   * carries the edited values.
   */
  lemma RenameReplaces(ps: seq<Pot>, pot: Pot, f: EditPotModal.EditForm)
    requires EditPotModal.Submit(Some(pot), f).Some?
    ensures var e := EditPotModal.Submit(Some(pot), f).value;
      var r := Edited(ps, e.updated, e.originalName);
      && (forall i :: 0 <= i < |ps| && ps[i].name == pot.name ==> r[i] == e.updated)
      && (f.name != pot.name ==> forall i :: 0 <= i < |r| ==> r[i].name == pot.name ==> ps[i].name != pot.name)
  {
  }

  /** A deposit the add-money dialog confirms keeps every total non-negative. */
  lemma AddMoneyDialogKeeps(ps: seq<Pot>, name: string, amount: NumberField)
    requires NonNegativeTotals(ps) && AddMoneyModal.Submit(amount).Some?
    ensures NonNegativeTotals(Deposited(ps, name, AddMoneyModal.Submit(amount).value))
  {
  }

  /**
   * A withdrawal the dialog confirms for a pot of the list with a unique name
   * takes exactly the amount out of that pot: the clamp at 0 never acts.
   */
  lemma WithdrawDialogExact(ps: seq<Pot>, k: nat, amount: NumberField)
    requires k < |ps| && CountNamed(ps, ps[k].name) == 1
    requires WithdrawMoneyModal.Submit(Some(ps[k]), amount).Confirmed?
    ensures var a := WithdrawMoneyModal.Submit(Some(ps[k]), amount).amount;
      var r := Withdrawn(ps, ps[k].name, a);
      && r[k].total == ps[k].total - a
      && TotalSaved(r) == TotalSaved(ps) - a
  {
    var a := WithdrawMoneyModal.Submit(Some(ps[k]), amount).amount;
    var name := ps[k].name;
    forall i | 0 <= i < |ps| && ps[i].name == name ensures a <= ps[i].total {
      OnlyOneNamed(ps, name, k, i);
    }
    WithdrawnTotal(ps, name, a);
  }

  /** With one pot of a name, every pot of that name is that pot. */
  lemma OnlyOneNamed(ps: seq<Pot>, name: string, k: nat, i: nat)
    requires k < |ps| && i < |ps| && ps[k].name == name && ps[i].name == name
    requires CountNamed(ps, name) == 1
    ensures ps[i] == ps[k]
  {
    var f := Filter(ps, Named(name));
    assert ps[i] in f && ps[k] in f;
    assert f == [f[0]];
  }
}
