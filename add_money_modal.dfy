/**
 * components/modals/AddMoneyModal.tsx: the amount check, the live preview of
 * the pot after the deposit, and what a submit passes on.
 */
module AddMoneyModal {
  import opened Wrappers
  import opened Records
  import opened JsMath

  /** `addSchema`: a number of at least 0.01. */
  predicate AddSchema(amount: NumberField) {
    amount.Number? && amount.value >= 0.01
  }

  /** `pot?.total ?? 0`. */
  function Initial(pot: Option<Pot>): real {
    if pot.Some? then pot.value.total else 0.0
  }

  datatype Preview = Preview(
    initial: real,
    added: real,
    total: real,
    segTotal: real,
    initialWidth: real,
    addedWidth: real)

  /** The preview for the watched amount: two bar segments scaled by `initial + added || 1`. */
  function PreviewOf(pot: Option<Pot>, amount: real): Preview {
    var initial := Initial(pot);
    var added := Max(0.0, amount);
    var segTotal := if initial + added == 0.0 then 1.0 else initial + added;
    Preview(initial, added, initial + added, segTotal,
      initial / segTotal * 100.0, added / segTotal * 100.0)
  }

  /**
   * The added part is the amount when it is positive and 0 otherwise, the
   * total never falls below the current figure, the two segments fill the bar
   * exactly when there is something to show, and for a pot that is not in
   * the red each segment lies between 0 and 100.
   */
  lemma PreviewSpec(pot: Option<Pot>, amount: real)
    ensures var p := PreviewOf(pot, amount);
      && p.initial == Initial(pot)
      && p.added >= 0.0 && (amount > 0.0 ==> p.added == amount) && (amount <= 0.0 ==> p.added == 0.0)
      && p.total == p.initial + p.added && p.total >= p.initial
      && (p.initial + p.added != 0.0 ==> p.initialWidth + p.addedWidth == 100.0)
      && (p.initial + p.added == 0.0 ==> p.segTotal == 1.0 && p.initialWidth + p.addedWidth == 0.0)
      && (p.initial >= 0.0 ==> 0.0 <= p.initialWidth <= 100.0 && 0.0 <= p.addedWidth <= 100.0)
      && (p.initial >= 0.0 && p.total == 0.0 ==> p.initialWidth == 0.0 && p.addedWidth == 0.0)
  {
    var p := PreviewOf(pot, amount);
    if p.initial + p.added != 0.0 {
      Shares(p.initial, p.added);
    }
  }

  /** Two parts of a non-zero whole, as percentages of it, add up to 100 and lie in [0, 100] when non-negative. */
  lemma Shares(a: real, b: real)
    requires a + b != 0.0
    ensures a / (a + b) * 100.0 + b / (a + b) * 100.0 == 100.0
    ensures a >= 0.0 && b >= 0.0 ==> 0.0 <= a / (a + b) * 100.0 <= 100.0 && 0.0 <= b / (a + b) * 100.0 <= 100.0
  {
    var s := a + b;
    assert a / s + b / s == s / s;
    if a >= 0.0 && b >= 0.0 {
      assert s > 0.0;
      assert a / s <= s / s;
      assert b / s <= s / s;
    }
  }

  /** `onSubmit`: the entered amount, once the form accepts it; `None` leaves the dialog open. */
  function Submit(amount: NumberField): (r: Option<real>)
    ensures r.Some? <==> amount.Number? && amount.value >= 0.01
    ensures r.Some? ==> r.value == amount.value
  {
    if AddSchema(amount) then Some(amount.value) else None
  }
}
