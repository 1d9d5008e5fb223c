/**
 * components/modals/WithdrawMoneyModal.tsx: the amount check, the live
 * preview of the pot after the withdrawal, and the guard against taking out
 * more than the pot holds.
 */
module WithdrawMoneyModal {
  import opened Wrappers
  import opened Records
  import opened JsMath

  const MaxWithdrawal: real := 1000000.0

  /** `withdrawSchema`: a finite number between 0.01 and 1,000,000. */
  predicate WithdrawSchema(amount: NumberField) {
    amount.Number? && 0.01 <= amount.value <= MaxWithdrawal
  }

  /** The watched amount as the preview reads it: anything but a number counts as 0. */
  function WatchedAmount(raw: NumberField): real {
    if raw.Number? then raw.value else 0.0
  }

  /** `pot?.total ?? 0`. */
  function Initial(pot: Option<Pot>): real {
    if pot.Some? then pot.value.total else 0.0
  }

  /** `pot?.target || 1`: no pot, or a zero target, falls back to 1. */
  function TargetOf(pot: Option<Pot>): real {
    if pot.Some? && pot.value.target != 0.0 then pot.value.target else 1.0
  }

  datatype Preview = Preview(
    initial: real,
    withdrawn: real,
    remaining: real,
    target: real,
    remainingFill: real,
    withdrawnFill: real,
    emptyFill: real)

  /**
   * The preview for the watched amount. A NaN amount previews as nothing
   * withdrawn; what remains is never negative and, for a pot not in the red,
   * never more than it holds; an amount within the pot splits it exactly into
   * what remains and what is taken; the target is never 0 and the empty part
   * of the bar never negative.
   */
  function PreviewOf(pot: Option<Pot>, raw: NumberField): (p: Preview)
    ensures p.initial == Initial(pot)
    ensures raw.NotANumber? ==> p.withdrawn == 0.0 && p.remaining == Max(0.0, p.initial)
    ensures p.withdrawn >= 0.0 && p.remaining >= 0.0
    ensures p.initial >= 0.0 ==> p.remaining <= p.initial
    ensures p.withdrawn <= p.initial ==> p.remaining + p.withdrawn == p.initial
    ensures p.target != 0.0
    ensures pot.None? || pot.value.target == 0.0 ==> p.target == 1.0
    ensures p.emptyFill >= 0.0
    ensures p.remainingFill + p.withdrawnFill <= 100.0 ==> p.remainingFill + p.withdrawnFill + p.emptyFill == 100.0
  {
    var initial := Initial(pot);
    var withdrawn := Max(0.0, WatchedAmount(raw));
    var remaining := Max(0.0, initial - withdrawn);
    var target := TargetOf(pot);
    var remainingFill := remaining / target * 100.0;
    var withdrawnFill := withdrawn / target * 100.0;
    Preview(initial, withdrawn, remaining, target, remainingFill, withdrawnFill,
      Max(0.0, 100.0 - remainingFill - withdrawnFill))
  }

  datatype Outcome =
    | Invalid            // the schema rejects the amount; the form shows its message
    | Overdrawn          // "Cannot withdraw more than current amount."
    | Confirmed(amount: real)

  /** `onSubmit`, after the schema check: refuse more than the pot holds, else confirm the amount. */
  function Submit(pot: Option<Pot>, amount: NumberField): (r: Outcome)
    ensures r.Invalid? <==> !(amount.Number? && 0.01 <= amount.value <= MaxWithdrawal)
    ensures r.Overdrawn? <==> amount.Number? && 0.01 <= amount.value <= MaxWithdrawal && amount.value > Initial(pot)
    ensures r.Confirmed? ==> r.amount == amount.value && 0.01 <= r.amount <= Initial(pot) && r.amount <= MaxWithdrawal
  {
    if !WithdrawSchema(amount) then Invalid
    else if amount.value > Initial(pot) then Overdrawn
    else Confirmed(amount.value)
  }

  /** Only a pot holding at least 0.01 can confirm a withdrawal; an absent pot never can. */
  lemma ConfirmNeedsFunds(pot: Option<Pot>, amount: NumberField)
    requires Submit(pot, amount).Confirmed?
    ensures pot.Some? && pot.value.total >= 0.01
  {
  }
}
