/** components/PotCard.tsx: the progress percentage of a savings pot. */
module PotCard {
  import opened Records
  import opened JsMath

  /**
   * `pot.target ? Math.min(100, (pot.total / pot.target) * 100) : 0`: the
   * share of the target saved so far, capped at 100, and 0 for a zero target.
   */
  function Pct(pot: Pot): (r: real)
    ensures pot.target == 0.0 ==> r == 0.0
    ensures r <= 100.0
    ensures pot.target != 0.0 && pot.total / pot.target * 100.0 <= 100.0 ==> r == pot.total / pot.target * 100.0
    ensures pot.target != 0.0 && pot.total / pot.target * 100.0 >= 100.0 ==> r == 100.0
    ensures pot.total >= 0.0 && pot.target > 0.0 ==> r >= 0.0
  {
    if pot.target != 0.0 then Min(100.0, pot.total / pot.target * 100.0) else 0.0
  }

  /** A pot that has reached its target shows a full bar; one short of it shows less. */
  lemma PctReachesTarget(pot: Pot)
    requires pot.target > 0.0
    ensures Pct(pot) == 100.0 <==> pot.total >= pot.target
  {
    if pot.total >= pot.target {
      assert pot.total / pot.target >= 1.0;
    } else {
      assert pot.total / pot.target < 1.0;
    }
  }
}
