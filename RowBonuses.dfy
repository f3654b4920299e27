/**
 * The row bonuses of the layer (src/stores/gameStore.ts): `getTotalMultiplier`
 * (lines 384-399), the map of `spinSlotForRow` (lines 369-382) and the force-roll
 * of spinning bonuses at the start of `collect` (lines 401-432).
 */
module RowBonuses {
  import opened GameTypes
  import opened Numbers
  import opened SlotRandom
  import opened Grid

  /** What one bonus contributes to the running product: its multiplier once not null. */
  function BonusFactor(b: RowBonus): real
  {
    if b.multiplier.Some? then b.multiplier.value else 1.0
  }

  /** `getTotalMultiplier`: `reduce` from the left, starting at 1. */
  function TotalMultiplier(bonuses: seq<RowBonus>): real
  {
    if bonuses == [] then 1.0
    else Times(TotalMultiplier(bonuses[..|bonuses| - 1]), BonusFactor(bonuses[|bonuses| - 1]))
  }

  /** Every resolved multiplier is one of the slot's. */
  predicate MultipliersFromSlot(bonuses: seq<RowBonus>)
  {
    forall k :: 0 <= k < |bonuses| && bonuses[k].multiplier.Some? ==> bonuses[k].multiplier.value in SlotMultipliers()
  }

  lemma TotalMultiplierAppend(bonuses: seq<RowBonus>, b: RowBonus)
    ensures TotalMultiplier(bonuses + [b]) == Times(TotalMultiplier(bonuses), BonusFactor(b))
  {
    var t := bonuses + [b];
    assert t[..|t| - 1] == bonuses && t[|t| - 1] == b;
  }

  /** Spinning bonuses are neutral: with nothing resolved the multiplier is 1. */
  lemma {:induction false} NothingResolvedIsOne(bonuses: seq<RowBonus>)
    requires forall k :: 0 <= k < |bonuses| ==> bonuses[k].multiplier.None?
    ensures TotalMultiplier(bonuses) == 1.0
  {
    if bonuses != [] {
      NothingResolvedIsOne(bonuses[..|bonuses| - 1]);
    }
  }

  /** Slot multipliers are all at least 1.5, so the total never falls below 1. */
  lemma {:induction false} TotalMultiplierAtLeastOne(bonuses: seq<RowBonus>)
    requires MultipliersFromSlot(bonuses)
    ensures TotalMultiplier(bonuses) >= 1.0
  {
    if bonuses != [] {
      var init, last := bonuses[..|bonuses| - 1], bonuses[|bonuses| - 1];
      assert forall k :: 0 <= k < |init| ==> init[k] == bonuses[k];
      TotalMultiplierAtLeastOne(init);
      SlotMultipliersAscending();
      assert last == bonuses[|bonuses| - 1];
      var f := BonusFactor(last);
      assert f >= 1.0;
      ScaleMonotone(TotalMultiplier(init), 1.0, f);
    }
  }

  lemma BonusesOkFromSlot(bonuses: seq<RowBonus>)
    requires BonusesOk(bonuses)
    ensures MultipliersFromSlot(bonuses)
  {
  }

  // ---- spinSlotForRow ----

  /** The bonus of `row` stops on `m`. */
  function Stop(b: RowBonus, m: real): RowBonus
  {
    b.(multiplier := Some(m), isSpinning := false)
  }

  /** `rowBonuses.map(bonus => bonus.row === row ? { ...bonus, multiplier, isSpinning: false } : bonus)`. */
  function SpinRow(bonuses: seq<RowBonus>, row: nat, m: real): (r: seq<RowBonus>)
    ensures |r| == |bonuses|
  {
    seq(|bonuses|, i requires 0 <= i < |bonuses| => if bonuses[i].row == row then Stop(bonuses[i], m) else bonuses[i])
  }

  /** Only bonuses of that row change, and each stops on `m`. */
  lemma SpinRowChanges(bonuses: seq<RowBonus>, row: nat, m: real)
    ensures forall i :: 0 <= i < |bonuses| && bonuses[i].row != row ==> SpinRow(bonuses, row, m)[i] == bonuses[i]
    ensures forall i :: 0 <= i < |bonuses| && bonuses[i].row == row ==>
              SpinRow(bonuses, row, m)[i].multiplier == Some(m) && !SpinRow(bonuses, row, m)[i].isSpinning
              && SpinRow(bonuses, row, m)[i].row == row
  {
  }

  /** A spin for a row without a bonus (a grid already collected or prestiged) changes nothing. */
  lemma SpinAbsentRow(bonuses: seq<RowBonus>, row: nat, m: real)
    requires forall i :: 0 <= i < |bonuses| ==> bonuses[i].row != row
    ensures SpinRow(bonuses, row, m) == bonuses
  {
  }

  /** Stopping on a slot multiplier keeps the bonus invariant. */
  lemma SpinRowKeepsOk(bonuses: seq<RowBonus>, row: nat, m: real)
    requires BonusesOk(bonuses) && m in SlotMultipliers()
    ensures BonusesOk(SpinRow(bonuses, row, m))
  {
  }

  lemma SpinRowAppend(bonuses: seq<RowBonus>, b: RowBonus, row: nat, m: real)
    ensures SpinRow(bonuses + [b], row, m) == SpinRow(bonuses, row, m) + [if b.row == row then Stop(b, m) else b]
  {
  }

  /** Bonus `k` belongs to row `k`. */
  predicate RowsIndexed(bonuses: seq<RowBonus>)
  {
    forall k :: 0 <= k < |bonuses| ==> bonuses[k].row == k
  }

  /** Resolving a row whose multiplier is still null multiplies the layer's total by the multiplier drawn. */
  lemma {:induction false} SpinRowMultiplies(bonuses: seq<RowBonus>, row: nat, m: real)
    requires RowsIndexed(bonuses) && row < |bonuses| && bonuses[row].multiplier.None?
    ensures TotalMultiplier(SpinRow(bonuses, row, m)) == Times(TotalMultiplier(bonuses), m)
  {
    var init, last := bonuses[..|bonuses| - 1], bonuses[|bonuses| - 1];
    assert bonuses == init + [last];
    assert RowsIndexed(init);
    SpinRowAppend(init, last, row, m);
    var spunInit := SpinRow(init, row, m);
    TotalMultiplierAppend(init, last);
    if row == |bonuses| - 1 {
      SpinAbsentRow(init, row, m);
      TotalMultiplierAppend(init, Stop(last, m));
      assert BonusFactor(last) == 1.0;
    } else {
      SpinRowMultiplies(init, row, m);
      TotalMultiplierAppend(spunInit, last);
      TimesAssociates(TotalMultiplier(init), m, BonusFactor(last));
      TimesAssociates(TotalMultiplier(init), BonusFactor(last), m);
      assert Times(m, BonusFactor(last)) == Times(BonusFactor(last), m);
    }
  }

  // ---- The force-roll in collect ----

  /** `layer.rowBonuses.filter(b => b.isSpinning).length`. */
  function SpinningCount(bonuses: seq<RowBonus>): (n: nat)
    ensures n <= |bonuses|
  {
    if bonuses == [] then 0
    else SpinningCount(bonuses[..|bonuses| - 1]) + (if bonuses[|bonuses| - 1].isSpinning then 1 else 0)
  }

  /** A spinning bonus stops on the slot draw of `random`; others stay. */
  function Roll(b: RowBonus, random: real): RowBonus
  {
    if b.isSpinning then Stop(b, SlotDraw(random)) else b
  }

  /** The map of `collect`: the k-th spinning bonus in list order takes draw k. */
  function ForceRoll(bonuses: seq<RowBonus>, rolls: nat -> real): (r: seq<RowBonus>)
    ensures |r| == |bonuses|
  {
    if bonuses == [] then []
    else
      var init := bonuses[..|bonuses| - 1];
      ForceRoll(init, rolls) + [Roll(bonuses[|bonuses| - 1], rolls(SpinningCount(init)))]
  }

  /** The multiplier `collect` pays with. */
  function CollectMultiplier(bonuses: seq<RowBonus>, rolls: nat -> real): real
  {
    if SpinningCount(bonuses) > 0 then TotalMultiplier(ForceRoll(bonuses, rolls)) else TotalMultiplier(bonuses)
  }

  /** With nothing spinning the force-roll is the identity, so both branches of `collect` agree. */
  lemma {:induction false} ForceRollIdentity(bonuses: seq<RowBonus>, rolls: nat -> real)
    requires SpinningCount(bonuses) == 0
    ensures ForceRoll(bonuses, rolls) == bonuses
    ensures CollectMultiplier(bonuses, rolls) == TotalMultiplier(ForceRoll(bonuses, rolls))
  {
    if bonuses != [] {
      var init := bonuses[..|bonuses| - 1];
      ForceRollIdentity(init, rolls);
      assert bonuses == init + [bonuses[|bonuses| - 1]];
    }
  }

  /** After the force-roll nothing spins, rows are kept, settled bonuses are untouched and the invariant holds. */
  lemma {:induction false} ForceRollSettles(bonuses: seq<RowBonus>, rolls: nat -> real)
    requires BonusesOk(bonuses)
    ensures var r := ForceRoll(bonuses, rolls);
            BonusesOk(r)
            && (forall k :: 0 <= k < |r| ==> !r[k].isSpinning && r[k].multiplier.Some?)
            && (forall k :: 0 <= k < |r| && !bonuses[k].isSpinning ==> r[k] == bonuses[k])
  {
    if bonuses != [] {
      var init, last := bonuses[..|bonuses| - 1], bonuses[|bonuses| - 1];
      assert BonusesOk(init);
      ForceRollSettles(init, rolls);
      SlotDrawInTable(rolls(SpinningCount(init)));
      var r := ForceRoll(bonuses, rolls);
      assert r == ForceRoll(init, rolls) + [Roll(last, rolls(SpinningCount(init)))];
      assert forall k :: 0 <= k < |init| ==> r[k] == ForceRoll(init, rolls)[k];
    }
  }

  /** What `collect` multiplies by is never below 1. */
  lemma CollectMultiplierAtLeastOne(bonuses: seq<RowBonus>, rolls: nat -> real)
    requires BonusesOk(bonuses)
    ensures CollectMultiplier(bonuses, rolls) >= 1.0
  {
    ForceRollSettles(bonuses, rolls);
    BonusesOkFromSlot(ForceRoll(bonuses, rolls));
    TotalMultiplierAtLeastOne(ForceRoll(bonuses, rolls));
    BonusesOkFromSlot(bonuses);
    TotalMultiplierAtLeastOne(bonuses);
  }
}
