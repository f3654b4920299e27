/**
 * `getModifiedPayout` of the combo panel (src/components/Combos.tsx:30-62).
 * The combo upgrade table is not part of this model: the `more_combo_points` entry,
 * when the table has one, is passed in as its effect descriptor.
 */
module ComboPayout {
  import opened GameTypes
  import opened Numbers
  import opened UpgradesConfig

  /** The three combo upgrade levels the payout reads. */
  datatype ComboLevels = ComboLevels(moreComboPoints: int, luckyBlue: int, crazyPink: int)

  /** Filled squares of colour `colour`. */
  function FilledOfColour(squares: seq<ComboSquare>, colour: string): nat
  {
    if squares == [] then 0
    else (if squares[0].filled && squares[0].color == Some(colour) then 1 else 0) + FilledOfColour(squares[1..], colour)
  }

  /** `getModifiedPayout(basePoints)`: three conditional multiplications, then `Math.floor`. */
  function GetModifiedPayout(basePoints: real, squares: seq<ComboSquare>, levels: ComboLevels, moreEffect: Option<Effect>): int
  {
    var afterMore :=
      if levels.moreComboPoints > 0 && moreEffect.Some? then basePoints * EffectAt(moreEffect.value, levels.moreComboPoints)
      else basePoints;
    var blueCount := FilledOfColour(squares, "blue");
    var afterBlue := if levels.luckyBlue > 0 && blueCount > 0 then afterMore * Pow(2.0, blueCount) else afterMore;
    var pinkCount := FilledOfColour(squares, "pink");
    var afterPink := if levels.crazyPink > 0 && pinkCount >= 3 then afterBlue * 100.0 else afterBlue;
    afterPink.Floor
  }

  /** Each upgrade's contribution, read separately. */
  function MoreFactor(levels: ComboLevels, moreEffect: Option<Effect>): real
  {
    if levels.moreComboPoints > 0 && moreEffect.Some? then EffectAt(moreEffect.value, levels.moreComboPoints) else 1.0
  }

  function BlueFactor(squares: seq<ComboSquare>, levels: ComboLevels): real
  {
    if levels.luckyBlue > 0 then Pow(2.0, FilledOfColour(squares, "blue")) else 1.0
  }

  function PinkFactor(squares: seq<ComboSquare>, levels: ComboLevels): real
  {
    if levels.crazyPink > 0 && FilledOfColour(squares, "pink") >= 3 then 100.0 else 1.0
  }

  /** The payout is the floor of the base times the three factors. */
  lemma PayoutIsProductOfFactors(basePoints: real, squares: seq<ComboSquare>, levels: ComboLevels, moreEffect: Option<Effect>)
    ensures GetModifiedPayout(basePoints, squares, levels, moreEffect)
         == (basePoints * MoreFactor(levels, moreEffect) * BlueFactor(squares, levels) * PinkFactor(squares, levels)).Floor
  {
  }

  /** With no combo upgrade bought, the payout is the floor of the base. */
  lemma NoUpgradesGiveFloor(basePoints: real, squares: seq<ComboSquare>, moreEffect: Option<Effect>)
    ensures GetModifiedPayout(basePoints, squares, ComboLevels(0, 0, 0), moreEffect) == basePoints.Floor
  {
  }

  /** `lucky_blue` alone multiplies by two for every filled blue square. */
  lemma LuckyBlueDoublesPerBlue(basePoints: real, squares: seq<ComboSquare>, luckyBlue: int, moreEffect: Option<Effect>)
    requires luckyBlue > 0
    ensures GetModifiedPayout(basePoints, squares, ComboLevels(0, luckyBlue, 0), moreEffect)
         == (basePoints * Pow(2.0, FilledOfColour(squares, "blue"))).Floor
  {
  }

  /** `crazy_pink` alone multiplies by 100 exactly when three or more filled squares are pink. */
  lemma CrazyPinkNeedsThree(basePoints: real, squares: seq<ComboSquare>, crazyPink: int, moreEffect: Option<Effect>)
    requires crazyPink > 0
    ensures FilledOfColour(squares, "pink") >= 3 ==>
              GetModifiedPayout(basePoints, squares, ComboLevels(0, 0, crazyPink), moreEffect) == (basePoints * 100.0).Floor
    ensures FilledOfColour(squares, "pink") < 3 ==>
              GetModifiedPayout(basePoints, squares, ComboLevels(0, 0, crazyPink), moreEffect) == basePoints.Floor
  {
  }

  /** A positive `more_combo_points` level scales the base by its effect before anything else. */
  lemma MoreComboPointsFirst(basePoints: real, squares: seq<ComboSquare>, levels: ComboLevels, e: Effect)
    requires levels.moreComboPoints > 0
    ensures GetModifiedPayout(basePoints, squares, levels, Some(e))
         == GetModifiedPayout(basePoints * EffectAt(e, levels.moreComboPoints), squares,
                              ComboLevels(0, levels.luckyBlue, levels.crazyPink), Some(e))
  {
  }

  lemma {:induction false} EffectNonNegative(e: Effect, level: nat)
    requires e.Compounding? ==> e.factor >= 0.0
    requires e.PerLevel? ==> e.step >= 0.0
    requires e.Tabulated? ==> forall i :: 0 <= i < |e.values| ==> e.values[i] >= 0.0
    ensures EffectAt(e, level) >= 0.0
  {
    if e.Compounding? && level > 0 {
      EffectNonNegative(e, level - 1);
      assert EffectAt(e, level) == e.factor * EffectAt(e, level - 1);
    }
  }

  /** For a non-negative base and non-negative effects the payout is a non-negative integer. */
  lemma PayoutNonNegative(basePoints: real, squares: seq<ComboSquare>, levels: ComboLevels, moreEffect: Option<Effect>)
    requires basePoints >= 0.0
    requires moreEffect.Some? && levels.moreComboPoints > 0 ==> EffectAt(moreEffect.value, levels.moreComboPoints) >= 0.0
    ensures GetModifiedPayout(basePoints, squares, levels, moreEffect) >= 0
  {
    PayoutIsProductOfFactors(basePoints, squares, levels, moreEffect);
    var m := MoreFactor(levels, moreEffect);
    var b := BlueFactor(squares, levels);
    var p := PinkFactor(squares, levels);
    PowPositive(2.0, FilledOfColour(squares, "blue"));
    assert m >= 0.0 && b >= 0.0 && p >= 0.0;
    assert basePoints * m >= 0.0;
    assert basePoints * m * b >= 0.0;
    assert basePoints * m * b * p >= 0.0;
  }

  lemma {:induction false} FilledOfColourAppend(a: seq<ComboSquare>, b: seq<ComboSquare>, colour: string)
    ensures FilledOfColour(a + b, colour) == FilledOfColour(a, colour) + FilledOfColour(b, colour)
  {
    if a == [] {
      assert a + b == b;
    } else {
      assert (a + b)[0] == a[0] && (a + b)[1..] == a[1..] + b;
      FilledOfColourAppend(a[1..], b, colour);
    }
  }

  /** Inserting an unfilled square anywhere leaves the payout unchanged. */
  lemma UnfilledSquareIgnored(basePoints: real, squares: seq<ComboSquare>, i: nat, q: ComboSquare,
                              levels: ComboLevels, moreEffect: Option<Effect>)
    requires i <= |squares| && !q.filled
    ensures GetModifiedPayout(basePoints, squares[..i] + [q] + squares[i..], levels, moreEffect)
         == GetModifiedPayout(basePoints, squares, levels, moreEffect)
  {
    assert squares[..i] + squares[i..] == squares;
    assert [q][1..] == [];
    forall colour | colour in {"blue", "pink"}
      ensures FilledOfColour(squares[..i] + [q] + squares[i..], colour) == FilledOfColour(squares, colour)
    {
      FilledOfColourAppend(squares[..i] + [q], squares[i..], colour);
      FilledOfColourAppend(squares[..i], [q], colour);
      FilledOfColourAppend(squares[..i], squares[i..], colour);
    }
  }
}
