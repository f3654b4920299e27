/**
 * The weighted slot-machine draw (src/utils/random.ts).
 * `Math.random()` is the parameter `random`; probabilities are summed exactly.
 */
module SlotRandom {
  import opened GameTypes

  /** Sum of the first `n` probabilities of a table. */
  function CumulativeProbability(options: seq<SlotOption>, n: nat): real
    requires n <= |options|
  {
    if n == 0 then 0.0 else CumulativeProbability(options, n - 1) + options[n - 1].probability
  }

  /** The first option, scanning from the front, whose running total reaches `random`. */
  function DrawFrom(options: seq<SlotOption>, cumulative: real, random: real): Option<real>
  {
    if options == [] then None
    else if random <= cumulative + options[0].probability then Some(options[0].multiplier)
    else DrawFrom(options[1..], cumulative + options[0].probability, random)
  }

  /** The multiplier `getRandomSlotMultiplier` returns for the draw `random`. */
  function SlotDraw(random: real): real
  {
    match DrawFrom(SLOT_OPTIONS, 0.0, random)
    case Some(m) => m
    case None => SLOT_OPTIONS[0].multiplier
  }

  /** The loop of `getRandomSlotMultiplier`, with the first entry as the fallback. */
  method GetRandomSlotMultiplier(random: real) returns (m: real)
    ensures m == SlotDraw(random)
  {
    var cumulativeProbability := 0.0;
    var i := 0;
    while i < |SLOT_OPTIONS|
      invariant 0 <= i <= |SLOT_OPTIONS|
      invariant cumulativeProbability == CumulativeProbability(SLOT_OPTIONS, i)
      invariant DrawFrom(SLOT_OPTIONS, 0.0, random) == DrawFrom(SLOT_OPTIONS[i..], cumulativeProbability, random)
    {
      var option := SLOT_OPTIONS[i];
      assert SLOT_OPTIONS[i..][1..] == SLOT_OPTIONS[i + 1..];
      cumulativeProbability := cumulativeProbability + option.probability;
      if random <= cumulativeProbability {
        return option.multiplier;
      }
      i := i + 1;
    }
    m := SLOT_OPTIONS[0].multiplier;
  }

  /** The bands of the unit interval: each option owns a band as wide as its probability. */
  function Band(random: real): real
  {
    if random <= 0.30 then 1.5
    else if random <= 0.55 then 2.0
    else if random <= 0.75 then 3.0
    else if random <= 0.90 then 4.0
    else if random <= 0.97 then 5.0
    else if random <= 1.0 then 10.0
    else 1.5
  }

  lemma SlotDrawIsBand(random: real)
    ensures SlotDraw(random) == Band(random)
  {
    var o := SLOT_OPTIONS;
    assert o[1..][1..] == o[2..] && o[2..][1..] == o[3..] && o[3..][1..] == o[4..];
    assert o[4..][1..] == o[5..] && o[5..][1..] == [];
    assert DrawFrom(o[5..], 0.97, random) == if random <= 1.0 then Some(10.0) else None;
    assert DrawFrom(o[4..], 0.90, random) == if random <= 0.97 then Some(5.0) else DrawFrom(o[5..], 0.97, random);
    assert DrawFrom(o[3..], 0.75, random) == if random <= 0.90 then Some(4.0) else DrawFrom(o[4..], 0.90, random);
    assert DrawFrom(o[2..], 0.55, random) == if random <= 0.75 then Some(3.0) else DrawFrom(o[3..], 0.75, random);
    assert DrawFrom(o[1..], 0.30, random) == if random <= 0.55 then Some(2.0) else DrawFrom(o[2..], 0.55, random);
  }

  lemma CumulativeEndpoints()
    ensures CumulativeProbability(SLOT_OPTIONS, 1) == 0.30
    ensures CumulativeProbability(SLOT_OPTIONS, 2) == 0.55
    ensures CumulativeProbability(SLOT_OPTIONS, 3) == 0.75
    ensures CumulativeProbability(SLOT_OPTIONS, 4) == 0.90
    ensures CumulativeProbability(SLOT_OPTIONS, 5) == 0.97
    ensures CumulativeProbability(SLOT_OPTIONS, 6) == 1.0
  {
  }

  /**
   * For a draw in [0, 1), option `i` is chosen exactly when the draw lies in
   * (CumulativeProbability(i), CumulativeProbability(i + 1)] (the first band also takes 0),
   * an interval whose width is that option's probability.
   */
  lemma {:induction false} OptionChosenOnItsBand(random: real, i: nat)
    requires 0.0 <= random < 1.0
    requires i < |SLOT_OPTIONS|
    ensures CumulativeProbability(SLOT_OPTIONS, i + 1) - CumulativeProbability(SLOT_OPTIONS, i) == SLOT_OPTIONS[i].probability
    ensures SlotDraw(random) == SLOT_OPTIONS[i].multiplier <==>
              (i == 0 || CumulativeProbability(SLOT_OPTIONS, i) < random) && random <= CumulativeProbability(SLOT_OPTIONS, i + 1)
  {
    SlotDrawIsBand(random);
    CumulativeEndpoints();
    SlotMultipliersAscending();
  }

  /** Every draw yields a multiplier of the table; anything above one falls back to the first. */
  lemma SlotDrawInTable(random: real)
    ensures SlotDraw(random) in SlotMultipliers()
    ensures random <= 0.30 ==> SlotDraw(random) == 1.5
    ensures 0.97 < random <= 1.0 ==> SlotDraw(random) == 10.0
    ensures random > 1.0 ==> SlotDraw(random) == SLOT_OPTIONS[0].multiplier
  {
    SlotDrawIsBand(random);
    SlotMultipliersAscending();
  }

  /** On the unit interval, a larger draw never yields a smaller multiplier. */
  lemma SlotDrawMonotone(r1: real, r2: real)
    requires r1 <= r2 <= 1.0
    ensures SlotDraw(r1) <= SlotDraw(r2)
  {
    SlotDrawIsBand(r1);
    SlotDrawIsBand(r2);
  }
}
