/** The spell table and its cost formula (src/config/spells.ts, src/types/spells.ts). */
module SpellsConfig {
  import opened GameTypes
  import opened Numbers

  /** `duration` in milliseconds, present only for timed spells. */
  datatype SpellConfig = SpellConfig(id: string, baseCost: real, costMultiplier: real, duration: Option<int>)

  const HASTE := SpellConfig("haste", 20.0, 2.0, Some(30000))
  const MAGICAL_COLLECT := SpellConfig("magical_collect", 50.0, 2.0, None)
  const FASTER_SQUARES := SpellConfig("faster_squares", 100.0, 2.0, None)

  const SPELLS: seq<SpellConfig> := [HASTE, MAGICAL_COLLECT, FASTER_SQUARES]

  /** `getSpellCost`: the floor of `baseCost * costMultiplier ^ timesCast`. */
  function GetSpellCost(spell: SpellConfig, timesCast: nat): int
  {
    (spell.baseCost * Pow(spell.costMultiplier, timesCast)).Floor
  }

  /** `SPELLS.find(s => s.id === id)`. */
  function FindSpell(table: seq<SpellConfig>, id: string): (r: Option<SpellConfig>)
    ensures r.Some? ==> r.value in table && r.value.id == id
    ensures r.None? <==> forall i :: 0 <= i < |table| ==> table[i].id != id
  {
    if table == [] then None
    else if table[0].id == id then Some(table[0])
    else FindSpell(table[1..], id)
  }

  /** The whole-number base cost of each spell. */
  function BaseCost(spell: SpellConfig): nat
    requires spell in SPELLS
  {
    if spell == HASTE then 20 else if spell == MAGICAL_COLLECT then 50 else 100
  }

  /** Every spell costs its base cost times two to the number of casts, exactly. */
  lemma {:induction false} SpellCostClosedForm(spell: SpellConfig, timesCast: nat)
    requires spell in SPELLS
    ensures GetSpellCost(spell, timesCast) == BaseCost(spell) * PowNat(2, timesCast)
  {
    PowOfNat(2, timesCast);
    assert spell.baseCost == BaseCost(spell) as real && spell.costMultiplier == 2.0;
    assert spell.baseCost * Pow(2.0, timesCast) == (BaseCost(spell) * PowNat(2, timesCast)) as real;
  }

  /** Costs start at 20, 50 and 100, double with every cast and are positive whole numbers. */
  lemma SpellCostsDouble(spell: SpellConfig, timesCast: nat)
    requires spell in SPELLS
    ensures GetSpellCost(spell, timesCast + 1) == 2 * GetSpellCost(spell, timesCast)
    ensures GetSpellCost(spell, timesCast) > 0
    ensures GetSpellCost(spell, timesCast) < GetSpellCost(spell, timesCast + 1)
    ensures GetSpellCost(HASTE, 0) == 20 && GetSpellCost(MAGICAL_COLLECT, 0) == 50 && GetSpellCost(FASTER_SQUARES, 0) == 100
  {
    SpellCostClosedForm(spell, timesCast);
    SpellCostClosedForm(spell, timesCast + 1);
    PowNatPositive(2, timesCast);
    assert PowNat(2, timesCast + 1) == 2 * PowNat(2, timesCast);
  }

  /** Only haste is timed, for 30 seconds; the three ids are distinct. */
  lemma SpellTable()
    ensures HASTE.duration == Some(30000)
    ensures forall s :: s in SPELLS && s != HASTE ==> s.duration.None?
    ensures forall i, j :: 0 <= i < j < |SPELLS| ==> SPELLS[i].id != SPELLS[j].id
    ensures FindSpell(SPELLS, "haste") == Some(HASTE)
    ensures FindSpell(SPELLS, "magical_collect") == Some(MAGICAL_COLLECT)
    ensures FindSpell(SPELLS, "faster_squares") == Some(FASTER_SQUARES)
  {
  }
}
