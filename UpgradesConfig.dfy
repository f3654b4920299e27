/**
 * The upgrade tables and their cost formula (src/config/upgrades.ts).
 * Each `getEffect` closure is written as a tagged effect descriptor read by `EffectAt`.
 */
module UpgradesConfig {
  import opened GameTypes
  import opened Numbers

  /** The shapes of `getEffect` the tables use. */
  datatype Effect =
    | Compounding(factor: real)     // factor ^ level
    | PerLevel(step: real)          // level * step
    | Tabulated(values: seq<real>)  // values[level] || 0

  datatype UnlockKind = CurrencyAmount | PrestigeCurrencyAmount

  datatype UnlockRequirement = UnlockRequirement(kind: UnlockKind, currencyIndex: Option<nat>, amount: real)

  datatype UpgradeConfig = UpgradeConfig(
    id: string,
    baseCost: real,
    costMultiplier: real,
    maxLevel: Option<nat>,
    costCurrency: Option<Currency>,
    effect: Effect,
    unlockRequirement: Option<UnlockRequirement>)

  const FILL_FASTER := UpgradeConfig("fill_faster", 5.0, 2.0, Some(25), None, Compounding(1.2), None)
  const MANA_GEM := UpgradeConfig("mana_gem", 2000.0, 1.2, Some(50), None, PerLevel(0.1),
                                  Some(UnlockRequirement(CurrencyAmount, None, 2000.0)))
  const PINK_MULTIPLIER := UpgradeConfig("pink_multiplier", 1000000.0, 10.0, Some(5), None, Compounding(2.0),
                                         Some(UnlockRequirement(PrestigeCurrencyAmount, Some(0), 1.0)))

  /** Blue-square upgrades. */
  const UPGRADES: seq<UpgradeConfig> := [FILL_FASTER, MANA_GEM, PINK_MULTIPLIER]

  const PINK_UNLOCK := Some(UnlockRequirement(PrestigeCurrencyAmount, Some(0), 1.0))
  const FIVE_FOLD: seq<real> := [0.0, 5.0, 25.0, 125.0, 625.0, 3125.0]

  /** Pink-square upgrades (not read by the store's actions). */
  const PINK_UPGRADES: seq<UpgradeConfig> := [
    UpgradeConfig("passive_generation", 1.0, 1.0, Some(1), Some(Pink), PerLevel(0.1), PINK_UNLOCK),
    UpgradeConfig("mana_boost", 4.0, 5.0, Some(5), Some(Pink), Tabulated(FIVE_FOLD), PINK_UNLOCK),
    UpgradeConfig("fill_rate", 4.0, 5.0, Some(5), Some(Pink), Tabulated(FIVE_FOLD), PINK_UNLOCK)
  ]

  /** `getEffect(level)`. */
  function EffectAt(e: Effect, level: nat): real
  {
    match e
    case Compounding(f) => Pow(f, level)
    case PerLevel(step) => level as real * step
    case Tabulated(values) => if level < |values| then values[level] else 0.0
  }

  /** `getUpgradeCost`: the floor of `baseCost * costMultiplier ^ level`. */
  function GetUpgradeCost(u: UpgradeConfig, currentLevel: nat): int
  {
    (u.baseCost * Pow(u.costMultiplier, currentLevel)).Floor
  }

  /**
   * `table.find(u => u.id === id)`. Each config table has its own search over its own
   * record type, for the reason given at the lookups of `Multipliers`.
   */
  function FindUpgrade(table: seq<UpgradeConfig>, id: string): (r: Option<UpgradeConfig>)
    ensures r.Some? ==> r.value in table && r.value.id == id
    ensures r.None? <==> forall i :: 0 <= i < |table| ==> table[i].id != id
  {
    if table == [] then None
    else if table[0].id == id then Some(table[0])
    else FindUpgrade(table[1..], id)
  }

  /** `maxLevel` is truthy: present and non-zero. */
  predicate HasMaxLevel(u: UpgradeConfig)
  {
    u.maxLevel.Some? && u.maxLevel.value != 0
  }

  lemma UpgradeIds()
    ensures |UPGRADES| == 3
    ensures UPGRADES[0].id == "fill_faster" && UPGRADES[1].id == "mana_gem" && UPGRADES[2].id == "pink_multiplier"
    ensures FindUpgrade(UPGRADES, "fill_faster") == Some(FILL_FASTER)
    ensures FindUpgrade(UPGRADES, "mana_gem") == Some(MANA_GEM)
    ensures FindUpgrade(UPGRADES, "pink_multiplier") == Some(PINK_MULTIPLIER)
  {
  }

  /** Level-0 costs of the three blue upgrades. */
  lemma StartingCosts()
    ensures GetUpgradeCost(FILL_FASTER, 0) == 5
    ensures GetUpgradeCost(MANA_GEM, 0) == 2000
    ensures GetUpgradeCost(PINK_MULTIPLIER, 0) == 1000000
  {
  }

  /** Every table entry's multiplier is at least one, so cost never falls as the level rises. */
  lemma {:induction false} CostNonDecreasing(u: UpgradeConfig, m: nat, n: nat)
    requires u in UPGRADES || u in PINK_UPGRADES
    requires m <= n
    ensures GetUpgradeCost(u, m) <= GetUpgradeCost(u, n)
  {
    assert u.costMultiplier >= 1.0 && u.baseCost >= 0.0;
    PowMonotone(u.costMultiplier, m, n);
    ScaleMonotone(u.baseCost, Pow(u.costMultiplier, m), Pow(u.costMultiplier, n));
  }

  lemma {:induction false} PassiveGenerationCostsOne(level: nat)
    ensures GetUpgradeCost(PINK_UPGRADES[0], level) == 1
  {
    PowOfOne(level);
  }

  /** The closed forms of the three blue effects, and their values at level 0. */
  lemma BlueEffects(level: nat)
    ensures EffectAt(FILL_FASTER.effect, level) == Pow(1.2, level)
    ensures EffectAt(MANA_GEM.effect, level) == 0.1 * level as real
    ensures EffectAt(PINK_MULTIPLIER.effect, level) == Pow(2.0, level)
    ensures EffectAt(FILL_FASTER.effect, 0) == 1.0
    ensures EffectAt(MANA_GEM.effect, 0) == 0.0
    ensures EffectAt(PINK_MULTIPLIER.effect, 0) == 1.0
  {
  }

  lemma MaxLevels()
    ensures FILL_FASTER.maxLevel == Some(25) && MANA_GEM.maxLevel == Some(50) && PINK_MULTIPLIER.maxLevel == Some(5)
    ensures forall u :: u in UPGRADES ==> HasMaxLevel(u) && u.maxLevel.value > 0
  {
  }

  lemma UnlockRequirements()
    ensures FILL_FASTER.unlockRequirement.None?
    ensures MANA_GEM.unlockRequirement == Some(UnlockRequirement(CurrencyAmount, None, 2000.0))
    ensures PINK_MULTIPLIER.unlockRequirement == Some(UnlockRequirement(PrestigeCurrencyAmount, Some(0), 1.0))
  {
  }

  /** The tabulated pink effects give nothing outside levels 0..5. */
  lemma TabulatedEffectsOutsideRange(level: nat)
    requires level > 5
    ensures EffectAt(PINK_UPGRADES[1].effect, level) == 0.0
    ensures EffectAt(PINK_UPGRADES[2].effect, level) == 0.0
  {
  }
}
