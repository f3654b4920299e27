/** Applying upgrade effects as multipliers (src/utils/upgrades.ts). */
module UpgradeUtils {
  import opened GameTypes
  import opened UpgradesConfig
  import opened Numbers

  /** One `{ upgrades, upgradeId, currentLevel }` argument of `applyMultipleUpgrades`. */
  datatype UpgradeSource = UpgradeSource(upgrades: seq<UpgradeConfig>, upgradeId: string, currentLevel: int)

  /** The factor a source contributes: its effect when it is both purchased and known, else 1. */
  function SourceFactor(s: UpgradeSource): real
  {
    if s.currentLevel <= 0 then 1.0
    else match FindUpgrade(s.upgrades, s.upgradeId)
      case None => 1.0
      case Some(config) => EffectAt(config.effect, s.currentLevel)
  }

  /** `applyUpgradeMultiplier`. */
  function ApplyUpgradeMultiplier(upgrades: seq<UpgradeConfig>, upgradeId: string, currentLevel: int, baseMultiplier: real): (r: real)
    ensures currentLevel <= 0 ==> r == baseMultiplier
    ensures FindUpgrade(upgrades, upgradeId).None? ==> r == baseMultiplier
    ensures currentLevel > 0 && FindUpgrade(upgrades, upgradeId).Some? ==>
              r == baseMultiplier * EffectAt(FindUpgrade(upgrades, upgradeId).value.effect, currentLevel)
    ensures (exists u :: u in upgrades && u.id == upgradeId) || currentLevel <= 0 || r == baseMultiplier
  {
    if currentLevel <= 0 then baseMultiplier
    else match FindUpgrade(upgrades, upgradeId)
      case None => baseMultiplier
      case Some(config) => baseMultiplier * EffectAt(config.effect, currentLevel)
  }

  /** `applyMultipleUpgrades`: `reduce` from the left, starting at the base. */
  function ApplyMultipleUpgrades(baseMultiplier: real, sources: seq<UpgradeSource>): real
    decreases |sources|
  {
    if sources == [] then baseMultiplier
    else ApplyMultipleUpgrades(
      ApplyUpgradeMultiplier(sources[0].upgrades, sources[0].upgradeId, sources[0].currentLevel, baseMultiplier),
      sources[1..])
  }

  /** The independent reference: the product of all sources' factors. */
  function FactorProduct(sources: seq<UpgradeSource>): real
  {
    if sources == [] then 1.0 else Times(SourceFactor(sources[0]), FactorProduct(sources[1..]))
  }

  lemma ApplyIsScaling(s: UpgradeSource, base: real)
    ensures ApplyUpgradeMultiplier(s.upgrades, s.upgradeId, s.currentLevel, base) == base * SourceFactor(s)
  {
  }

  /** One step of the fold: the first source scales the base by its factor. */
  lemma ApplyFirst(base: real, sources: seq<UpgradeSource>)
    requires sources != []
    ensures ApplyMultipleUpgrades(base, sources) == ApplyMultipleUpgrades(Times(base, SourceFactor(sources[0])), sources[1..])
  {
    ApplyIsScaling(sources[0], base);
  }

  /** The fold equals the base times the product of the applicable effects. */
  lemma {:induction false} ApplyMultipleIsProduct(base: real, sources: seq<UpgradeSource>)
    ensures ApplyMultipleUpgrades(base, sources) == Times(base, FactorProduct(sources))
    decreases |sources|
  {
    if sources != [] {
      ApplyFirst(base, sources);
      ApplyMultipleIsProduct(Times(base, SourceFactor(sources[0])), sources[1..]);
      TimesAssociates(base, SourceFactor(sources[0]), FactorProduct(sources[1..]));
    }
  }

  /** With no sources, or none purchased, the base comes back unchanged. */
  lemma {:induction false} UnpurchasedSourcesAreNeutral(base: real, sources: seq<UpgradeSource>)
    requires forall i :: 0 <= i < |sources| ==> sources[i].currentLevel <= 0
    ensures ApplyMultipleUpgrades(base, sources) == base
    decreases |sources|
  {
    if sources != [] {
      UnpurchasedSourcesAreNeutral(base, sources[1..]);
    }
  }

  /** Folding a concatenation is folding the second part from the first part's result. */
  lemma {:induction false} ApplyMultipleConcat(base: real, a: seq<UpgradeSource>, b: seq<UpgradeSource>)
    ensures ApplyMultipleUpgrades(base, a + b) == ApplyMultipleUpgrades(ApplyMultipleUpgrades(base, a), b)
    decreases |a|
  {
    if a != [] {
      assert (a + b)[0] == a[0] && (a + b)[1..] == a[1..] + b;
      var applied := ApplyUpgradeMultiplier(a[0].upgrades, a[0].upgradeId, a[0].currentLevel, base);
      assert ApplyMultipleUpgrades(base, a + b) == ApplyMultipleUpgrades(applied, a[1..] + b);
      assert ApplyMultipleUpgrades(base, a) == ApplyMultipleUpgrades(applied, a[1..]);
      ApplyMultipleConcat(applied, a[1..], b);
    } else {
      assert a + b == b;
    }
  }
}
