/**
 * The store's read-only getters (src/stores/gameStore.ts:515-575, 628-656, 699-720)
 * as functions of the fields they read, and the unlock scan at the start of `tick`
 * (lines 143-160).
 *
 * `prestigeCurrencies` may have holes; every read of it is `pcs[i] || 0`, so a hole
 * and an index past the end both read as 0 (`Slot`).
 */
module Multipliers {
  import opened GameTypes
  import opened Numbers
  import opened UpgradesConfig
  import opened SpellsConfig
  import opened SkillsConfig

  // ---- Lookups by id (`find` is the entry at `findIndex`) ----
  //
  // One lookup per record type, as the store writes one `find`/`findIndex` per list. A single
  // search over a key projection would take a function argument, and every contract and
  // proof that reads a level, a cast count or an owned skill would then reason through that
  // closure instead of a plain field access.

  /** `upgrades.findIndex(u => u.id === id)`, with -1 as None. */
  function UpgradeIndex(upgrades: seq<UpgradeState>, id: string): (r: Option<nat>)
    ensures r.Some? ==> r.value < |upgrades| && upgrades[r.value].id == id
                        && forall j :: 0 <= j < r.value ==> upgrades[j].id != id
    ensures r.None? <==> forall j :: 0 <= j < |upgrades| ==> upgrades[j].id != id
  {
    if upgrades == [] then None
    else if upgrades[0].id == id then Some(0)
    else match UpgradeIndex(upgrades[1..], id)
      case None => None
      case Some(k) => Some(k + 1)
  }

  /** `spells.findIndex(s => s.id === id)`. */
  function SpellIndex(spells: seq<SpellState>, id: string): (r: Option<nat>)
    ensures r.Some? ==> r.value < |spells| && spells[r.value].id == id
                        && forall j :: 0 <= j < r.value ==> spells[j].id != id
    ensures r.None? <==> forall j :: 0 <= j < |spells| ==> spells[j].id != id
  {
    if spells == [] then None
    else if spells[0].id == id then Some(0)
    else match SpellIndex(spells[1..], id)
      case None => None
      case Some(k) => Some(k + 1)
  }

  /** The position `skills.find(s => s.id === id)` stops at. */
  function SkillIndex(skills: seq<SkillState>, id: string): (r: Option<nat>)
    ensures r.Some? ==> r.value < |skills| && skills[r.value].id == id
                        && forall j :: 0 <= j < r.value ==> skills[j].id != id
    ensures r.None? <==> forall j :: 0 <= j < |skills| ==> skills[j].id != id
  {
    if skills == [] then None
    else if skills[0].id == id then Some(0)
    else match SkillIndex(skills[1..], id)
      case None => None
      case Some(k) => Some(k + 1)
  }

  /** `getUpgradeLevel`: the level of the first entry with the id, 0 when there is none. */
  function UpgradeLevel(upgrades: seq<UpgradeState>, id: string): nat
  {
    match UpgradeIndex(upgrades, id)
    case None => 0
    case Some(k) => upgrades[k].level
  }

  /** `getSpellTimesCast`. */
  function SpellTimesCast(spells: seq<SpellState>, id: string): nat
  {
    match SpellIndex(spells, id)
    case None => 0
    case Some(k) => spells[k].timesCast
  }

  /** `hasSkill`: `find(...)?.purchased || false`. */
  predicate HasSkill(skills: seq<SkillState>, id: string)
  {
    match SkillIndex(skills, id)
    case None => false
    case Some(k) => skills[k].purchased
  }

  /** `isSpellActive`: the spell has a truthy `activeUntil` that is still in the future. */
  predicate IsSpellActive(spells: seq<SpellState>, id: string, now: int)
  {
    match SpellIndex(spells, id)
    case None => false
    case Some(k) =>
      var until := spells[k].activeUntil;
      until.Some? && until.value != 0 && now < until.value
  }

  /** No two entries share an id, as `purchaseSkill` keeps it. */
  predicate SkillIdsDistinct(skills: seq<SkillState>)
  {
    forall i, j :: 0 <= i < j < |skills| ==> skills[i].id != skills[j].id
  }

  /** With distinct ids, `hasSkill` holds exactly when some entry with the id is purchased. */
  lemma HasSkillIff(skills: seq<SkillState>, id: string)
    requires SkillIdsDistinct(skills)
    ensures HasSkill(skills, id) <==> exists i :: 0 <= i < |skills| && skills[i].id == id && skills[i].purchased
  {
    if i :| 0 <= i < |skills| && skills[i].id == id && skills[i].purchased {
      var k := SkillIndex(skills, id).value;
      assert k == i;
    }
  }

  /** The level found is that of the first entry with the id; none found reads as level 0. */
  lemma UpgradeLevelIsFirstMatch(upgrades: seq<UpgradeState>, id: string, i: nat)
    requires i < |upgrades| && upgrades[i].id == id
    requires forall j :: 0 <= j < i ==> upgrades[j].id != id
    ensures UpgradeLevel(upgrades, id) == upgrades[i].level
  {
    var k := UpgradeIndex(upgrades, id).value;
    assert k == i;
  }

  // ---- Skill folds (`state.skills.forEach(...)`) ----
  // The folds take the skill table as a parameter; the store always passes `SKILLS`.

  /**
   * What one skill entry contributes to a compounding multiplier of `kind`: its
   * effect value when it is purchased, known, of that kind and truthy; else 1.
   */
  function SkillFactor(table: seq<SkillConfig>, s: SkillState, kind: SkillEffectKind): real
  {
    if !s.purchased then 1.0
    else match FindSkill(table, s.id)
      case None => 1.0
      case Some(c) =>
        if c.effect.kind == kind && c.effect.value.Some? && c.effect.value.value != 0.0 then c.effect.value.value
        else 1.0
  }

  /** The product of the factors of the entries, multiplied in list order. */
  function SkillProduct(table: seq<SkillConfig>, skills: seq<SkillState>, kind: SkillEffectKind): real
  {
    if skills == [] then 1.0
    else Times(SkillProduct(table, skills[..|skills| - 1], kind), SkillFactor(table, skills[|skills| - 1], kind))
  }

  /** What one entry adds to `getPassiveGenerationRate` (`value !== undefined`, not truthiness). */
  function PassiveTerm(table: seq<SkillConfig>, s: SkillState): real
  {
    if !s.purchased then 0.0
    else match FindSkill(table, s.id)
      case None => 0.0
      case Some(c) =>
        if c.effect.kind == PassiveGeneration && c.effect.value.Some? then c.effect.value.value else 0.0
  }

  /** `getPassiveGenerationRate`: the sum of the terms in list order. */
  function PassiveRate(table: seq<SkillConfig>, skills: seq<SkillState>): real
  {
    if skills == [] then 0.0
    else PassiveRate(table, skills[..|skills| - 1]) + PassiveTerm(table, skills[|skills| - 1])
  }

  /** Every truthy effect value of `kind` in the table is at least 1. */
  predicate FactorsAtLeastOne(table: seq<SkillConfig>, kind: SkillEffectKind)
  {
    forall c :: c in table && c.effect.kind == kind && c.effect.value.Some? ==> c.effect.value.value >= 1.0
  }

  /** In the skill table only the passive effect (0.1) is below 1. */
  lemma SkillTableFactors(kind: SkillEffectKind)
    requires kind != PassiveGeneration
    ensures FactorsAtLeastOne(SKILLS, kind)
  {
    forall c | c in SKILLS && c.effect.kind == kind && c.effect.value.Some?
      ensures c.effect.value.value >= 1.0
    {
      var i :| 0 <= i < |SKILLS| && SKILLS[i] == c;
      assert i in {0, 1, 2, 3, 4, 5, 6};
    }
  }

  lemma SkillFactorAtLeastOne(table: seq<SkillConfig>, s: SkillState, kind: SkillEffectKind)
    requires FactorsAtLeastOne(table, kind)
    ensures SkillFactor(table, s, kind) >= 1.0
  {
    FindSkillMeaning(table, s.id);
  }

  /** A compounding skill multiplier never falls below 1. */
  lemma {:induction false} SkillProductAtLeastOne(table: seq<SkillConfig>, skills: seq<SkillState>, kind: SkillEffectKind)
    requires FactorsAtLeastOne(table, kind)
    ensures SkillProduct(table, skills, kind) >= 1.0
  {
    if skills != [] {
      var init := skills[..|skills| - 1];
      SkillProductAtLeastOne(table, init, kind);
      SkillFactorAtLeastOne(table, skills[|skills| - 1], kind);
      var p, f := SkillProduct(table, init, kind), SkillFactor(table, skills[|skills| - 1], kind);
      ScaleMonotone(p, 1.0, f);
    }
  }

  /** Appending an entry multiplies the product by its factor. */
  lemma SkillProductAppend(table: seq<SkillConfig>, skills: seq<SkillState>, s: SkillState, kind: SkillEffectKind)
    ensures SkillProduct(table, skills + [s], kind) == Times(SkillProduct(table, skills, kind), SkillFactor(table, s, kind))
  {
    var t := skills + [s];
    assert t[..|t| - 1] == skills && t[|t| - 1] == s;
  }

  /** Entries that are not purchased never change a product or the passive rate. */
  lemma {:induction false} UnpurchasedSkillsAreNeutral(table: seq<SkillConfig>, skills: seq<SkillState>, kind: SkillEffectKind)
    requires forall i :: 0 <= i < |skills| ==> !skills[i].purchased
    ensures SkillProduct(table, skills, kind) == 1.0
    ensures PassiveRate(table, skills) == 0.0
  {
    if skills != [] {
      UnpurchasedSkillsAreNeutral(table, skills[..|skills| - 1], kind);
    }
  }

  /** `skills.filter(s => s.id !== id)`. */
  function RemoveSkill(skills: seq<SkillState>, id: string): seq<SkillState>
  {
    if skills == [] then []
    else
      var init := RemoveSkill(skills[..|skills| - 1], id);
      var last := skills[|skills| - 1];
      if last.id == id then init else init + [last]
  }

  /** The filter keeps exactly the entries with another id. */
  lemma {:induction false} RemoveSkillMembers(skills: seq<SkillState>, id: string)
    ensures forall s :: s in RemoveSkill(skills, id) <==> s in skills && s.id != id
  {
    if skills != [] {
      var init, last := skills[..|skills| - 1], skills[|skills| - 1];
      RemoveSkillMembers(init, id);
      assert skills == init + [last];
    }
  }

  /** No entry of the id survives the filter. */
  lemma RemoveSkillDropsId(skills: seq<SkillState>, id: string)
    ensures forall i :: 0 <= i < |RemoveSkill(skills, id)| ==> RemoveSkill(skills, id)[i].id != id
  {
    var r := RemoveSkill(skills, id);
    RemoveSkillMembers(skills, id);
    forall i | 0 <= i < |r| ensures r[i].id != id {
      assert r[i] in r;
    }
  }

  /** Appending an entry that is not purchased leaves a product as it was. */
  lemma AppendUnpurchasedKeepsProduct(table: seq<SkillConfig>, skills: seq<SkillState>, s: SkillState, kind: SkillEffectKind)
    requires !s.purchased
    ensures SkillProduct(table, skills + [s], kind) == SkillProduct(table, skills, kind)
  {
    var t := skills + [s];
    assert t[..|t| - 1] == skills && t[|t| - 1] == s;
  }

  /** Dropping entries of an id none of which is purchased leaves a product as it was. */
  lemma {:induction false} RemoveUnpurchasedKeepsProduct(table: seq<SkillConfig>, skills: seq<SkillState>, id: string,
                                                         kind: SkillEffectKind)
    requires forall i :: 0 <= i < |skills| && skills[i].id == id ==> !skills[i].purchased
    ensures SkillProduct(table, RemoveSkill(skills, id), kind) == SkillProduct(table, skills, kind)
  {
    if skills != [] {
      var init, last := skills[..|skills| - 1], skills[|skills| - 1];
      assert skills == init + [last];
      var r := RemoveSkill(init, id);
      assert SkillProduct(table, r, kind) == SkillProduct(table, init, kind) by {
        assert forall i :: 0 <= i < |init| ==> init[i] == skills[i];
        RemoveUnpurchasedKeepsProduct(table, init, id, kind);
      }
      if last.id != id {
        assert RemoveSkill(skills, id) == r + [last];
        SkillProductAppend(table, r, last, kind);
        SkillProductAppend(table, init, last, kind);
      } else {
        assert RemoveSkill(skills, id) == r;
        AppendUnpurchasedKeepsProduct(table, init, last, kind);
      }
    }
  }

  /** The same for the passive rate. */
  lemma {:induction false} RemoveUnpurchasedKeepsRate(table: seq<SkillConfig>, skills: seq<SkillState>, id: string)
    requires forall i :: 0 <= i < |skills| && skills[i].id == id ==> !skills[i].purchased
    ensures PassiveRate(table, RemoveSkill(skills, id)) == PassiveRate(table, skills)
  {
    if skills != [] {
      var init, last := skills[..|skills| - 1], skills[|skills| - 1];
      assert forall i :: 0 <= i < |init| ==> init[i] == skills[i];
      RemoveUnpurchasedKeepsRate(table, init, id);
      var r := RemoveSkill(init, id);
      if last.id != id {
        assert RemoveSkill(skills, id) == r + [last];
        assert (r + [last])[..|r|] == r && (r + [last])[|r|] == last;
      } else {
        assert RemoveSkill(skills, id) == r;
      }
    }
  }

  /** Removing entries never leaves a duplicate id behind. */
  lemma {:induction false} RemoveSkillKeepsDistinct(skills: seq<SkillState>, id: string)
    requires SkillIdsDistinct(skills)
    ensures SkillIdsDistinct(RemoveSkill(skills, id))
  {
    if skills != [] {
      var init, last := skills[..|skills| - 1], skills[|skills| - 1];
      assert SkillIdsDistinct(init);
      RemoveSkillKeepsDistinct(init, id);
      var r := RemoveSkill(init, id);
      RemoveSkillMembers(init, id);
      if last.id != id {
        forall i | 0 <= i < |r| ensures r[i].id != last.id {
          assert r[i] in r;
          assert r[i] in init;
          var j :| 0 <= j < |init| && init[j] == r[i];
          assert skills[j] == init[j] && skills[|skills| - 1] == last;
        }
      }
    }
  }

  /** The skill list after buying `id`: its old entries filtered out and a purchased one appended. */
  function BuySkill(skills: seq<SkillState>, id: string): seq<SkillState>
  {
    RemoveSkill(skills, id) + [SkillState(id, true)]
  }

  /** With distinct ids, owning a skill is having its purchased entry in the list. */
  lemma OwnedIsMember(skills: seq<SkillState>, id: string)
    requires SkillIdsDistinct(skills)
    ensures HasSkill(skills, id) <==> SkillState(id, true) in skills
  {
    HasSkillIff(skills, id);
    if SkillState(id, true) in skills {
      var i :| 0 <= i < |skills| && skills[i] == SkillState(id, true);
    }
  }

  /** After buying, the skill is owned and ids stay distinct. */
  lemma BuySkillOwns(skills: seq<SkillState>, id: string)
    requires SkillIdsDistinct(skills)
    ensures SkillIdsDistinct(BuySkill(skills, id)) && HasSkill(BuySkill(skills, id), id)
  {
    var f, r := RemoveSkill(skills, id), BuySkill(skills, id);
    assert SkillIdsDistinct(r) by {
      RemoveSkillKeepsDistinct(skills, id);
      RemoveSkillDropsId(skills, id);
    }
    OwnedIsMember(r, id);
    assert r[|f|] == SkillState(id, true);
  }

  /** Buying one skill leaves every other skill owned exactly as before. */
  lemma BuySkillKeepsOthers(skills: seq<SkillState>, id: string, other: string)
    requires SkillIdsDistinct(skills) && other != id
    ensures HasSkill(BuySkill(skills, id), other) <==> HasSkill(skills, other)
  {
    var f, r := RemoveSkill(skills, id), BuySkill(skills, id);
    BuySkillOwns(skills, id);
    OwnedIsMember(r, other);
    OwnedIsMember(skills, other);
    RemoveSkillMembers(skills, id);
    assert SkillState(other, true) in r <==> SkillState(other, true) in f;
  }

  lemma PassiveRateAppend(table: seq<SkillConfig>, skills: seq<SkillState>, s: SkillState)
    ensures PassiveRate(table, skills + [s]) == PassiveRate(table, skills) + PassiveTerm(table, s)
  {
    var t := skills + [s];
    assert t[..|t| - 1] == skills && t[|t| - 1] == s;
  }

  /** Filtering out an id none of whose entries is purchased, then appending it purchased, multiplies by its factor. */
  lemma UnpurchasedBuyMultiplies(table: seq<SkillConfig>, skills: seq<SkillState>, id: string, kind: SkillEffectKind)
    requires forall i :: 0 <= i < |skills| && skills[i].id == id ==> !skills[i].purchased
    ensures SkillProduct(table, BuySkill(skills, id), kind)
         == Times(SkillProduct(table, skills, kind), SkillFactor(table, SkillState(id, true), kind))
  {
    RemoveUnpurchasedKeepsProduct(table, skills, id, kind);
    SkillProductAppend(table, RemoveSkill(skills, id), SkillState(id, true), kind);
  }

  /** Buying a skill not yet owned multiplies each product by that skill's factor. */
  lemma BuySkillMultiplies(table: seq<SkillConfig>, skills: seq<SkillState>, id: string, kind: SkillEffectKind)
    requires SkillIdsDistinct(skills) && !HasSkill(skills, id)
    ensures SkillProduct(table, BuySkill(skills, id), kind)
         == Times(SkillProduct(table, skills, kind), SkillFactor(table, SkillState(id, true), kind))
  {
    assert forall i :: 0 <= i < |skills| && skills[i].id == id ==> !skills[i].purchased by {
      HasSkillIff(skills, id);
    }
    UnpurchasedBuyMultiplies(table, skills, id, kind);
  }

  /** Buying a skill not yet owned adds its passive term to the passive rate. */
  lemma BuySkillAddsRate(table: seq<SkillConfig>, skills: seq<SkillState>, id: string)
    requires SkillIdsDistinct(skills) && !HasSkill(skills, id)
    ensures PassiveRate(table, BuySkill(skills, id)) == PassiveRate(table, skills) + PassiveTerm(table, SkillState(id, true))
  {
    assert forall i :: 0 <= i < |skills| && skills[i].id == id ==> !skills[i].purchased by {
      HasSkillIff(skills, id);
    }
    var f := RemoveSkill(skills, id);
    assert BuySkill(skills, id) == f + [SkillState(id, true)];
    assert PassiveRate(table, f) == PassiveRate(table, skills) by {
      RemoveUnpurchasedKeepsRate(table, skills, id);
    }
    PassiveRateAppend(table, f, SkillState(id, true));
  }

  /** In the skill table only `passive_generation` has a passive effect, of 0.1. */
  lemma PassiveTermValue(s: SkillState)
    ensures PassiveTerm(SKILLS, s) == if s.purchased && s.id == "passive_generation" then 0.1 else 0.0
  {
    FindSkillMeaning(SKILLS, s.id);
    if s.purchased && s.id == "passive_generation" {
      assert SKILLS[0].id == "passive_generation";
    }
  }

  /** No purchased `passive_generation` entry gives rate 0. */
  lemma {:induction false} PassiveRateZero(skills: seq<SkillState>)
    requires forall i :: 0 <= i < |skills| ==> !(skills[i].purchased && skills[i].id == "passive_generation")
    ensures PassiveRate(SKILLS, skills) == 0.0
  {
    if skills != [] {
      PassiveRateZero(skills[..|skills| - 1]);
      PassiveTermValue(skills[|skills| - 1]);
    }
  }

  /** With distinct ids the passive rate is 0.1 when the skill is owned and 0 otherwise. */
  lemma {:induction false} PassiveRateValues(skills: seq<SkillState>)
    requires SkillIdsDistinct(skills)
    ensures PassiveRate(SKILLS, skills) == if HasSkill(skills, "passive_generation") then 0.1 else 0.0
  {
    HasSkillIff(skills, "passive_generation");
    if skills != [] {
      var init, last := skills[..|skills| - 1], skills[|skills| - 1];
      PassiveTermValue(last);
      if last.purchased && last.id == "passive_generation" {
        forall i | 0 <= i < |init| ensures !(init[i].purchased && init[i].id == "passive_generation") {
          assert skills[i] == init[i];
        }
        PassiveRateZero(init);
      } else {
        assert SkillIdsDistinct(init);
        PassiveRateValues(init);
        HasSkillIff(init, "passive_generation");
        if HasSkill(skills, "passive_generation") {
          var i :| 0 <= i < |skills| && skills[i].id == "passive_generation" && skills[i].purchased;
          assert i < |init| && init[i] == skills[i];
        }
        if HasSkill(init, "passive_generation") {
          var i :| 0 <= i < |init| && init[i].id == "passive_generation" && init[i].purchased;
          assert skills[i] == init[i];
        }
      }
    }
  }

  // ---- The multipliers ----

  /** The `fill_faster` part of `getFillSpeedMultiplier`: its effect once bought, else 1. */
  function FillFasterFactor(upgrades: seq<UpgradeState>): real
  {
    var level := UpgradeLevel(upgrades, "fill_faster");
    var upgrade := FindUpgrade(UPGRADES, "fill_faster");
    if upgrade.Some? && level > 0 then 1.0 * EffectAt(upgrade.value.effect, level) else 1.0
  }

  /** `getFillSpeedMultiplier`: the `fill_faster` factor, then every fill-speed skill. */
  function FillSpeed(upgrades: seq<UpgradeState>, skills: seq<SkillState>): real
  {
    FillFasterFactor(upgrades) * SkillProduct(SKILLS, skills, FillSpeedMultiplier)
  }

  /** The `mana_gem` part of `getManaPerSecond`: its effect once bought, else 0. */
  function ManaGemRate(upgrades: seq<UpgradeState>): real
  {
    var level := UpgradeLevel(upgrades, "mana_gem");
    var upgrade := FindUpgrade(UPGRADES, "mana_gem");
    if upgrade.Some? && level > 0 then EffectAt(upgrade.value.effect, level) else 0.0
  }

  /** `getManaPerSecond`: the `mana_gem` rate times every mana skill. */
  function ManaPerSecond(upgrades: seq<UpgradeState>, skills: seq<SkillState>): real
  {
    ManaGemRate(upgrades) * SkillProduct(SKILLS, skills, ManaMultiplier)
  }

  /** `getPinkMultiplier`. */
  function PinkMultiplier(upgrades: seq<UpgradeState>): real
  {
    var level := UpgradeLevel(upgrades, "pink_multiplier");
    var upgrade := FindUpgrade(UPGRADES, "pink_multiplier");
    if upgrade.None? || level == 0 then 1.0 else EffectAt(upgrade.value.effect, level)
  }

  /** `getSpellFillSpeedMultiplier`: ten while haste lasts, doubled per `faster_squares` cast. */
  function SpellFillSpeedMultiplier(spells: seq<SpellState>, now: int): real
  {
    var haste := if IsSpellActive(spells, "haste", now) then 10.0 else 1.0;
    var casts := SpellTimesCast(spells, "faster_squares");
    haste * (if casts > 0 then Pow(2.0, casts) else 1.0)
  }

  /** The fill speed is 1.2 to the `fill_faster` level times the fill-rate skills, and at least 1. */
  lemma FillSpeedClosedForm(upgrades: seq<UpgradeState>, skills: seq<SkillState>)
    ensures FillSpeed(upgrades, skills)
         == Pow(1.2, UpgradeLevel(upgrades, "fill_faster")) * SkillProduct(SKILLS, skills, FillSpeedMultiplier)
  {
    FillFasterClosedForm(upgrades);
  }

  /** The `fill_faster` factor is 1.2 to its level. */
  lemma FillFasterClosedForm(upgrades: seq<UpgradeState>)
    ensures FillFasterFactor(upgrades) == Pow(1.2, UpgradeLevel(upgrades, "fill_faster"))
  {
    UpgradeIds();
  }

  /** The skill table's fill-speed and mana multipliers never fall below 1. */
  lemma StoreSkillProductAtLeastOne(skills: seq<SkillState>, kind: SkillEffectKind)
    requires kind != PassiveGeneration
    ensures SkillProduct(SKILLS, skills, kind) >= 1.0
  {
    SkillTableFactors(kind);
    SkillProductAtLeastOne(SKILLS, skills, kind);
  }

  /** Squares never fill slower than the base speed. */
  lemma FillSpeedAtLeastOne(upgrades: seq<UpgradeState>, skills: seq<SkillState>)
    ensures FillSpeed(upgrades, skills) >= 1.0
  {
    var level := UpgradeLevel(upgrades, "fill_faster");
    var p := SkillProduct(SKILLS, skills, FillSpeedMultiplier);
    FillSpeedClosedForm(upgrades, skills);
    PowAtLeastOne(1.2, level);
    StoreSkillProductAtLeastOne(skills, FillSpeedMultiplier);
    ScaleMonotone(Pow(1.2, level), 1.0, p);
  }

  /** Mana flows at a tenth of the `mana_gem` level times the mana skills. */
  lemma ManaPerSecondClosedForm(upgrades: seq<UpgradeState>, skills: seq<SkillState>)
    ensures ManaPerSecond(upgrades, skills)
         == 0.1 * UpgradeLevel(upgrades, "mana_gem") as real * SkillProduct(SKILLS, skills, ManaMultiplier)
  {
    UpgradeIds();
    assert ManaGemRate(upgrades) == 0.1 * UpgradeLevel(upgrades, "mana_gem") as real;
  }

  /** Mana never drains, and flows exactly when the gem has been bought. */
  lemma ManaPerSecondSign(upgrades: seq<UpgradeState>, skills: seq<SkillState>)
    ensures ManaPerSecond(upgrades, skills) >= 0.0
    ensures ManaPerSecond(upgrades, skills) == 0.0 <==> UpgradeLevel(upgrades, "mana_gem") == 0
  {
    var level := UpgradeLevel(upgrades, "mana_gem");
    var p := SkillProduct(SKILLS, skills, ManaMultiplier);
    ManaPerSecondClosedForm(upgrades, skills);
    StoreSkillProductAtLeastOne(skills, ManaMultiplier);
    if level > 0 {
      ProductSign(0.1 * level as real, p);
    }
  }

  /** The pink reward factor is 2 to the `pink_multiplier` level. */
  lemma PinkMultiplierClosedForm(upgrades: seq<UpgradeState>)
    ensures PinkMultiplier(upgrades) == Pow(2.0, UpgradeLevel(upgrades, "pink_multiplier"))
    ensures PinkMultiplier(upgrades) >= 1.0
  {
    UpgradeIds();
    PowAtLeastOne(2.0, UpgradeLevel(upgrades, "pink_multiplier"));
  }

  /** The spell factor is 10 or 1 times 2 to the `faster_squares` casts, and at least 1. */
  lemma SpellSpeedClosedForm(spells: seq<SpellState>, now: int)
    ensures SpellFillSpeedMultiplier(spells, now)
         == (if IsSpellActive(spells, "haste", now) then 10.0 else 1.0) * Pow(2.0, SpellTimesCast(spells, "faster_squares"))
    ensures SpellFillSpeedMultiplier(spells, now) >= 1.0
  {
    var casts := SpellTimesCast(spells, "faster_squares");
    PowAtLeastOne(2.0, casts);
    var h := if IsSpellActive(spells, "haste", now) then 10.0 else 1.0;
    ScaleMonotone(h, 1.0, Pow(2.0, casts));
  }

  // ---- The unlock scan of `tick` ----

  /** Whether an unlock requirement is met; a missing `currencyIndex` reads slot `undefined`, i.e. 0. */
  predicate Meets(req: UnlockRequirement, currency: real, pcs: seq<real>)
  {
    match req.kind
    case CurrencyAmount => currency >= req.amount
    case PrestigeCurrencyAmount =>
      (if req.currencyIndex.Some? then Slot(pcs, req.currencyIndex.value) else 0.0) >= req.amount
  }

  /** Whether the scan unlocks `u`. */
  predicate UnlocksNow(u: UpgradeConfig, currency: real, pcs: seq<real>)
  {
    u.unlockRequirement.Some? && Meets(u.unlockRequirement.value, currency, pcs)
  }

  /** One `forEach` step: push the id when it is new and its requirement holds. */
  function UnlockStep(unlocked: seq<string>, u: UpgradeConfig, currency: real, pcs: seq<real>): seq<string>
  {
    if u.id !in unlocked && UnlocksNow(u, currency, pcs) then unlocked + [u.id] else unlocked
  }

  /** The list the scan leaves after visiting `table` in order. */
  function Unlocked(unlocked: seq<string>, table: seq<UpgradeConfig>, currency: real, pcs: seq<real>): seq<string>
  {
    if table == [] then unlocked
    else UnlockStep(Unlocked(unlocked, table[..|table| - 1], currency, pcs), table[|table| - 1], currency, pcs)
  }

  predicate NoDuplicates(ids: seq<string>)
  {
    forall i, j :: 0 <= i < j < |ids| ==> ids[i] != ids[j]
  }

  /** Unlocking only ever appends: the old list is a prefix of the new one. */
  lemma {:induction false} UnlockedExtends(unlocked: seq<string>, table: seq<UpgradeConfig>, currency: real, pcs: seq<real>)
    ensures var r := Unlocked(unlocked, table, currency, pcs);
            |unlocked| <= |r| && r[..|unlocked|] == unlocked
  {
    if table != [] {
      UnlockedExtends(unlocked, table[..|table| - 1], currency, pcs);
    }
  }

  /** An id is unlocked afterwards exactly when it was before or some visited upgrade's requirement holds. */
  lemma {:induction false} UnlockedMembership(unlocked: seq<string>, table: seq<UpgradeConfig>, currency: real,
                                              pcs: seq<real>, id: string)
    ensures id in Unlocked(unlocked, table, currency, pcs) <==>
              (id in unlocked || exists i :: 0 <= i < |table| && table[i].id == id && UnlocksNow(table[i], currency, pcs))
  {
    if table != [] {
      var init := table[..|table| - 1];
      UnlockedMembership(unlocked, init, currency, pcs, id);
      if exists i :: 0 <= i < |init| && init[i].id == id && UnlocksNow(init[i], currency, pcs) {
        var i :| 0 <= i < |init| && init[i].id == id && UnlocksNow(init[i], currency, pcs);
        assert table[i] == init[i];
      }
      if exists i :: 0 <= i < |table| && table[i].id == id && UnlocksNow(table[i], currency, pcs) {
        var i :| 0 <= i < |table| && table[i].id == id && UnlocksNow(table[i], currency, pcs);
        if i < |init| { assert init[i] == table[i]; }
      }
    }
  }

  /** The scan never records an id twice. */
  lemma {:induction false} UnlockedNoDuplicates(unlocked: seq<string>, table: seq<UpgradeConfig>, currency: real, pcs: seq<real>)
    requires NoDuplicates(unlocked)
    ensures NoDuplicates(Unlocked(unlocked, table, currency, pcs))
  {
    if table != [] {
      UnlockedNoDuplicates(unlocked, table[..|table| - 1], currency, pcs);
    }
  }

  /** On the blue table: `mana_gem` at 2000 blue, `pink_multiplier` at one pink, `fill_faster` never by the scan. */
  lemma StoreUnlocks(unlocked: seq<string>, currency: real, pcs: seq<real>)
    ensures var r := Unlocked(unlocked, UPGRADES, currency, pcs);
            ("mana_gem" in r <==> "mana_gem" in unlocked || currency >= 2000.0)
            && ("pink_multiplier" in r <==> "pink_multiplier" in unlocked || Slot(pcs, 0) >= 1.0)
            && ("fill_faster" in r <==> "fill_faster" in unlocked)
  {
    UpgradeIds();
    UnlockedMembership(unlocked, UPGRADES, currency, pcs, "mana_gem");
    UnlockedMembership(unlocked, UPGRADES, currency, pcs, "pink_multiplier");
    UnlockedMembership(unlocked, UPGRADES, currency, pcs, "fill_faster");
  }
}
