/**
 * The save file (src/utils/storage.ts): `saveGameState` writes the persisted fields
 * and a timestamp under one key, `loadGameState` reads them back, drops saves of the
 * format before layers, refunds the pink squares spent on skills of v1.0 and defaults
 * every absent field, and `clearSaveData` removes the key.
 *
 * `localStorage` is a map from keys to what `JSON.parse` makes of the stored text;
 * the text itself, the parser and the console are not modelled.
 */
module Storage {
  import opened GameTypes
  import opened SkillsConfig

  const SAVE_KEY: string := "squares_game_save"

  /** The persisted fields of the save format, in its order; `None` where `undefined`. */
  datatype SaveFields = SaveFields(
    layer: Option<LayerState>,
    prestigeLevel: Option<nat>,
    currency: Option<real>,
    mana: Option<real>,
    upgrades: Option<seq<UpgradeState>>,
    unlockedUpgrades: Option<seq<string>>,
    hasCollected: Option<bool>,
    spells: Option<seq<SpellState>>,
    lastUpdate: Option<int>,
    prestigeCurrencies: Option<seq<real>>,
    currentTab: Option<Tab>,
    skillsUnlocked: Option<bool>,
    hasWon: Option<Opaque>,
    lastBlueSquareProduction: Option<real>,
    skills: Option<seq<SkillState>>,
    combosUnlocked: Option<Opaque>,
    comboPoints: Option<Opaque>,
    comboSquares: Option<Opaque>,
    currentComboSquareIndex: Option<Opaque>,
    currentComboSquareFillProgress: Option<Opaque>,
    comboResultDisplay: Option<Opaque>)

  /** A parsed save object: its fields, its `timestamp`, and whether it has a truthy `layers` key (the format before layers). */
  datatype SaveFile = SaveFile(fields: SaveFields, timestamp: Option<int>, legacyLayers: bool)

  /** What the text stored under a key is to `JSON.parse`. */
  datatype Stored =
    | EmptyText             // '' is falsy: treated as no save
    | Unparsable            // `JSON.parse` throws
    | JsonNull              // `null`: reading `.layer` of it throws
    | JsonOther             // a number, string, boolean or array: it has no `layer` and no `layers`
    | JsonObject(file: SaveFile)

  /** `localStorage`. */
  class LocalStorage {
    var items: map<string, Stored>

    constructor (items: map<string, Stored>)
      ensures this.items == items
    {
      this.items := items;
    }
  }

  /** `localStorage.getItem(key)`: `null` when the key is absent. */
  function Lookup(items: map<string, Stored>, key: string): Option<Stored>
  {
    if key in items then Some(items[key]) else None
  }

  // ---- saveGameState ----

  /** The object `saveGameState` writes: the persisted fields of `state` and the clock. */
  function SaveRecord(state: Snapshot, now: int): SaveFile
  {
    SaveFile(
      SaveFields(state.layer, state.prestigeLevel, state.currency, state.mana, state.upgrades,
                 state.unlockedUpgrades, state.hasCollected, state.spells, state.lastUpdate,
                 state.prestigeCurrencies, state.currentTab, state.skillsUnlocked, state.hasWon,
                 state.lastBlueSquareProduction, state.skills, state.combosUnlocked, state.comboPoints,
                 state.comboSquares, state.currentComboSquareIndex, state.currentComboSquareFillProgress,
                 state.comboResultDisplay),
      Some(now), false)
  }

  /**
   * `saveGameState(state)` at time `now`. When `setItem` throws (the quota is full,
   * `fits` false) the error is caught and nothing is written.
   */
  method SaveGameState(ls: LocalStorage, state: Snapshot, now: int, fits: bool)
    modifies ls
    ensures ls.items == if fits then old(ls.items)[SAVE_KEY := JsonObject(SaveRecord(state, now))] else old(ls.items)
  {
    var saveData := SaveRecord(state, now);
    if fits {
      ls.items := ls.items[SAVE_KEY := JsonObject(saveData)];
    }
  }

  /** `clearSaveData`. */
  method ClearSaveData(ls: LocalStorage)
    modifies ls
    ensures ls.items == old(ls.items) - {SAVE_KEY}
  {
    ls.items := ls.items - {SAVE_KEY};
  }

  // ---- The v1.0 -> v1.1 refund ----

  /** The costs of the skills of v1.0, which the migration pays back. */
  const OLD_SKILL_COSTS: map<string, real> := map[
    "passive_generation" := 1.0,
    "mana_boost_1" := 2.0,
    "mana_boost_2" := 20.0,
    "mana_boost_3" := 100.0,
    "fill_rate_1" := 2.0,
    "fill_rate_2" := 100.0,
    "fill_rate_3" := 5000.0
  ]

  /** What one skill entry pays back: its old cost when it is purchased and the cost is listed and truthy. */
  function RefundTerm(skill: SkillState): real
  {
    if skill.purchased && skill.id in OLD_SKILL_COSTS && OLD_SKILL_COSTS[skill.id] != 0.0 then OLD_SKILL_COSTS[skill.id]
    else 0.0
  }

  /** `totalRefund` after the loop over `skills`. */
  function Refund(skills: seq<SkillState>): real
  {
    if skills == [] then 0.0 else Refund(skills[..|skills| - 1]) + RefundTerm(skills[|skills| - 1])
  }

  /** Whether an entry is one the migration pays back: purchased, and listed in the old table. */
  predicate Refundable(skill: SkillState)
  {
    skill.purchased && skill.id in OLD_SKILL_COSTS
  }

  /** The loop of the migration. */
  method TotalRefund(skills: seq<SkillState>) returns (totalRefund: real)
    ensures totalRefund == Refund(skills)
  {
    totalRefund := 0.0;
    for i := 0 to |skills|
      invariant totalRefund == Refund(skills[..i])
    {
      var skill := skills[i];
      if skill.purchased && skill.id in OLD_SKILL_COSTS && OLD_SKILL_COSTS[skill.id] != 0.0 {
        totalRefund := totalRefund + OLD_SKILL_COSTS[skill.id];
      }
      assert skills[..i + 1][..i] == skills[..i];
    }
    assert skills[..|skills|] == skills;
  }

  /** The refund is never negative, and it is zero exactly when no entry is refundable. */
  lemma {:induction false} RefundZeroIff(skills: seq<SkillState>)
    ensures Refund(skills) >= 0.0
    ensures Refund(skills) == 0.0 <==> forall i :: 0 <= i < |skills| ==> !Refundable(skills[i])
  {
    if skills != [] {
      var init, last := skills[..|skills| - 1], skills[|skills| - 1];
      RefundZeroIff(init);
      assert forall i :: 0 <= i < |init| ==> init[i] == skills[i];
      assert Refundable(last) ==> RefundTerm(last) > 0.0;
    }
  }

  /** Every entry of the current table is in the old one, at its current cost. */
  lemma CurrentSkillsListed()
    ensures forall i :: 0 <= i < |SKILLS| ==> SKILLS[i].id in OLD_SKILL_COSTS && OLD_SKILL_COSTS[SKILLS[i].id] == SKILLS[i].cost
  {
    forall i | 0 <= i < |SKILLS|
      ensures SKILLS[i].id in OLD_SKILL_COSTS && OLD_SKILL_COSTS[SKILLS[i].id] == SKILLS[i].cost
    {
      assert i in {0, 1, 2, 3, 4, 5, 6};
    }
  }

  /** The old table lists exactly the skills of the current table, at their current costs. */
  lemma OldCostsAreCurrentCosts(id: string)
    ensures id in OLD_SKILL_COSTS <==> FindSkill(SKILLS, id).Some?
    ensures id in OLD_SKILL_COSTS ==> OLD_SKILL_COSTS[id] == FindSkill(SKILLS, id).value.cost
  {
    FindSkillMeaning(SKILLS, id);
    CurrentSkillsListed();
    if FindSkill(SKILLS, id).None? {
      assert OLD_SKILL_COSTS.Keys == SkillIds() by { SkillIdValues(); }
      assert id !in SkillIds();
    }
  }

  /** So any purchased skill of the current table is refunded on load. */
  lemma PurchasedSkillIsRefunded(skills: seq<SkillState>, i: nat)
    requires i < |skills| && skills[i].purchased && FindSkill(SKILLS, skills[i].id).Some?
    ensures Refund(skills) > 0.0
  {
    OldCostsAreCurrentCosts(skills[i].id);
    RefundZeroIff(skills);
  }

  // ---- loadGameState ----

  /** What `loadGameState` returns: every field defaulted except `layer`, `lastUpdate` and the pass-through ones. */
  datatype LoadedState = LoadedState(
    layer: Option<LayerState>,
    prestigeLevel: nat,
    currency: real,
    mana: real,
    upgrades: seq<UpgradeState>,
    unlockedUpgrades: seq<string>,
    hasCollected: bool,
    spells: seq<SpellState>,
    lastUpdate: Option<int>,
    prestigeCurrencies: seq<real>,
    currentTab: Tab,
    skillsUnlocked: bool,
    hasWon: Option<Opaque>,
    lastBlueSquareProduction: real,
    skills: seq<SkillState>,
    combosUnlocked: Option<Opaque>,
    comboPoints: Option<Opaque>,
    comboSquares: Option<Opaque>,
    currentComboSquareIndex: Option<Opaque>,
    currentComboSquareFillProgress: Option<Opaque>,
    comboResultDisplay: Option<Opaque>)

  /** The loaded state, and whether the key was removed on the way. */
  datatype LoadOutcome = LoadOutcome(result: Option<LoadedState>, removesKey: bool)

  /** The refund the migration pays for the saved skills: only a non-empty list is scanned. */
  function SavedRefund(d: SaveFields): real
  {
    if d.skills.Some? && |d.skills.value| > 0 then Refund(d.skills.value) else 0.0
  }

  /** The migration and the defaults of `loadGameState`. */
  function Migrated(d: SaveFields): LoadedState
  {
    var refund := SavedRefund(d);
    var pcs := GetOr(d.prestigeCurrencies, []);
    LoadedState(
      d.layer, GetOr(d.prestigeLevel, 0), GetOr(d.currency, 0.0), GetOr(d.mana, 0.0), GetOr(d.upgrades, []),
      GetOr(d.unlockedUpgrades, []), GetOr(d.hasCollected, false), GetOr(d.spells, []), d.lastUpdate,
      if refund > 0.0 then SetSlot(pcs, 0, Slot(pcs, 0) + refund) else pcs,
      GetOr(d.currentTab, SquaresTab), GetOr(d.skillsUnlocked, false), d.hasWon,
      GetOr(d.lastBlueSquareProduction, 0.0),
      if refund > 0.0 then [] else GetOr(d.skills, []),
      d.combosUnlocked, d.comboPoints, d.comboSquares, d.currentComboSquareIndex,
      d.currentComboSquareFillProgress, d.comboResultDisplay)
  }

  /** `loadGameState` on what `getItem` returned. */
  function Load(item: Option<Stored>): LoadOutcome
  {
    match item
    case None => LoadOutcome(None, false)
    case Some(EmptyText) => LoadOutcome(None, false)
    case Some(Unparsable) => LoadOutcome(None, false)
    case Some(JsonNull) => LoadOutcome(None, false)
    case Some(JsonOther) => LoadOutcome(None, true)
    case Some(JsonObject(f)) =>
      if f.fields.layer.None? && !f.legacyLayers then LoadOutcome(None, true)
      else LoadOutcome(Some(Migrated(f.fields)), false)
  }

  /** `loadGameState`. */
  method LoadGameState(ls: LocalStorage) returns (result: Option<LoadedState>)
    modifies ls
    ensures var o := Load(Lookup(old(ls.items), SAVE_KEY));
            result == o.result && ls.items == if o.removesKey then old(ls.items) - {SAVE_KEY} else old(ls.items)
  {
    if SAVE_KEY !in ls.items {
      return None;
    }
    var saved := ls.items[SAVE_KEY];
    if saved.EmptyText? || saved.Unparsable? || saved.JsonNull? {
      return None;
    }
    if saved.JsonOther? || (saved.file.fields.layer.None? && !saved.file.legacyLayers) {
      ls.items := ls.items - {SAVE_KEY};
      return None;
    }
    var data := saved.file.fields;
    var migratedPrestigeCurrencies := GetOr(data.prestigeCurrencies, []);
    var migratedSkills := GetOr(data.skills, []);
    if data.skills.Some? && |data.skills.value| > 0 {
      var totalRefund := TotalRefund(data.skills.value);
      if totalRefund > 0.0 {
        migratedPrestigeCurrencies := SetSlot(migratedPrestigeCurrencies, 0, Slot(migratedPrestigeCurrencies, 0) + totalRefund);
        migratedSkills := [];
      }
    }
    result := Some(LoadedState(
      data.layer, GetOr(data.prestigeLevel, 0), GetOr(data.currency, 0.0), GetOr(data.mana, 0.0),
      GetOr(data.upgrades, []), GetOr(data.unlockedUpgrades, []), GetOr(data.hasCollected, false),
      GetOr(data.spells, []), data.lastUpdate, migratedPrestigeCurrencies, GetOr(data.currentTab, SquaresTab),
      GetOr(data.skillsUnlocked, false), data.hasWon, GetOr(data.lastBlueSquareProduction, 0.0), migratedSkills,
      data.combosUnlocked, data.comboPoints, data.comboSquares, data.currentComboSquareIndex,
      data.currentComboSquareFillProgress, data.comboResultDisplay));
  }

  // ---- What loading promises ----

  /**
   * A load yields a state exactly for a save object with a `layer` or a legacy `layers`;
   * it removes the key exactly for parsed non-null data with neither, and never when it
   * yields a state.
   */
  lemma LoadAccepts(item: Option<Stored>)
    ensures Load(item).result.Some? <==>
              item.Some? && item.value.JsonObject? && (item.value.file.fields.layer.Some? || item.value.file.legacyLayers)
    ensures Load(item).removesKey <==>
              item.Some? && (item.value.JsonOther?
                             || (item.value.JsonObject? && item.value.file.fields.layer.None? && !item.value.file.legacyLayers))
    ensures Load(item).removesKey ==> Load(item).result.None?
  {
  }

  /**
   * The refund: when the saved skills pay something back, pink squares (slot 0, a hole
   * read as 0) grow by it, the other slots stay and the skills are dropped; otherwise
   * both come back as saved, an absent list as empty.
   */
  lemma MigrationRefunds(d: SaveFields)
    ensures var r, pcs, refund := Migrated(d), GetOr(d.prestigeCurrencies, []), Refund(GetOr(d.skills, []));
            refund >= 0.0
            && (refund > 0.0 ==>
                  r.skills == [] && Slot(r.prestigeCurrencies, 0) == Slot(pcs, 0) + refund
                  && forall j: nat :: j != 0 ==> Slot(r.prestigeCurrencies, j) == Slot(pcs, j))
            && (refund == 0.0 ==> r.skills == GetOr(d.skills, []) && r.prestigeCurrencies == pcs)
  {
    RefundZeroIff(GetOr(d.skills, []));
    assert SavedRefund(d) == Refund(GetOr(d.skills, []));
  }

  /** Each absent field falls back to its own default, whatever the others hold. */
  lemma MigrationDefaults(d: SaveFields)
    ensures var r := Migrated(d);
            (d.prestigeLevel.None? ==> r.prestigeLevel == 0)
            && (d.currency.None? ==> r.currency == 0.0)
            && (d.mana.None? ==> r.mana == 0.0)
            && (d.upgrades.None? ==> r.upgrades == [])
            && (d.unlockedUpgrades.None? ==> r.unlockedUpgrades == [])
            && (d.hasCollected.None? ==> !r.hasCollected)
            && (d.spells.None? ==> r.spells == [])
            && (d.currentTab.None? ==> r.currentTab == SquaresTab)
            && (d.skillsUnlocked.None? ==> !r.skillsUnlocked)
            && (d.lastBlueSquareProduction.None? ==> r.lastBlueSquareProduction == 0.0)
            && (d.skills.None? ==> r.skills == [])
            && (d.prestigeCurrencies.None? && d.skills.None? ==> r.prestigeCurrencies == [])
            && r.layer == d.layer && r.lastUpdate == d.lastUpdate && r.hasWon == d.hasWon
  {
  }

  /** Whether every field `loadGameState` defaults was saved. */
  predicate Complete(state: Snapshot)
  {
    state.layer.Some? && state.prestigeLevel.Some? && state.currency.Some? && state.mana.Some?
    && state.upgrades.Some? && state.unlockedUpgrades.Some? && state.hasCollected.Some? && state.spells.Some?
    && state.prestigeCurrencies.Some? && state.currentTab.Some? && state.skillsUnlocked.Some?
    && state.lastBlueSquareProduction.Some? && state.skills.Some?
  }

  /**
   * What `saveGameState` writes, `loadGameState` reads back unchanged, provided every
   * defaulted field was present and no saved skill is refundable.
   */
  lemma SaveLoadRoundTrip(state: Snapshot, now: int)
    requires Complete(state) && forall i :: 0 <= i < |state.skills.value| ==> !Refundable(state.skills.value[i])
    ensures Load(Some(JsonObject(SaveRecord(state, now))))
         == LoadOutcome(Some(LoadedState(
              state.layer, state.prestigeLevel.value, state.currency.value, state.mana.value, state.upgrades.value,
              state.unlockedUpgrades.value, state.hasCollected.value, state.spells.value, state.lastUpdate,
              state.prestigeCurrencies.value, state.currentTab.value, state.skillsUnlocked.value, state.hasWon,
              state.lastBlueSquareProduction.value, state.skills.value, state.combosUnlocked, state.comboPoints,
              state.comboSquares, state.currentComboSquareIndex, state.currentComboSquareFillProgress,
              state.comboResultDisplay)), false)
  {
    RefundZeroIff(state.skills.value);
  }
}
