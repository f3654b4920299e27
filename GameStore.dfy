/**
 * The game store of src/stores/gameStore.ts: a class whose fields are the `GameState`
 * record of src/types/game.ts and whose methods are the store's actions.
 *
 * Every action is specified by a function from the state before to the state after
 * (`TickState`, `CollectState`, ...); each method is proved to leave exactly that
 * state, and what the game promises is proved about the functions.
 *
 * The clock is the `now` parameter of the actions that read `Date.now()`, and
 * `Math.random` is a stream `rolls` of numbers in [0, 1]: the k-th draw an action makes
 * is `rolls(k)`. The pending `setTimeout` spins are the rows `Tick` returns; the
 * environment calls `SpinSlotForRow` for each of them later.
 */
module GameStore {
  import opened GameTypes
  import opened Numbers
  import opened UpgradesConfig
  import opened SpellsConfig
  import opened SkillsConfig
  import opened SlotRandom
  import opened Grid
  import opened Multipliers
  import opened RowBonuses
  import opened Storage

  /** The store's state, field for field. */
  datatype GameState = GameState(
    layer: LayerState,
    prestigeLevel: nat,
    previousCompletedLayer: Option<LayerState>,
    currency: real,
    mana: real,
    hasCollected: bool,
    upgrades: seq<UpgradeState>,
    unlockedUpgrades: seq<string>,
    spells: seq<SpellState>,
    lastUpdate: int,
    fillTime: real,
    isProcessingOffline: bool,
    isPaused: bool,
    debugSpeedMultiplier: real,
    debugDisableSlowdown: bool,
    prestigeCurrencies: seq<real>,
    currentTab: Tab,
    skillsUnlocked: bool,
    lastBlueSquareProduction: real,
    skills: seq<SkillState>)

  // ---- Invariants ----

  /**
   * A tick is defined: it is paused, or the grid is full, or the fill times exist. Fill
   * times exist for tiers 0 and 1 only; at a higher tier the store multiplies an
   * undefined previous time.
   */
  predicate TickReady(s: GameState)
  {
    s.isPaused || s.layer.currentSquareIndex >= TOTAL_SQUARES
    || (LayerOk(s.layer) && s.debugSpeedMultiplier > 0.0 && s.prestigeLevel <= 1)
  }

  /** Every capped upgrade of the blue table is at or below its cap. */
  predicate LevelsCapped(upgrades: seq<UpgradeState>)
  {
    forall j :: 0 <= j < |UPGRADES| && HasMaxLevel(UPGRADES[j]) ==>
      UpgradeLevel(upgrades, UPGRADES[j].id) <= UPGRADES[j].maxLevel.value
  }

  /** No balance is negative; absent prestige-currency slots read as 0. */
  predicate BalancesOk(s: GameState)
  {
    s.currency >= 0.0 && s.mana >= 0.0 && s.lastBlueSquareProduction >= 0.0
    && forall i :: 0 <= i < |s.prestigeCurrencies| ==> s.prestigeCurrencies[i] >= 0.0
  }

  /** What the actions keep. */
  predicate Inv(s: GameState)
  {
    LayerOk(s.layer) && s.debugSpeedMultiplier > 0.0 && Multipliers.SkillIdsDistinct(s.skills)
    && NoDuplicates(s.unlockedUpgrades) && LevelsCapped(s.upgrades) && BalancesOk(s)
  }

  // ---- tick ----

  datatype TickOutcome = TickOutcome(state: GameState, scheduled: seq<nat>)

  function Elapsed(s: GameState, now: int): real
  {
    (now - s.lastUpdate) as real
  }

  /** What a rate per second yields over `dt` milliseconds: `rate * deltaTime / 1000`. */
  function Accrued(perSecond: real, dt: real): real
  {
    Times(perSecond, dt) / 1000.0
  }

  /** `currentPotentialCollection`: the grid's squares times its row-bonus product. */
  function GridValue(l: LayerState): real
  {
    Times(l.totalSquares as real, TotalMultiplier(l.rowBonuses))
  }

  /** `manaPerSecond * deltaTime / 1000`. */
  function ManaGained(s: GameState, now: int): real
  {
    Accrued(ManaPerSecond(s.upgrades, s.skills), Elapsed(s, now))
  }

  /** The passive blue income of a tick: from the live grid at tier 0, else from the last blue run. */
  function PassiveGain(s: GameState, now: int): real
  {
    var rate := PassiveRate(SKILLS, s.skills);
    var dt := Elapsed(s, now);
    if rate <= 0.0 then 0.0
    else if s.prestigeLevel == 0 then Accrued(Times(GridValue(s.layer), rate), dt)
    else if s.lastBlueSquareProduction > 0.0 then Accrued(Times(s.lastBlueSquareProduction, rate), dt)
    else 0.0
  }

  /** The speed the fill loop divides by: upgrades and skills, spells, and the debug factor. */
  function TickSpeed(s: GameState, now: int): (speed: real)
    requires s.debugSpeedMultiplier > 0.0
    ensures speed > 0.0
  {
    FillSpeedAtLeastOne(s.upgrades, s.skills);
    SpellSpeedClosedForm(s.spells, now);
    var f, g := FillSpeed(s.upgrades, s.skills), SpellFillSpeedMultiplier(s.spells, now);
    ProductSign(f, g);
    ProductSign(f * g, s.debugSpeedMultiplier);
    Times(Times(f, g), s.debugSpeedMultiplier)
  }

  /** Tier 1 is timed from tier 0's last square at unit speed. */
  function PreviousTierTime(s: GameState): (p: Option<real>)
    requires s.prestigeLevel <= 1
    ensures s.prestigeLevel > 0 ==> p.Some? && p.value > 0.0
  {
    if s.prestigeLevel > 0 then
      FillTimePositive(0, TOTAL_SQUARES - 1, 1.0, None, s.debugDisableSlowdown);
      Some(GetSquareFillTime(s.prestigeLevel - 1, TOTAL_SQUARES - 1, 1.0, None, s.debugDisableSlowdown))
    else None
  }

  function TickFillParams(s: GameState, now: int): (fp: FillParams)
    requires s.debugSpeedMultiplier > 0.0 && s.prestigeLevel <= 1
    ensures FillParamsOk(fp)
  {
    FillParams(s.prestigeLevel, TickSpeed(s, now), PreviousTierTime(s), s.debugDisableSlowdown)
  }

  /** Where the cursor gets to when the elapsed time is spent on the grid. */
  function TickAdvance(s: GameState, now: int): (a: Progress)
    requires LayerOk(s.layer) && s.debugSpeedMultiplier > 0.0 && s.prestigeLevel <= 1
    ensures s.layer.currentSquareIndex <= a.cursor <= TOTAL_SQUARES && 0.0 <= a.progress < 1.0
  {
    Advance(s.layer.currentSquareIndex, s.layer.currentSquareFillProgress, Elapsed(s, now), FillTimes(TickFillParams(s, now)))
  }

  /** Whether a tick fills the grid's last square. */
  predicate TickCompletes(s: GameState, now: int)
  {
    !s.isPaused && s.layer.currentSquareIndex < TOTAL_SQUARES
    && LayerOk(s.layer) && s.debugSpeedMultiplier > 0.0 && s.prestigeLevel <= 1
    && TickAdvance(s, now).cursor == TOTAL_SQUARES
  }

  /** The unlock scan of `tick`. */
  function TickUnlocks(s: GameState): seq<string>
  {
    Unlocked(s.unlockedUpgrades, UPGRADES, s.currency, s.prestigeCurrencies)
  }

  /** The clock, mana and passive income every unpaused tick writes. */
  function Accrue(s: GameState, now: int): GameState
  {
    s.(mana := s.mana + ManaGained(s, now), currency := s.currency + PassiveGain(s, now), lastUpdate := now)
  }

  /** A tick on a grid still filling: either the grid completes and the tier prestiges, or the layer advances. */
  function FillOutcome(s: GameState, now: int, rolls: nat -> real): TickOutcome
    requires LayerOk(s.layer) && s.debugSpeedMultiplier > 0.0 && s.prestigeLevel <= 1
  {
    var a := TickAdvance(s, now);
    var scheduled := ScheduledRows(|s.layer.rowBonuses|, a.cursor / GRID_SIZE, s.isProcessingOffline);
    var accrued := Accrue(s, now);
    if a.cursor == TOTAL_SQUARES then
      TickOutcome(PrestigeState(s).(mana := accrued.mana, currency := accrued.currency, lastUpdate := now), scheduled)
    else
      TickOutcome(accrued.(layer := FilledLayer(s.layer, a, s.isProcessingOffline, rolls),
                           unlockedUpgrades := TickUnlocks(s)), scheduled)
  }

  /** The two outcomes of a tick on a grid still filling, spelt out. */
  lemma FillOutcomeCases(s: GameState, now: int, rolls: nat -> real)
    requires LayerOk(s.layer) && s.debugSpeedMultiplier > 0.0 && s.prestigeLevel <= 1
    ensures var a, o := TickAdvance(s, now), FillOutcome(s, now, rolls);
            o.scheduled == ScheduledRows(|s.layer.rowBonuses|, a.cursor / GRID_SIZE, s.isProcessingOffline)
            && (a.cursor == TOTAL_SQUARES ==>
                  o.state == PrestigeState(s).(mana := s.mana + ManaGained(s, now),
                                               currency := s.currency + PassiveGain(s, now), lastUpdate := now))
            && (a.cursor != TOTAL_SQUARES ==>
                  o.state == s.(layer := FilledLayer(s.layer, a, s.isProcessingOffline, rolls),
                                mana := s.mana + ManaGained(s, now), currency := s.currency + PassiveGain(s, now),
                                lastUpdate := now, unlockedUpgrades := TickUnlocks(s)))
  {
  }

  /** `tick`, with the rows whose spin it schedules. */
  function TickState(s: GameState, now: int, rolls: nat -> real): TickOutcome
    requires TickReady(s)
  {
    if s.isPaused then TickOutcome(s.(lastUpdate := now), [])
    else if s.layer.currentSquareIndex >= TOTAL_SQUARES then
      TickOutcome(Accrue(s, now).(unlockedUpgrades := TickUnlocks(s)), [])
    else FillOutcome(s, now, rolls)
  }

  // ---- The other actions ----

  /** The blue production a prestige from tier 0 records. */
  function BlueProduction(s: GameState): real
  {
    if s.prestigeLevel == 0 then GridValue(s.layer) else 0.0
  }

  /** `prestige`: pause, keep the layer for the transition, start the next tier with one square. */
  function PrestigeState(s: GameState): GameState
  {
    var blue := BlueProduction(s);
    s.(isPaused := true, layer := PrestigeLayer(), prestigeLevel := s.prestigeLevel + 1,
       previousCompletedLayer := Some(s.layer),
       lastBlueSquareProduction := if blue > 0.0 then blue else s.lastBlueSquareProduction)
  }

  /** `spinSlotForRow(row)` once the slot has stopped on `multiplier`. */
  function SpinState(s: GameState, row: nat, multiplier: real): GameState
  {
    s.(layer := s.layer.(rowBonuses := SpinRow(s.layer.rowBonuses, row, multiplier)))
  }

  /** The empty layer of `initializeLayer`. */
  function EmptyLayer(): LayerState
  {
    CanonicalLayer(0, 0.0, [])
  }

  /** The grid's squares times the bonus product, spinning bonuses force-rolled first. */
  function CollectPayout(l: LayerState, rolls: nat -> real): real
  {
    Times(l.totalSquares as real, CollectMultiplier(l.rowBonuses, rolls))
  }

  /** The reward in prestige currency `index`: pink squares (index 0) are multiplied by `getPinkMultiplier`. */
  function TierReward(index: nat, upgrades: seq<UpgradeState>, reward: real): real
  {
    if index == 0 then Times(reward, PinkMultiplier(upgrades)) else reward
  }

  /** `copy[index] = (copy[index] || 0) + amount`. */
  function AddToSlot(pcs: seq<real>, index: nat, amount: real): seq<real>
  {
    SetSlot(pcs, index, Slot(pcs, index) + amount)
  }

  /** `collect`: the grid's squares times the bonus product (spins force-rolled), paid by tier. */
  function CollectState(s: GameState, now: int, rolls: nat -> real): GameState
  {
    var reward := CollectPayout(s.layer, rolls);
    if s.prestigeLevel == 0 then
      s.(currency := s.currency + reward, hasCollected := true, layer := EmptyLayer(),
         lastBlueSquareProduction := reward, lastUpdate := now)
    else
      var index := s.prestigeLevel - 1;
      s.(hasCollected := true, layer := EmptyLayer(), prestigeLevel := 0,
         prestigeCurrencies := AddToSlot(s.prestigeCurrencies, index, TierReward(index, s.upgrades, reward)),
         skillsUnlocked := index == 0 || s.skillsUnlocked, currency := 0.0, upgrades := [],
         lastBlueSquareProduction := 0.0, lastUpdate := now)
  }

  /** The upgrade list with `id` at `level`: the first entry with the id, or a new entry at level 1. */
  function WithUpgradeLevel(upgrades: seq<UpgradeState>, id: string, level: nat): seq<UpgradeState>
  {
    match UpgradeIndex(upgrades, id)
    case Some(k) => upgrades[k := upgrades[k].(level := level)]
    case None => upgrades + [UpgradeState(id, 1)]
  }

  /** Whether `purchaseUpgrade(id)` goes through. */
  predicate CanPurchaseUpgrade(s: GameState, id: string)
  {
    var u := FindUpgrade(UPGRADES, id);
    u.Some?
    && var level := UpgradeLevel(s.upgrades, id);
       s.currency >= GetUpgradeCost(u.value, level) as real
       && !(HasMaxLevel(u.value) && level >= u.value.maxLevel.value)
  }

  /** `purchaseUpgrade(id)`. */
  function PurchaseUpgradeState(s: GameState, id: string): GameState
  {
    if !CanPurchaseUpgrade(s, id) then s
    else
      var level := UpgradeLevel(s.upgrades, id);
      var cost := GetUpgradeCost(FindUpgrade(UPGRADES, id).value, level);
      s.(currency := s.currency - cost as real, upgrades := WithUpgradeLevel(s.upgrades, id, level + 1))
  }

  /** `spellConfig.duration` is truthy. */
  predicate Timed(c: SpellConfig)
  {
    c.duration.Some? && c.duration.value != 0
  }

  /** The spell list after casting `c`: one more cast, and a new end time for timed spells. */
  function WithCast(spells: seq<SpellState>, c: SpellConfig, now: int): seq<SpellState>
  {
    var times := SpellTimesCast(spells, c.id);
    match SpellIndex(spells, c.id)
    case Some(k) =>
      spells[k := spells[k].(timesCast := times + 1,
                             activeUntil := if Timed(c) then Some(now + c.duration.value) else spells[k].activeUntil)]
    case None => spells + [SpellState(c.id, 1, if Timed(c) then Some(now + c.duration.value) else None)]
  }

  /** Whether `castSpell(id)` goes through. */
  predicate CanCastSpell(s: GameState, id: string)
  {
    var c := FindSpell(SPELLS, id);
    c.Some? && s.mana >= GetSpellCost(c.value, SpellTimesCast(s.spells, id)) as real
  }

  /** `castSpell(id)` at time `now`; `magical_collect` also pays the grid out without resetting it. */
  function CastSpellState(s: GameState, id: string, now: int): GameState
  {
    if !CanCastSpell(s, id) then s
    else
      var c := FindSpell(SPELLS, id).value;
      var cost := GetSpellCost(c, SpellTimesCast(s.spells, id));
      var after := s.(mana := s.mana - cost as real, spells := WithCast(s.spells, c, now));
      if id == "magical_collect" then
        after.(currency := s.currency + GridValue(s.layer))
      else after
  }

  /** `prerequisiteSkills.every(id => find(id)?.purchased)`. */
  predicate HasAll(skills: seq<SkillState>, ids: seq<string>)
  {
    forall i :: 0 <= i < |ids| ==> HasSkill(skills, ids[i])
  }

  /** Whether `purchaseSkill(id)` goes through. */
  predicate CanPurchaseSkill(s: GameState, id: string)
  {
    var c := FindSkill(SKILLS, id);
    c.Some? && !HasSkill(s.skills, id) && Slot(s.prestigeCurrencies, 0) >= c.value.cost
    && HasAll(s.skills, c.value.prerequisiteSkills)
  }

  /** `purchaseSkill(id)`: pay in pink squares, replace the entries of the id by a purchased one at the end. */
  function PurchaseSkillState(s: GameState, id: string): GameState
  {
    if !CanPurchaseSkill(s, id) then s
    else
      var cost := FindSkill(SKILLS, id).value.cost;
      s.(prestigeCurrencies := SetSlot(s.prestigeCurrencies, 0, Slot(s.prestigeCurrencies, 0) - cost),
         skills := BuySkill(s.skills, id))
  }

  /** `reset`: everything but the pause, offline and debug flags back to the start. */
  function ResetState(s: GameState, now: int): GameState
  {
    s.(layer := EmptyLayer(), prestigeLevel := 0, previousCompletedLayer := None, currency := 0.0, mana := 0.0,
       hasCollected := false, upgrades := [], unlockedUpgrades := [], spells := [], lastUpdate := now,
       fillTime := FILL_TIME, prestigeCurrencies := [], currentTab := SquaresTab, skillsUnlocked := false,
       lastBlueSquareProduction := 0.0, skills := [])
  }

  /** The end of the layer transition: the loop runs again and the snapshot is dropped. */
  function UnpauseState(s: GameState): GameState
  {
    s.(isPaused := false, previousCompletedLayer := None)
  }

  // ---- Initialisation ----

  /**
   * The store's initial state from what `loadGameState` returned: every persisted field
   * from the save (the layer a fresh one and the clock `now` when absent), every
   * transient field at its default.
   */
  function InitialState(saved: Option<LoadedState>, now: int): GameState
  {
    match saved
    case None =>
      GameState(EmptyLayer(), 0, None, 0.0, 0.0, false, [], [], [], now, FILL_TIME, false, false, 1.0, false,
                [], SquaresTab, false, 0.0, [])
    case Some(d) =>
      GameState(GetOr(d.layer, EmptyLayer()), d.prestigeLevel, None, d.currency, d.mana, d.hasCollected,
                d.upgrades, d.unlockedUpgrades, d.spells, GetOr(d.lastUpdate, now), FILL_TIME, false, false, 1.0,
                false, d.prestigeCurrencies, d.currentTab, d.skillsUnlocked, d.lastBlueSquareProduction, d.skills)
  }

  /** The store as the autosave hands it to `saveGameState`: it defines none of the pass-through fields. */
  function SnapshotOf(s: GameState): Snapshot
  {
    Snapshot(Some(s.layer), Some(s.prestigeLevel), Some(s.previousCompletedLayer), Some(s.currency), Some(s.mana),
             Some(s.hasCollected), Some(s.upgrades), Some(s.unlockedUpgrades), Some(s.spells), Some(s.lastUpdate),
             Some(s.fillTime), Some(s.isProcessingOffline), Some(s.isPaused), Some(s.debugSpeedMultiplier),
             Some(s.debugDisableSlowdown), Some(s.prestigeCurrencies), Some(s.currentTab), Some(s.skillsUnlocked),
             Some(s.lastBlueSquareProduction), Some(s.skills), None, None, None, None, None, None, None)
  }

  /** `s` with the fields that are not saved back at the values a new store starts with. */
  function TransientReset(s: GameState): GameState
  {
    s.(previousCompletedLayer := None, fillTime := FILL_TIME, isProcessingOffline := false, isPaused := false,
       debugSpeedMultiplier := 1.0, debugDisableSlowdown := false)
  }

  /** The store a page load starts with after the autosave wrote `s` at `saveTime`. */
  function Reloaded(s: GameState, saveTime: int, now: int): GameState
  {
    InitialState(Load(Some(JsonObject(SaveRecord(SnapshotOf(s), saveTime)))).result, now)
  }

  /**
   * The zustand store: one state object, which every `set` replaces by an updated copy.
   * Actions read `state` and assign it once per `set` they make.
   */
  class Game {
    var state: GameState

    /** Creating the store: load the save from `ls` at time `now` and start from it. */
    constructor (ls: LocalStorage, now: int)
      modifies ls
      ensures var o := Load(Lookup(old(ls.items), SAVE_KEY));
              state == InitialState(o.result, now)
              && ls.items == if o.removesKey then old(ls.items) - {SAVE_KEY} else old(ls.items)
    {
      var savedState := LoadGameState(ls);
      var layer;
      if savedState.Some? && savedState.value.layer.Some? {
        layer := savedState.value.layer.value;
      } else {
        layer := InitializeLayer();
      }
      if savedState.None? {
        state := GameState(layer, 0, None, 0.0, 0.0, false, [], [], [], now, FILL_TIME, false, false, 1.0, false,
                           [], SquaresTab, false, 0.0, []);
      } else {
        var d := savedState.value;
        state := GameState(layer, d.prestigeLevel, None, d.currency, d.mana, d.hasCollected, d.upgrades,
                           d.unlockedUpgrades, d.spells, GetOr(d.lastUpdate, now), FILL_TIME, false, false, 1.0,
                           false, d.prestigeCurrencies, d.currentTab, d.skillsUnlocked,
                           d.lastBlueSquareProduction, d.skills);
      }
    }

    // ---- The accumulating getters ----

    /**
     * The body of the loops of `getFillSpeedMultiplier` and `getManaPerSecond`: a purchased
     * skill whose effect has `kind` and a truthy value contributes that value, others 1.
     */
    static method SkillMultiplier(skill: SkillState, kind: SkillEffectKind) returns (factor: real)
      ensures factor == SkillFactor(SKILLS, skill, kind)
    {
      factor := 1.0;
      if skill.purchased {
        var skillConfig := FindSkill(SKILLS, skill.id);
        if skillConfig.Some? && skillConfig.value.effect.kind == kind
           && skillConfig.value.effect.value.Some? && skillConfig.value.effect.value.value != 0.0 {
          factor := skillConfig.value.effect.value.value;
        }
      }
    }

    /** The `state.skills.forEach` loop shared by both getters: every entry's factor of `kind`, compounded. */
    static method CompoundSkills(skills: seq<SkillState>, kind: SkillEffectKind) returns (product: real)
      ensures product == SkillProduct(SKILLS, skills, kind)
    {
      product := 1.0;
      var i := 0;
      while i < |skills|
        invariant 0 <= i <= |skills|
        invariant product == SkillProduct(SKILLS, skills[..i], kind)
      {
        var factor := SkillMultiplier(skills[i], kind);
        SkillProductAppend(SKILLS, skills[..i], skills[i], kind);
        product := Times(product, factor);
        assert skills[..i + 1] == skills[..i] + [skills[i]];
        i := i + 1;
      }
      assert skills[..i] == skills;
    }

    /** `getFillSpeedMultiplier`. */
    method GetFillSpeedMultiplier() returns (multiplier: real)
      ensures multiplier == FillSpeed(state.upgrades, state.skills)
    {
      var upgrades := state.upgrades;
      var fillFasterLevel := UpgradeLevel(upgrades, "fill_faster");
      var upgrade := FindUpgrade(UPGRADES, "fill_faster");
      multiplier := 1.0;
      if upgrade.Some? && fillFasterLevel > 0 {
        multiplier := multiplier * EffectAt(upgrade.value.effect, fillFasterLevel);
      }
      assert multiplier == FillFasterFactor(upgrades);
      var skillProduct := CompoundSkills(state.skills, FillSpeedMultiplier);
      multiplier := multiplier * skillProduct;
    }

    /** `getManaPerSecond`. */
    method GetManaPerSecond() returns (rate: real)
      ensures rate == ManaPerSecond(state.upgrades, state.skills)
    {
      var upgrades := state.upgrades;
      var manaGemLevel := UpgradeLevel(upgrades, "mana_gem");
      var upgrade := FindUpgrade(UPGRADES, "mana_gem");
      var baseRate := 0.0;
      if upgrade.Some? && manaGemLevel > 0 {
        baseRate := EffectAt(upgrade.value.effect, manaGemLevel);
      }
      assert baseRate == ManaGemRate(upgrades);
      var multiplier := CompoundSkills(state.skills, ManaMultiplier);
      rate := baseRate * multiplier;
    }

    /** The body of the loop of `getPassiveGenerationRate`: the value of a purchased passive skill, else 0. */
    static method PassiveContribution(skill: SkillState) returns (term: real)
      ensures term == PassiveTerm(SKILLS, skill)
    {
      term := 0.0;
      if skill.purchased {
        var skillConfig := FindSkill(SKILLS, skill.id);
        if skillConfig.Some? && skillConfig.value.effect.kind == PassiveGeneration && skillConfig.value.effect.value.Some? {
          term := skillConfig.value.effect.value.value;
        }
      }
    }

    /** `getPassiveGenerationRate`. */
    method GetPassiveGenerationRate() returns (rate: real)
      ensures rate == PassiveRate(SKILLS, state.skills)
    {
      var skills := state.skills;
      rate := 0.0;
      var i := 0;
      while i < |skills|
        invariant 0 <= i <= |skills|
        invariant rate == PassiveRate(SKILLS, skills[..i])
      {
        var term := PassiveContribution(skills[i]);
        rate := rate + term;
        assert skills[..i + 1][..i] == skills[..i];
        i := i + 1;
      }
      assert skills[..i] == skills;
    }

    /** The unlock scan at the start of `tick`. */
    method ScanUnlocks() returns (newlyUnlocked: seq<string>)
      ensures newlyUnlocked == Unlocked(state.unlockedUpgrades, UPGRADES, state.currency, state.prestigeCurrencies)
    {
      var currency, prestigeCurrencies := state.currency, state.prestigeCurrencies;
      newlyUnlocked := state.unlockedUpgrades;
      var i := 0;
      while i < |UPGRADES|
        invariant 0 <= i <= |UPGRADES|
        invariant newlyUnlocked == Unlocked(state.unlockedUpgrades, UPGRADES[..i], currency, prestigeCurrencies)
      {
        var upgrade := UPGRADES[i];
        if upgrade.id !in newlyUnlocked && upgrade.unlockRequirement.Some? {
          var req := upgrade.unlockRequirement.value;
          var shouldUnlock := false;
          if req.kind == CurrencyAmount {
            shouldUnlock := currency >= req.amount;
          } else {
            var currencyAmount := if req.currencyIndex.Some? then Slot(prestigeCurrencies, req.currencyIndex.value) else 0.0;
            shouldUnlock := currencyAmount >= req.amount;
          }
          if shouldUnlock {
            newlyUnlocked := newlyUnlocked + [upgrade.id];
          }
        }
        assert UPGRADES[..i + 1][..i] == UPGRADES[..i];
        i := i + 1;
      }
      assert UPGRADES[..i] == UPGRADES;
    }

    /** The mana and passive blue income of a tick, from the elapsed time. */
    method TickIncome(now: int) returns (manaGained: real, passiveCurrency: real)
      ensures manaGained == ManaGained(state, now) && passiveCurrency == PassiveGain(state, now)
    {
      var deltaTime := (now - state.lastUpdate) as real;
      var manaPerSecond := GetManaPerSecond();
      manaGained := Times(manaPerSecond, deltaTime) / 1000.0;
      var passiveRate := GetPassiveGenerationRate();
      passiveCurrency := 0.0;
      if passiveRate > 0.0 {
        if state.prestigeLevel == 0 {
          var currentMultiplier := TotalMultiplier(state.layer.rowBonuses);
          var currentPotentialCollection := Times(state.layer.totalSquares as real, currentMultiplier);
          passiveCurrency := Times(Times(currentPotentialCollection, passiveRate), deltaTime) / 1000.0;
        } else if state.lastBlueSquareProduction > 0.0 {
          passiveCurrency := Times(Times(state.lastBlueSquareProduction, passiveRate), deltaTime) / 1000.0;
        }
      }
    }

    /** The fill-time parameters of a tick: the speed product and the previous tier's last time. */
    method TickParams(now: int) returns (fp: FillParams)
      requires state.debugSpeedMultiplier > 0.0 && state.prestigeLevel <= 1
      ensures fp == TickFillParams(state, now)
    {
      var fillSpeed := GetFillSpeedMultiplier();
      var spellSpeed := SpellFillSpeedMultiplier(state.spells, now);
      var fillSpeedMultiplier := Times(Times(fillSpeed, spellSpeed), state.debugSpeedMultiplier);
      var previousPrestigeLastSquareTime: Option<real> := None;
      if state.prestigeLevel > 0 {
        previousPrestigeLastSquareTime :=
          Some(GetSquareFillTime(state.prestigeLevel - 1, TOTAL_SQUARES - 1, 1.0, None, state.debugDisableSlowdown));
      }
      fp := FillParams(state.prestigeLevel, fillSpeedMultiplier, previousPrestigeLastSquareTime, state.debugDisableSlowdown);
    }

    // ---- The actions ----

    /** The fill loop of `tick`: the layer it leaves, whether it completed the grid, the spins it scheduled. */
    method AdvanceLayer(now: int, rolls: nat -> real) returns (next: LayerState, gridCompleted: bool, scheduled: seq<nat>)
      requires state.layer.currentSquareIndex < TOTAL_SQUARES
      requires LayerOk(state.layer) && state.debugSpeedMultiplier > 0.0 && state.prestigeLevel <= 1
      ensures var a := TickAdvance(state, now);
              (gridCompleted <==> a.cursor == TOTAL_SQUARES)
              && (!gridCompleted ==> next == FilledLayer(state.layer, a, state.isProcessingOffline, rolls))
              && scheduled == ScheduledRows(|state.layer.rowBonuses|, a.cursor / GRID_SIZE, state.isProcessingOffline)
    {
      var fp := TickParams(now);
      var deltaTime := (now - state.lastUpdate) as real;
      next, gridCompleted, scheduled := FillSquares(state.layer, fp, deltaTime, state.isProcessingOffline, rolls);
    }

    /** A tick that fills the last square: prestige, then write the income and the clock. */
    method CompleteGrid(now: int, newMana: real, newCurrency: real)
      modifies this
      ensures state == PrestigeState(old(state)).(mana := newMana, currency := newCurrency, lastUpdate := now)
    {
      Prestige();
      state := state.(mana := newMana, currency := newCurrency, lastUpdate := now);
    }

    /** The part of `tick` after the income, on a grid still filling. */
    method TickFill(now: int, rolls: nat -> real, newlyUnlockedUpgrades: seq<string>, manaGained: real, passiveCurrency: real)
      returns (scheduled: seq<nat>)
      requires state.layer.currentSquareIndex < TOTAL_SQUARES
      requires LayerOk(state.layer) && state.debugSpeedMultiplier > 0.0 && state.prestigeLevel <= 1
      requires newlyUnlockedUpgrades == TickUnlocks(state)
      requires manaGained == ManaGained(state, now) && passiveCurrency == PassiveGain(state, now)
      modifies this
      ensures TickOutcome(state, scheduled) == FillOutcome(old(state), now, rolls)
    {
      ghost var before := state;
      FillOutcomeCases(before, now, rolls);
      var next, gridCompleted;
      next, gridCompleted, scheduled := AdvanceLayer(now, rolls);
      if gridCompleted {
        CompleteGrid(now, state.mana + manaGained, state.currency + passiveCurrency);
        return;
      }
      state := state.(layer := next, mana := state.mana + manaGained, currency := state.currency + passiveCurrency,
                      lastUpdate := now, unlockedUpgrades := newlyUnlockedUpgrades);
    }

    /** `tick` at time `now`; returns the rows whose spin it scheduled. */
    method Tick(now: int, rolls: nat -> real) returns (scheduled: seq<nat>)
      requires TickReady(state)
      modifies this
      ensures TickOutcome(state, scheduled) == TickState(old(state), now, rolls)
    {
      scheduled := [];
      if state.isPaused {
        state := state.(lastUpdate := now);
        return;
      }
      var newlyUnlockedUpgrades := ScanUnlocks();
      var manaGained, passiveCurrency := TickIncome(now);
      if state.layer.currentSquareIndex >= TOTAL_SQUARES {
        state := state.(lastUpdate := now, mana := state.mana + manaGained, currency := state.currency + passiveCurrency,
                        unlockedUpgrades := newlyUnlockedUpgrades);
        return;
      }
      scheduled := TickFill(now, rolls, newlyUnlockedUpgrades, manaGained, passiveCurrency);
    }

    /** `prestige`. */
    method Prestige()
      modifies this
      ensures state == PrestigeState(old(state))
    {
      var completedLayer := state.layer;
      var blueSquareProduction := 0.0;
      if state.prestigeLevel == 0 {
        var finalMultiplier := TotalMultiplier(completedLayer.rowBonuses);
        blueSquareProduction := Times(completedLayer.totalSquares as real, finalMultiplier);
      }
      var newLayer := InitializeLayer();
      newLayer := newLayer.(squares := newLayer.squares[0 := newLayer.squares[0].(filled := true, fillProgress := 1.0)]);
      newLayer := newLayer.(totalSquares := 1, currentSquareIndex := 1);
      assert newLayer.squares == Squares(1, 0.0, 0) by {
        assert forall i :: 0 <= i < TOTAL_SQUARES ==> newLayer.squares[i] == ExpectedSquare(i, 1, 0.0, 0);
      }
      state := state.(isPaused := true, layer := newLayer, prestigeLevel := state.prestigeLevel + 1,
                      previousCompletedLayer := Some(completedLayer),
                      lastBlueSquareProduction := if blueSquareProduction > 0.0 then blueSquareProduction
                                                  else state.lastBlueSquareProduction);
    }

    /** `spinSlotForRow(row)` with the draw `roll`. */
    method SpinSlotForRow(row: nat, roll: real)
      modifies this
      ensures state == SpinState(old(state), row, SlotDraw(roll))
    {
      var multiplier := GetRandomSlotMultiplier(roll);
      var updatedBonuses := SpinRow(state.layer.rowBonuses, row, multiplier);
      state := state.(layer := state.layer.(rowBonuses := updatedBonuses));
    }

    /** The payout of `collect`: the force-roll of spinning bonuses, then squares times the product. */
    static method CollectReward(layer: LayerState, rolls: nat -> real) returns (reward: real)
      ensures reward == CollectPayout(layer, rolls)
    {
      var totalSquaresToCollect := layer.totalSquares;
      var finalMultiplier: real;
      if SpinningCount(layer.rowBonuses) > 0 {
        var updatedBonuses := ForceRoll(layer.rowBonuses, rolls);
        finalMultiplier := TotalMultiplier(updatedBonuses);
      } else {
        finalMultiplier := TotalMultiplier(layer.rowBonuses);
      }
      reward := Times(totalSquaresToCollect as real, finalMultiplier);
    }

    /** The prestige currencies after `collect` pays `reward` at tier `currencyIndex + 1`. */
    static method PayTier(pcs: seq<real>, upgrades: seq<UpgradeState>, currencyIndex: nat, reward: real)
      returns (newPrestigeCurrencies: seq<real>)
      ensures newPrestigeCurrencies == AddToSlot(pcs, currencyIndex, TierReward(currencyIndex, upgrades, reward))
    {
      var finalReward := reward;
      if currencyIndex == 0 {
        finalReward := Times(reward, PinkMultiplier(upgrades));
      }
      newPrestigeCurrencies := SetSlot(pcs, currencyIndex, Slot(pcs, currencyIndex) + finalReward);
    }

    /** `collect` at time `now`, the force-roll drawing from `rolls`. */
    method Collect(now: int, rolls: nat -> real)
      modifies this
      ensures state == CollectState(old(state), now, rolls)
    {
      var reward := CollectReward(state.layer, rolls);
      var freshLayer := InitializeLayer();
      if state.prestigeLevel == 0 {
        state := state.(currency := state.currency + reward, hasCollected := true, layer := freshLayer,
                        lastBlueSquareProduction := reward, lastUpdate := now);
      } else {
        var currencyIndex := state.prestigeLevel - 1;
        var unlockSkills := currencyIndex == 0 && !state.skillsUnlocked;
        var newPrestigeCurrencies := PayTier(state.prestigeCurrencies, state.upgrades, currencyIndex, reward);
        state := state.(hasCollected := true, layer := freshLayer, prestigeLevel := 0,
                        prestigeCurrencies := newPrestigeCurrencies,
                        skillsUnlocked := if unlockSkills then true else state.skillsUnlocked,
                        currency := 0.0, upgrades := [], lastBlueSquareProduction := 0.0, lastUpdate := now);
      }
    }

    /** `purchaseUpgrade(upgradeId)`. */
    method PurchaseUpgrade(upgradeId: string)
      modifies this
      ensures state == PurchaseUpgradeState(old(state), upgradeId)
    {
      var upgradeConfig := FindUpgrade(UPGRADES, upgradeId);
      if upgradeConfig.None? {
        return;
      }
      var upgrades := state.upgrades;
      var currentLevel := UpgradeLevel(upgrades, upgradeId);
      var cost := GetUpgradeCost(upgradeConfig.value, currentLevel);
      if state.currency < cost as real {
        return;
      }
      if HasMaxLevel(upgradeConfig.value) && currentLevel >= upgradeConfig.value.maxLevel.value {
        return;
      }
      var existingUpgradeIndex := UpgradeIndex(upgrades, upgradeId);
      var newUpgrades;
      if existingUpgradeIndex.Some? {
        var k := existingUpgradeIndex.value;
        newUpgrades := upgrades[k := upgrades[k].(level := currentLevel + 1)];
      } else {
        newUpgrades := upgrades + [UpgradeState(upgradeId, 1)];
      }
      state := state.(currency := state.currency - cost as real, upgrades := newUpgrades);
    }

    /** The spell list after one more cast of `c`: its entry counted (and timed, for haste), or a new entry. */
    static method CastEntry(spells: seq<SpellState>, c: SpellConfig, now: int) returns (newSpells: seq<SpellState>)
      ensures newSpells == WithCast(spells, c, now)
    {
      var timesCast := SpellTimesCast(spells, c.id);
      var existingSpellIndex := SpellIndex(spells, c.id);
      if existingSpellIndex.Some? {
        var k := existingSpellIndex.value;
        newSpells := spells[k := spells[k].(timesCast := timesCast + 1,
                                            activeUntil := if Timed(c) then Some(now + c.duration.value) else spells[k].activeUntil)];
      } else {
        newSpells := spells + [SpellState(c.id, 1, if Timed(c) then Some(now + c.duration.value) else None)];
      }
    }

    /** `castSpell(spellId)` at time `now`. */
    method CastSpell(spellId: string, now: int)
      modifies this
      ensures state == CastSpellState(old(state), spellId, now)
    {
      var spellConfig := FindSpell(SPELLS, spellId);
      if spellConfig.None? {
        return;
      }
      var spells := state.spells;
      var timesCast := SpellTimesCast(spells, spellId);
      var cost := GetSpellCost(spellConfig.value, timesCast);
      if state.mana < cost as real {
        assert !CanCastSpell(state, spellId);
        return;
      }
      var newSpells := CastEntry(spells, spellConfig.value, now);
      assert CanCastSpell(state, spellId);
      if spellId == "magical_collect" {
        var multiplier := TotalMultiplier(state.layer.rowBonuses);
        var reward := Times(state.layer.totalSquares as real, multiplier);
        assert reward == GridValue(state.layer);
        state := state.(mana := state.mana - cost as real, spells := newSpells, currency := state.currency + reward);
      } else {
        state := state.(mana := state.mana - cost as real, spells := newSpells);
      }
    }

    /** `purchaseSkill(skillId)`. */
    method PurchaseSkill(skillId: string)
      modifies this
      ensures state == PurchaseSkillState(old(state), skillId)
    {
      var skillConfig := FindSkill(SKILLS, skillId);
      if skillConfig.None? {
        return;
      }
      var skills := state.skills;
      if HasSkill(skills, skillId) {
        return;
      }
      var pinkSquares := Slot(state.prestigeCurrencies, 0);
      if pinkSquares < skillConfig.value.cost {
        return;
      }
      if !HasAll(skills, skillConfig.value.prerequisiteSkills) {
        return;
      }
      var updatedPrestigeCurrencies := SetSlot(state.prestigeCurrencies, 0, pinkSquares - skillConfig.value.cost);
      var updatedSkills := RemoveSkill(skills, skillId);
      updatedSkills := updatedSkills + [SkillState(skillId, true)];
      assert updatedSkills == BuySkill(skills, skillId);
      state := state.(prestigeCurrencies := updatedPrestigeCurrencies, skills := updatedSkills);
    }

    /** `setTab(tab)`. */
    method SetTab(tab: Tab)
      modifies this
      ensures state == old(state).(currentTab := tab)
    {
      state := state.(currentTab := tab);
    }

    /** `setState({ isProcessingOffline })`, as the game loop does. */
    method SetProcessingOffline(flag: bool)
      modifies this
      ensures state == old(state).(isProcessingOffline := flag)
    {
      state := state.(isProcessingOffline := flag);
    }

    /** The layer transition's closing `setState`. */
    method Unpause()
      modifies this
      ensures state == UnpauseState(old(state))
    {
      state := state.(isPaused := false, previousCompletedLayer := None);
    }

    /** `reset` at time `now`. */
    method Reset(now: int)
      modifies this
      ensures state == ResetState(old(state), now)
    {
      var freshLayer := InitializeLayer();
      state := state.(layer := freshLayer, prestigeLevel := 0, previousCompletedLayer := None, currency := 0.0,
                      mana := 0.0, hasCollected := false, upgrades := [], unlockedUpgrades := [], spells := [],
                      lastUpdate := now, fillTime := FILL_TIME, prestigeCurrencies := [], currentTab := SquaresTab,
                      skillsUnlocked := false, lastBlueSquareProduction := 0.0, skills := []);
    }
  }
}
