/**
 * What the store's actions promise, proved about the functions that specify them
 * (src/stores/gameStore.ts). Each method of `GameStore.Game` leaves exactly the state
 * of its function, so every lemma here is a statement about the method too.
 */
module StoreLaws {
  import opened GameTypes
  import opened Numbers
  import opened UpgradesConfig
  import opened SpellsConfig
  import opened SkillsConfig
  import opened SlotRandom
  import opened Grid
  import opened Multipliers
  import opened RowBonuses
  import opened GameStore
  import opened Storage

  // ---- tick ----

  /** A tick changes the layer, the balances, the clock, the unlocks, the tier and the pause; nothing else. */
  lemma TickFrame(s: GameState, now: int, rolls: nat -> real)
    requires TickReady(s)
    ensures var o := TickState(s, now, rolls).state;
            o.upgrades == s.upgrades && o.spells == s.spells && o.skills == s.skills
            && o.prestigeCurrencies == s.prestigeCurrencies && o.hasCollected == s.hasCollected
            && o.currentTab == s.currentTab && o.skillsUnlocked == s.skillsUnlocked && o.fillTime == s.fillTime
            && o.isProcessingOffline == s.isProcessingOffline && o.debugSpeedMultiplier == s.debugSpeedMultiplier
            && o.debugDisableSlowdown == s.debugDisableSlowdown && o.lastUpdate == now
  {
    if !s.isPaused && s.layer.currentSquareIndex < TOTAL_SQUARES {
      FillOutcomeCases(s, now, rolls);
    }
  }

  /** While paused a tick only moves the clock, so the paused time is never paid out later. */
  lemma PausedTickOnlyMovesClock(s: GameState, now: int, rolls: nat -> real)
    requires s.isPaused
    ensures TickState(s, now, rolls).scheduled == []
    ensures TickState(s, now, rolls).state.(lastUpdate := s.lastUpdate) == s
    ensures TickState(s, now, rolls).state.lastUpdate == now
  {
  }

  /** An unpaused tick adds the mana and the passive income of the elapsed time, whichever way the grid goes. */
  lemma TickBalances(s: GameState, now: int, rolls: nat -> real)
    requires TickReady(s) && !s.isPaused
    ensures TickState(s, now, rolls).state.mana == s.mana + ManaGained(s, now)
    ensures TickState(s, now, rolls).state.currency == s.currency + PassiveGain(s, now)
  {
    if s.layer.currentSquareIndex < TOTAL_SQUARES {
      FillOutcomeCases(s, now, rolls);
    }
  }

  /** The mana of `dt` milliseconds: `0.1 * mana_gem level * mana skill product` per second. */
  lemma ManaGainedClosedForm(s: GameState, now: int)
    ensures ManaGained(s, now)
         == 0.1 * UpgradeLevel(s.upgrades, "mana_gem") as real * SkillProduct(SKILLS, s.skills, ManaMultiplier)
            * (now - s.lastUpdate) as real / 1000.0
  {
    ManaPerSecondClosedForm(s.upgrades, s.skills);
  }

  /** The passive income of `dt` milliseconds: the live grid's worth at tier 0, the last blue collection above it, once `passive_generation` is owned. */
  lemma PassiveGainClosedForm(s: GameState, now: int)
    requires Multipliers.SkillIdsDistinct(s.skills)
    ensures var dt := (now - s.lastUpdate) as real;
            PassiveGain(s, now) == (
              if !HasSkill(s.skills, "passive_generation") then 0.0
              else if s.prestigeLevel == 0 then s.layer.totalSquares as real * TotalMultiplier(s.layer.rowBonuses) * 0.1 * dt / 1000.0
              else if s.lastBlueSquareProduction > 0.0 then s.lastBlueSquareProduction * 0.1 * dt / 1000.0
              else 0.0)
  {
    PassiveRateValues(s.skills);
  }

  /** The grid completes exactly when the tier goes up; the completed layer is kept as the snapshot and the loop pauses. */
  lemma TickPrestigesIffComplete(s: GameState, now: int, rolls: nat -> real)
    requires TickReady(s)
    ensures var o := TickState(s, now, rolls).state;
            (o.prestigeLevel == s.prestigeLevel + 1 <==> TickCompletes(s, now))
            && (!TickCompletes(s, now) ==> o.prestigeLevel == s.prestigeLevel)
    ensures TickCompletes(s, now) ==>
              var o := TickState(s, now, rolls).state;
              o.isPaused && o.layer == PrestigeLayer() && o.previousCompletedLayer == Some(s.layer)
              && o.unlockedUpgrades == s.unlockedUpgrades
  {
    if !s.isPaused && s.layer.currentSquareIndex < TOTAL_SQUARES {
      FillOutcomeCases(s, now, rolls);
    }
  }

  /** A tick on a full grid (waiting to be collected) leaves the layer and schedules nothing. */
  lemma TickOnFullGrid(s: GameState, now: int, rolls: nat -> real)
    requires s.layer.currentSquareIndex >= TOTAL_SQUARES
    ensures TickState(s, now, rolls).scheduled == []
    ensures TickState(s, now, rolls).state.layer == s.layer
    ensures TickState(s, now, rolls).state.prestigeLevel == s.prestigeLevel
  {
  }

  /** The unlock list only grows: the old list is a prefix of the new one. */
  lemma TickUnlocksGrow(s: GameState, now: int, rolls: nat -> real)
    requires TickReady(s)
    ensures var o := TickState(s, now, rolls).state;
            |s.unlockedUpgrades| <= |o.unlockedUpgrades| && o.unlockedUpgrades[..|s.unlockedUpgrades|] == s.unlockedUpgrades
  {
    UnlockedExtends(s.unlockedUpgrades, UPGRADES, s.currency, s.prestigeCurrencies);
    if !s.isPaused && s.layer.currentSquareIndex < TOTAL_SQUARES {
      FillOutcomeCases(s, now, rolls);
    }
  }

  /**
   * The unlock thresholds, read on the balances before the tick's income: `mana_gem` at
   * 2000 blue squares, `pink_multiplier` at one pink square; `fill_faster` is never
   * unlocked by the scan. A tick that prestiges does not write the scan.
   */
  lemma TickUnlockThresholds(s: GameState, now: int, rolls: nat -> real)
    requires TickReady(s) && !s.isPaused && !TickCompletes(s, now)
    ensures var r := TickState(s, now, rolls).state.unlockedUpgrades;
            ("mana_gem" in r <==> "mana_gem" in s.unlockedUpgrades || s.currency >= 2000.0)
            && ("pink_multiplier" in r <==> "pink_multiplier" in s.unlockedUpgrades || Slot(s.prestigeCurrencies, 0) >= 1.0)
            && ("fill_faster" in r <==> "fill_faster" in s.unlockedUpgrades)
  {
    StoreUnlocks(s.unlockedUpgrades, s.currency, s.prestigeCurrencies);
    if s.layer.currentSquareIndex < TOTAL_SQUARES {
      FillOutcomeCases(s, now, rolls);
    }
  }

  /**
   * The bonuses a tick adds when the grid fills on: one per newly completed row, in row
   * order, after the old ones. Online each spins and is scheduled; offline each is
   * resolved at once from the draws and nothing is scheduled.
   */
  lemma TickRowBonuses(s: GameState, now: int, rolls: nat -> real)
    requires s.layer.currentSquareIndex < TOTAL_SQUARES && LayerOk(s.layer) && s.debugSpeedMultiplier > 0.0
    requires s.prestigeLevel <= 1 && !s.isPaused && !TickCompletes(s, now)
    ensures var o, prior := TickState(s, now, rolls), s.layer.rowBonuses;
            var bonuses := o.state.layer.rowBonuses;
            |prior| <= |bonuses| == TickAdvance(s, now).cursor / GRID_SIZE && bonuses[..|prior|] == prior
            && (forall k :: |prior| <= k < |bonuses| ==>
                  bonuses[k].row == k
                  && if s.isProcessingOffline then !bonuses[k].isSpinning && bonuses[k].multiplier.Some?
                     else bonuses[k].isSpinning && bonuses[k].multiplier.None?)
            && o.scheduled == if s.isProcessingOffline then [] else seq(|bonuses| - |prior|, k requires 0 <= k => |prior| + k)
  {
    FillOutcomeCases(s, now, rolls);
    FilledBonuses(s.layer, TickAdvance(s, now), s.isProcessingOffline, rolls);
  }

  /** No time elapsed, no income. */
  lemma NoTimeNoIncome(s: GameState)
    ensures ManaGained(s, s.lastUpdate) == 0.0 && PassiveGain(s, s.lastUpdate) == 0.0
  {
    assert Elapsed(s, s.lastUpdate) == 0.0;
  }

  /** A tick at the same time as the last one (as the later ticks of an offline batch are) earns nothing and leaves the grid. */
  lemma ZeroElapsedTickIsIdle(s: GameState, rolls: nat -> real)
    requires TickReady(s) && LayerOk(s.layer) && !s.isPaused
    ensures var o := TickState(s, s.lastUpdate, rolls);
            o.scheduled == [] && o.state == s.(unlockedUpgrades := TickUnlocks(s))
  {
    NoTimeNoIncome(s);
    if s.layer.currentSquareIndex < TOTAL_SQUARES {
      FillOutcomeCases(s, s.lastUpdate, rolls);
      var a := TickAdvance(s, s.lastUpdate);
      assert a == Progress(s.layer.currentSquareIndex, s.layer.currentSquareFillProgress);
      LayerOkMeaning(s.layer);
      assert NewBonuses(|s.layer.rowBonuses|, a.cursor / GRID_SIZE, s.isProcessingOffline, rolls) == [];
      assert s.layer.rowBonuses + [] == s.layer.rowBonuses;
    }
  }

  /** A tick leaves a state on which the next tick is defined. */
  lemma TickKeepsReady(s: GameState, now: int, rolls: nat -> real)
    requires TickReady(s)
    ensures TickReady(TickState(s, now, rolls).state)
  {
    if !s.isPaused && s.layer.currentSquareIndex < TOTAL_SQUARES {
      var a := TickAdvance(s, now);
      FillOutcomeCases(s, now, rolls);
      if a.cursor < TOTAL_SQUARES {
        FilledLayerOk(s.layer, a, s.isProcessingOffline, rolls);
      }
    }
  }

  /** Mana income is never negative once the clock does not run backwards. */
  lemma ManaGainedNonNegative(s: GameState, now: int)
    requires s.lastUpdate <= now
    ensures ManaGained(s, now) >= 0.0
  {
    ManaPerSecondSign(s.upgrades, s.skills);
    ProductSign(ManaPerSecond(s.upgrades, s.skills), Elapsed(s, now));
  }

  /** Passive income is never negative once the clock does not run backwards. */
  lemma PassiveGainNonNegative(s: GameState, now: int)
    requires s.lastUpdate <= now && BonusesOk(s.layer.rowBonuses) && s.lastBlueSquareProduction >= 0.0
    ensures PassiveGain(s, now) >= 0.0
  {
    var rate, dt := PassiveRate(SKILLS, s.skills), Elapsed(s, now);
    if rate > 0.0 {
      if s.prestigeLevel == 0 {
        BonusesOkFromSlot(s.layer.rowBonuses);
        TotalMultiplierAtLeastOne(s.layer.rowBonuses);
        var w := GridValue(s.layer);
        ProductSign(s.layer.totalSquares as real, TotalMultiplier(s.layer.rowBonuses));
        ProductSign(w, rate);
        ProductSign(Times(w, rate), dt);
      } else if s.lastBlueSquareProduction > 0.0 {
        ProductSign(s.lastBlueSquareProduction, rate);
        ProductSign(Times(s.lastBlueSquareProduction, rate), dt);
      }
    }
  }

  /** What `prestige` records: the blue run's worth at tier 0, else the earlier value. */
  lemma PrestigeRecordsBlueRun(s: GameState)
    ensures var p := PrestigeState(s);
            p.prestigeLevel == s.prestigeLevel + 1 && p.isPaused && p.layer == PrestigeLayer()
            && p.previousCompletedLayer == Some(s.layer)
            && p.currency == s.currency && p.mana == s.mana && p.upgrades == s.upgrades
            && p.skills == s.skills && p.prestigeCurrencies == s.prestigeCurrencies
    ensures BlueProduction(s) > 0.0 ==> PrestigeState(s).lastBlueSquareProduction == BlueProduction(s)
    ensures BlueProduction(s) <= 0.0 ==> PrestigeState(s).lastBlueSquareProduction == s.lastBlueSquareProduction
  {
  }

  /** A blue run of `n` squares is worth at least `n`, so prestige from tier 0 records at least the squares filled. */
  lemma BlueProductionAtLeastSquares(s: GameState)
    requires BonusesOk(s.layer.rowBonuses) && s.prestigeLevel == 0
    ensures BlueProduction(s) >= s.layer.totalSquares as real
  {
    BonusesOkFromSlot(s.layer.rowBonuses);
    TotalMultiplierAtLeastOne(s.layer.rowBonuses);
    AtLeastOneTimes(s.layer.totalSquares as real, TotalMultiplier(s.layer.rowBonuses));
  }

  /** The production `prestige` records is never negative. */
  lemma PrestigeKeepsBalances(s: GameState)
    requires BalancesOk(s) && BonusesOk(s.layer.rowBonuses)
    ensures BalancesOk(PrestigeState(s)) && LayerOk(PrestigeState(s).layer)
  {
    if s.prestigeLevel == 0 {
      BlueProductionAtLeastSquares(s);
    }
  }

  /** The income of a tick and the unlock scan keep the invariant. */
  lemma AccrueKeepsInv(s: GameState, now: int)
    requires Inv(s) && s.lastUpdate <= now
    ensures Inv(Accrue(s, now).(unlockedUpgrades := TickUnlocks(s)))
  {
    ManaGainedNonNegative(s, now);
    PassiveGainNonNegative(s, now);
    UnlockedNoDuplicates(s.unlockedUpgrades, UPGRADES, s.currency, s.prestigeCurrencies);
  }

  /** A tick on a grid still filling keeps the invariant, whether the grid completes or not. */
  lemma FillOutcomeKeepsInv(s: GameState, now: int, rolls: nat -> real)
    requires Inv(s) && s.prestigeLevel <= 1 && s.lastUpdate <= now
    ensures Inv(FillOutcome(s, now, rolls).state)
  {
    var a := TickAdvance(s, now);
    FillOutcomeCases(s, now, rolls);
    ManaGainedNonNegative(s, now);
    PassiveGainNonNegative(s, now);
    if a.cursor < TOTAL_SQUARES {
      UnlockedNoDuplicates(s.unlockedUpgrades, UPGRADES, s.currency, s.prestigeCurrencies);
      FilledLayerOk(s.layer, a, s.isProcessingOffline, rolls);
    } else {
      PrestigeKeepsBalances(s);
    }
  }

  /** A tick keeps the store's invariant when the clock does not run backwards. */
  lemma TickKeepsInv(s: GameState, now: int, rolls: nat -> real)
    requires Inv(s) && TickReady(s) && s.lastUpdate <= now
    ensures Inv(TickState(s, now, rolls).state)
  {
    if !s.isPaused {
      if s.layer.currentSquareIndex < TOTAL_SQUARES {
        FillOutcomeKeepsInv(s, now, rolls);
      } else {
        AccrueKeepsInv(s, now);
      }
    }
  }

  // ---- spinSlotForRow ----

  /** A spin touches only the bonuses of its row, each stopping on the multiplier drawn; nothing else changes. */
  lemma SpinChangesOnlyItsRow(s: GameState, row: nat, m: real)
    ensures var o := SpinState(s, row, m);
            o.(layer := s.layer) == s && o.layer.(rowBonuses := s.layer.rowBonuses) == s.layer
            && |o.layer.rowBonuses| == |s.layer.rowBonuses|
            && (forall i :: 0 <= i < |s.layer.rowBonuses| && s.layer.rowBonuses[i].row != row ==>
                  o.layer.rowBonuses[i] == s.layer.rowBonuses[i])
            && (forall i :: 0 <= i < |s.layer.rowBonuses| && s.layer.rowBonuses[i].row == row ==>
                  o.layer.rowBonuses[i] == RowBonus(row, Some(m), false))
  {
    SpinRowChanges(s.layer.rowBonuses, row, m);
  }

  /** A spin that fires after its row's bonus is gone (the grid collected or prestiged) changes nothing. */
  lemma LateSpinIsHarmless(s: GameState, row: nat, m: real)
    requires LayerOk(s.layer) && row >= |s.layer.rowBonuses|
    ensures SpinState(s, row, m) == s
  {
    SpinAbsentRow(s.layer.rowBonuses, row, m);
  }

  /** Resolving a spinning row multiplies the layer's bonus product by the multiplier drawn. */
  lemma SpinMultipliesTotal(s: GameState, row: nat, m: real)
    requires BonusesOk(s.layer.rowBonuses) && row < |s.layer.rowBonuses| && s.layer.rowBonuses[row].isSpinning
    ensures TotalMultiplier(SpinState(s, row, m).layer.rowBonuses) == Times(TotalMultiplier(s.layer.rowBonuses), m)
  {
    var b := s.layer.rowBonuses;
    assert RowsIndexed(b) && b[row].multiplier.None? by {
      assert BonusOk(b[row]);
    }
    SpinRowMultiplies(b, row, m);
  }

  /** Stopping on a multiplier of the slot table (as every draw does) keeps the invariant. */
  lemma SpinKeepsInv(s: GameState, row: nat, roll: real)
    requires Inv(s)
    ensures Inv(SpinState(s, row, SlotDraw(roll)))
  {
    var l, m := s.layer, SlotDraw(roll);
    assert m in SlotMultipliers() by { SlotDrawInTable(roll); }
    SpinRowKeepsOk(l.rowBonuses, row, m);
    var nb := SpinRow(l.rowBonuses, row, m);
    assert l.(rowBonuses := nb) == CanonicalLayer(l.currentSquareIndex, l.currentSquareFillProgress, nb);
  }

  // ---- collect ----

  /** What `collect` pays: at least one per square, and the live bonus product when nothing spins. */
  lemma CollectPayoutBounds(l: LayerState, rolls: nat -> real)
    requires BonusesOk(l.rowBonuses)
    ensures CollectPayout(l, rolls) >= l.totalSquares as real
    ensures SpinningCount(l.rowBonuses) == 0 ==>
              CollectPayout(l, rolls) == GridValue(l)
  {
    CollectMultiplierAtLeastOne(l.rowBonuses, rolls);
    AtLeastOneTimes(l.totalSquares as real, CollectMultiplier(l.rowBonuses, rolls));
  }

  /**
   * Collecting a blue grid adds the payout to the blue balance and records it for
   * passive income; the grid restarts empty and tier, mana, spells, upgrades and pink
   * squares stay.
   */
  lemma CollectAtTierZero(s: GameState, now: int, rolls: nat -> real)
    requires s.prestigeLevel == 0
    ensures var o, pay := CollectState(s, now, rolls), CollectPayout(s.layer, rolls);
            o.currency == s.currency + pay && o.lastBlueSquareProduction == pay
            && o.layer == EmptyLayer() && LayerOk(o.layer) && o.hasCollected && o.lastUpdate == now
            && o.(currency := s.currency, lastBlueSquareProduction := s.lastBlueSquareProduction, layer := s.layer,
                  hasCollected := s.hasCollected, lastUpdate := s.lastUpdate) == s
  {
  }

  /**
   * Collecting at tier `n >= 1` pays into prestige currency `n - 1` (pink squares, at
   * tier 1, times `2 ^ pink_multiplier level`), leaves the other currencies, and sends
   * the run back to tier 0 with no blue squares, no upgrades and no recorded production.
   */
  lemma CollectAtHigherTier(s: GameState, now: int, rolls: nat -> real)
    requires s.prestigeLevel >= 1
    ensures var o, pay, index := CollectState(s, now, rolls), CollectPayout(s.layer, rolls), s.prestigeLevel - 1;
            Slot(o.prestigeCurrencies, index)
              == Slot(s.prestigeCurrencies, index)
                 + Times(pay, if index == 0 then Pow(2.0, UpgradeLevel(s.upgrades, "pink_multiplier")) else 1.0)
            && (forall j: nat :: j != index ==> Slot(o.prestigeCurrencies, j) == Slot(s.prestigeCurrencies, j))
            && o.prestigeLevel == 0 && o.currency == 0.0 && o.upgrades == [] && o.lastBlueSquareProduction == 0.0
            && o.skillsUnlocked == (index == 0 || s.skillsUnlocked)
            && o.layer == EmptyLayer() && o.hasCollected && o.lastUpdate == now
            && o.mana == s.mana && o.spells == s.spells && o.skills == s.skills && o.unlockedUpgrades == s.unlockedUpgrades
  {
    PinkMultiplierClosedForm(s.upgrades);
  }

  /** Collecting pays a non-negative amount, so no balance goes negative. */
  lemma CollectKeepsBalances(s: GameState, now: int, rolls: nat -> real)
    requires BalancesOk(s) && BonusesOk(s.layer.rowBonuses)
    ensures BalancesOk(CollectState(s, now, rolls))
  {
    var pay := CollectPayout(s.layer, rolls);
    assert pay >= 0.0 by { CollectPayoutBounds(s.layer, rolls); }
    if s.prestigeLevel >= 1 {
      var index := s.prestigeLevel - 1;
      var amount := TierReward(index, s.upgrades, pay);
      assert amount >= 0.0 by {
        PinkMultiplierClosedForm(s.upgrades);
        ProductSign(pay, PinkMultiplier(s.upgrades));
      }
      var r := AddToSlot(s.prestigeCurrencies, index, amount);
      assert CollectState(s, now, rolls).prestigeCurrencies == r;
      forall i | 0 <= i < |r| ensures r[i] >= 0.0 {
        assert r[i] == Slot(r, i);
      }
    }
  }

  lemma CollectKeepsInv(s: GameState, now: int, rolls: nat -> real)
    requires Inv(s)
    ensures Inv(CollectState(s, now, rolls))
  {
    CollectKeepsBalances(s, now, rolls);
  }

  // ---- purchaseUpgrade ----

  /** The level list after setting `id` to `level`: the id reads `level`, or 1 when it was new; other ids are unchanged. */
  lemma WithUpgradeLevelReads(upgrades: seq<UpgradeState>, id: string, level: nat, other: string)
    ensures UpgradeLevel(WithUpgradeLevel(upgrades, id, level), other)
         == if other != id then UpgradeLevel(upgrades, other)
            else if UpgradeIndex(upgrades, id).Some? then level else 1
  {
    var r := WithUpgradeLevel(upgrades, id, level);
    match UpgradeIndex(upgrades, id)
    case Some(k) =>
      if other == id {
        UpgradeLevelIsFirstMatch(r, id, k);
      } else if UpgradeIndex(upgrades, other).Some? {
        UpgradeLevelIsFirstMatch(r, other, UpgradeIndex(upgrades, other).value);
      } else {
        assert forall j :: 0 <= j < |r| ==> r[j].id != other;
      }
    case None =>
      if other == id {
        UpgradeLevelIsFirstMatch(r, id, |upgrades|);
      } else if UpgradeIndex(upgrades, other).Some? {
        UpgradeLevelIsFirstMatch(r, other, UpgradeIndex(upgrades, other).value);
      } else {
        assert forall j :: 0 <= j < |r| ==> r[j].id != other;
      }
  }

  /**
   * A purchase that goes through pays the floored cost of the current level, never
   * below zero, and changes nothing but the blue balance and the upgrade list.
   */
  lemma PurchaseUpgradeEffect(s: GameState, id: string)
    requires CanPurchaseUpgrade(s, id)
    ensures var o, level := PurchaseUpgradeState(s, id), UpgradeLevel(s.upgrades, id);
            o.currency == s.currency - GetUpgradeCost(FindUpgrade(UPGRADES, id).value, level) as real
            && o.currency >= 0.0
            && o.(currency := s.currency, upgrades := s.upgrades) == s
  {
  }

  /** The bought upgrade goes up one level; every other upgrade keeps its level. */
  lemma PurchaseUpgradeLevels(s: GameState, id: string, other: string)
    requires CanPurchaseUpgrade(s, id) && other != id
    ensures var o, level := PurchaseUpgradeState(s, id), UpgradeLevel(s.upgrades, id);
            UpgradeLevel(o.upgrades, id) == level + 1
            && UpgradeLevel(o.upgrades, other) == UpgradeLevel(s.upgrades, other)
  {
    var level := UpgradeLevel(s.upgrades, id);
    var after := WithUpgradeLevel(s.upgrades, id, level + 1);
    assert PurchaseUpgradeState(s, id).upgrades == after;
    assert UpgradeLevel(after, id) == level + 1 by {
      WithUpgradeLevelReads(s.upgrades, id, level + 1, id);
    }
    assert UpgradeLevel(after, other) == UpgradeLevel(s.upgrades, other) by {
      WithUpgradeLevelReads(s.upgrades, id, level + 1, other);
    }
  }

  /** The purchase changes the state exactly when its guards hold: a known id, enough blue squares, below the cap. */
  lemma PurchaseUpgradeChangesIff(s: GameState, id: string)
    ensures PurchaseUpgradeState(s, id) != s <==> CanPurchaseUpgrade(s, id)
  {
    if CanPurchaseUpgrade(s, id) {
      var level := UpgradeLevel(s.upgrades, id);
      WithUpgradeLevelReads(s.upgrades, id, level + 1, id);
      assert UpgradeLevel(PurchaseUpgradeState(s, id).upgrades, id) != level;
    }
  }

  lemma PurchaseUpgradeKeepsInv(s: GameState, id: string)
    requires Inv(s)
    ensures Inv(PurchaseUpgradeState(s, id))
  {
    if CanPurchaseUpgrade(s, id) {
      var o := PurchaseUpgradeState(s, id);
      var level := UpgradeLevel(s.upgrades, id);
      forall j | 0 <= j < |UPGRADES| && HasMaxLevel(UPGRADES[j])
        ensures UpgradeLevel(o.upgrades, UPGRADES[j].id) <= UPGRADES[j].maxLevel.value
      {
        WithUpgradeLevelReads(s.upgrades, id, level + 1, UPGRADES[j].id);
      }
    }
  }

  // ---- castSpell ----

  /** The spell list after a cast: one more cast of that spell, the others' counts unchanged. */
  lemma WithCastCounts(spells: seq<SpellState>, c: SpellConfig, now: int, other: string)
    ensures SpellTimesCast(WithCast(spells, c, now), other)
         == if other == c.id then SpellTimesCast(spells, other) + 1 else SpellTimesCast(spells, other)
  {
    var r := WithCast(spells, c, now);
    var k := if SpellIndex(spells, c.id).Some? then SpellIndex(spells, c.id).value else |spells|;
    assert k < |r| && r[k].id == c.id && forall j :: 0 <= j < k ==> r[j].id != c.id;
    if other != c.id {
      assert forall j :: 0 <= j < |r| ==> (r[j].id == other <==> j < |spells| && spells[j].id == other);
      assert forall j :: 0 <= j < |spells| ==> r[j] == spells[j] || j == k;
    }
  }

  /** The end time the cast leaves on the entry of `other`, read as `isSpellActive` reads it. */
  lemma WithCastActivity(spells: seq<SpellState>, c: SpellConfig, now: int, other: string, t: int)
    ensures IsSpellActive(WithCast(spells, c, now), other, t)
         == if other == c.id && Timed(c) then t < now + c.duration.value && now + c.duration.value != 0
            else IsSpellActive(spells, other, t)
  {
    var r := WithCast(spells, c, now);
    var k := if SpellIndex(spells, c.id).Some? then SpellIndex(spells, c.id).value else |spells|;
    assert k < |r| && r[k].id == c.id && forall j :: 0 <= j < k ==> r[j].id != c.id;
    if other != c.id {
      assert forall j :: 0 <= j < |r| ==> (r[j].id == other <==> j < |spells| && spells[j].id == other);
      assert forall j :: 0 <= j < |spells| ==> r[j] == spells[j] || j == k;
    }
  }

  /**
   * A cast that goes through pays the floored current cost in mana and counts one more
   * cast of that spell; `magical_collect` also pays the grid's live worth in blue
   * squares without touching the grid. Nothing else changes.
   */
  lemma CastSpellEffect(s: GameState, id: string, now: int, other: string)
    requires CanCastSpell(s, id) && other != id
    ensures var o, c := CastSpellState(s, id, now), FindSpell(SPELLS, id).value;
            o.mana == s.mana - GetSpellCost(c, SpellTimesCast(s.spells, id)) as real && o.mana >= 0.0
            && SpellTimesCast(o.spells, id) == SpellTimesCast(s.spells, id) + 1
            && SpellTimesCast(o.spells, other) == SpellTimesCast(s.spells, other)
            && o.currency == s.currency + (if id == "magical_collect" then GridValue(s.layer) else 0.0)
            && o.(mana := s.mana, spells := s.spells, currency := s.currency) == s
  {
    var c := FindSpell(SPELLS, id).value;
    WithCastCounts(s.spells, c, now, id);
    WithCastCounts(s.spells, c, now, other);
  }

  /** A haste cast at `now` makes haste active exactly on `[now, now + 30000)` (and before, until the next cast). */
  lemma HasteLastsThirtySeconds(s: GameState, now: int, t: int)
    requires CanCastSpell(s, "haste") && now >= 0
    ensures IsSpellActive(CastSpellState(s, "haste", now).spells, "haste", t) <==> t < now + 30000
  {
    SpellTable();
    WithCastActivity(s.spells, HASTE, now, "haste", t);
  }

  /** Only haste is timed: casting anything else leaves every spell's activity as it was. */
  lemma UntimedCastKeepsActivity(s: GameState, id: string, now: int, other: string, t: int)
    requires id != "haste"
    ensures IsSpellActive(CastSpellState(s, id, now).spells, other, t) == IsSpellActive(s.spells, other, t)
  {
    if CanCastSpell(s, id) {
      SpellTable();
      var c := FindSpell(SPELLS, id).value;
      assert !Timed(c);
      WithCastActivity(s.spells, c, now, other, t);
    }
  }

  lemma CastSpellKeepsInv(s: GameState, id: string, now: int)
    requires Inv(s)
    ensures Inv(CastSpellState(s, id, now))
  {
    if CanCastSpell(s, id) && id == "magical_collect" {
      assert GridValue(s.layer) >= 0.0 by {
        BonusesOkFromSlot(s.layer.rowBonuses);
        TotalMultiplierAtLeastOne(s.layer.rowBonuses);
        ProductSign(s.layer.totalSquares as real, TotalMultiplier(s.layer.rowBonuses));
      }
    }
  }

  // ---- purchaseSkill ----

  /**
   * A skill purchase that goes through pays its cost in pink squares (slot 0, the other
   * currencies untouched) and owns the skill afterwards; other skills stay owned or not.
   */
  lemma PurchaseSkillEffect(s: GameState, id: string, other: string)
    requires CanPurchaseSkill(s, id) && Multipliers.SkillIdsDistinct(s.skills) && other != id
    ensures var o := PurchaseSkillState(s, id);
            Slot(o.prestigeCurrencies, 0) == Slot(s.prestigeCurrencies, 0) - FindSkill(SKILLS, id).value.cost
            && Slot(o.prestigeCurrencies, 0) >= 0.0
            && (forall j: nat :: j != 0 ==> Slot(o.prestigeCurrencies, j) == Slot(s.prestigeCurrencies, j))
            && HasSkill(o.skills, id) && (HasSkill(o.skills, other) <==> HasSkill(s.skills, other))
            && Multipliers.SkillIdsDistinct(o.skills)
            && o.(prestigeCurrencies := s.prestigeCurrencies, skills := s.skills) == s
  {
    BuySkillOwns(s.skills, id);
    BuySkillKeepsOthers(s.skills, id, other);
  }

  /** Buying a skill multiplies each effect's product by that skill's own factor, as if it were appended. */
  lemma PurchaseSkillMultiplies(s: GameState, id: string, kind: SkillEffectKind)
    requires CanPurchaseSkill(s, id) && Multipliers.SkillIdsDistinct(s.skills)
    ensures SkillProduct(SKILLS, PurchaseSkillState(s, id).skills, kind)
         == Times(SkillProduct(SKILLS, s.skills, kind), SkillFactor(SKILLS, SkillState(id, true), kind))
    ensures PassiveRate(SKILLS, PurchaseSkillState(s, id).skills)
         == PassiveRate(SKILLS, s.skills) + PassiveTerm(SKILLS, SkillState(id, true))
  {
    BuySkillMultiplies(SKILLS, s.skills, id, kind);
    BuySkillAddsRate(SKILLS, s.skills, id);
  }

  lemma PurchaseSkillKeepsInv(s: GameState, id: string)
    requires Inv(s)
    ensures Inv(PurchaseSkillState(s, id))
  {
    if CanPurchaseSkill(s, id) {
      var o := PurchaseSkillState(s, id);
      BuySkillOwns(s.skills, id);
      var r := o.prestigeCurrencies;
      forall i | 0 <= i < |r| ensures r[i] >= 0.0 {
        assert r[i] == Slot(r, i);
      }
    }
  }

  // ---- reset, the transition and the tabs ----

  /** `reset` starts a fresh run, keeping only the pause, offline and debug flags. */
  lemma ResetStartsOver(s: GameState, now: int)
    requires s.debugSpeedMultiplier > 0.0
    ensures var o := ResetState(s, now);
            Inv(o) && o.layer == EmptyLayer() && o.currency == 0.0 && o.mana == 0.0 && o.prestigeCurrencies == []
            && o.upgrades == [] && o.skills == [] && o.spells == [] && o.unlockedUpgrades == [] && o.prestigeLevel == 0
            && o.isPaused == s.isPaused && o.isProcessingOffline == s.isProcessingOffline
            && o.debugSpeedMultiplier == s.debugSpeedMultiplier && o.debugDisableSlowdown == s.debugDisableSlowdown
  {
  }

  /** The end of the transition resumes the loop; with it, the tab switch and spins, every action keeps the invariant. */
  lemma SmallActionsKeepInv(s: GameState, tab: Tab)
    requires Inv(s)
    ensures Inv(UnpauseState(s)) && !UnpauseState(s).isPaused && UnpauseState(s).previousCompletedLayer.None?
    ensures Inv(s.(currentTab := tab))
    ensures s.layer.currentSquareIndex < TOTAL_SQUARES ==> (TickReady(UnpauseState(s)) <==> s.prestigeLevel <= 1)
  {
  }

  // ---- Starting the store and reloading ----

  /** Without a save the store starts as `reset` leaves it, with the transient flags at their defaults. */
  lemma FreshStoreIsReset(s: GameState, now: int)
    ensures InitialState(None, now) == ResetState(TransientReset(s), now)
    ensures Inv(InitialState(None, now)) && TickReady(InitialState(None, now))
  {
  }

  /**
   * A save without refundable skills reloads as the store that wrote it, but for the
   * transient fields, which start over; the clock is the saved one, not the load time.
   */
  lemma ReloadRoundTrip(s: GameState, saveTime: int, now: int)
    requires forall i :: 0 <= i < |s.skills| ==> !Refundable(s.skills[i])
    ensures Reloaded(s, saveTime, now) == TransientReset(s)
  {
    SaveLoadRoundTrip(SnapshotOf(s), saveTime);
  }

  /**
   * Once any skill of the table is purchased, every reload pays back the skills' costs
   * in pink squares and forgets the skills: the old cost table lists the current ids.
   */
  lemma ReloadRefunds(s: GameState, saveTime: int, now: int, i: nat)
    requires i < |s.skills| && s.skills[i].purchased && FindSkill(SKILLS, s.skills[i].id).Some?
    ensures var r := Reloaded(s, saveTime, now);
            Refund(s.skills) > 0.0 && r.skills == []
            && Slot(r.prestigeCurrencies, 0) == Slot(s.prestigeCurrencies, 0) + Refund(s.skills)
            && (forall j: nat :: j != 0 ==> Slot(r.prestigeCurrencies, j) == Slot(s.prestigeCurrencies, j))
            && r == TransientReset(s).(skills := [], prestigeCurrencies := r.prestigeCurrencies)
  {
    PurchasedSkillIsRefunded(s.skills, i);
    MigrationRefunds(SaveRecord(SnapshotOf(s), saveTime).fields);
  }

  /** Reloading keeps the invariant, refund or not. */
  lemma ReloadKeepsInv(s: GameState, saveTime: int, now: int)
    requires Inv(s)
    ensures Inv(Reloaded(s, saveTime, now))
  {
    var d := SaveRecord(SnapshotOf(s), saveTime).fields;
    MigrationRefunds(d);
    var r := Reloaded(s, saveTime, now);
    if Refund(s.skills) > 0.0 {
      forall j | 0 <= j < |r.prestigeCurrencies|
        ensures r.prestigeCurrencies[j] >= 0.0
      {
        assert Slot(r.prestigeCurrencies, j) == r.prestigeCurrencies[j];
      }
    } else {
      assert r.prestigeCurrencies == s.prestigeCurrencies && r.skills == s.skills;
    }
  }
}
