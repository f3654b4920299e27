/**
 * `prepareSaveData` (src/utils/saveData.ts): the persisted fields of a state, shared
 * by export and import, without the timestamp `saveGameState` adds.
 */
module SaveData {
  import opened GameTypes
  import opened Storage

  /** `prepareSaveData(state)`. */
  function PrepareSaveData(state: Snapshot): SaveFields
  {
    SaveFields(state.layer, state.prestigeLevel, state.currency, state.mana, state.upgrades,
               state.unlockedUpgrades, state.hasCollected, state.spells, state.lastUpdate,
               state.prestigeCurrencies, state.currentTab, state.skillsUnlocked, state.hasWon,
               state.lastBlueSquareProduction, state.skills, state.combosUnlocked, state.comboPoints,
               state.comboSquares, state.currentComboSquareIndex, state.currentComboSquareFillProgress,
               state.comboResultDisplay)
  }

  /** The state a set of persisted fields describes, with every transient field absent. */
  function AsSnapshot(f: SaveFields): Snapshot
  {
    Snapshot(f.layer, f.prestigeLevel, None, f.currency, f.mana, f.hasCollected, f.upgrades,
             f.unlockedUpgrades, f.spells, f.lastUpdate, None, None, None, None, None,
             f.prestigeCurrencies, f.currentTab, f.skillsUnlocked, f.lastBlueSquareProduction, f.skills,
             f.hasWon, f.combosUnlocked, f.comboPoints, f.comboSquares, f.currentComboSquareIndex,
             f.currentComboSquareFillProgress, f.comboResultDisplay)
  }

  /** `state` with the six fields that are not saved dropped. */
  function WithoutTransient(state: Snapshot): Snapshot
  {
    state.(previousCompletedLayer := None, fillTime := None, isProcessingOffline := None,
           isPaused := None, debugSpeedMultiplier := None, debugDisableSlowdown := None)
  }

  /** Autosave and export write the same fields; autosave alone adds the clock and never a legacy `layers`. */
  lemma AutosaveIsPreparedData(state: Snapshot, now: int)
    ensures SaveRecord(state, now) == SaveFile(PrepareSaveData(state), Some(now), false)
  {
  }

  /** Exactly the transient fields are left out: two states save alike iff they agree once those are dropped. */
  lemma SavedAlikeIff(s: Snapshot, t: Snapshot)
    ensures PrepareSaveData(s) == PrepareSaveData(t) <==> WithoutTransient(s) == WithoutTransient(t)
  {
  }

  /** Preparing loses nothing but the transient fields, and preparing again changes nothing. */
  lemma PrepareRoundTrip(state: Snapshot, f: SaveFields)
    ensures AsSnapshot(PrepareSaveData(state)) == WithoutTransient(state)
    ensures PrepareSaveData(AsSnapshot(f)) == f
  {
  }
}
