# squares: a verified model of the game engine

This project models the engine of *squares*, an incremental game. A 12×12 grid of squares
fills one square at a time, each square slower than the last. Completing a row starts a
slot machine that draws a multiplier for it. Completing the whole grid *prestiges*: the
player moves to the next tier ("pink squares") and starts a fresh grid with one square
already filled. Collecting pays out the filled squares times the row multipliers and starts
over. Next to the grid the player buys upgrades with blue squares, casts spells with mana,
and buys skills with pink squares.

The model covers these parts of the game:
- the store (`src/stores/gameStore.ts`) with the static tables it reads;
- the pure helpers (slot draw, upgrade folds, combo-hand classifier and payout, colours);
- the save format: what `saveGameState` writes and `loadGameState` migrates and defaults;
- the game loop that works off offline time in bursts of ticks.

Modules follow the source files:

| module | source |
|---|---|
| `GameTypes` | `src/types/game.ts`: records, `SLOT_OPTIONS`, grid and time constants, `LAYER_CONFIGS` |
| `Numbers` | `Math.pow`, `Math.round` and a named product `Times` |
| `UpgradesConfig`, `SpellsConfig`, `SkillsConfig` | `src/config/*.ts`: the tables, `getUpgradeCost`, `getSpellCost` |
| `SlotRandom` | `src/utils/random.ts` |
| `UpgradeUtils` | `src/utils/upgrades.ts` |
| `Colors` | `src/utils/colors.ts` |
| `ComboHands` | `src/utils/combos.ts` |
| `ComboPayout` | `getModifiedPayout` in `src/components/Combos.tsx` |
| `Grid` | the layer of `gameStore.ts`: its shape, the fill time, the fill loop of `tick` |
| `RowBonuses` | the row bonuses: product, spin, force-roll at collect |
| `Multipliers` | the lookups and getters of the store, as functions of its fields |
| `GameStore` | `class Game`, the store, with one method per action; one specification function per action |
| `StoreLaws` | what the actions promise, proved about those functions |
| `Storage`, `SaveData` | `src/utils/storage.ts`, `src/utils/saveData.ts` |
| `GameLoop` | `src/hooks/useGameLoop.ts`: `class Loop` with the offline reference and the interval callback |

Conventions:
- The clock is a parameter `now`.
- `Math.random` is a stream `rolls: nat -> real`, and the k-th draw of an action is `rolls(k)`.
- The spin that `tick` schedules with `setTimeout` becomes the list of rows `Tick` returns. The
  environment later calls `SpinSlotForRow` for each of those rows.
- The unpause that the transition screen performs (`src/components/LayerTransition.tsx:35`) is the
  action `Unpause`.
- Numbers are exact reals.
- An absent slot of `prestigeCurrencies` reads as 0, as every read in the source does with `|| 0`.

`class Game` holds one field `state`, the store's `GameState` record. Every action replaces
it, as zustand's `set` replaces the store's state object. Each method is proved to leave
exactly the state a specification function gives (`TickState`, `CollectState`, ...). The
game's promises are proved about those functions: the layer invariant, bonus resolution,
monotone unlocks, capped levels, non-negative balances and the transaction rules.

Proved consequences worth knowing:
- **Every reload refunds every purchased skill.** `loadGameState` refunds skills according
  to an "old" cost table. That table lists exactly the current skills at their current
  costs (`OldCostsAreCurrentCosts`). So a page load of a save holding any purchased skill
  clears all skills and returns their price in pink squares (`StoreLaws.ReloadRefunds`).
  Without purchased skills the reload gives back the saved store
  (`StoreLaws.ReloadRoundTrip`).
- **An offline burst is worth one tick.** Every tick of a burst measures its time from the
  clock, and all ticks of one interval callback read the same clock. The first tick of a
  burst pays for the time since the previous tick and sets `lastUpdate` to now. The other
  ticks of that burst see no elapsed time and change nothing but the unlock list
  (`GameLoop.BurstIsOneTick`). So offline processing adds nothing to the time that really
  passes: the first interval pays for the absence, and each later interval pays only for the
  time since the one before. The "60× speed" only spreads the offline flag over
  ⌈absence/6000⌉ intervals (`GameLoop.DrainsExactly`).
- **Haste and time zero.** `isSpellActive` tests `activeUntil` for truthiness. An expiry of
  exactly 0 therefore reads as "not active" (`StoreLaws.WithCastActivity`).

Behaviours of the code that the model keeps as written:
- The slot draw's fallback is the first table entry (`src/utils/random.ts:16`).
- `prestige` does not force-resolve spinning bonuses and sets no "won" flag. Its blue
  production counts spinning bonuses as 1 (`src/stores/gameStore.ts:347-350`).
- `collect` at a higher tier keeps mana and spells and clears all upgrades
  (`src/stores/gameStore.ts:465-475`).
- `magical_collect` at any tier credits the live grid × multiplier to blue currency
  (`src/stores/gameStore.ts:609-619`).
- A tick stops filling once the cursor reaches 144 (`src/stores/gameStore.ts:187`).

## Model

Only members with a contract have a row. Definitions without one, such as `GetModifiedPayout`,
`CalculateComboType`, `GetSquareColor`, `SlotDraw`, `GetSquareFillTime`, `TotalMultiplier`,
`GetUpgradeCost`, `Load` and the action specifications `TickState`, `CollectState` and the
others, are documented by the rows of the lemmas that cite their source lines.

| member | source | states |
|---|---|---|
| GameTypes.SetSlot | src/stores/gameStore.ts:460 | writing slot i of the prestige currencies sets that slot and leaves every other slot (absent ones reading 0) unchanged; the list grows to i+1 only when i is past its end |
| GameTypes.GridIsTwelveByTwelve | src/types/game.ts:89-90 | `TOTAL_SQUARES = GRID_SIZE² = 144` |
| GameTypes.TimeConstantsPositive | src/types/game.ts:91-93 | fill time 1000, spin 300, layer multiplier 200, all positive |
| GameTypes.SlotOptionsAreADistribution | src/types/game.ts:79-86 | six options, each probability positive, summing exactly to 1 |
| GameTypes.SlotMultipliersAscending | src/types/game.ts:79-86 | multipliers strictly increase in table order, all ≥ 1.5; the set is {1.5, 2, 3, 4, 5, 10} |
| GameTypes.LayerConfigsIndexed | src/types/game.ts:104-108 | three layer configs, entry i has layer i |
| Numbers.Round | src/utils/colors.ts:27-29 | `Math.round`: the integer within half a unit of x, halves going up |
| Numbers.PowPositive | src/config/upgrades.ts:14 | a power of a positive base is positive |
| Numbers.PowAtLeastOne | src/config/upgrades.ts:59 | a power of a base ≥ 1 is ≥ 1 |
| Numbers.PowMonotone | src/config/upgrades.ts:135-137 | powers of a base ≥ 1 do not decrease in the exponent |
| Numbers.PowStrictlyIncreasing | src/stores/gameStore.ts:48 | powers of a base > 1 strictly increase in the exponent |
| UpgradesConfig.FindUpgrade | src/stores/gameStore.ts:482 | `UPGRADES.find`: a result is a table entry with that id; none exactly when no entry has the id |
| UpgradesConfig.UpgradeIds | src/config/upgrades.ts:4-66 | the blue table is `fill_faster`, `mana_gem`, `pink_multiplier`, and `find` returns each |
| UpgradesConfig.StartingCosts | src/config/upgrades.ts:135-137 | level-0 costs are 5, 2000 and 1000000 |
| UpgradesConfig.CostNonDecreasing | src/config/upgrades.ts:135-137 | for every entry of both tables the floor cost does not decrease with the level |
| UpgradesConfig.PassiveGenerationCostsOne | src/config/upgrades.ts:74-75 | `passive_generation` costs 1 at every level |
| UpgradesConfig.BlueEffects | src/config/upgrades.ts:12-60 | effects are 1.2^L, 0.1·L and 2^L, giving 1, 0 and 1 at level 0 |
| UpgradesConfig.MaxLevels | src/config/upgrades.ts:11-50 | caps 25, 50 and 5, every blue entry capped and positive |
| UpgradesConfig.UnlockRequirements | src/config/upgrades.ts:30-56 | `fill_faster` has none, `mana_gem` needs 2000 blue, `pink_multiplier` needs 1 in prestige slot 0 |
| UpgradesConfig.TabulatedEffectsOutsideRange | src/config/upgrades.ts:101-127 | the `mana_boost` and `fill_rate` tables give 0 beyond level 5 |
| SpellsConfig.FindSpell | src/stores/gameStore.ts:579 | `SPELLS.find`: a result is a table entry with that id; none exactly when no entry has the id |
| SpellsConfig.SpellCostClosedForm | src/config/spells.ts:40-42 | the floor cost is the base cost times 2^timesCast |
| SpellsConfig.SpellCostsDouble | src/config/spells.ts:9-42 | costs are positive, double with each cast, strictly increase, and start at 20, 50 and 100 |
| SpellsConfig.SpellTable | src/config/spells.ts:3-38 | only `haste` has a duration (30000 ms); ids are distinct and each is found |
| SkillsConfig.FindSkillMeaning | src/stores/gameStore.ts:660 | `SKILLS.find` returns the first entry with the id, and none exactly when no entry has it |
| SkillsConfig.SkillIdsDistinct | src/config/skills.ts:3-90 | no two skills share an id |
| SkillsConfig.SkillIdValues | src/config/skills.ts:6-80 | the seven skill ids |
| SkillsConfig.PrerequisitesComeEarlier | src/config/skills.ts:35-84 | every prerequisite names a skill listed before the one needing it, so the graph is acyclic |
| SkillsConfig.SkillTableFacts | src/config/skills.ts:3-90 | the three roots have no prerequisites; all costs are positive and pink; the only passive effect is 0.10 on `passive_generation` |
| SlotRandom.GetRandomSlotMultiplier | src/utils/random.ts:4-17 | the loop returns the first option whose running probability sum is ≥ r, else the first option |
| SlotRandom.SlotDrawIsBand | src/utils/random.ts:8-16 | the draw equals the band table: ≤0.30 → 1.5, ≤0.55 → 2, ≤0.75 → 3, ≤0.90 → 4, ≤0.97 → 5, ≤1 → 10, above → 1.5 |
| SlotRandom.CumulativeEndpoints | src/utils/random.ts:9 | the running sums are 0.30, 0.55, 0.75, 0.90, 0.97 and 1 |
| SlotRandom.OptionChosenOnItsBand | src/utils/random.ts:9-12 | option i is drawn exactly on its band (previous sum, own sum], whose width is its probability |
| SlotRandom.SlotDrawInTable | src/utils/random.ts:8-16 | the draw is always a table multiplier; r ≤ 0.30 gives 1.5, r in (0.97, 1] gives 10, r > 1 gives the first entry |
| SlotRandom.SlotDrawMonotone | src/utils/random.ts:8-13 | for r ≤ 1 the draw does not decrease in r |
| UpgradeUtils.ApplyUpgradeMultiplier | src/utils/upgrades.ts:7-19 | base unchanged at level ≤ 0 or for an unknown id, else base × effect(level) |
| UpgradeUtils.ApplyIsScaling | src/utils/upgrades.ts:13-18 | one application multiplies the base by the source's factor |
| UpgradeUtils.ApplyFirst | src/utils/upgrades.ts:32-36 | the fold applies the first source first |
| UpgradeUtils.ApplyMultipleIsProduct | src/utils/upgrades.ts:24-37 | the fold is base × the product of the sources' factors; no sources give the base |
| UpgradeUtils.UnpurchasedSourcesAreNeutral | src/utils/upgrades.ts:24-37 | sources all at level ≤ 0 leave the base unchanged |
| UpgradeUtils.ApplyMultipleConcat | src/utils/upgrades.ts:32-36 | folding a + b is folding b over the fold of a |
| Colors.HexDigit | src/utils/colors.ts:5 | a hex digit of either case, with its value below 16 |
| Colors.PairValue | src/utils/colors.ts:8-10 | two hex digits give a channel in 0..255 |
| Colors.HexToRgb | src/utils/colors.ts:4-13 | channels lie in 0..255; a string not matching `#?` and six hex digits gives (0,0,0) |
| Colors.HexRoundTrip | src/utils/colors.ts:4-13 | parsing the `#rrggbb` (or bare `rrggbb`) text of a colour gives that colour back |
| Colors.CaseInsensitive | src/utils/colors.ts:5 | a lower-case digit and its upper-case form have the same value |
| Colors.LayerConfigColors | src/types/game.ts:104-108 | the four gradient colours parse to their RGB values |
| Colors.LayerConfigFor | src/utils/colors.ts:18 | a layer index outside the table falls back to layer 0 |
| Colors.AlphaVariantSameChannels | src/utils/colors.ts:34-49 | the alpha variant has the same r, g, b as `getSquareColor` |
| Colors.UnknownLayerFallsBack | src/utils/colors.ts:36 | an unknown layer colours like layer 0 |
| Colors.InterpolateEndpoints | src/utils/colors.ts:27-29 | interpolation at progress 0 and 1 gives the start and the end |
| Colors.BlendEndpoints | src/utils/colors.ts:27-29 | the three channels together at progress 0 and 1 |
| Colors.GradientEndpoints | src/utils/colors.ts:16-32 | row 0 is exactly `colorFrom` and the last row exactly `colorTo` |
| Colors.InterpolateBetween | src/utils/colors.ts:27-29 | for progress in [0,1] a channel stays between start and end |
| Colors.ProgressInUnitInterval | src/utils/colors.ts:21 | `row / (totalRows - 1)` lies in [0,1] for rows on the grid |
| Colors.ChannelsBetweenEnds | src/utils/colors.ts:16-32 | for rows on the grid each channel lies between its start and end values, within 0..255 |
| ComboHands.FilledSquares | src/utils/combos.ts:8 | the filter keeps only filled squares |
| ComboHands.ArgMax | src/utils/combos.ts:19 | a colour of maximal count, among the candidates |
| ComboHands.MaxCountExcept | src/utils/combos.ts:19 | the largest count among the candidates other than one, attained or 0 |
| ComboHands.Classify | src/utils/combos.ts:22-28 | each hand exactly on its count pattern: five, four, 3&2, three, 2&2, pair, else nothing |
| ComboHands.TopCountUnique | src/utils/combos.ts:19 | the largest multiplicity is unique |
| ComboHands.SecondCountUnique | src/utils/combos.ts:19 | the second entry of the sorted counts is unique |
| ComboHands.TopIsTopCount | src/utils/combos.ts:14-19 | the computed first count is the largest multiplicity of the colour multiset |
| ComboHands.SecondIsSecondCount | src/utils/combos.ts:14-19 | the computed second count is the second entry of the descending sort of multiplicities |
| ComboHands.NullExactlyWithoutColours | src/utils/combos.ts:8-12 | null exactly when no filled square has a colour, in particular when none is filled |
| ComboHands.NoFilledNoColours | src/utils/combos.ts:8-11 | with no filled square there are no colours |
| ComboHands.SameColoursSameHand | src/utils/combos.ts:14-19 | the hand depends only on the multiset of filled colours |
| ComboHands.ColoursCount | src/utils/combos.ts:11 | a colour's count is the number of filled squares of that colour |
| ComboHands.PermutationInvariant | src/utils/combos.ts:14-19 | reordering the squares does not change the hand |
| ComboHands.UncountedSquareIgnored | src/utils/combos.ts:8-11 | inserting an unfilled or colourless square anywhere does not change the hand |
| ComboHands.ComboTypeMeaning | src/utils/combos.ts:14-28 | the hand is the classification of the largest and second-largest multiplicities |
| ComboHands.AllDistinctGiveNothing | src/utils/combos.ts:28 | all-distinct colours give `nothing` |
| ComboHands.FullHouseHasPattern | src/utils/combos.ts:24 | a full house has a colour 3 times, the rest at most twice, one of them twice |
| ComboHands.PatternIsFullHouse | src/utils/combos.ts:24 | that pattern gives a full house |
| ComboHands.FullHouseExactly | src/utils/combos.ts:24 | full house if and only if the pattern holds |
| ComboPayout.PayoutIsProductOfFactors | src/components/Combos.tsx:30-62 | the payout is ⌊base × more-points factor × lucky-blue factor × crazy-pink factor⌋ |
| ComboPayout.NoUpgradesGiveFloor | src/components/Combos.tsx:31-61 | with no combo upgrades the payout is ⌊base⌋ |
| ComboPayout.LuckyBlueDoublesPerBlue | src/components/Combos.tsx:46-51 | lucky blue alone gives ⌊base × 2^b⌋ for b filled blue squares |
| ComboPayout.CrazyPinkNeedsThree | src/components/Combos.tsx:54-59 | crazy pink alone multiplies by 100 exactly when 3 or more filled squares are pink |
| ComboPayout.MoreComboPointsFirst | src/components/Combos.tsx:34-40 | a positive more-points level scales the base by its effect before the other upgrades |
| ComboPayout.EffectNonNegative | src/components/Combos.tsx:38 | an effect with non-negative parameters is non-negative at every level |
| ComboPayout.PayoutNonNegative | src/components/Combos.tsx:61 | a non-negative base and effect give a non-negative integer payout |
| ComboPayout.UnfilledSquareIgnored | src/components/Combos.tsx:43 | inserting an unfilled square does not change the payout |
| Grid.LayerOkMeaning | src/types/game.ts:43-65 | in a well-formed layer the filled squares are exactly those before the cursor, totalSquares = cursor ≤ 144, squares sit in row-major order, completed rows = bonuses = cursor/12, row k owns bonus k |
| Grid.InitializeSquares | src/stores/gameStore.ts:11-30 | the nested loops build the 144 empty squares in row-major order, bottom row first |
| Grid.InitializeLayer | src/stores/gameStore.ts:33-42 | the initial layer is well formed, empty, with no bonuses |
| Grid.PrestigeLayer | src/stores/gameStore.ts:353-358 | the post-prestige layer is well formed with only square 0 filled (progress 1), cursor = total = 1, no bonuses |
| Grid.FillTimePositive | src/stores/gameStore.ts:45-56 | fill time is positive for a positive multiplier (and a positive previous time past tier 0) |
| Grid.FillTimeInverseToSpeed | src/stores/gameStore.ts:49-54 | fill time × multiplier is the base time: inversely proportional to speed |
| Grid.FillTimeIncreasing | src/stores/gameStore.ts:48-54 | with slowdown on, fill time strictly increases with the square index |
| Grid.FillTimeConstantWithoutSlowdown | src/stores/gameStore.ts:48-53 | with slowdown off, fill time is the same for every square |
| Grid.TierOneStartsAt200Times | src/stores/gameStore.ts:203-205 | tier-1 square 0 takes 200 × the tier-0 last-square time (at multiplier 1) over the multiplier; that time is 1000·1.1^143 or 1000 without slowdown |
| Grid.SquareTime | src/stores/gameStore.ts:221-227 | under the tick's parameters every square's fill time is positive |
| Grid.FillTimes | src/stores/gameStore.ts:221-227 | the table of the 144 fill times, each positive |
| Grid.PartialFillStaysBelowOne | src/stores/gameStore.ts:244-248 | a partial fill leaves progress in [old, 1) |
| Grid.Advance | src/stores/gameStore.ts:219-249 | the fill loop's end point: the cursor only moves forward, stays ≤ 144, progress stays in [0,1) |
| Grid.FillStepKeepsAdvance | src/stores/gameStore.ts:229-249 | one loop iteration keeps the end point the loop reaches |
| Grid.NewBonuses | src/stores/gameStore.ts:268-282 | one bonus per newly completed row |
| Grid.ScheduledRows | src/stores/gameStore.ts:284-287 | offline processing schedules no spin |
| Grid.RowCompleteIff | src/stores/gameStore.ts:252-256 | a row is complete exactly when the cursor is past its last square |
| Grid.MarkRowStep | src/stores/gameStore.ts:258-265 | marking the next row marks exactly one more row |
| Grid.FillCursorStep | src/stores/gameStore.ts:234-238 | filling the cursor square gives the layer with the cursor one further |
| Grid.SetProgressStep | src/stores/gameStore.ts:307-311 | writing the cursor's progress gives the layer with that progress |
| Grid.FillCursorSquare | src/stores/gameStore.ts:229-249 | the loop body either completes the cursor square or writes a partial progress, as one fill step |
| Grid.CheckCompletedRow | src/stores/gameStore.ts:251-289 | after a square completes, the row check marks the completed row once and appends its bonus and its spin |
| Grid.FillSquares | src/stores/gameStore.ts:207-323 | the fill loop reports grid completion exactly when the end point reaches 144, otherwise leaves the well-formed layer at that end point, and schedules one spin per new row when online |
| Grid.NewBonusesShape | src/stores/gameStore.ts:268-282 | new bonus k is for its row, null exactly while spinning, spinning exactly when online, and offline carries the draw |
| Grid.FilledLayerOk | src/stores/gameStore.ts:307-323 | the layer a tick writes is well formed and extends the old bonuses |
| Grid.FilledBonuses | src/stores/gameStore.ts:251-289 | a tick appends one bonus per completed row, resolved offline and spinning online, with a spin scheduled for each online |
| Grid.AdvanceMonotoneInTime | src/stores/gameStore.ts:219-249 | more time never fills fewer squares |
| Grid.AdvanceCompletes | src/stores/gameStore.ts:232-243 | enough time completes the cursor square and carries the rest over |
| Grid.AdvanceStopsInside | src/stores/gameStore.ts:244-248 | too little time only adds remaining/time to the progress |
| Grid.AdvanceSplitInside | src/stores/gameStore.ts:244-248 | a partial fill followed by more time ends where the sum of the times ends |
| Grid.AdvanceSplit | src/stores/gameStore.ts:216-249 | filling for r1 then r2 ends where filling for r1 + r2 ends |
| Grid.ScheduledRowsAreNewRows | src/stores/gameStore.ts:284-287 | online, the spins scheduled are exactly the new rows in order |
| RowBonuses.TotalMultiplierAppend | src/stores/gameStore.ts:393-398 | one more bonus multiplies the product by its multiplier, or by 1 while null |
| RowBonuses.NothingResolvedIsOne | src/stores/gameStore.ts:388-398 | with no resolved bonus the product is 1 |
| RowBonuses.TotalMultiplierAtLeastOne | src/stores/gameStore.ts:393-398 | slot multipliers make the product ≥ 1 |
| RowBonuses.BonusesOkFromSlot | src/types/game.ts:67-71 | well-formed bonuses carry slot multipliers only |
| RowBonuses.SpinRowChanges | src/stores/gameStore.ts:374-378 | bonuses of other rows are unchanged; bonuses of the row get the multiplier and stop spinning |
| RowBonuses.SpinAbsentRow | src/stores/gameStore.ts:374-378 | spinning a row without a bonus changes nothing |
| RowBonuses.SpinRowKeepsOk | src/stores/gameStore.ts:376 | a spin with a slot multiplier keeps the bonuses well formed (null exactly while spinning) |
| RowBonuses.SpinRowMultiplies | src/stores/gameStore.ts:374-398 | resolving a pending bonus multiplies the total by the drawn multiplier |
| RowBonuses.ForceRollIdentity | src/stores/gameStore.ts:412-434 | with nothing spinning, collect uses the live multiplier unchanged |
| RowBonuses.ForceRollSettles | src/stores/gameStore.ts:414-423 | after force-rolling nothing spins, every bonus is resolved, and settled bonuses are untouched |
| RowBonuses.CollectMultiplierAtLeastOne | src/stores/gameStore.ts:408-434 | the collect multiplier is ≥ 1 |
| Multipliers.UpgradeIndex | src/stores/gameStore.ts:496 | `findIndex`: an index holding the id, or none exactly when the id is absent |
| Multipliers.SpellIndex | src/stores/gameStore.ts:590 | `findIndex` on spells, likewise |
| Multipliers.SkillIndex | src/stores/gameStore.ts:665 | the first index holding the id, or none exactly when the id is absent |
| Multipliers.HasSkillIff | src/stores/gameStore.ts:699-703 | with distinct ids, `hasSkill` holds exactly when some entry for the id is purchased |
| Multipliers.UpgradeLevelIsFirstMatch | src/stores/gameStore.ts:515-519 | `getUpgradeLevel` is the level of the first entry with the id |
| Multipliers.SkillTableFactors | src/config/skills.ts:18-89 | every mana and fill-rate skill value is ≥ 1 |
| Multipliers.SkillFactorAtLeastOne | src/stores/gameStore.ts:532-539 | one skill's factor is ≥ 1 |
| Multipliers.SkillProductAtLeastOne | src/stores/gameStore.ts:532-539 | the compounded skill product is ≥ 1 |
| Multipliers.SkillProductAppend | src/stores/gameStore.ts:532-539 | the loop multiplies in one skill at a time |
| Multipliers.UnpurchasedSkillsAreNeutral | src/stores/gameStore.ts:533 | unpurchased skills contribute factor 1 and rate 0 |
| Multipliers.RemoveSkillMembers | src/stores/gameStore.ts:690 | the filter keeps exactly the entries with other ids |
| Multipliers.RemoveSkillDropsId | src/stores/gameStore.ts:690 | no entry with the id survives the filter |
| Multipliers.RemoveUnpurchasedKeepsProduct | src/stores/gameStore.ts:690 | dropping unpurchased entries keeps the skill product |
| Multipliers.RemoveUnpurchasedKeepsRate | src/stores/gameStore.ts:690 | dropping unpurchased entries keeps the passive rate |
| Multipliers.RemoveSkillKeepsDistinct | src/stores/gameStore.ts:690 | the filter keeps ids distinct |
| Multipliers.OwnedIsMember | src/stores/gameStore.ts:699-703 | with distinct ids, owning a skill is its purchased entry being in the list |
| Multipliers.BuySkillOwns | src/stores/gameStore.ts:685-691 | after the purchase the skill is owned and ids stay distinct |
| Multipliers.BuySkillKeepsOthers | src/stores/gameStore.ts:690-691 | ownership of every other skill is unchanged |
| Multipliers.PassiveRateAppend | src/stores/gameStore.ts:710-717 | the rate loop adds one skill's term at a time |
| Multipliers.UnpurchasedBuyMultiplies | src/stores/gameStore.ts:685-691 | buying a skill held only unpurchased multiplies the product by its factor |
| Multipliers.BuySkillMultiplies | src/stores/gameStore.ts:685-691 | buying an unowned skill multiplies the product by its factor |
| Multipliers.BuySkillAddsRate | src/stores/gameStore.ts:685-717 | buying an unowned skill adds its passive term to the rate |
| Multipliers.PassiveTermValue | src/stores/gameStore.ts:711-716 | only a purchased `passive_generation` contributes, and it contributes 0.1 |
| Multipliers.PassiveRateZero | src/stores/gameStore.ts:705-720 | without a purchased `passive_generation` the rate is 0 |
| Multipliers.PassiveRateValues | src/stores/gameStore.ts:705-720 | with distinct ids the rate is 0.1 when `passive_generation` is owned and 0 otherwise |
| Multipliers.FillSpeedClosedForm | src/stores/gameStore.ts:521-542 | fill speed is 1.2^level(fill_faster) × the purchased fill-rate skill values |
| Multipliers.FillFasterClosedForm | src/stores/gameStore.ts:522-528 | the upgrade part is 1.2^level, which is 1 at level 0 |
| Multipliers.StoreSkillProductAtLeastOne | src/stores/gameStore.ts:530-539 | on the skill table, mana and fill-rate products are ≥ 1 |
| Multipliers.FillSpeedAtLeastOne | src/stores/gameStore.ts:521-542 | fill speed is ≥ 1 |
| Multipliers.ManaPerSecondClosedForm | src/stores/gameStore.ts:544-566 | mana per second is 0.1 × level(mana_gem) × the purchased mana skill values |
| Multipliers.ManaPerSecondSign | src/stores/gameStore.ts:544-566 | mana per second is ≥ 0, and 0 exactly at mana_gem level 0 |
| Multipliers.PinkMultiplierClosedForm | src/stores/gameStore.ts:568-575 | the pink multiplier is 2^level(pink_multiplier) ≥ 1 |
| Multipliers.SpellSpeedClosedForm | src/stores/gameStore.ts:641-656 | the spell speed is (10 while haste is active, else 1) × 2^casts(faster_squares), at least 1 |
| Multipliers.UnlockedExtends | src/stores/gameStore.ts:143-160 | the unlock scan only appends to the list |
| Multipliers.UnlockedMembership | src/stores/gameStore.ts:143-160 | an id is unlocked afterwards exactly when it was before or its requirement is met |
| Multipliers.UnlockedNoDuplicates | src/stores/gameStore.ts:145 | the scan never records an id twice |
| Multipliers.StoreUnlocks | src/stores/gameStore.ts:143-160 | `mana_gem` unlocks at 2000 blue, `pink_multiplier` at 1 pink, `fill_faster` never by the scan |
| GameStore.TickSpeed | src/stores/gameStore.ts:199 | the tick's fill speed (upgrade × spell × debug) is positive |
| GameStore.PreviousTierTime | src/stores/gameStore.ts:201-205 | at tier 1 the previous tier's last-square time exists and is positive |
| GameStore.TickFillParams | src/stores/gameStore.ts:198-205 | the tick's fill parameters give positive fill times |
| GameStore.TickAdvance | src/stores/gameStore.ts:207-249 | the tick's fill loop only moves the cursor forward, to at most 144, with progress in [0,1) |
| GameStore.FillOutcomeCases | src/stores/gameStore.ts:207-332 | a tick that reaches 144 is prestige plus income and clock, with no unlocks written; otherwise the filled layer, income, clock and unlocks |
| GameStore.Game.constructor | src/stores/gameStore.ts:97-127 | the store starts from the loaded save (fresh layer and clock when absent), transient fields at their defaults |
| GameStore.Game.SkillMultiplier | src/stores/gameStore.ts:532-539 | the loop body: a purchased skill of the kind with a truthy value gives that value, others 1 |
| GameStore.Game.CompoundSkills | src/stores/gameStore.ts:530-539 | the `forEach` compounds the skill product |
| GameStore.Game.GetFillSpeedMultiplier | src/stores/gameStore.ts:521-542 | returns the fill speed of the current upgrades and skills |
| GameStore.Game.GetManaPerSecond | src/stores/gameStore.ts:544-566 | returns the mana rate of the current upgrades and skills |
| GameStore.Game.PassiveContribution | src/stores/gameStore.ts:710-717 | the loop body of the passive rate |
| GameStore.Game.GetPassiveGenerationRate | src/stores/gameStore.ts:705-720 | returns the passive rate of the current skills |
| GameStore.Game.ScanUnlocks | src/stores/gameStore.ts:143-160 | the unlock scan over the blue table on the pre-tick balances |
| GameStore.Game.TickIncome | src/stores/gameStore.ts:162-182 | the tick's mana and passive income |
| GameStore.Game.TickParams | src/stores/gameStore.ts:198-205 | the tick's fill parameters |
| GameStore.Game.AdvanceLayer | src/stores/gameStore.ts:207-304 | the fill loop of the current state: completion flag, new layer, scheduled spins |
| GameStore.Game.CompleteGrid | src/stores/gameStore.ts:291-301 | prestige, then income and clock written over it |
| GameStore.Game.TickFill | src/stores/gameStore.ts:207-332 | the tick on a grid still filling leaves the fill outcome |
| GameStore.Game.Tick | src/stores/gameStore.ts:130-333 | `tick` leaves exactly `TickState` and returns the rows whose spin it scheduled |
| GameStore.Game.Prestige | src/stores/gameStore.ts:335-367 | `prestige` leaves exactly `PrestigeState` |
| GameStore.Game.SpinSlotForRow | src/stores/gameStore.ts:369-382 | resolves the row's bonuses with the drawn multiplier |
| GameStore.Game.CollectReward | src/stores/gameStore.ts:405-436 | the reward is total squares × the product after force-rolling spinning bonuses |
| GameStore.Game.PayTier | src/stores/gameStore.ts:450-460 | credits slot level-1 with the reward, × the pink multiplier only at slot 0 |
| GameStore.Game.Collect | src/stores/gameStore.ts:401-478 | `collect` leaves exactly `CollectState` |
| GameStore.Game.PurchaseUpgrade | src/stores/gameStore.ts:480-513 | `purchaseUpgrade` leaves exactly `PurchaseUpgradeState` |
| GameStore.Game.CastEntry | src/stores/gameStore.ts:590-606 | the spell list after a cast: count + 1, expiry now + duration only for timed spells |
| GameStore.Game.CastSpell | src/stores/gameStore.ts:577-626 | `castSpell` leaves exactly `CastSpellState` |
| GameStore.Game.PurchaseSkill | src/stores/gameStore.ts:658-697 | `purchaseSkill` leaves exactly `PurchaseSkillState` |
| GameStore.Game.SetTab | src/stores/gameStore.ts:722-724 | only the tab changes |
| GameStore.Game.SetProcessingOffline | src/hooks/useGameLoop.ts:26 | only the offline flag changes |
| GameStore.Game.Unpause | src/components/LayerTransition.tsx:35 | unpauses and clears the previous layer |
| GameStore.Game.Reset | src/stores/gameStore.ts:726-745 | `reset` leaves exactly `ResetState` |
| StoreLaws.TickFrame | src/stores/gameStore.ts:325-332 | a tick changes no field beyond layer, level, previous layer, paused, mana, currency, unlocks, production; it sets the clock to now |
| StoreLaws.PausedTickOnlyMovesClock | src/stores/gameStore.ts:134-138 | a paused tick schedules nothing and changes only `lastUpdate` |
| StoreLaws.TickBalances | src/stores/gameStore.ts:162-182 | an unpaused tick adds exactly the mana gained and the passive income |
| StoreLaws.ManaGainedClosedForm | src/stores/gameStore.ts:162-164 | mana gained is manaPerSecond × Δ / 1000 |
| StoreLaws.PassiveGainClosedForm | src/stores/gameStore.ts:168-182 | passive income is 0 without the skill, squares × multiplier × 0.1 × Δ/1000 at tier 0, stored production × 0.1 × Δ/1000 above |
| StoreLaws.TickPrestigesIffComplete | src/stores/gameStore.ts:291-302 | a tick raises the level exactly when it fills square 144; then it pauses, starts the one-square layer, keeps the pre-tick layer, and writes no unlocks |
| StoreLaws.TickOnFullGrid | src/stores/gameStore.ts:186-196 | at cursor ≥ 144 a tick leaves the layer and level untouched |
| StoreLaws.TickUnlocksGrow | src/stores/gameStore.ts:143-160 | a tick only appends to `unlockedUpgrades` |
| StoreLaws.TickUnlockThresholds | src/stores/gameStore.ts:143-160 | a tick unlocks each id exactly when its threshold holds on the pre-tick balances |
| StoreLaws.TickRowBonuses | src/stores/gameStore.ts:251-289 | a tick appends one bonus per completed row, resolved offline and spinning online, schedules exactly those rows online, and none offline |
| StoreLaws.NoTimeNoIncome | src/stores/gameStore.ts:162-182 | no elapsed time yields no mana and no passive income |
| StoreLaws.ZeroElapsedTickIsIdle | src/stores/gameStore.ts:216-249 | an unpaused tick at its own clock changes nothing but the unlocks |
| StoreLaws.TickKeepsReady | src/stores/gameStore.ts:130-333 | after a tick the next tick is again defined |
| StoreLaws.ManaGainedNonNegative | src/stores/gameStore.ts:162-164 | with a clock that does not go back, mana gained is ≥ 0 |
| StoreLaws.PassiveGainNonNegative | src/stores/gameStore.ts:168-182 | with a clock that does not go back, passive income is ≥ 0 |
| StoreLaws.PrestigeRecordsBlueRun | src/stores/gameStore.ts:335-367 | prestige raises the level, pauses, keeps the old layer and balances, and replaces the stored production only by a positive tier-0 value |
| StoreLaws.BlueProductionAtLeastSquares | src/stores/gameStore.ts:346-350 | the recorded tier-0 production is at least the squares filled |
| StoreLaws.PrestigeKeepsBalances | src/stores/gameStore.ts:335-367 | prestige keeps balances non-negative and the layer well formed |
| StoreLaws.AccrueKeepsInv | src/stores/gameStore.ts:186-196 | the full-grid tick keeps the invariant |
| StoreLaws.FillOutcomeKeepsInv | src/stores/gameStore.ts:207-332 | the filling tick keeps the invariant |
| StoreLaws.TickKeepsInv | src/stores/gameStore.ts:130-333 | every tick keeps the invariant: layer well formed, levels capped, unlocks distinct, balances ≥ 0 |
| StoreLaws.SpinChangesOnlyItsRow | src/stores/gameStore.ts:369-382 | a spin resolves only the row's bonuses and changes nothing else |
| StoreLaws.LateSpinIsHarmless | src/stores/gameStore.ts:374-378 | a spin for a row with no bonus, as after collect, changes nothing |
| StoreLaws.SpinMultipliesTotal | src/stores/gameStore.ts:369-398 | resolving a spinning row multiplies the total multiplier by the draw |
| StoreLaws.SpinKeepsInv | src/stores/gameStore.ts:369-382 | a spin keeps the invariant |
| StoreLaws.CollectPayoutBounds | src/stores/gameStore.ts:405-436 | the reward is ≥ total squares, and equals squares × live multiplier when nothing spins |
| StoreLaws.CollectAtTierZero | src/stores/gameStore.ts:438-447 | at tier 0 collect credits the reward to blue, records it as production, empties the layer, and changes nothing else but the flag and clock |
| StoreLaws.CollectAtHigherTier | src/stores/gameStore.ts:448-476 | above tier 0 collect credits slot level-1 (× 2^pink level at slot 0 only), leaves other slots, resets tier, blue, upgrades, production and layer, unlocks skills from slot 0, keeps mana, spells, skills, unlocks |
| StoreLaws.CollectKeepsBalances | src/stores/gameStore.ts:401-478 | collect keeps balances non-negative |
| StoreLaws.CollectKeepsInv | src/stores/gameStore.ts:401-478 | collect keeps the invariant |
| StoreLaws.WithUpgradeLevelReads | src/stores/gameStore.ts:496-507 | after the write the id reads the new level (1 when newly added), others unchanged |
| StoreLaws.PurchaseUpgradeEffect | src/stores/gameStore.ts:480-513 | a successful purchase deducts exactly the floor cost, stays ≥ 0, and changes only currency and upgrades |
| StoreLaws.PurchaseUpgradeLevels | src/stores/gameStore.ts:496-507 | a purchase raises that id's level by one and leaves every other level |
| StoreLaws.PurchaseUpgradeChangesIff | src/stores/gameStore.ts:482-493 | the purchase changes the state exactly when the id is known, affordable and below its cap |
| StoreLaws.PurchaseUpgradeKeepsInv | src/stores/gameStore.ts:480-513 | a purchase keeps the invariant, so a level never exceeds its cap |
| StoreLaws.WithCastCounts | src/stores/gameStore.ts:590-606 | casting raises that spell's count by one and leaves others |
| StoreLaws.WithCastActivity | src/stores/gameStore.ts:598-604 | a timed cast is active until now + duration (a zero expiry reads inactive); other activity unchanged |
| StoreLaws.CastSpellEffect | src/stores/gameStore.ts:577-626 | a successful cast deducts the floor cost from mana (≥ 0), counts the cast, adds grid value to blue only for `magical_collect`, and changes nothing else |
| StoreLaws.HasteLastsThirtySeconds | src/stores/gameStore.ts:598-604 | after casting haste at now ≥ 0 it is active at t exactly when t < now + 30000 |
| StoreLaws.UntimedCastKeepsActivity | src/stores/gameStore.ts:598 | casting anything but haste never changes which spells are active |
| StoreLaws.CastSpellKeepsInv | src/stores/gameStore.ts:577-626 | a cast keeps the invariant |
| StoreLaws.PurchaseSkillEffect | src/stores/gameStore.ts:658-697 | a successful purchase deducts the cost from slot 0 (≥ 0), owns the skill, leaves other slots and skills, and changes nothing else |
| StoreLaws.PurchaseSkillMultiplies | src/stores/gameStore.ts:685-691 | a purchase multiplies the skill products by the skill's factor and adds its passive term |
| StoreLaws.PurchaseSkillKeepsInv | src/stores/gameStore.ts:658-697 | a purchase keeps the invariant |
| StoreLaws.ResetStartsOver | src/stores/gameStore.ts:726-745 | reset gives the empty game, well formed, keeping pause, offline and debug settings |
| StoreLaws.SmallActionsKeepInv | src/stores/gameStore.ts:722-724 | unpause and tab change keep the invariant; on a grid still filling, the tick after an unpause is defined exactly at tier ≤ 1 |
| StoreLaws.FreshStoreIsReset | src/stores/gameStore.ts:106-127 | a store without a save starts as the reset game, well formed and ready to tick |
| StoreLaws.ReloadRoundTrip | src/utils/storage.ts:102-124 | with no purchased listed skill, autosave then reload restores the store, transient fields at their defaults |
| StoreLaws.ReloadRefunds | src/utils/storage.ts:70-99 | a purchased table skill makes the reload refund > 0 into slot 0, clear all skills, and keep everything else |
| StoreLaws.ReloadKeepsInv | src/stores/gameStore.ts:106-127 | a reloaded store satisfies the invariant |
| Storage.SaveGameState | src/utils/storage.ts:5-44 | the save key holds the record of the persisted fields plus the timestamp when the write fits; otherwise storage is unchanged |
| Storage.ClearSaveData | src/utils/storage.ts:133-139 | removes the save key and nothing else |
| Storage.TotalRefund | src/utils/storage.ts:82-89 | the loop sums the listed cost of each purchased listed skill |
| Storage.RefundZeroIff | src/utils/storage.ts:82-91 | the refund is ≥ 0, and 0 exactly when no skill is purchased and listed |
| Storage.CurrentSkillsListed | src/utils/storage.ts:72-80 | every current skill is in the old cost table at its current cost |
| Storage.OldCostsAreCurrentCosts | src/utils/storage.ts:72-80 | the old table's ids are exactly the current skill ids, at equal costs |
| Storage.PurchasedSkillIsRefunded | src/utils/storage.ts:84-89 | any purchased current skill makes the refund positive |
| Storage.LoadGameState | src/utils/storage.ts:46-131 | returns the load outcome of the stored item and removes the key exactly when that outcome says so |
| Storage.LoadAccepts | src/utils/storage.ts:51-64 | a save loads exactly when it is a JSON object with `layer` or `layers`; the key is removed exactly for a non-null value without either; removal means null |
| Storage.MigrationRefunds | src/utils/storage.ts:66-99 | a positive refund adds to slot 0 (absent as 0), leaves other slots, clears skills; a zero refund keeps skills and currencies as loaded |
| Storage.MigrationDefaults | src/utils/storage.ts:102-124 | each absent field defaults on its own: 0, empty lists, false, `squares` tab; layer, clock and pass-through fields are copied |
| Storage.SaveLoadRoundTrip | src/utils/storage.ts:7-124 | loading what `saveGameState` wrote for a complete state with no refundable skill gives every field back |
| SaveData.AutosaveIsPreparedData | src/utils/saveData.ts:5-29 | the save record is `prepareSaveData` plus the timestamp, field for field |
| SaveData.SavedAlikeIff | src/utils/saveData.ts:5-29 | two states project alike exactly when they agree outside the transient fields |
| SaveData.PrepareRoundTrip | src/utils/saveData.ts:6-28 | the projection drops only the transient fields and projecting again changes nothing |
| GameLoop.CeilDivMeaning | src/hooks/useGameLoop.ts:37 | `Math.ceil(a/b)` is the least count of b that covers a |
| GameLoop.MountIff | src/hooks/useGameLoop.ts:15-27 | offline mode starts exactly when the absence is strictly over 5000 ms, with the whole absence queued |
| GameLoop.MountKeepsOk | src/hooks/useGameLoop.ts:15-27 | mounting keeps "time left exactly while offline" |
| GameLoop.StepBudget | src/hooks/useGameLoop.ts:31-52 | an offline interval consumes min(6000, remaining), runs ⌈that/100⌉ ticks (1 to 60), and clears the flag exactly when nothing remains; an online one runs one tick |
| GameLoop.DrainsExactly | src/hooks/useGameLoop.ts:30-53 | an absence r stays offline for ⌈r/6000⌉ intervals, running ⌈r/100⌉ ticks in all, then ends online with nothing left |
| GameLoop.DrainedIsOnline | src/hooks/useGameLoop.ts:49-52 | once drained, each interval runs one normal tick |
| GameLoop.RepeatedTickIsIdle | src/stores/gameStore.ts:134-249 | a tick at the clock of the previous one schedules nothing and changes only the unlocks |
| GameLoop.TickAtKeepsFlagAndReady | src/stores/gameStore.ts:130-333 | the store's tick never touches the offline flag and keeps the next tick defined |
| GameLoop.TickAtSettles | src/stores/gameStore.ts:130-333 | the store's tick keeps the invariant and sets the clock to now |
| GameLoop.TickAtIdle | src/stores/gameStore.ts:130-333 | the store's tick at its own clock is idle |
| GameLoop.RunTicksKeepsFlag | src/hooks/useGameLoop.ts:38-40 | a burst of ticks leaves the offline flag as it was |
| GameLoop.RunTicksKeepsReady | src/hooks/useGameLoop.ts:38-40 | a burst keeps the next tick defined |
| GameLoop.RunIsFirstTick | src/hooks/useGameLoop.ts:38-40 | for any tick that settles at now and is then idle, a burst equals its first tick up to unlocks |
| GameLoop.BurstIsOneTick | src/hooks/useGameLoop.ts:38-40 | a burst of n ≥ 1 store ticks at one clock schedules what the first does and leaves its state up to unlocks, keeping the invariant |
| GameLoop.IntervalKeepsFlagInStep | src/hooks/useGameLoop.ts:42-48 | after an interval the store's flag equals the reference's flag |
| GameLoop.Loop.constructor | src/hooks/useGameLoop.ts:8-11 | the reference starts with no time and offline off |
| GameLoop.Loop.Mount | src/hooks/useGameLoop.ts:15-27 | the mount effect queues the absence and raises the store's flag exactly when it is over 5000 ms |
| GameLoop.Loop.Interval | src/hooks/useGameLoop.ts:30-53 | the callback advances the reference by one step and leaves the store as that many ticks, then clears the flag when drained |

## Left out

- The zustand machinery (`create`, `get`, `set`) is not modelled. The store is one class field replaced by each action.
- `tick` at tier 2 or higher is not modelled. `Game.Tick` requires `TickReady`: paused, a full grid, or tier ≤ 1. At those tiers the source multiplies an undefined previous fill time (line 204 with line 52), so the fill time is NaN.
- localStorage is a map from keys to stored items. `JSON.parse` and `JSON.stringify` are the `Stored` cases: empty, unparsable, null, a non-object, or an object with its fields.
- An `Unparsable` and a failed `setItem` are not modelled as exceptions. The first reads as null. The second is the `fits` flag of `SaveGameState`.
- `console.log` and `console.error` are left out.
- Save fields of the wrong JSON type are out of scope. A field is either absent or has its declared type.
- `skillCosts` lookups of `Object.prototype` names such as `constructor` are left out. The old cost table is a map from the seven ids.
- Real timers are left out: `setInterval` in the game loop and autosave, the spin `setTimeout`, and the 1600 ms unpause. They are explicit calls: `Loop.Interval`, `SpinSlotForRow`, `Unpause`.
- The ticks of one burst all read the callback's `now`. In the source each tick calls `Date.now()`, and a synchronous burst lasts well under a millisecond.
- `useAutosave` is modelled only as the record it writes (`SnapshotOf`, `SaveRecord`), not as a periodic effect.
- IEEE-754 arithmetic is left out: all numbers are exact reals. Probability sums, colour interpolation and `toFixed` rounding differ from the floating-point ones.
- `getSquareColor` with `totalRows = 1` is left out because the source divides by zero there. The colour functions require `totalRows != 1`.
- The combo mini-game's store state (`comboSquares`, `comboPoints`, `comboResultDisplay`, `combosUnlocked`) and `hasWon` are passed through the save unchanged as opaque values. `COMBO_UPGRADES` is not part of this model. The `more_combo_points` effect is a parameter of `GetModifiedPayout`, and hand colours are given, not drawn.
- `src/utils/format.ts` is left out because its output depends on JavaScript's number-to-decimal rendering.
- The UI components, import/export (`Blob`, `FileReader`, `window.location.reload`) and `sessionStorage` are left out as I/O.
- The game loop is modelled only while `TickReady` holds. `TickReady` holds up to the unpause after a tier-1 prestige (`StoreLaws.SmallActionsKeepInv`). The unpaused tier-2 grid fails it, so from there on `Loop.Interval` cannot be called: the tier-2 ticks of the line above are not modelled. In the source the interval keeps firing there, and `tick` accrues mana, passive income and unlocks and sets the progress to NaN. `TickAt` leaves the state unchanged where `TickReady` fails; that branch only makes the function total and has no counterpart in the source.
