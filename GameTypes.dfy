/**
 * The game's records, constants and static tables (src/types/game.ts).
 * Numbers are exact reals; integers the game only ever counts up are `nat`.
 */
module GameTypes {

  /** `T | null` and optional (`?`) fields. */
  datatype Option<+T> = None | Some(value: T)

  const GRID_SIZE: nat := 12
  const TOTAL_SQUARES: nat := GRID_SIZE * GRID_SIZE
  /** Milliseconds to fill one square at tier 0 before slowdown and speed-ups. */
  const FILL_TIME: real := 1000.0
  /** Milliseconds a row bonus spins before it is resolved. */
  const SPIN_DURATION: nat := 300
  /** Each tier's first square takes this many times the previous tier's last square. */
  const LAYER_TIME_MULTIPLIER: real := 200.0

  /** One cell of the grid; `index == row * GRID_SIZE + col`, row 0 at the bottom. */
  datatype SquareState = SquareState(
    index: nat,
    row: nat,
    col: nat,
    filled: bool,
    fillProgress: real,
    rowCompleted: bool)

  /** The slot-machine bonus of a completed row; `multiplier` is null while it spins. */
  datatype RowBonus = RowBonus(row: nat, multiplier: Option<real>, isSpinning: bool)

  /** The single reusable grid. */
  datatype LayerState = LayerState(
    squares: seq<SquareState>,
    totalSquares: nat,
    currentSquareIndex: nat,
    currentSquareFillProgress: real,
    completedRows: nat,
    rowBonuses: seq<RowBonus>)

  datatype UpgradeState = UpgradeState(id: string, level: nat)

  /** `activeUntil` is a timestamp in milliseconds, set only for duration spells. */
  datatype SpellState = SpellState(id: string, timesCast: nat, activeUntil: Option<int>)

  datatype SkillState = SkillState(id: string, purchased: bool)

  /** The `'squares' | 'skills'` tab selector. */
  datatype Tab = SquaresTab | SkillsTab

  /** The `'blue' | 'pink'` currency designation of upgrades and skills. */
  datatype Currency = Blue | Pink

  /** The documented meaning of a row bonus: it has no multiplier exactly while it spins. */
  predicate BonusOk(b: RowBonus)
  {
    b.multiplier.None? <==> b.isSpinning
  }

  datatype SlotOption = SlotOption(multiplier: real, probability: real)

  const SLOT_OPTIONS: seq<SlotOption> := [
    SlotOption(1.5, 0.30),
    SlotOption(2.0, 0.25),
    SlotOption(3.0, 0.20),
    SlotOption(4.0, 0.15),
    SlotOption(5.0, 0.07),
    SlotOption(10.0, 0.03)
  ]

  /** Sum of the probabilities of a slot table. */
  function TotalProbability(options: seq<SlotOption>): real
  {
    if options == [] then 0.0 else options[0].probability + TotalProbability(options[1..])
  }

  /** The multipliers a row bonus can take. */
  function SlotMultipliers(): set<real>
  {
    set i | 0 <= i < |SLOT_OPTIONS| :: SLOT_OPTIONS[i].multiplier
  }

  datatype LayerConfig = LayerConfig(layer: nat, name: string, colorFrom: string, colorTo: string)

  const LAYER_CONFIGS: seq<LayerConfig> := [
    LayerConfig(0, "Blue Squares", "#3b82f6", "#ec4899"),
    LayerConfig(1, "Pink Squares", "#ec4899", "#10b981"),
    LayerConfig(2, "Green Squares", "#10b981", "#eab308")
  ]

  /** A square of the combo mini-grid, reduced to what the classifier and payout read. */
  datatype ComboSquare = ComboSquare(filled: bool, color: Option<string>)

  datatype ComboType =
    | FiveOfAKind
    | FourOfAKind
    | FullHouse
    | ThreeOfAKind
    | TwoPair
    | OnePair
    | Nothing

  // ---- Prestige-currency slots ----

  /** `pcs[i] || 0`. */
  function Slot(pcs: seq<real>, i: nat): real
  {
    if i < |pcs| then pcs[i] else 0.0
  }

  /** `copy[i] = v` on a copy of the array: slots past the end become holes, read as 0. */
  function SetSlot(pcs: seq<real>, i: nat, v: real): (r: seq<real>)
    ensures |r| == if i < |pcs| then |pcs| else i + 1
    ensures Slot(r, i) == v
    ensures forall j: nat :: j != i ==> Slot(r, j) == Slot(pcs, j)
  {
    if i < |pcs| then pcs[i := v]
    else pcs + seq(i - |pcs|, _ => 0.0) + [v]
  }

  /** `x ?? d`: the value when present, else the default. */
  function GetOr<T>(x: Option<T>, d: T): T
  {
    if x.Some? then x.value else d
  }

  /**
   * A field the store does not define but the save format carries through (`hasWon`
   * and the combo fields), kept as its JSON text and never read.
   */
  datatype Opaque = Opaque(json: string)

  /**
   * `Partial<GameState>` as the save functions receive it: each of the store's fields,
   * `None` where absent or `undefined`, and the pass-through fields the save format lists.
   */
  datatype Snapshot = Snapshot(
    layer: Option<LayerState>,
    prestigeLevel: Option<nat>,
    previousCompletedLayer: Option<Option<LayerState>>,
    currency: Option<real>,
    mana: Option<real>,
    hasCollected: Option<bool>,
    upgrades: Option<seq<UpgradeState>>,
    unlockedUpgrades: Option<seq<string>>,
    spells: Option<seq<SpellState>>,
    lastUpdate: Option<int>,
    fillTime: Option<real>,
    isProcessingOffline: Option<bool>,
    isPaused: Option<bool>,
    debugSpeedMultiplier: Option<real>,
    debugDisableSlowdown: Option<bool>,
    prestigeCurrencies: Option<seq<real>>,
    currentTab: Option<Tab>,
    skillsUnlocked: Option<bool>,
    lastBlueSquareProduction: Option<real>,
    skills: Option<seq<SkillState>>,
    hasWon: Option<Opaque>,
    combosUnlocked: Option<Opaque>,
    comboPoints: Option<Opaque>,
    comboSquares: Option<Opaque>,
    currentComboSquareIndex: Option<Opaque>,
    currentComboSquareFillProgress: Option<Opaque>,
    comboResultDisplay: Option<Opaque>)

  lemma GridIsTwelveByTwelve()
    ensures TOTAL_SQUARES == GRID_SIZE * GRID_SIZE == 144
  {
  }

  lemma TimeConstantsPositive()
    ensures FILL_TIME == 1000.0 && SPIN_DURATION == 300 && LAYER_TIME_MULTIPLIER == 200.0
    ensures FILL_TIME > 0.0 && SPIN_DURATION > 0 && LAYER_TIME_MULTIPLIER > 0.0
  {
  }

  /** Six options with positive probabilities summing to exactly one. */
  lemma SlotOptionsAreADistribution()
    ensures |SLOT_OPTIONS| == 6
    ensures forall i :: 0 <= i < |SLOT_OPTIONS| ==> SLOT_OPTIONS[i].probability > 0.0
    ensures TotalProbability(SLOT_OPTIONS) == 1.0
  {
    assert TotalProbability(SLOT_OPTIONS[5..]) == 0.03;
    assert TotalProbability(SLOT_OPTIONS[4..]) == 0.10;
    assert TotalProbability(SLOT_OPTIONS[3..]) == 0.25;
    assert TotalProbability(SLOT_OPTIONS[2..]) == 0.45;
    assert TotalProbability(SLOT_OPTIONS[1..]) == 0.70;
  }

  /** Multipliers strictly increase in table order and are all at least 1.5. */
  lemma SlotMultipliersAscending()
    ensures forall i, j :: 0 <= i < j < |SLOT_OPTIONS| ==> SLOT_OPTIONS[i].multiplier < SLOT_OPTIONS[j].multiplier
    ensures forall i :: 0 <= i < |SLOT_OPTIONS| ==> SLOT_OPTIONS[i].multiplier >= 1.5
    ensures SlotMultipliers() == {1.5, 2.0, 3.0, 4.0, 5.0, 10.0}
  {
    var s := {1.5, 2.0, 3.0, 4.0, 5.0, 10.0};
    assert forall m :: m in s ==> m in SlotMultipliers() by {
      assert SLOT_OPTIONS[0].multiplier == 1.5;
      assert SLOT_OPTIONS[5].multiplier == 10.0;
    }
  }

  lemma LayerConfigsIndexed()
    ensures |LAYER_CONFIGS| == 3
    ensures forall i :: 0 <= i < |LAYER_CONFIGS| ==> LAYER_CONFIGS[i].layer == i
  {
  }
}
