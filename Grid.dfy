/**
 * The 12x12 layer of src/stores/gameStore.ts: its initial shape, the per-square fill
 * time, and the fill loop at the heart of `tick` (lines 207-323).
 *
 * A well-formed layer (`LayerOk`) is determined by its cursor, the cursor square's
 * progress and its row bonuses: the squares before the cursor are filled, the rows
 * below `cursor / 12` are marked complete, and row `k` owns bonus `k`.
 */
module Grid {
  import opened GameTypes
  import opened Numbers
  import opened SlotRandom

  // ---- Layer shape ----

  /** Square `i` of a layer with `cursor` squares filled, cursor progress `progress` and `marked` rows marked. */
  function ExpectedSquare(i: nat, cursor: nat, progress: real, marked: nat): SquareState
  {
    SquareState(i, i / GRID_SIZE, i % GRID_SIZE, i < cursor,
                if i < cursor then 1.0 else if i == cursor then progress else 0.0,
                i / GRID_SIZE < marked)
  }

  function Squares(cursor: nat, progress: real, marked: nat): (s: seq<SquareState>)
    ensures |s| == TOTAL_SQUARES
  {
    seq(TOTAL_SQUARES, i requires 0 <= i => ExpectedSquare(i, cursor, progress, marked))
  }

  /** The layer a cursor, its progress and the bonuses determine. */
  function CanonicalLayer(cursor: nat, progress: real, bonuses: seq<RowBonus>): LayerState
  {
    LayerState(Squares(cursor, progress, cursor / GRID_SIZE), cursor, cursor, progress, cursor / GRID_SIZE, bonuses)
  }

  /** Bonus `k` belongs to row `k`, is null exactly while spinning, and holds a slot multiplier. */
  predicate BonusesOk(bonuses: seq<RowBonus>)
  {
    forall k :: 0 <= k < |bonuses| ==>
      bonuses[k].row == k && BonusOk(bonuses[k])
      && (bonuses[k].multiplier.Some? ==> bonuses[k].multiplier.value in SlotMultipliers())
  }

  /** The layer invariant. */
  predicate LayerOk(l: LayerState)
  {
    l.currentSquareIndex <= TOTAL_SQUARES
    && 0.0 <= l.currentSquareFillProgress < 1.0
    && |l.rowBonuses| == l.currentSquareIndex / GRID_SIZE
    && BonusesOk(l.rowBonuses)
    && l == CanonicalLayer(l.currentSquareIndex, l.currentSquareFillProgress, l.rowBonuses)
  }

  /** What the invariant says square by square. */
  lemma LayerOkMeaning(l: LayerState)
    requires LayerOk(l)
    ensures |l.squares| == TOTAL_SQUARES
    ensures l.totalSquares == l.currentSquareIndex <= TOTAL_SQUARES
    ensures l.completedRows == |l.rowBonuses| == l.currentSquareIndex / GRID_SIZE
    ensures forall i :: 0 <= i < TOTAL_SQUARES ==> (l.squares[i].filled <==> i < l.currentSquareIndex)
    ensures forall i :: 0 <= i < TOTAL_SQUARES ==>
              (l.squares[i].index == i && l.squares[i].row == i / GRID_SIZE && l.squares[i].col == i % GRID_SIZE)
    ensures forall i :: 0 <= i < TOTAL_SQUARES ==> 0.0 <= l.squares[i].fillProgress <= 1.0
    ensures forall r :: 0 <= r < |l.rowBonuses| ==> l.rowBonuses[r].row == r
  {
  }

  /** `initializeSquares`: rows bottom to top, columns left to right. */
  method InitializeSquares() returns (squares: seq<SquareState>)
    ensures squares == Squares(0, 0.0, 0)
  {
    squares := [];
    for row := 0 to GRID_SIZE
      invariant |squares| == row * GRID_SIZE
      invariant forall i :: 0 <= i < |squares| ==> squares[i] == ExpectedSquare(i, 0, 0.0, 0)
    {
      for col := 0 to GRID_SIZE
        invariant |squares| == row * GRID_SIZE + col
        invariant forall i :: 0 <= i < |squares| ==> squares[i] == ExpectedSquare(i, 0, 0.0, 0)
      {
        var index := row * GRID_SIZE + col;
        squares := squares + [SquareState(index, row, col, false, 0.0, false)];
      }
    }
  }

  /** `initializeLayer`: an empty layer. */
  method InitializeLayer() returns (l: LayerState)
    ensures l == CanonicalLayer(0, 0.0, [])
    ensures LayerOk(l) && l.currentSquareIndex == 0 && l.rowBonuses == []
  {
    var squares := InitializeSquares();
    l := LayerState(squares, 0, 0, 0.0, 0, []);
  }

  /** The layer `prestige` starts: square 0 filled, cursor and total at 1, no bonuses. */
  function PrestigeLayer(): (l: LayerState)
    ensures LayerOk(l)
    ensures l.squares[0].filled && l.squares[0].fillProgress == 1.0
    ensures forall i :: 1 <= i < TOTAL_SQUARES ==> !l.squares[i].filled
    ensures l.totalSquares == 1 && l.currentSquareIndex == 1 && l.rowBonuses == []
  {
    CanonicalLayer(1, 0.0, [])
  }

  // ---- Fill time ----

  /**
   * `getSquareFillTime`. A later tier needs the previous tier's last-square time;
   * the store passes none for tiers above 1, which is why tiers above 1 never get here.
   */
  function GetSquareFillTime(prestigeLevel: nat, squareIndex: nat, fillSpeedMultiplier: real,
                             previousPrestigeLastSquareTime: Option<real>, disableSlowdown: bool): real
    requires fillSpeedMultiplier != 0.0
    requires prestigeLevel > 0 ==> previousPrestigeLastSquareTime.Some?
  {
    var compoundingFactor := if disableSlowdown then 1.0 else Pow(1.1, squareIndex);
    if prestigeLevel == 0 then FILL_TIME * compoundingFactor / fillSpeedMultiplier
    else previousPrestigeLastSquareTime.value * LAYER_TIME_MULTIPLIER * compoundingFactor / fillSpeedMultiplier
  }

  /** The time before speed-ups: the numerator of `GetSquareFillTime`. */
  function BaseFillTime(prestigeLevel: nat, squareIndex: nat, previous: Option<real>, disableSlowdown: bool): real
    requires prestigeLevel > 0 ==> previous.Some?
  {
    GetSquareFillTime(prestigeLevel, squareIndex, 1.0, previous, disableSlowdown)
  }

  lemma FillTimePositive(prestigeLevel: nat, squareIndex: nat, m: real, previous: Option<real>, disableSlowdown: bool)
    requires m > 0.0
    requires prestigeLevel > 0 ==> previous.Some? && previous.value > 0.0
    ensures GetSquareFillTime(prestigeLevel, squareIndex, m, previous, disableSlowdown) > 0.0
  {
    PowPositive(1.1, squareIndex);
    var c := if disableSlowdown then 1.0 else Pow(1.1, squareIndex);
    if prestigeLevel > 0 {
      assert previous.value * LAYER_TIME_MULTIPLIER * c > 0.0;
    }
  }

  /** Doubling the speed halves the time: time is base time divided by the multiplier. */
  lemma FillTimeInverseToSpeed(prestigeLevel: nat, squareIndex: nat, m: real, previous: Option<real>, disableSlowdown: bool)
    requires m != 0.0
    requires prestigeLevel > 0 ==> previous.Some?
    ensures GetSquareFillTime(prestigeLevel, squareIndex, m, previous, disableSlowdown) * m
         == BaseFillTime(prestigeLevel, squareIndex, previous, disableSlowdown)
  {
  }

  /** With slowdown on, each later square of a tier takes strictly longer. */
  lemma FillTimeIncreasing(prestigeLevel: nat, i: nat, j: nat, m: real, previous: Option<real>)
    requires i < j && m > 0.0
    requires prestigeLevel > 0 ==> previous.Some? && previous.value > 0.0
    ensures GetSquareFillTime(prestigeLevel, i, m, previous, false) < GetSquareFillTime(prestigeLevel, j, m, previous, false)
  {
    var base := if prestigeLevel == 0 then FILL_TIME else previous.value * LAYER_TIME_MULTIPLIER;
    assert base > 0.0;
    var a, b := Pow(1.1, i), Pow(1.1, j);
    assert a < b by { PowStrictlyIncreasing(1.1, i, j); }
    assert GetSquareFillTime(prestigeLevel, i, m, previous, false) == base * a / m;
    assert GetSquareFillTime(prestigeLevel, j, m, previous, false) == base * b / m;
    ScaledQuotientMonotone(base, a, b, m);
  }

  /** With slowdown off, every square of a tier takes the same time. */
  lemma FillTimeConstantWithoutSlowdown(prestigeLevel: nat, i: nat, j: nat, m: real, previous: Option<real>)
    requires m != 0.0
    requires prestigeLevel > 0 ==> previous.Some?
    ensures GetSquareFillTime(prestigeLevel, i, m, previous, true) == GetSquareFillTime(prestigeLevel, j, m, previous, true)
  {
  }

  /** The last square of tier 0 at unit speed, as the store computes it for tier 1. */
  function TierZeroLastSquareTime(disableSlowdown: bool): real
  {
    GetSquareFillTime(0, TOTAL_SQUARES - 1, 1.0, None, disableSlowdown)
  }

  /** Tier 1 starts at 200 times tier 0's last square (both at unit speed). */
  lemma TierOneStartsAt200Times(m: real, disableSlowdown: bool)
    requires m > 0.0
    ensures GetSquareFillTime(1, 0, m, Some(TierZeroLastSquareTime(disableSlowdown)), disableSlowdown)
         == 200.0 * TierZeroLastSquareTime(disableSlowdown) / m
    ensures TierZeroLastSquareTime(true) == 1000.0
    ensures TierZeroLastSquareTime(false) == 1000.0 * Pow(1.1, 143)
  {
  }

  // ---- The fill loop ----

  /** What `tick` passes to `getSquareFillTime`. */
  datatype FillParams = FillParams(level: nat, speed: real, previous: Option<real>, disableSlowdown: bool)

  predicate FillParamsOk(fp: FillParams)
  {
    fp.speed > 0.0 && (fp.level > 0 ==> fp.previous.Some? && fp.previous.value > 0.0)
  }

  function SquareTime(fp: FillParams, squareIndex: nat): (t: real)
    requires FillParamsOk(fp)
    ensures t > 0.0
  {
    FillTimePositive(fp.level, squareIndex, fp.speed, fp.previous, fp.disableSlowdown);
    GetSquareFillTime(fp.level, squareIndex, fp.speed, fp.previous, fp.disableSlowdown)
  }

  datatype Progress = Progress(cursor: nat, progress: real)

  /** Every square of a tier takes a positive time. */
  predicate TimesOk(times: seq<real>)
  {
    |times| == TOTAL_SQUARES && forall i :: 0 <= i < |times| ==> times[i] > 0.0
  }

  /** The fill time of every square of the tier, in index order. */
  function FillTimes(fp: FillParams): (times: seq<real>)
    requires FillParamsOk(fp)
    ensures TimesOk(times)
    ensures forall i :: 0 <= i < TOTAL_SQUARES ==> times[i] == SquareTime(fp, i)
  {
    seq(TOTAL_SQUARES, i requires 0 <= i => SquareTime(fp, i))
  }

  lemma PartialFillStaysBelowOne(progress: real, remaining: real, t: real)
    requires 0.0 <= progress < 1.0 && t > 0.0 && 0.0 < remaining < (1.0 - progress) * t
    ensures progress <= progress + remaining / t < 1.0
  {
    var q := remaining / t;
    assert q * t == remaining;
    if q >= 1.0 - progress {
      ScaleMonotone(t, 1.0 - progress, q);
      assert false;
    }
  }

  /**
   * Where the cursor and its progress end up once `remaining` milliseconds are spent
   * filling squares in index order, square `i` taking `times[i]`, stopping at the end
   * of the grid.
   */
  function Advance(cursor: nat, progress: real, remaining: real, times: seq<real>): (r: Progress)
    requires cursor <= TOTAL_SQUARES && 0.0 <= progress < 1.0 && TimesOk(times)
    ensures cursor <= r.cursor <= TOTAL_SQUARES && 0.0 <= r.progress < 1.0
    decreases TOTAL_SQUARES - cursor
  {
    if remaining <= 0.0 || cursor == TOTAL_SQUARES then Progress(cursor, progress)
    else
      var t := times[cursor];
      var need := (1.0 - progress) * t;
      if remaining >= need then Advance(cursor + 1, 0.0, remaining - need, times)
      else
        PartialFillStaysBelowOne(progress, remaining, t);
        Progress(cursor, progress + remaining / t)
  }

  /** One pass of the fill step with the cursor square taking `t`. */
  predicate FillStep(cursor: nat, progress: real, remaining: real, t: real,
                     newCursor: nat, newProgress: real, newRemaining: real)
    requires t > 0.0
  {
    if remaining >= (1.0 - progress) * t then
      newCursor == cursor + 1 && newProgress == 0.0 && newRemaining == remaining - (1.0 - progress) * t
    else
      newCursor == cursor && newProgress == progress + remaining / t && newRemaining == 0.0
  }

  /** Each pass of the fill step leaves the outcome of `Advance` unchanged. */
  lemma FillStepKeepsAdvance(cursor: nat, progress: real, remaining: real, times: seq<real>,
                             newCursor: nat, newProgress: real, newRemaining: real)
    requires cursor < TOTAL_SQUARES && 0.0 <= progress < 1.0 && remaining > 0.0 && TimesOk(times)
    requires FillStep(cursor, progress, remaining, times[cursor], newCursor, newProgress, newRemaining)
    ensures newCursor <= TOTAL_SQUARES && 0.0 <= newProgress < 1.0
    ensures Advance(cursor, progress, remaining, times) == Advance(newCursor, newProgress, newRemaining, times)
  {
    var t := times[cursor];
    if remaining < (1.0 - progress) * t {
      PartialFillStaysBelowOne(progress, remaining, t);
    }
  }

  /**
   * The bonuses appended for rows `from` up to `upTo`: resolved with the k-th draw when
   * processing offline, spinning otherwise.
   */
  function NewBonuses(from: nat, upTo: nat, offline: bool, rolls: nat -> real): (s: seq<RowBonus>)
    ensures |s| == if upTo >= from then upTo - from else 0
  {
    if upTo <= from then []
    else NewBonuses(from, upTo - 1, offline, rolls)
         + [RowBonus(upTo - 1, if offline then Some(SlotDraw(rolls(upTo - 1 - from))) else None, !offline)]
  }

  /** The rows whose spin is scheduled. */
  function ScheduledRows(from: nat, upTo: nat, offline: bool): (s: seq<nat>)
    ensures offline ==> s == []
  {
    if offline || upTo <= from then [] else ScheduledRows(from, upTo - 1, offline) + [upTo - 1]
  }

  /** The layer a tick leaves when the grid is not completed. */
  function FilledLayer(l: LayerState, a: Progress, offline: bool, rolls: nat -> real): LayerState
  {
    CanonicalLayer(a.cursor, a.progress,
                   l.rowBonuses + NewBonuses(|l.rowBonuses|, a.cursor / GRID_SIZE, offline, rolls))
  }

  // ---- Facts the loop needs ----

  /** `squares.filter(s => s.row === row).every(s => s.filled)`. */
  predicate RowIsComplete(squares: seq<SquareState>, row: nat)
  {
    forall j :: 0 <= j < |squares| && squares[j].row == row ==> squares[j].filled
  }

  /** Sets `rowCompleted` on every square of the row. */
  function MarkRow(squares: seq<SquareState>, row: nat): (s: seq<SquareState>)
    ensures |s| == |squares|
  {
    seq(|squares|, j requires 0 <= j < |squares| =>
      if squares[j].row == row then squares[j].(rowCompleted := true) else squares[j])
  }

  lemma RowCompleteIff(cursor: nat, progress: real, marked: nat, row: nat)
    requires cursor <= TOTAL_SQUARES && row < GRID_SIZE
    ensures RowIsComplete(Squares(cursor, progress, marked), row) <==> (row + 1) * GRID_SIZE <= cursor
  {
    var s := Squares(cursor, progress, marked);
    if (row + 1) * GRID_SIZE > cursor {
      var j := (row + 1) * GRID_SIZE - 1;
      assert s[j].row == row && !s[j].filled;
    }
  }

  lemma MarkRowStep(cursor: nat, progress: real, marked: nat)
    ensures MarkRow(Squares(cursor, progress, marked), marked) == Squares(cursor, progress, marked + 1)
  {
  }

  lemma FillCursorStep(cursor: nat, progress: real, marked: nat)
    requires cursor < TOTAL_SQUARES
    ensures var s := Squares(cursor, progress, marked);
            s[cursor := s[cursor].(filled := true, fillProgress := 1.0)] == Squares(cursor + 1, 0.0, marked)
  {
  }

  lemma SetProgressStep(cursor: nat, progress: real, marked: nat, q: real)
    requires cursor < TOTAL_SQUARES
    ensures var s := Squares(cursor, progress, marked);
            s[cursor := s[cursor].(fillProgress := q)] == Squares(cursor, q, marked)
  {
  }

  /**
   * The loop's fill step once the cursor square's fill time is known: the square is
   * completed when the remaining time covers what it still needs, and otherwise takes
   * all of the remaining time as progress.
   */
  method FillCursorSquare(squares: seq<SquareState>, cursor: nat, progress: real, total: nat, remaining: real,
                          currentFillTime: real, ghost shown: real, ghost marked: nat)
    returns (newSquares: seq<SquareState>, newCursor: nat, newProgress: real, newTotal: nat, newRemaining: real)
    requires cursor < TOTAL_SQUARES && currentFillTime > 0.0 && squares == Squares(cursor, shown, marked)
    ensures FillStep(cursor, progress, remaining, currentFillTime, newCursor, newProgress, newRemaining)
    ensures (newCursor == cursor + 1 && newTotal == total + 1 && newSquares == Squares(cursor + 1, 0.0, marked))
         || (newCursor == cursor && newTotal == total && newSquares == squares)
  {
    var timeNeededToCompleteSquare := (1.0 - progress) * currentFillTime;
    if remaining >= timeNeededToCompleteSquare {
      FillCursorStep(cursor, shown, marked);
      newSquares := squares[cursor := squares[cursor].(filled := true, fillProgress := 1.0)];
      newTotal := total + 1;
      newRemaining := remaining - timeNeededToCompleteSquare;
      newCursor := cursor + 1;
      newProgress := 0.0;
    } else {
      var fillIncrement := remaining / currentFillTime;
      newSquares, newCursor, newTotal := squares, cursor, total;
      newProgress := progress + fillIncrement;
      newRemaining := 0.0;
    }
  }

  /**
   * The loop's row check after the cursor moved past square `cursor - 1`: when that
   * square's row is full and not yet marked, the row is marked and gets its bonus.
   */
  method CheckCompletedRow(squares: seq<SquareState>, cursor: nat, completedRows: nat, bonuses: seq<RowBonus>,
                           scheduled: seq<nat>, draws: nat, offline: bool, rolls: nat -> real,
                           ghost earlier: seq<RowBonus>)
    returns (newSquares: seq<SquareState>, newCompletedRows: nat, newBonuses: seq<RowBonus>,
             newScheduled: seq<nat>, newDraws: nat)
    requires 0 < cursor <= TOTAL_SQUARES && |earlier| <= completedRows
    requires completedRows == (cursor - 1) / GRID_SIZE || completedRows == cursor / GRID_SIZE
    requires squares == Squares(cursor, 0.0, completedRows)
    requires bonuses == earlier + NewBonuses(|earlier|, completedRows, offline, rolls)
    requires scheduled == ScheduledRows(|earlier|, completedRows, offline)
    requires offline ==> draws == completedRows - |earlier|
    ensures newCompletedRows == cursor / GRID_SIZE
    ensures newSquares == Squares(cursor, 0.0, newCompletedRows)
    ensures newBonuses == earlier + NewBonuses(|earlier|, newCompletedRows, offline, rolls)
    ensures newScheduled == ScheduledRows(|earlier|, newCompletedRows, offline)
    ensures offline ==> newDraws == newCompletedRows - |earlier|
  {
    newSquares, newCompletedRows, newBonuses, newScheduled, newDraws := squares, completedRows, bonuses, scheduled, draws;
    var completedSquare := squares[cursor - 1];
    var currentRow := completedSquare.row;
    RowCompleteIff(cursor, 0.0, completedRows, currentRow);
    var rowIsComplete := RowIsComplete(squares, currentRow);
    if rowIsComplete && !completedSquare.rowCompleted {
      assert currentRow == completedRows;
      MarkRowStep(cursor, 0.0, completedRows);
      newSquares := MarkRow(squares, currentRow);
      newCompletedRows := completedRows + 1;
      if offline {
        var multiplier := GetRandomSlotMultiplier(rolls(draws));
        newDraws := draws + 1;
        newBonuses := bonuses + [RowBonus(currentRow, Some(multiplier), false)];
      } else {
        newBonuses := bonuses + [RowBonus(currentRow, None, true)];
        newScheduled := scheduled + [currentRow];
      }
    }
  }

  /**
   * The store's fill loop: spends `deltaTime` on squares in index order, marks each row
   * as its last square fills and appends that row's bonus, and stops as soon as the
   * grid's last square fills (where the store hands over to `prestige`).
   */
  method FillSquares(l: LayerState, fp: FillParams, deltaTime: real, offline: bool, rolls: nat -> real)
    returns (next: LayerState, gridCompleted: bool, scheduled: seq<nat>)
    requires LayerOk(l) && FillParamsOk(fp) && l.currentSquareIndex < TOTAL_SQUARES
    ensures var a := Advance(l.currentSquareIndex, l.currentSquareFillProgress, deltaTime, FillTimes(fp));
            (gridCompleted <==> a.cursor == TOTAL_SQUARES)
            && (!gridCompleted ==> next == FilledLayer(l, a, offline, rolls))
            && scheduled == ScheduledRows(|l.rowBonuses|, a.cursor / GRID_SIZE, offline)
  {
    var start := l.currentSquareIndex;
    var newSquareIndex := l.currentSquareIndex;
    var newFillProgress := l.currentSquareFillProgress;
    var newTotalSquares := l.totalSquares;
    var newCompletedRows := l.completedRows;
    var newRowBonuses := l.rowBonuses;
    var updatedSquares := l.squares;
    var remainingDeltaTime := deltaTime;
    var draws := 0;
    ghost var times := FillTimes(fp);
    ghost var target := Advance(start, l.currentSquareFillProgress, deltaTime, times);
    assert l.rowBonuses + NewBonuses(|l.rowBonuses|, newCompletedRows, offline, rolls) == l.rowBonuses;
    scheduled := [];
    gridCompleted := false;
    next := l;

    while remainingDeltaTime > 0.0 && newSquareIndex < TOTAL_SQUARES
      invariant start <= newSquareIndex < TOTAL_SQUARES
      invariant 0.0 <= newFillProgress < 1.0
      invariant target == Advance(newSquareIndex, newFillProgress, remainingDeltaTime, times)
      invariant newTotalSquares == newSquareIndex
      invariant newCompletedRows == newSquareIndex / GRID_SIZE
      invariant offline ==> draws == newCompletedRows - |l.rowBonuses|
      invariant newRowBonuses == l.rowBonuses + NewBonuses(|l.rowBonuses|, newCompletedRows, offline, rolls)
      invariant scheduled == ScheduledRows(|l.rowBonuses|, newCompletedRows, offline)
      invariant updatedSquares
             == Squares(newSquareIndex, if newSquareIndex == start then l.currentSquareFillProgress else 0.0, newCompletedRows)
      decreases TOTAL_SQUARES - newSquareIndex, if remainingDeltaTime > 0.0 then 1 else 0
    {
      ghost var shown := if newSquareIndex == start then l.currentSquareFillProgress else 0.0;
      var currentFillTime := GetSquareFillTime(fp.level, newSquareIndex, fp.speed, fp.previous, fp.disableSlowdown);
      assert currentFillTime == times[newSquareIndex];
      ghost var (cursor0, progress0, remaining0) := (newSquareIndex, newFillProgress, remainingDeltaTime);
      updatedSquares, newSquareIndex, newFillProgress, newTotalSquares, remainingDeltaTime :=
        FillCursorSquare(updatedSquares, newSquareIndex, newFillProgress, newTotalSquares, remainingDeltaTime,
                         currentFillTime, shown, newCompletedRows);
      FillStepKeepsAdvance(cursor0, progress0, remaining0, times, newSquareIndex, newFillProgress, remainingDeltaTime);

      if newSquareIndex > start {
        updatedSquares, newCompletedRows, newRowBonuses, scheduled, draws :=
          CheckCompletedRow(updatedSquares, newSquareIndex, newCompletedRows, newRowBonuses, scheduled, draws,
                            offline, rolls, l.rowBonuses);
        if newSquareIndex == TOTAL_SQUARES {
          gridCompleted := true;
          return;
        }
      }
    }

    SetProgressStep(newSquareIndex, if newSquareIndex == start then l.currentSquareFillProgress else 0.0,
                    newCompletedRows, newFillProgress);
    updatedSquares := updatedSquares[newSquareIndex := updatedSquares[newSquareIndex].(fillProgress := newFillProgress)];
    next := l.(squares := updatedSquares, currentSquareIndex := newSquareIndex,
               currentSquareFillProgress := newFillProgress, totalSquares := newTotalSquares,
               completedRows := newCompletedRows, rowBonuses := newRowBonuses);
  }

  // ---- What a tick does to the layer ----

  lemma {:induction false} NewBonusesShape(from: nat, upTo: nat, offline: bool, rolls: nat -> real)
    requires from <= upTo
    ensures forall k :: 0 <= k < upTo - from ==>
              (NewBonuses(from, upTo, offline, rolls)[k].row == from + k
               && BonusOk(NewBonuses(from, upTo, offline, rolls)[k])
               && NewBonuses(from, upTo, offline, rolls)[k].isSpinning == !offline
               && (offline ==> NewBonuses(from, upTo, offline, rolls)[k].multiplier == Some(SlotDraw(rolls(k)))))
    decreases upTo
  {
    if from < upTo {
      NewBonusesShape(from, upTo - 1, offline, rolls);
    }
  }

  /** A tick that does not complete the grid leaves a well-formed layer that keeps its earlier bonuses. */
  lemma FilledLayerOk(l: LayerState, a: Progress, offline: bool, rolls: nat -> real)
    requires LayerOk(l) && l.currentSquareIndex <= a.cursor < TOTAL_SQUARES && 0.0 <= a.progress < 1.0
    ensures LayerOk(FilledLayer(l, a, offline, rolls))
    ensures FilledLayer(l, a, offline, rolls).rowBonuses[..|l.rowBonuses|] == l.rowBonuses
  {
    var from, upTo := |l.rowBonuses|, a.cursor / GRID_SIZE;
    NewBonusesShape(from, upTo, offline, rolls);
    var bs := l.rowBonuses + NewBonuses(from, upTo, offline, rolls);
    forall k | 0 <= k < |bs|
      ensures bs[k].row == k && BonusOk(bs[k]) && (bs[k].multiplier.Some? ==> bs[k].multiplier.value in SlotMultipliers())
    {
      if k >= from {
        assert bs[k] == NewBonuses(from, upTo, offline, rolls)[k - from];
        if offline {
          SlotDrawInTable(rolls(k - from));
        }
      }
    }
    assert bs[..from] == l.rowBonuses;
  }

  /**
   * The bonuses a fill adds: one per newly completed row, in row order, after the old
   * ones; spinning and scheduled online, resolved and unscheduled offline.
   */
  lemma FilledBonuses(l: LayerState, a: Progress, offline: bool, rolls: nat -> real)
    requires LayerOk(l) && l.currentSquareIndex <= a.cursor < TOTAL_SQUARES
    ensures var prior, bonuses := l.rowBonuses, FilledLayer(l, a, offline, rolls).rowBonuses;
            |prior| <= |bonuses| == a.cursor / GRID_SIZE && bonuses[..|prior|] == prior
            && (forall k :: |prior| <= k < |bonuses| ==>
                  bonuses[k].row == k
                  && if offline then !bonuses[k].isSpinning && bonuses[k].multiplier.Some?
                     else bonuses[k].isSpinning && bonuses[k].multiplier.None?)
            && ScheduledRows(|prior|, a.cursor / GRID_SIZE, offline)
               == if offline then [] else seq(|bonuses| - |prior|, k requires 0 <= k => |prior| + k)
  {
    var from, upTo := |l.rowBonuses|, a.cursor / GRID_SIZE;
    var added := NewBonuses(from, upTo, offline, rolls);
    var bs := l.rowBonuses + added;
    assert FilledLayer(l, a, offline, rolls).rowBonuses == bs;
    assert from <= upTo && |bs| == upTo && bs[..from] == l.rowBonuses;
    forall k | from <= k < |bs|
      ensures bs[k].row == k
              && if offline then !bs[k].isSpinning && bs[k].multiplier.Some?
                 else bs[k].isSpinning && bs[k].multiplier.None?
    {
      NewBonusesShape(from, upTo, offline, rolls);
      assert bs[k] == added[k - from];
    }
    if !offline {
      ScheduledRowsAreNewRows(from, upTo);
    }
  }

  /** More time never fills fewer squares. */
  lemma {:induction false} AdvanceMonotoneInTime(cursor: nat, progress: real, r1: real, r2: real, times: seq<real>)
    requires cursor <= TOTAL_SQUARES && 0.0 <= progress < 1.0 && TimesOk(times) && r1 <= r2
    ensures Advance(cursor, progress, r1, times).cursor <= Advance(cursor, progress, r2, times).cursor
    decreases TOTAL_SQUARES - cursor
  {
    if r1 > 0.0 && cursor < TOTAL_SQUARES {
      var need := (1.0 - progress) * times[cursor];
      if r1 >= need {
        assert Advance(cursor, progress, r1, times) == Advance(cursor + 1, 0.0, r1 - need, times);
        assert Advance(cursor, progress, r2, times) == Advance(cursor + 1, 0.0, r2 - need, times);
        AdvanceMonotoneInTime(cursor + 1, 0.0, r1 - need, r2 - need, times);
      }
    }
  }

  lemma PartialProgressArithmetic(progress: real, r1: real, r2: real, t: real)
    requires t > 0.0
    ensures (1.0 - (progress + r1 / t)) * t == (1.0 - progress) * t - r1
    ensures progress + r1 / t + r2 / t == progress + (r1 + r2) / t
  {
    assert (r1 / t) * t == r1;
  }

  lemma AdvanceCompletes(cursor: nat, progress: real, remaining: real, times: seq<real>)
    requires cursor < TOTAL_SQUARES && 0.0 <= progress < 1.0 && TimesOk(times)
    requires remaining > 0.0 && remaining >= (1.0 - progress) * times[cursor]
    ensures Advance(cursor, progress, remaining, times)
         == Advance(cursor + 1, 0.0, remaining - (1.0 - progress) * times[cursor], times)
  {
  }

  lemma AdvanceStopsInside(cursor: nat, progress: real, remaining: real, times: seq<real>)
    requires cursor < TOTAL_SQUARES && 0.0 <= progress < 1.0 && TimesOk(times)
    requires remaining > 0.0 && remaining < (1.0 - progress) * times[cursor]
    ensures Advance(cursor, progress, remaining, times) == Progress(cursor, progress + remaining / times[cursor])
  {
  }

  /** The second part of a split that starts inside the cursor square. */
  lemma AdvanceSplitInside(cursor: nat, progress: real, r1: real, r2: real, times: seq<real>)
    requires cursor < TOTAL_SQUARES && 0.0 <= progress < 1.0 && TimesOk(times) && r2 > 0.0
    requires r1 > 0.0 && r1 < (1.0 - progress) * times[cursor]
    ensures 0.0 <= progress + r1 / times[cursor] < 1.0
    ensures Advance(cursor, progress + r1 / times[cursor], r2, times) == Advance(cursor, progress, r1 + r2, times)
  {
    var t := times[cursor];
    var p1 := progress + r1 / t;
    var need, need1 := (1.0 - progress) * t, (1.0 - p1) * t;
    PartialFillStaysBelowOne(progress, r1, t);
    assert need1 == need - r1 && p1 + r2 / t == progress + (r1 + r2) / t by {
      PartialProgressArithmetic(progress, r1, r2, t);
    }
    if r2 >= need1 {
      AdvanceCompletes(cursor, p1, r2, times);
      AdvanceCompletes(cursor, progress, r1 + r2, times);
      assert r2 - need1 == r1 + r2 - need;
    } else {
      AdvanceStopsInside(cursor, p1, r2, times);
      AdvanceStopsInside(cursor, progress, r1 + r2, times);
    }
  }

  /**
   * Spending time in two parts ends where spending it at once does: with the same fill
   * times, consecutive ticks compose.
   */
  lemma {:induction false} AdvanceSplit(cursor: nat, progress: real, r1: real, r2: real, times: seq<real>)
    requires cursor <= TOTAL_SQUARES && 0.0 <= progress < 1.0 && TimesOk(times) && r1 >= 0.0 && r2 >= 0.0
    ensures var a := Advance(cursor, progress, r1, times);
            Advance(a.cursor, a.progress, r2, times) == Advance(cursor, progress, r1 + r2, times)
    decreases TOTAL_SQUARES - cursor
  {
    if r1 > 0.0 && cursor < TOTAL_SQUARES {
      var need := (1.0 - progress) * times[cursor];
      if r1 >= need {
        AdvanceCompletes(cursor, progress, r1, times);
        AdvanceCompletes(cursor, progress, r1 + r2, times);
        AdvanceSplit(cursor + 1, 0.0, r1 - need, r2, times);
        assert r1 - need + r2 == r1 + r2 - need;
      } else {
        AdvanceStopsInside(cursor, progress, r1, times);
        if r2 > 0.0 {
          AdvanceSplitInside(cursor, progress, r1, r2, times);
        }
      }
    }
  }

  /** The rows a tick schedules are exactly the rows it completed, in order. */
  lemma {:induction false} ScheduledRowsAreNewRows(from: nat, upTo: nat)
    requires from <= upTo
    ensures ScheduledRows(from, upTo, false) == seq(upTo - from, k requires 0 <= k => from + k)
    decreases upTo
  {
    if from < upTo {
      ScheduledRowsAreNewRows(from, upTo - 1);
    }
  }
}
