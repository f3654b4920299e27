/**
 * The game loop (src/hooks/useGameLoop.ts). On mount, an absence of more than five
 * seconds is queued as offline time; then every 100 ms the interval either works off
 * up to six seconds of it with a burst of ticks (one per 100 ms of it, the "60x
 * speed") or runs one normal tick.
 *
 * The clock of one interval callback is its `now`: the ticks of a burst all read it.
 */
module GameLoop {
  import opened GameTypes
  import opened GameStore
  import opened StoreLaws

  const OFFLINE_SPEED_MULTIPLIER: nat := 60
  /** The period of the interval, in milliseconds, and the game time one tick stands for offline. */
  const TICK_INTERVAL: nat := 100
  /** Absences up to this many milliseconds are not offline time. */
  const OFFLINE_THRESHOLD: int := 5000

  /** `offlineProgressRef.current`. */
  datatype Offline = Offline(remainingTime: int, processingOffline: bool)

  /** `Math.ceil(a / b)`. */
  function CeilDiv(a: nat, b: nat): nat
    requires b > 0
  {
    (a + b - 1) / b
  }

  /** The ceiling is the least multiple count that covers `a`. */
  lemma CeilDivMeaning(a: nat, b: nat)
    requires b > 0
    ensures CeilDiv(a, b) * b >= a
    ensures CeilDiv(a, b) == 0 || (CeilDiv(a, b) - 1) * b < a
  {
    var q := CeilDiv(a, b);
    assert (a + b - 1) == q * b + (a + b - 1) % b;
  }

  /** The mount effect on the reference: the absence since `lastUpdate`, when long enough, becomes offline time. */
  function Mounted(ref: Offline, lastUpdate: int, now: int): Offline
  {
    var offlineTime := now - lastUpdate;
    if offlineTime > OFFLINE_THRESHOLD then Offline(offlineTime, true) else ref
  }

  /** Whether the reference is consistent: time is left exactly while offline processing is on. */
  predicate OfflineOk(o: Offline)
  {
    o.remainingTime >= 0 && (o.processingOffline <==> o.remainingTime > 0)
  }

  /** What one interval callback does: how many ticks, the new reference, and whether it clears the store's flag. */
  datatype IntervalStep = IntervalStep(ticks: nat, next: Offline, clearsFlag: bool)

  /** The interval callback on the reference. */
  function Step(o: Offline): IntervalStep
  {
    if o.processingOffline && o.remainingTime > 0 then
      var tickTime := TICK_INTERVAL * OFFLINE_SPEED_MULTIPLIER;
      var timeToProcess := if tickTime < o.remainingTime then tickTime else o.remainingTime;
      var remaining := o.remainingTime - timeToProcess;
      IntervalStep(CeilDiv(timeToProcess, TICK_INTERVAL),
                   Offline(remaining, if remaining <= 0 then false else o.processingOffline), remaining <= 0)
    else IntervalStep(1, o, false)
  }

  /** A call of the store's `tick` on a state, drawing from a stream of random numbers. */
  type Ticker = (GameState, nat -> real) -> TickOutcome

  /**
   * The store's `tick` at the clock `now`, where `TickReady` holds. Ticks keep it, and so
   * does the unpause after a prestige to tier 1, but not the unpause after a prestige to
   * tier 2, where the source's fill time is NaN. The else branch only makes the function
   * total: the source has no such case, and the loop's methods require `TickReady`.
   */
  function TickAt(now: int): Ticker
  {
    (x: GameState, r: nat -> real) => if TickReady(x) then TickState(x, now, r) else TickOutcome(x, [])
  }

  /** `n` calls of `tick` in a row, call `k` drawing from `rolls(k)`, with all the rows they schedule. */
  function RunTicks(tick: Ticker, s: GameState, n: nat, rolls: nat -> nat -> real): TickOutcome
  {
    if n == 0 then TickOutcome(s, [])
    else
      var prev := RunTicks(tick, s, n - 1, rolls);
      var o := tick(prev.state, rolls(n - 1));
      TickOutcome(o.state, prev.scheduled + o.scheduled)
  }

  /** What the store becomes in one interval callback. */
  function IntervalState(s: GameState, o: Offline, now: int, rolls: nat -> nat -> real): TickOutcome
  {
    var step := Step(o);
    var run := RunTicks(TickAt(now), s, step.ticks, rolls);
    if step.clearsFlag then TickOutcome(run.state.(isProcessingOffline := false), run.scheduled) else run
  }

  // ---- The offline budget ----

  /** On a fresh reference, offline time is queued exactly for an absence of more than five seconds, and then all of it. */
  lemma MountIff(lastUpdate: int, now: int)
    ensures var m := Mounted(Offline(0, false), lastUpdate, now);
            (m.processingOffline <==> now - lastUpdate > OFFLINE_THRESHOLD)
            && m.remainingTime == if m.processingOffline then now - lastUpdate else 0
  {
  }

  /** Mounting keeps the reference consistent. */
  lemma MountKeepsOk(ref: Offline, lastUpdate: int, now: int)
    requires OfflineOk(ref)
    ensures OfflineOk(Mounted(ref, lastUpdate, now))
  {
  }

  /**
   * While offline time is left, an interval works off `min(6000, remaining)` of it in
   * between 1 and 60 ticks, one per started 100 ms, and turns offline processing off
   * exactly when nothing is left; otherwise it is one tick and nothing changes.
   */
  lemma StepBudget(o: Offline)
    requires OfflineOk(o)
    ensures var st := Step(o);
            OfflineOk(st.next)
            && (o.processingOffline ==>
                  var t := if o.remainingTime < 6000 then o.remainingTime else 6000;
                  1 <= st.ticks <= OFFLINE_SPEED_MULTIPLIER
                  && st.ticks * TICK_INTERVAL >= t && (st.ticks - 1) * TICK_INTERVAL < t
                  && st.next.remainingTime == o.remainingTime - t
                  && (st.clearsFlag <==> st.next.remainingTime == 0)
                  && (st.clearsFlag <==> !st.next.processingOffline))
            && (!o.processingOffline ==> st == IntervalStep(1, o, false))
  {
    if o.processingOffline {
      var t := if o.remainingTime < 6000 then o.remainingTime else 6000;
      CeilDivMeaning(t, TICK_INTERVAL);
      assert CeilDiv(t, 100) <= 60;
    }
  }

  /** `k` interval callbacks in a row: the ticks they run in all, and the reference after them. */
  function Drain(o: Offline, k: nat): (nat, Offline)
    decreases k
  {
    if k == 0 then (0, o)
    else
      var st := Step(o);
      var rest := Drain(st.next, k - 1);
      (st.ticks + rest.0, rest.1)
  }

  /**
   * Offline time `r` is worked off in exactly `ceil(r / 6000)` intervals, which run
   * `ceil(r / 100)` ticks in all; offline processing stays on until the last of them.
   */
  lemma {:induction false} DrainsExactly(r: nat)
    requires r > 0
    ensures Drain(Offline(r, true), CeilDiv(r, 6000)) == (CeilDiv(r, TICK_INTERVAL), Offline(0, false))
    ensures forall k :: 0 <= k < CeilDiv(r, 6000) ==> Drain(Offline(r, true), k).1.processingOffline
  {
    if r <= 6000 {
      assert CeilDiv(r, 6000) == 1;
      assert Drain(Offline(r, true), 0).1 == Offline(r, true);
    } else {
      DrainsExactly(r - 6000);
      assert CeilDiv(r, 6000) == 1 + CeilDiv(r - 6000, 6000);
      assert CeilDiv(r, TICK_INTERVAL) == 60 + CeilDiv(r - 6000, TICK_INTERVAL);
      assert Step(Offline(r, true)) == IntervalStep(60, Offline(r - 6000, true), false);
      forall k | 0 <= k < CeilDiv(r, 6000)
        ensures Drain(Offline(r, true), k).1.processingOffline
      {
        if k > 0 {
          assert Drain(Offline(r, true), k).1 == Drain(Offline(r - 6000, true), k - 1).1;
        }
      }
    }
  }

  /** Once drained, every interval is one normal tick. */
  lemma DrainedIsOnline(o: Offline)
    requires OfflineOk(o) && !o.processingOffline
    ensures Step(o) == IntervalStep(1, o, false)
    ensures o.remainingTime == 0
  {
  }

  // ---- What a burst does to the store ----

  /** Two states alike but for the unlock list. */
  predicate SameButUnlocks(a: GameState, b: GameState)
  {
    a.(unlockedUpgrades := b.unlockedUpgrades) == b
  }

  lemma SameButUnlocksTrans(a: GameState, b: GameState, c: GameState)
    requires SameButUnlocks(a, b) && SameButUnlocks(b, c)
    ensures SameButUnlocks(a, c)
  {
  }

  /** `tick` never touches the store's offline flag. */
  ghost predicate KeepsFlag(tick: Ticker)
  {
    forall x, r :: tick(x, r).state.isProcessingOffline == x.isProcessingOffline
  }

  /** `tick` keeps the store ready for the next tick. */
  ghost predicate KeepsReady(tick: Ticker)
  {
    forall x, r :: TickReady(x) ==> TickReady(tick(x, r).state)
  }

  /** From a good state at or before `now`, `tick` leaves a good state updated at `now`. */
  ghost predicate SettlesAt(tick: Ticker, now: int)
  {
    forall x, r :: Inv(x) && TickReady(x) && x.lastUpdate <= now ==>
      Inv(tick(x, r).state) && TickReady(tick(x, r).state) && tick(x, r).state.lastUpdate == now
  }

  /** On a good state already updated at `now`, `tick` schedules nothing and changes nothing but the unlocks. */
  ghost predicate IdleAt(tick: Ticker, now: int)
  {
    forall x, r :: Inv(x) && TickReady(x) && x.lastUpdate == now ==>
      tick(x, r).scheduled == [] && SameButUnlocks(tick(x, r).state, x)
  }

  /** A tick at the clock of the previous one schedules nothing and changes nothing but the unlock list. */
  lemma RepeatedTickIsIdle(s: GameState, rolls: nat -> real)
    requires Inv(s) && TickReady(s)
    ensures var o := TickState(s, s.lastUpdate, rolls);
            o.scheduled == [] && SameButUnlocks(o.state, s)
  {
    if !s.isPaused {
      ZeroElapsedTickIsIdle(s, rolls);
    }
  }

  /** The store's tick keeps the flag and readiness. */
  lemma TickAtKeepsFlagAndReady(now: int)
    ensures KeepsFlag(TickAt(now)) && KeepsReady(TickAt(now))
  {
    forall x, r ensures TickAt(now)(x, r).state.isProcessingOffline == x.isProcessingOffline
                        && (TickReady(x) ==> TickReady(TickAt(now)(x, r).state))
    {
      if TickReady(x) {
        TickFrame(x, now, r);
        TickKeepsReady(x, now, r);
      }
    }
  }

  /** The store's tick settles at its clock. */
  lemma TickAtSettles(now: int)
    ensures SettlesAt(TickAt(now), now)
  {
    forall x, r | Inv(x) && TickReady(x) && x.lastUpdate <= now
      ensures Inv(TickAt(now)(x, r).state) && TickReady(TickAt(now)(x, r).state)
              && TickAt(now)(x, r).state.lastUpdate == now
    {
      TickKeepsInv(x, now, r);
      TickKeepsReady(x, now, r);
      TickFrame(x, now, r);
    }
  }

  /** The store's tick is idle at its clock. */
  lemma TickAtIdle(now: int)
    ensures IdleAt(TickAt(now), now)
  {
    forall x, r | Inv(x) && TickReady(x) && x.lastUpdate == now
      ensures TickAt(now)(x, r).scheduled == [] && SameButUnlocks(TickAt(now)(x, r).state, x)
    {
      RepeatedTickIsIdle(x, r);
    }
  }

  /** A run of a flag-keeping tick keeps the flag. */
  lemma {:induction false} RunTicksKeepsFlag(tick: Ticker, s: GameState, n: nat, rolls: nat -> nat -> real)
    requires KeepsFlag(tick)
    ensures RunTicks(tick, s, n, rolls).state.isProcessingOffline == s.isProcessingOffline
  {
    if n > 0 {
      RunTicksKeepsFlag(tick, s, n - 1, rolls);
    }
  }

  /** A run of a readiness-keeping tick keeps readiness. */
  lemma {:induction false} RunTicksKeepsReady(tick: Ticker, s: GameState, n: nat, rolls: nat -> nat -> real)
    requires KeepsReady(tick) && TickReady(s)
    ensures TickReady(RunTicks(tick, s, n, rolls).state)
  {
    if n > 0 {
      RunTicksKeepsReady(tick, s, n - 1, rolls);
    }
  }

  /** For a tick that settles and then idles at `now`, a run of `n >= 1` calls is worth its first call. */
  lemma {:induction false} RunIsFirstTick(tick: Ticker, now: int, s: GameState, n: nat, rolls: nat -> nat -> real)
    requires SettlesAt(tick, now) && IdleAt(tick, now)
    requires Inv(s) && TickReady(s) && s.lastUpdate <= now && n >= 1
    ensures var first, r := tick(s, rolls(0)), RunTicks(tick, s, n, rolls);
            r.scheduled == first.scheduled && SameButUnlocks(r.state, first.state)
            && Inv(r.state) && TickReady(r.state) && r.state.lastUpdate == now
  {
    if n == 1 {
      assert RunTicks(tick, s, 0, rolls) == TickOutcome(s, []);
      assert [] + tick(s, rolls(0)).scheduled == tick(s, rolls(0)).scheduled;
    } else {
      RunIsFirstTick(tick, now, s, n - 1, rolls);
      var prev := RunTicks(tick, s, n - 1, rolls);
      var o := tick(prev.state, rolls(n - 1));
      assert prev.scheduled + o.scheduled == prev.scheduled;
      SameButUnlocksTrans(o.state, prev.state, tick(s, rolls(0)).state);
    }
  }

  /**
   * A burst of ticks at one clock is worth one tick: the first is paid for all the time
   * since the last update, and the others only rescan the unlocks. So the offline burst
   * advances the game no further than its first tick does.
   */
  lemma BurstIsOneTick(s: GameState, n: nat, now: int, rolls: nat -> nat -> real)
    requires Inv(s) && TickReady(s) && s.lastUpdate <= now && n >= 1
    ensures var first, r := TickState(s, now, rolls(0)), RunTicks(TickAt(now), s, n, rolls);
            r.scheduled == first.scheduled && SameButUnlocks(r.state, first.state)
            && Inv(r.state) && r.state.lastUpdate == now
  {
    TickAtSettles(now);
    TickAtIdle(now);
    RunIsFirstTick(TickAt(now), now, s, n, rolls);
    assert TickAt(now)(s, rolls(0)) == TickState(s, now, rolls(0));
  }

  /** The store's flag follows the reference's through every interval. */
  lemma IntervalKeepsFlagInStep(s: GameState, o: Offline, now: int, rolls: nat -> nat -> real)
    requires OfflineOk(o) && s.isProcessingOffline == o.processingOffline
    ensures IntervalState(s, o, now, rolls).state.isProcessingOffline == Step(o).next.processingOffline
  {
    TickAtKeepsFlagAndReady(now);
    RunTicksKeepsFlag(TickAt(now), s, Step(o).ticks, rolls);
    StepBudget(o);
  }

  /** `useGameLoop`: the reference and the store it ticks. */
  class Loop {
    var remainingTime: int
    var processingOffline: bool
    const game: Game

    constructor (game: Game)
      ensures this.game == game && remainingTime == 0 && !processingOffline
    {
      this.game := game;
      remainingTime := 0;
      processingOffline := false;
    }

    function Ref(): Offline
      reads this
    {
      Offline(remainingTime, processingOffline)
    }

    /** The mount effect at time `now`. */
    method Mount(now: int)
      modifies this, game
      ensures Ref() == Mounted(old(Ref()), old(game.state.lastUpdate), now)
      ensures game.state == if now - old(game.state.lastUpdate) > OFFLINE_THRESHOLD
                            then old(game.state).(isProcessingOffline := true) else old(game.state)
    {
      var lastUpdate := game.state.lastUpdate;
      var offlineTime := now - lastUpdate;
      if offlineTime > OFFLINE_THRESHOLD {
        remainingTime := offlineTime;
        processingOffline := true;
        game.SetProcessingOffline(true);
      }
    }

    /** The interval callback at time `now`; tick `k` of it draws from `rolls(k)`. */
    method Interval(now: int, rolls: nat -> nat -> real) returns (scheduled: seq<nat>)
      requires TickReady(game.state)
      modifies this, game
      ensures Ref() == Step(old(Ref())).next
      ensures TickOutcome(game.state, scheduled) == IntervalState(old(game.state), old(Ref()), now, rolls)
    {
      ghost var s0 := game.state;
      scheduled := [];
      if processingOffline && remainingTime > 0 {
        var tickTime := TICK_INTERVAL * OFFLINE_SPEED_MULTIPLIER;
        var timeToProcess := if tickTime < remainingTime then tickTime else remainingTime;
        var ticksToRun := CeilDiv(timeToProcess, TICK_INTERVAL);
        for i := 0 to ticksToRun
          modifies game
          invariant TickReady(game.state)
          invariant TickOutcome(game.state, scheduled) == RunTicks(TickAt(now), s0, i, rolls)
        {
          ghost var before := game.state;
          var more := game.Tick(now, rolls(i));
          assert TickAt(now)(before, rolls(i)) == TickState(before, now, rolls(i));
          TickKeepsReady(before, now, rolls(i));
          scheduled := scheduled + more;
        }
        remainingTime := remainingTime - timeToProcess;
        if remainingTime <= 0 {
          processingOffline := false;
          game.SetProcessingOffline(false);
        }
      } else {
        scheduled := game.Tick(now, rolls(0));
        assert TickAt(now)(s0, rolls(0)) == TickState(s0, now, rolls(0));
        assert RunTicks(TickAt(now), s0, 0, rolls) == TickOutcome(s0, []);
        assert [] + scheduled == scheduled;
      }
    }
  }
}
