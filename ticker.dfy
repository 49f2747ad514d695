/**
  The menu cursor with accelerating key-repeat (`MenuTicker` in
  pf_sandbox/src/menu.rs).

  `TickerState` and the functions on it say what one call does; the class
  `MenuTicker` updates its fields in place and is proved against them.
*/
module Ticker {
  import opened Wrappers

  /** Frames to wait before each repeat while a direction stays held. */
  const TickDurations: seq<nat> := [20, 12, 10, 8, 6, 5]

  datatype TickerState = TickerState(
    cursor: nat,
    cursorMax: nat,
    ticksRemaining: nat,
    tickDurationI: nat,
    reset: bool)

  /** The ticker's invariant: the cursor is in range, the duration index
      addresses `TickDurations`, and a running countdown is at least 1, so the
      source's `usize` decrement never wraps. */
  predicate Wf(t: TickerState)
  {
    && t.cursor <= t.cursorMax
    && t.tickDurationI < |TickDurations|
    && (!t.reset ==> t.ticksRemaining >= 1)
  }

  /** `MenuTicker::new(item_count)`. */
  function NewTicker(itemCount: nat): (t: TickerState)
    ensures Wf(t)
    ensures t.cursor == 0 && t.reset
    ensures itemCount > 0 ==> t.cursorMax == itemCount - 1
    ensures itemCount == 0 ==> t.cursorMax == 0
  {
    TickerState(0, if itemCount > 0 then itemCount - 1 else 0, 0, 0, true)
  }

  /** `tick`: the new state, and whether the cursor may move on this frame. */
  function Ticked(t: TickerState): (r: (TickerState, bool))
    requires Wf(t)
    ensures Wf(r.0)
    ensures r.0.cursor == t.cursor && r.0.cursorMax == t.cursorMax && !r.0.reset
    ensures t.reset ==> r.1 && r.0.ticksRemaining == TickDurations[0] && r.0.tickDurationI == 0
    ensures !t.reset ==> (r.1 <==> t.ticksRemaining == 1)
    ensures !t.reset && !r.1 ==> r.0 == t.(ticksRemaining := t.ticksRemaining - 1)
    ensures !t.reset && r.1 ==> r.0 == Reloaded(t)
  {
    if t.reset then
      (t.(ticksRemaining := TickDurations[0], tickDurationI := 0, reset := false), true)
    else
      var remaining := t.ticksRemaining - 1;
      if remaining <= 0 then
        var i := if t.tickDurationI < |TickDurations| - 1 then t.tickDurationI + 1 else t.tickDurationI;
        (t.(ticksRemaining := TickDurations[t.tickDurationI], tickDurationI := i), true)
      else
        (t.(ticksRemaining := remaining), false)
  }

  /** The state a running countdown reaches when it fires: the next duration
      is loaded and the index moves on, stopping at the last one. */
  function Reloaded(t: TickerState): TickerState
    requires t.tickDurationI < |TickDurations|
  {
    t.(ticksRemaining := TickDurations[t.tickDurationI],
       tickDurationI := Min(t.tickDurationI + 1, |TickDurations| - 1))
  }

  /** `up`: on a tick, one step up, wrapping from 0 to `cursorMax`. */
  function MovedUp(t: TickerState): (r: TickerState)
    requires Wf(t)
    ensures Wf(r) && r.cursorMax == t.cursorMax
    ensures Ticked(t).1 && t.cursor == 0 ==> r.cursor == t.cursorMax
    ensures Ticked(t).1 && t.cursor > 0 ==> r.cursor == t.cursor - 1
    ensures !Ticked(t).1 ==> r.cursor == t.cursor
    ensures r.(cursor := t.cursor) == Ticked(t).0
  {
    var (u, ticked) := Ticked(t);
    if ticked then
      if u.cursor == 0 then u.(cursor := u.cursorMax) else u.(cursor := u.cursor - 1)
    else
      u
  }

  /** `down`: on a tick, one step down, wrapping from `cursorMax` to 0. */
  function MovedDown(t: TickerState): (r: TickerState)
    requires Wf(t)
    ensures Wf(r) && r.cursorMax == t.cursorMax
    ensures Ticked(t).1 && t.cursor == t.cursorMax ==> r.cursor == 0
    ensures Ticked(t).1 && t.cursor < t.cursorMax ==> r.cursor == t.cursor + 1
    ensures !Ticked(t).1 ==> r.cursor == t.cursor
    ensures r.(cursor := t.cursor) == Ticked(t).0
  {
    var (u, ticked) := Ticked(t);
    if ticked then
      if u.cursor == u.cursorMax then u.(cursor := 0) else u.(cursor := u.cursor + 1)
    else
      u
  }

  /** `reset`: only raises the flag, so the next tick fires at once. */
  function WithReset(t: TickerState): (r: TickerState)
    requires Wf(t)
    ensures Wf(r) && r.reset
    ensures r.(reset := t.reset) == t
  {
    t.(reset := true)
  }

  // ---------------------------------------------------------------------
  // The repeat schedule while a direction is held
  // ---------------------------------------------------------------------

  /** `n` consecutive ticks: the final state and what each tick returned. */
  function TickRun(t: TickerState, n: nat): (TickerState, seq<bool>)
    requires Wf(t)
    decreases n
  {
    if n == 0 then (t, [])
    else
      var step := Ticked(t);
      var rest := TickRun(step.0, n - 1);
      (rest.0, [step.1] + rest.1)
  }

  function Quiet(n: nat): seq<bool>
  {
    seq(n, _ => false)
  }

  /** A running countdown with `k` ticks remaining stays quiet for `k - 1`
      ticks and fires on the `k`-th, loading the next duration. */
  lemma {:induction false} CountdownFires(t: TickerState)
    requires Wf(t) && !t.reset
    ensures TickRun(t, t.ticksRemaining) == (Reloaded(t), Quiet(t.ticksRemaining - 1) + [true])
    decreases t.ticksRemaining
  {
    if t.ticksRemaining == 1 {
      assert Ticked(t) == (Reloaded(t), true);
      assert TickRun(Reloaded(t), 0) == (Reloaded(t), []);
      assert [true] + TickRun(Reloaded(t), 0).1 == [true];
      assert TickRun(t, 1) == (Reloaded(t), [true]);
      assert Quiet(0) + [true] == [true];
    } else {
      var u := t.(ticksRemaining := t.ticksRemaining - 1);
      assert Ticked(t) == (u, false);
      CountdownFires(u);
      assert TickRun(t, t.ticksRemaining) == (Reloaded(u), [false] + (Quiet(u.ticksRemaining - 1) + [true]));
      assert Reloaded(u) == Reloaded(t);
      assert [false] + (Quiet(u.ticksRemaining - 1) + [true]) == Quiet(t.ticksRemaining - 1) + [true];
    }
  }

  /** The gap before the `k`-th repeat after the first, immediate, tick:
      20, 20, 12, 10, 8, 6, 5, 5, ... */
  function Gap(k: nat): (g: nat)
    ensures g >= 5
    ensures k >= |TickDurations| ==> g == 5
  {
    if k == 0 then TickDurations[0] else TickDurations[Min(k - 1, |TickDurations| - 1)]
  }

  /** The state of a held ticker after `k` repeats: waiting `Gap(k)` ticks. */
  function AfterRepeats(t: TickerState, k: nat): TickerState
  {
    t.(ticksRemaining := Gap(k), tickDurationI := Min(k, |TickDurations| - 1), reset := false)
  }

  /** After a reset, the first tick fires at once and starts the schedule. */
  lemma FirstTickStartsSchedule(t: TickerState)
    requires Wf(t) && t.reset
    ensures Ticked(t) == (AfterRepeats(t, 0), true)
  {
  }

  /** While a direction stays held, the `k`-th gap is `Gap(k)` ticks long: quiet
      for `Gap(k) - 1` ticks, firing on the last, then waiting `Gap(k + 1)`. */
  lemma HeldRepeatSchedule(t: TickerState, k: nat)
    requires Wf(t)
    ensures Wf(AfterRepeats(t, k))
    ensures TickRun(AfterRepeats(t, k), Gap(k))
            == (AfterRepeats(t, k + 1), Quiet(Gap(k) - 1) + [true])
  {
    var s := AfterRepeats(t, k);
    CountdownFires(s);
    assert Reloaded(s) == AfterRepeats(t, k + 1);
  }

  // ---------------------------------------------------------------------
  // The ticker object
  // ---------------------------------------------------------------------

  class MenuTicker {
    var cursor: nat
    var cursorMax: nat
    var ticksRemaining: nat
    var tickDurationI: nat
    var reset: bool

    function Model(): TickerState
      reads this
    {
      TickerState(cursor, cursorMax, ticksRemaining, tickDurationI, reset)
    }

    ghost predicate Valid()
      reads this
    {
      Wf(Model())
    }

    constructor (itemCount: nat)
      ensures Valid() && Model() == NewTicker(itemCount)
    {
      cursor := 0;
      cursorMax := if itemCount > 0 then itemCount - 1 else 0;
      ticksRemaining := 0;
      tickDurationI := 0;
      reset := true;
    }

    method Tick() returns (fired: bool)
      requires Valid()
      modifies this
      ensures Valid()
      ensures (Model(), fired) == Ticked(old(Model()))
    {
      if reset {
        ticksRemaining := TickDurations[0];
        tickDurationI := 0;
        reset := false;
        fired := true;
      } else {
        ticksRemaining := ticksRemaining - 1;
        if ticksRemaining <= 0 {
          ticksRemaining := TickDurations[tickDurationI];
          if tickDurationI < |TickDurations| - 1 {
            tickDurationI := tickDurationI + 1;
          }
          fired := true;
        } else {
          fired := false;
        }
      }
    }

    method Up()
      requires Valid()
      modifies this
      ensures Valid() && Model() == MovedUp(old(Model()))
    {
      var fired := Tick();
      if fired {
        if cursor == 0 {
          cursor := cursorMax;
        } else {
          cursor := cursor - 1;
        }
      }
    }

    method Down()
      requires Valid()
      modifies this
      ensures Valid() && Model() == MovedDown(old(Model()))
    {
      var fired := Tick();
      if fired {
        if cursor == cursorMax {
          cursor := 0;
        } else {
          cursor := cursor + 1;
        }
      }
    }

    method Reset()
      requires Valid()
      modifies this`reset
      ensures Valid() && Model() == WithReset(old(Model()))
    {
      reset := true;
    }
  }
}
