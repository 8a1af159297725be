/** The in-game clock (src/ecs/systems/time.ts): minutes of the day and days passed. */
module GameTime {
  import opened Wrappers
  import opened Js

  const MinutesPerDay: real := 1440.0
  const DefaultRealMinutesPerGameDay: real := 15.0
  const DefaultStartMinutes: real := 240.0

  /**
   * `normalizeMinutes`: `((m % 1440) + 1440) % 1440` with JavaScript's
   * truncating `%`. The result is the floored remainder: in [0, 1440) and a
   * whole number of days away from `m`.
   */
  function NormalizeMinutes(m: real): (r: real)
    ensures 0.0 <= r < MinutesPerDay
    ensures r + MinutesPerDay * ((m / MinutesPerDay).Floor as real) == m
  {
    var once := Rem(m, MinutesPerDay);
    var r := Rem(once + MinutesPerDay, MinutesPerDay);
    assert r + MinutesPerDay * ((m / MinutesPerDay).Floor as real) == m by {
      FlooredRemainder(m);
    }
    r
  }

  lemma FlooredRemainder(m: real)
    ensures var r := Rem(Rem(m, MinutesPerDay) + MinutesPerDay, MinutesPerDay);
      0.0 <= r < MinutesPerDay && r + MinutesPerDay * ((m / MinutesPerDay).Floor as real) == m
  {
    var q := (m / MinutesPerDay).Floor;
    var once := Rem(m, MinutesPerDay);
    if m >= 0.0 {
      assert Trunc(m / MinutesPerDay) == q;
      assert once == m - MinutesPerDay * (q as real);
      assert Trunc((once + MinutesPerDay) / MinutesPerDay) == 1;
    } else {
      var n := (-m / MinutesPerDay).Floor;
      assert once == m + MinutesPerDay * (n as real);
      if once == 0.0 {
        assert q == -n;
        assert Trunc((once + MinutesPerDay) / MinutesPerDay) == 1;
      } else {
        assert q == -n - 1;
        assert Trunc((once + MinutesPerDay) / MinutesPerDay) == 0;
      }
    }
  }

  /** Normalizing a time already within the day changes nothing. */
  lemma NormalizeWithinDay(m: real)
    requires 0.0 <= m < MinutesPerDay
    ensures NormalizeMinutes(m) == m
  {
    assert (m / MinutesPerDay).Floor == 0;
  }

  /** The clock as the system leaves it. */
  datatype Clock = Clock(minutes: real, daysPassed: int)

  /** `resolveGameMinutesPerSecond`: a game day lasts `realMinutesPerDay` real minutes. */
  function GameMinutesPerSecond(realMinutesPerDay: real): real
    requires realMinutesPerDay != 0.0
  {
    MinutesPerDay / (realMinutesPerDay * 60.0)
  }

  /** The game minutes that pass in `dt` real seconds. */
  function Elapsed(realMinutesPerDay: real, dt: real): real
    requires realMinutesPerDay != 0.0
  {
    dt * GameMinutesPerSecond(realMinutesPerDay)
  }

  /**
   * One run of the time system: the clock moves on by `elapsed` game
   * minutes; when it reaches the end of the day, the whole days crossed are
   * added to `daysPassed`, and the minutes wrap into the day.
   */
  function Advance(c: Clock, elapsed: real): Clock
  {
    var next := c.minutes + elapsed;
    var days := if next >= MinutesPerDay then c.daysPassed + (next / MinutesPerDay).Floor else c.daysPassed;
    Clock(NormalizeMinutes(next), days)
  }

  /** The time of day stays within the day, and days are never taken away, whatever `dt` is. */
  lemma AdvanceKeepsClockValid(c: Clock, elapsed: real)
    ensures var c' := Advance(c, elapsed);
      0.0 <= c'.minutes < MinutesPerDay && c'.daysPassed >= c.daysPassed
  {
    var next := c.minutes + elapsed;
    if next >= MinutesPerDay {
      assert (next / MinutesPerDay).Floor >= 1;
    }
  }

  /** Total game minutes elapsed since day 0 at midnight. */
  function TotalMinutes(c: Clock): real {
    (c.daysPassed as real) * MinutesPerDay + c.minutes
  }

  /**
   * No game time is lost: when the clock does not run back before midnight
   * (always so for a valid clock and a non-negative step), the total time
   * grows by exactly `dt` seconds at the game's rate.
   */
  lemma AdvanceAddsElapsedTime(c: Clock, elapsed: real)
    requires !(c.minutes + elapsed < 0.0)
    ensures TotalMinutes(Advance(c, elapsed)) == TotalMinutes(c) + elapsed
  {
    var next := c.minutes + elapsed;
    if next < MinutesPerDay {
      NormalizeWithinDay(next);
    }
  }

  /** Moving forward from a valid clock never runs back before midnight. */
  lemma ForwardStepStaysAfterMidnight(c: Clock, realMinutesPerDay: real, dt: real)
    requires realMinutesPerDay > 0.0 && !(dt < 0.0) && !(c.minutes < 0.0)
    ensures !(c.minutes + Elapsed(realMinutesPerDay, dt) < 0.0)
  {
    NonNegativeProduct(dt, GameMinutesPerSecond(realMinutesPerDay));
  }

  lemma NonNegativeProduct(a: real, b: real)
    requires !(a < 0.0) && b > 0.0
    ensures !(a * b < 0.0)
  {
    if a > 0.0 {
      assert a * b > 0.0;
    }
  }

  /**
   * A day of 15 real minutes runs at 1.6 game minutes per second: a minute
   * from midnight reaches 01:36. A day of 24 real minutes from 23:50 runs
   * 20 seconds into 00:10 of the next day.
   */
  lemma AdvanceExamples()
    ensures Advance(Clock(0.0, 0), Elapsed(15.0, 60.0)) == Clock(96.0, 0)
    ensures Advance(Clock(1430.0, 0), Elapsed(24.0, 20.0)) == Clock(10.0, 1)
  {
    assert Elapsed(15.0, 60.0) == 96.0;
    NormalizeWithinDay(96.0);
    assert Elapsed(24.0, 20.0) == 20.0;
    assert (1450.0 / MinutesPerDay).Floor == 1;
  }

  /** The clock state shared by the time system and the displays that read it. */
  class GameTimeState {
    var minutes: real
    var daysPassed: int

    function Value(): Clock
      reads this
    {
      Clock(minutes, daysPassed)
    }

    /** `createGameTimeState(startMinutes = 240)`: day 0, at the start time wrapped into the day. */
    constructor (startMinutes: Option<real>)
      ensures Value() == Clock(NormalizeMinutes(startMinutes.GetOr(DefaultStartMinutes)), 0)
    {
      minutes := NormalizeMinutes(startMinutes.GetOr(DefaultStartMinutes));
      daysPassed := 0;
    }
  }

  /**
   * `createTimeSystem(state, config)(world, dt)`: advances the shared clock
   * by `dt` seconds; `realMinutesPerDay` defaults to 15.
   */
  method TimeSystem(state: GameTimeState, realMinutesPerDay: Option<real>, dt: real)
    requires realMinutesPerDay.GetOr(DefaultRealMinutesPerGameDay) != 0.0
    modifies state
    ensures state.Value() == Advance(old(state.Value()), Elapsed(realMinutesPerDay.GetOr(DefaultRealMinutesPerGameDay), dt))
  {
    var realMinutes := realMinutesPerDay.GetOr(DefaultRealMinutesPerGameDay);
    var nextMinutes := state.minutes + Elapsed(realMinutes, dt);
    if nextMinutes >= MinutesPerDay {
      state.daysPassed := state.daysPassed + (nextMinutes / MinutesPerDay).Floor;
    }
    state.minutes := NormalizeMinutes(nextMinutes);
  }
}
