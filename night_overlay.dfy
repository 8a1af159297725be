/**
 * The night overlay (src/render/nightOverlay.ts): a full-screen shade whose
 * opacity follows the time of day, fading in after nightfall and out before
 * dawn.
 */
module NightOverlay {
  import opened Wrappers
  import opened GameTime

  const DefaultNightStart: real := 1200.0
  const DefaultNightEnd: real := 300.0
  const DefaultNightTransition: real := 60.0
  const DefaultNightAlpha: real := 0.6

  /** `diffMinutes`: how many minutes after `from` the clock next shows `to`. */
  function DiffMinutes(from: real, to: real): (r: real)
    ensures 0.0 <= r < MinutesPerDay
  {
    NormalizeMinutes(to - from)
  }

  /**
   * Going round the clock from `from` past `via` to `to`: when `via` comes
   * before `to`, the two legs add up to the whole way.
   */
  lemma DistancesAddUp(from: real, via: real, to: real)
    requires DiffMinutes(from, via) < DiffMinutes(from, to)
    ensures DiffMinutes(from, via) + DiffMinutes(via, to) == DiffMinutes(from, to)
  {
    var a := ((via - from) / MinutesPerDay).Floor;
    var b := ((to - via) / MinutesPerDay).Floor;
    var c := ((to - from) / MinutesPerDay).Floor;
    var k := c - a - b;
    assert DiffMinutes(from, via) + DiffMinutes(via, to) == DiffMinutes(from, to) + MinutesPerDay * (k as real);
  }

  function Min(a: real, b: real): real { if a <= b then a else b }
  function Max(a: real, b: real): real { if a >= b then a else b }

  /**
   * `resolveNightAlpha`: the darkness, from 0 (day) to 1 (deep night), at
   * `minutes`, for a night from `start` to `end` (possibly across midnight)
   * that fades over `transitionMinutes` at each end, the fade capped at half
   * the night.
   */
  function ResolveNightAlpha(minutes: real, start: real, end: real, transitionMinutes: real): real
  {
    var duration := DiffMinutes(start, end);
    if duration == 0.0 then 1.0
    else
      var distFromStart := DiffMinutes(start, minutes);
      if distFromStart >= duration then 0.0
      else
        var distToEnd := DiffMinutes(minutes, end);
        var transition := Min(Max(transitionMinutes, 0.0), duration / 2.0);
        if transition <= 0.0 then 1.0
        else if distFromStart < transition then distFromStart / transition
        else if distToEnd < transition then distToEnd / transition
        else 1.0
  }

  /** The darkness is always between 0 and 1. */
  lemma AlphaInUnitRange(minutes: real, start: real, end: real, transitionMinutes: real)
    ensures var a := ResolveNightAlpha(minutes, start, end, transitionMinutes);
      !(a < 0.0) && !(a > 1.0)
  {
    var duration := DiffMinutes(start, end);
    var distFromStart := DiffMinutes(start, minutes);
    var distToEnd := DiffMinutes(minutes, end);
    var transition := Min(Max(transitionMinutes, 0.0), duration / 2.0);
    if duration != 0.0 && distFromStart < duration && transition > 0.0 {
      if distFromStart < transition {
        RatioInUnitRange(distFromStart, transition);
      } else if distToEnd < transition {
        RatioInUnitRange(distToEnd, transition);
      }
    }
  }

  lemma RatioInUnitRange(d: real, t: real)
    requires !(d < 0.0) && d < t
    ensures !(d / t < 0.0) && d / t < 1.0
  {
  }

  /**
   * Outside the night (from `end` up to `start`) there is no shade; a night
   * that starts and ends at the same minute is dark all day, and so is the
   * whole night when there is no transition (a ramp of zero minutes or less).
   */
  lemma DayIsClear(minutes: real, start: real, end: real, transitionMinutes: real)
    ensures DiffMinutes(start, end) == 0.0 ==> ResolveNightAlpha(minutes, start, end, transitionMinutes) == 1.0
    ensures DiffMinutes(start, end) != 0.0 && DiffMinutes(start, minutes) >= DiffMinutes(start, end) ==>
      ResolveNightAlpha(minutes, start, end, transitionMinutes) == 0.0
    ensures DiffMinutes(start, end) != 0.0 && DiffMinutes(start, minutes) < DiffMinutes(start, end) && !(transitionMinutes > 0.0) ==>
      ResolveNightAlpha(minutes, start, end, transitionMinutes) == 1.0
  {
  }

  function Min3(a: real, b: real, c: real): real { Min(a, Min(b, c)) }

  /**
   * During the night the shade is the smaller of full darkness and the two
   * linear ramps: rising from nightfall, falling towards dawn, each as long
   * as the transition.
   */
  lemma AlphaIsRampedNight(minutes: real, start: real, end: real, transitionMinutes: real)
    requires DiffMinutes(start, end) != 0.0 && DiffMinutes(start, minutes) < DiffMinutes(start, end)
    requires transitionMinutes > 0.0
    ensures var duration := DiffMinutes(start, end);
      var t := Min(transitionMinutes, duration / 2.0);
      ResolveNightAlpha(minutes, start, end, transitionMinutes)
        == Min3(1.0, DiffMinutes(start, minutes) / t, DiffMinutes(minutes, end) / t)
  {
    var duration := DiffMinutes(start, end);
    var dfs := DiffMinutes(start, minutes);
    var dte := DiffMinutes(minutes, end);
    var t := Min(transitionMinutes, duration / 2.0);
    DistancesAddUp(start, minutes, end);
    assert t > 0.0;
    RatioAgainstOne(dfs, t);
    RatioAgainstOne(dte, t);
    if dfs < t {
      assert dte > t;
      RatioOrder(dfs, dte, t);
    } else if dte < t {
      RatioOrder(dte, dfs, t);
    }
  }

  lemma RatioAgainstOne(d: real, t: real)
    requires t > 0.0
    ensures d < t <==> d / t < 1.0
  {
  }

  lemma RatioOrder(d: real, e: real, t: real)
    requires t > 0.0 && d < e
    ensures d / t < e / t
  {
  }

  /**
   * Night 20:00 to 05:00 with one-hour fades, at most 0.6 dark: 20:00 gives 0,
   * 20:30 gives 0.3, 21:00 gives 0.6, 04:30 gives 0.3 and noon gives 0.
   */
  lemma AlphaExamples()
    ensures ResolveNightAlpha(1200.0, 1200.0, 300.0, 60.0) * 0.6 == 0.0
    ensures ResolveNightAlpha(1230.0, 1200.0, 300.0, 60.0) * 0.6 == 0.3
    ensures ResolveNightAlpha(1260.0, 1200.0, 300.0, 60.0) * 0.6 == 0.6
    ensures ResolveNightAlpha(270.0, 1200.0, 300.0, 60.0) * 0.6 == 0.3
    ensures ResolveNightAlpha(720.0, 1200.0, 300.0, 60.0) * 0.6 == 0.0
  {
    NormalizeWithinDay(540.0);
    NormalizeWithinDay(0.0);
    NormalizeWithinDay(30.0);
    NormalizeWithinDay(60.0);
    NormalizeWithinDay(30.0);
    NormalizeWithinDay(480.0);
    assert DiffMinutes(1200.0, 300.0) == 540.0 by { assert ((300.0 - 1200.0) / MinutesPerDay).Floor == -1; }
    assert DiffMinutes(1200.0, 270.0) == 510.0 by { assert ((270.0 - 1200.0) / MinutesPerDay).Floor == -1; }
    assert DiffMinutes(270.0, 300.0) == 30.0;
    assert DiffMinutes(1200.0, 720.0) == 960.0 by { assert ((720.0 - 1200.0) / MinutesPerDay).Floor == -1; }
  }

  datatype Size = Size(width: real, height: real)

  /** The overlay graphic: position, opacity, and the size of the rectangle its `layout` last drew. */
  class Overlay {
    var x: real
    var y: real
    var alpha: real
    var drawnSize: Option<Size>
    const color: int

    /** `createOverlay`: a transparent overlay of the store's colour. */
    constructor (color: int)
      ensures this.color == color && alpha == 0.0 && x == 0.0 && y == 0.0 && drawnSize.None?
    {
      this.color := color;
      x, y, alpha, drawnSize := 0.0, 0.0, 0.0, None;
    }

    /** `layout(width, height)`: redraws the filled rectangle at the origin. */
    method Layout(width: real, height: real)
      modifies this
      ensures drawnSize == Some(Size(width, height))
      ensures x == old(x) && y == old(y) && alpha == old(alpha)
    {
      drawnSize := Some(Size(width, height));
    }
  }

  /** `createNightOverlayStore(container, { color })`: the overlay once created, and what was added to the container. */
  class OverlayStore {
    var overlay: Option<Overlay>
    var attached: seq<Overlay>
    const color: int

    ghost predicate Valid()
      reads this
    {
      attached == (if overlay.Some? then [overlay.value] else [])
    }

    function Current(): set<Overlay>
      reads this
    {
      if overlay.Some? then {overlay.value} else {}
    }

    /** The colour defaults to black. */
    constructor (color: Option<int>)
      ensures Valid() && overlay.None? && this.color == color.GetOr(0)
    {
      overlay, attached := None, [];
      this.color := color.GetOr(0);
    }
  }

  /** `ensureOverlay`: the stored overlay, or a new transparent one, stored and added to the container. */
  method EnsureOverlay(store: OverlayStore) returns (o: Overlay)
    requires store.Valid()
    modifies store
    ensures store.Valid() && store.overlay == Some(o)
    ensures old(store.overlay).Some? ==> o == old(store.overlay).value && store.attached == old(store.attached)
    ensures old(store.overlay).None? ==> fresh(o) && o.alpha == 0.0 && o.color == store.color
  {
    if store.overlay.Some? {
      return store.overlay.value;
    }
    o := new Overlay(store.color);
    store.overlay := Some(o);
    store.attached := store.attached + [o];
  }

  /** The options of the night overlay system; absent fields take the defaults. */
  datatype NightOverlayOptions = NightOverlayOptions(
    nightStartMinutes: Option<real>, nightEndMinutes: Option<real>,
    transitionMinutes: Option<real>, alpha: Option<real>,
    x: Option<real>, y: Option<real>)

  /** The overlay's opacity at `minutes`: the darkness scaled by the night's full opacity. */
  function OverlayAlpha(minutes: real, options: NightOverlayOptions): real {
    ResolveNightAlpha(minutes,
      options.nightStartMinutes.GetOr(DefaultNightStart), options.nightEndMinutes.GetOr(DefaultNightEnd),
      options.transitionMinutes.GetOr(DefaultNightTransition)) * options.alpha.GetOr(DefaultNightAlpha)
  }

  /**
   * Whatever the night window and ramp, the overlay is never less opaque
   * than clear and never more opaque than the night's full opacity.
   */
  lemma OverlayAlphaBounded(minutes: real, start: real, end: real, transitionMinutes: real, maxAlpha: real)
    requires !(maxAlpha < 0.0)
    ensures var a := ResolveNightAlpha(minutes, start, end, transitionMinutes);
      !(a * maxAlpha < 0.0) && !(a * maxAlpha > maxAlpha)
  {
    AlphaInUnitRange(minutes, start, end, transitionMinutes);
    ScaleWithinUnit(ResolveNightAlpha(minutes, start, end, transitionMinutes), maxAlpha);
  }

  lemma ScaleWithinUnit(a: real, m: real)
    requires !(a < 0.0) && !(a > 1.0) && !(m < 0.0)
    ensures !(a * m < 0.0) && !(a * m > m)
  {
    if a > 0.0 && m > 0.0 {
      assert a * m > 0.0;
      assert m - a * m == (1.0 - a) * m;
      if a < 1.0 {
        assert (1.0 - a) * m > 0.0;
      }
    }
  }

  /**
   * `createNightOverlaySystem(time, store, options)(world, dt)`: places and
   * sizes the overlay and sets its opacity from the clock. `size` is what
   * the optional `sizeProvider` returns, absent without one.
   */
  method NightOverlaySystem(time: GameTimeState, store: OverlayStore, options: NightOverlayOptions, size: Option<Size>)
    requires store.Valid()
    modifies store, store.Current()
    ensures store.Valid() && store.overlay.Some?
    ensures old(store.overlay).Some? ==> store.overlay == old(store.overlay) && store.attached == old(store.attached)
    ensures var o := store.overlay.value;
      && o.x == options.x.GetOr(0.0) && o.y == options.y.GetOr(0.0)
      && o.drawnSize == Some(size.GetOr(Size(0.0, 0.0)))
      && o.alpha == OverlayAlpha(time.minutes, options)
  {
    var overlay := EnsureOverlay(store);
    var drawSize := size.GetOr(Size(0.0, 0.0));
    overlay.x := options.x.GetOr(0.0);
    overlay.y := options.y.GetOr(0.0);
    overlay.Layout(drawSize.width, drawSize.height);
    overlay.alpha := OverlayAlpha(time.minutes, options);
  }
}
