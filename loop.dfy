/**
 * The frame loop (src/ecs/systems/loop.ts): runs the systems in order once
 * per animation frame, with the time since the previous frame in seconds.
 *
 * Systems are opaque callbacks; the model names each one and records the
 * calls the loop makes, in order. The host's `requestFrame` hands out frame
 * ids, here successive numbers, and `cancelFrame` is recorded.
 */
module FrameLoop {
  import opened Wrappers

  /** One call of a system, with the `dt` it received. */
  datatype Call = Call(system: string, dt: real)

  /** The loop's observable state. */
  datatype LoopState = LoopState(
    lastTimeMs: Option<real>,   // time of the previous step, unset before the first
    rafId: Option<nat>,         // the pending frame request while running
    frameRequests: nat,         // frames requested from the host so far
    cancelled: seq<nat>,        // frame ids handed to `cancelFrame`, in order
    calls: seq<Call>)           // system calls made so far, in order

  /** The calls `runSystems(dt)` makes: each system once, in list order. */
  function Dispatch(systems: seq<string>, dt: real): (r: seq<Call>)
    ensures |r| == |systems|
    ensures forall i | 0 <= i < |r| :: r[i] == Call(systems[i], dt)
  {
    if |systems| == 0 then [] else Dispatch(systems[..|systems| - 1], dt) + [Call(systems[|systems| - 1], dt)]
  }

  /** The `dt` of a step: 0 on the first step, else the milliseconds since the last one, in seconds. */
  function StepDt(lastTimeMs: Option<real>, timeMs: real): (dt: real)
    ensures lastTimeMs.None? ==> dt == 0.0
    ensures lastTimeMs.Some? ==> dt * 1000.0 == timeMs - lastTimeMs.value
    ensures lastTimeMs.None? || lastTimeMs.value <= timeMs ==> dt >= 0.0
  {
    match lastTimeMs
    case None => 0.0
    case Some(last) => (timeMs - last) / 1000.0
  }

  function StepState(s: LoopState, systems: seq<string>, timeMs: real): LoopState {
    s.(lastTimeMs := Some(timeMs), calls := s.calls + Dispatch(systems, StepDt(s.lastTimeMs, timeMs)))
  }

  function RequestFrame(s: LoopState): LoopState {
    s.(rafId := Some(s.frameRequests), frameRequests := s.frameRequests + 1)
  }

  function TickState(s: LoopState, systems: seq<string>, timeMs: real): LoopState {
    RequestFrame(StepState(s, systems, timeMs))
  }

  function StartState(s: LoopState): LoopState {
    if s.rafId.Some? then s else RequestFrame(s.(lastTimeMs := None))
  }

  function StopState(s: LoopState): LoopState {
    if s.rafId.None? then s else s.(cancelled := s.cancelled + [s.rafId.value], rafId := None)
  }

  /** Starting is idempotent: a second start neither requests a frame nor forgets the last time. */
  lemma StartIsIdempotent(s: LoopState)
    ensures StartState(s).rafId.Some?
    ensures StartState(StartState(s)) == StartState(s)
    ensures s.rafId.None? ==> StartState(s).frameRequests == s.frameRequests + 1
  {
  }

  /** Stopping is idempotent, and cancels the pending frame exactly once. */
  lemma StopIsIdempotent(s: LoopState)
    ensures StopState(s).rafId.None?
    ensures StopState(StopState(s)) == StopState(s)
    ensures s.rafId.Some? ==> StopState(s).cancelled == s.cancelled + [s.rafId.value]
  {
  }

  /**
   * After a stop and a start, the next step sees `dt` 0, whatever time
   * passed while the loop was stopped; a start while running keeps the
   * timing.
   */
  lemma RestartResetsDt(s: LoopState, systems: seq<string>, timeMs: real)
    ensures var s' := StepState(StartState(StopState(s)), systems, timeMs);
      s'.calls == s.calls + Dispatch(systems, 0.0)
    ensures s.rafId.Some? ==> StartState(s).lastTimeMs == s.lastTimeMs
  {
  }

  /** A tick steps and keeps the loop running on a fresh frame request. */
  lemma TickKeepsRunning(s: LoopState, systems: seq<string>, timeMs: real)
    ensures var s' := TickState(s, systems, timeMs);
      && s'.rafId == Some(s.frameRequests) && s'.frameRequests == s.frameRequests + 1
      && s'.lastTimeMs == Some(timeMs)
      && s'.calls == s.calls + Dispatch(systems, StepDt(s.lastTimeMs, timeMs))
  {
  }

  /** Steps at 1000 ms and 1500 ms call systems a, b with dt 0, then with dt 0.5. */
  lemma StepExample(s: LoopState)
    requires s.lastTimeMs.None? && s.calls == []
    ensures StepState(StepState(s, ["a", "b"], 1000.0), ["a", "b"], 1500.0).calls
      == [Call("a", 0.0), Call("b", 0.0), Call("a", 0.5), Call("b", 0.5)]
  {
    assert Dispatch(["a", "b"], 0.0) == [Call("a", 0.0), Call("b", 0.0)];
    assert Dispatch(["a", "b"], 0.5) == [Call("a", 0.5), Call("b", 0.5)];
  }

  /** `createLoop({ world, systems, ... })`: the loop and its two variables. */
  class Loop {
    const systems: seq<string>
    var lastTimeMs: Option<real>
    var rafId: Option<nat>
    var frameRequests: nat
    var cancelled: seq<nat>
    var calls: seq<Call>

    function State(): LoopState
      reads this
    {
      LoopState(lastTimeMs, rafId, frameRequests, cancelled, calls)
    }

    constructor (systems: seq<string>)
      ensures this.systems == systems
      ensures State() == LoopState(None, None, 0, [], [])
    {
      this.systems := systems;
      lastTimeMs := None;
      rafId := None;
      frameRequests := 0;
      cancelled := [];
      calls := [];
    }

    /** `runSystems(dt)`: every system, in order, with the same `dt`. */
    method RunSystems(dt: real)
      modifies this
      ensures State() == old(State()).(calls := old(calls) + Dispatch(systems, dt))
    {
      for i := 0 to |systems|
        invariant State() == old(State()).(calls := old(calls) + Dispatch(systems[..i], dt))
      {
        assert systems[..i + 1][..i] == systems[..i];
        calls := calls + [Call(systems[i], dt)];
      }
      assert systems[..|systems|] == systems;
    }

    /** `step(timeMs)`; the default `now()` is the caller's to supply. */
    method Step(timeMs: real)
      modifies this
      ensures State() == StepState(old(State()), systems, timeMs)
    {
      var dt := if lastTimeMs.None? then 0.0 else (timeMs - lastTimeMs.value) / 1000.0;
      lastTimeMs := Some(timeMs);
      RunSystems(dt);
    }

    method RequestFrameId() returns (id: nat)
      modifies this
      ensures State() == old(State()).(frameRequests := old(frameRequests) + 1)
      ensures id == old(frameRequests)
    {
      id := frameRequests;
      frameRequests := frameRequests + 1;
    }

    /** `tick(timeMs)`: a step, then the next frame is requested. */
    method Tick(timeMs: real)
      modifies this
      ensures State() == TickState(old(State()), systems, timeMs)
    {
      Step(timeMs);
      var id := RequestFrameId();
      rafId := Some(id);
    }

    /** `start()`: does nothing while running; otherwise forgets the last time and requests a frame. */
    method Start()
      modifies this
      ensures State() == StartState(old(State()))
    {
      if rafId.Some? {
        return;
      }
      lastTimeMs := None;
      var id := RequestFrameId();
      rafId := Some(id);
    }

    /** `stop()`: does nothing while stopped; otherwise cancels the pending frame. */
    method Stop()
      modifies this
      ensures State() == StopState(old(State()))
    {
      if rafId.None? {
        return;
      }
      cancelled := cancelled + [rafId.value];
      rafId := None;
    }
  }
}
