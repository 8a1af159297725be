/** The teleport system (src/ecs/systems/teleport.ts): fires when the player walks into a zone. */
module Teleport {
  import opened Wrappers
  import opened Js
  import opened Components
  import opened Tiled

  /** `isInsideZone`: the zone's rectangle, edges included. */
  predicate IsInsideZone(x: real, y: real, zone: TeleportZone) {
    x >= zone.x && x <= zone.x + zone.width && y >= zone.y && y <= zone.y + zone.height
  }

  /** The edges belong to the zone: for a zone with no negative size, all four corners are inside. */
  lemma CornersAreInside(zone: TeleportZone)
    requires zone.width >= 0.0 && zone.height >= 0.0
    ensures IsInsideZone(zone.x, zone.y, zone)
    ensures IsInsideZone(zone.x + zone.width, zone.y, zone)
    ensures IsInsideZone(zone.x, zone.y + zone.height, zone)
    ensures IsInsideZone(zone.x + zone.width, zone.y + zone.height, zone)
  {
  }

  function ZoneMatcher(x: real, y: real): TeleportZone -> bool {
    (zone: TeleportZone) => IsInsideZone(x, y, zone)
  }

  /** What one run of the system decides: the target it sends the player to, and whether the player is inside a zone. */
  datatype TeleportOutcome = TeleportOutcome(fired: Option<string>, inside: bool)

  /**
   * One step at position (x, y): the first zone containing the player is
   * the active one; the handler fires with its target only when the
   * player was not inside a zone on the previous step.
   */
  function TeleportStep(zones: seq<TeleportZone>, wasInside: Option<bool>, x: real, y: real): (r: TeleportOutcome)
    ensures r.inside <==> exists k | 0 <= k < |zones| :: IsInsideZone(x, y, zones[k])
    ensures r.fired.Some? <==> r.inside && wasInside != Some(true)
    ensures r.fired.Some? ==> exists k | 0 <= k < |zones| ::
      && IsInsideZone(x, y, zones[k]) && r.fired.value == zones[k].targetMapKey
      && forall j | 0 <= j < k :: !IsInsideZone(x, y, zones[j])
  {
    var active := Find(zones, ZoneMatcher(x, y));
    var was := wasInside.GetOr(false);
    var fired := if active.Some? && !was then Some(active.value.targetMapKey) else None;
    assert active.Some? ==> ZoneMatcher(x, y)(zones[FindIndex(zones, ZoneMatcher(x, y)).value]);
    TeleportOutcome(fired, active.Some?)
  }

  /**
   * The state the system keeps between runs: the zone array, shared with
   * the room loader, which refills it in place, and whether the player was
   * inside a zone on the previous run (unset before the first).
   */
  class TeleportState {
    const zones: ArrayRef<TeleportZone>
    var wasInside: Option<bool>

    constructor (zones: ArrayRef<TeleportZone>)
      ensures this.zones == zones && wasInside.None?
    {
      this.zones := zones;
      wasInside := None;
    }
  }

  /**
   * `createTeleportSystem(player, state, teleportTo)(world, dt)`. The handler
   * call is returned as `fired` (the target it is called with, if it is
   * called); `dt` is ignored.
   */
  method TeleportSystem(world: World, player: nat, state: TeleportState, dt: real) returns (fired: Option<string>)
    requires world.Valid() && player < world.Capacity()
    modifies state
    ensures var step := TeleportStep(state.zones.items, old(state.wasInside), world.posX[player], world.posY[player]);
      fired == step.fired && state.wasInside == Some(step.inside)
    ensures state.zones.items == old(state.zones.items)
  {
    var playerX := world.posX[player];
    var playerY := world.posY[player];
    var activeZone := Find(state.zones.items, ZoneMatcher(playerX, playerY));
    var wasInside := state.wasInside.GetOr(false);
    fired := None;
    if activeZone.Some? && !wasInside {
      fired := Some(activeZone.value.targetMapKey);
    }
    state.wasInside := Some(activeZone.Some?);
  }

  /** The targets the handler is called with while the player visits `positions` in turn. */
  function Run(zones: seq<TeleportZone>, wasInside: Option<bool>, positions: seq<Point>): seq<string>
    decreases |positions|
  {
    if |positions| == 0 then []
    else
      var step := TeleportStep(zones, wasInside, positions[0].x, positions[0].y);
      (if step.fired.Some? then [step.fired.value] else []) + Run(zones, Some(step.inside), positions[1..])
  }

  predicate InsideSome(zones: seq<TeleportZone>, p: Point) {
    exists k | 0 <= k < |zones| :: IsInsideZone(p.x, p.y, zones[k])
  }

  /** Number of times the walk enters a zone from outside (or starts inside one, with no previous step). */
  function Entries(zones: seq<TeleportZone>, wasInside: bool, positions: seq<Point>): nat
    decreases |positions|
  {
    if |positions| == 0 then 0
    else
      var inside := InsideSome(zones, positions[0]);
      (if inside && !wasInside then 1 else 0) + Entries(zones, inside, positions[1..])
  }

  /**
   * The handler fires once per entry: staying inside never fires again,
   * and leaving then coming back fires again.
   */
  lemma {:induction false} FiresOncePerEntry(zones: seq<TeleportZone>, wasInside: Option<bool>, positions: seq<Point>)
    ensures |Run(zones, wasInside, positions)| == Entries(zones, wasInside == Some(true), positions)
    decreases |positions|
  {
    if |positions| > 0 {
      var step := TeleportStep(zones, wasInside, positions[0].x, positions[0].y);
      FiresOncePerEntry(zones, Some(step.inside), positions[1..]);
    }
  }

  /** While every position is inside a zone, a player who was already inside is never teleported. */
  lemma {:induction false} StayingInsideNeverFires(zones: seq<TeleportZone>, positions: seq<Point>)
    requires forall k | 0 <= k < |positions| :: InsideSome(zones, positions[k])
    ensures Run(zones, Some(true), positions) == []
    decreases |positions|
  {
    if |positions| > 0 {
      assert InsideSome(zones, positions[0]);
      StayingInsideNeverFires(zones, positions[1..]);
    }
  }

  /**
   * Zone (10, 10, 20, 20) leading to "room1": the walk (5, 5), (15, 15),
   * (15, 15), (50, 50), (15, 15) calls the handler twice, with "room1".
   */
  lemma WalkExample()
    ensures Run([TeleportZone(10.0, 10.0, 20.0, 20.0, "room1")], None,
                [Point(5.0, 5.0), Point(15.0, 15.0), Point(15.0, 15.0), Point(50.0, 50.0), Point(15.0, 15.0)])
      == ["room1", "room1"]
  {
    var zones := [TeleportZone(10.0, 10.0, 20.0, 20.0, "room1")];
    var walk := [Point(5.0, 5.0), Point(15.0, 15.0), Point(15.0, 15.0), Point(50.0, 50.0), Point(15.0, 15.0)];
    assert TeleportStep(zones, None, 5.0, 5.0) == TeleportOutcome(None, false);
    assert TeleportStep(zones, Some(false), 15.0, 15.0) == TeleportOutcome(Some("room1"), true);
    assert TeleportStep(zones, Some(true), 15.0, 15.0) == TeleportOutcome(None, true);
    assert TeleportStep(zones, Some(true), 50.0, 50.0) == TeleportOutcome(None, false);
    assert Run(zones, Some(false), walk[4..]) == ["room1"];
    assert Run(zones, Some(true), walk[3..]) == ["room1"];
    assert Run(zones, Some(true), walk[2..]) == ["room1"];
    assert Run(zones, Some(false), walk[1..]) == ["room1", "room1"];
  }
}
