/**
 * The room loader (src/game/roomLoader.ts): switches the game to another
 * Tiled map by redrawing its tile layers and overwriting, in place, the
 * state the systems share: the player's Position, the collision walls, the
 * interaction record and the teleport zones.
 */
module RoomLoader {
  import opened Wrappers
  import opened Js
  import opened Components
  import opened Movement
  import opened InteractionPrompt
  import opened Tiled
  import opened Fixtures
  import opened Teleport
  import opened Tilemap

  /** `replaceArray(target, items)`: the shared array now holds exactly `items`. */
  method ReplaceArray<T>(target: ArrayRef<T>, items: seq<T>)
    modifies target
    ensures target.items == items
  {
    target.items := [];
    target.items := target.items + items;
  }

  /** `copyInteractionPoint(target, source)`: the shared record now holds `source`, field by field. */
  method CopyInteractionPoint(target: InteractionRecord, source: InteractionPoint)
    modifies target
    ensures target.Value() == source
  {
    target.x := source.x;
    target.y := source.y;
    target.radius := source.radius;
    target.offsetY := source.offsetY;
    target.bounds := Rect(source.bounds.x, source.bounds.y, source.bounds.width, source.bounds.height);
  }

  /** Every tile layer of the map is at least one cell wide. */
  ghost predicate TileLayersHaveWidth(layers: seq<TiledLayer>) {
    forall k | 0 <= k < |layers| :: layers[k].TileLayer? ==> layers[k].width > 0
  }

  /**
   * The placements of all tile layers of `layers`, layer after layer in map
   * order; object layers contribute none.
   */
  function MapPlacements(layers: seq<TiledLayer>, tileWidth: real, tileHeight: real, firstGid: int): seq<TilePlacement>
    requires TileLayersHaveWidth(layers)
  {
    if |layers| == 0 then []
    else
      var last := layers[|layers| - 1];
      MapPlacements(layers[..|layers| - 1], tileWidth, tileHeight, firstGid)
        + if last.TileLayer? then TilePlacements(last, tileWidth, tileHeight, firstGid) else []
  }

  /**
   * Every placement drawn for a map comes from one of its tile layers: there
   * are no more placements than tile cells, and none has a negative tile id.
   */
  lemma {:induction false} MapPlacementsAreFromTileCells(layers: seq<TiledLayer>, tileWidth: real, tileHeight: real,
                                                         firstGid: int)
    requires TileLayersHaveWidth(layers)
    ensures |MapPlacements(layers, tileWidth, tileHeight, firstGid)| <= TileCells(layers)
    ensures forall p | p in MapPlacements(layers, tileWidth, tileHeight, firstGid) :: p.tileId >= 0
  {
    if |layers| > 0 {
      var init := layers[..|layers| - 1];
      var last := layers[|layers| - 1];
      MapPlacementsAreFromTileCells(init, tileWidth, tileHeight, firstGid);
      if last.TileLayer? {
        PlacementsComeFromPlacedCells(last, tileWidth, tileHeight, firstGid, |last.data|);
      }
    }
  }

  /** The number of cells in the tile layers of `layers`. */
  function TileCells(layers: seq<TiledLayer>): nat {
    if |layers| == 0 then 0
    else
      var last := layers[|layers| - 1];
      TileCells(layers[..|layers| - 1]) + if last.TileLayer? then |last.data| else 0
  }

  /** The walls a map supplies, or the fallback walls when it supplies none. */
  function WallsFor(tiled: TiledMap, fallback: seq<CollisionWall>): (walls: seq<CollisionWall>)
    ensures |Collect(ObjectsOf(tiled.layers), WallOf)| > 0 ==> walls == Collect(ObjectsOf(tiled.layers), WallOf)
    ensures |Collect(ObjectsOf(tiled.layers), WallOf)| == 0 ==> walls == fallback
  {
    var next := Collect(ObjectsOf(tiled.layers), WallOf);
    if |next| > 0 then next else fallback
  }

  /**
   * The drawing step of `loadRoom` (src/game/roomLoader.ts:86-100): the container is emptied, then each tile
   * layer, in map order, is drawn into it with the first tileset's `firstgid`.
   */
  method RenderMap(tiled: TiledMap, factory: TileSpriteFactory, container: MapContainer)
    requires TileLayersHaveWidth(tiled.layers) && factory.Valid()
    modifies factory, container
    ensures factory.Valid() && container.removals == old(container.removals) + 1
    ensures Shows(container.children, MapPlacements(tiled.layers, tiled.tileWidth, tiled.tileHeight, FirstGid(tiled)), factory)
    ensures forall k | 0 <= k < |container.children| :: fresh(container.children[k])
  {
    container.RemoveChildren();
    var firstGid := FirstGid(tiled);
    for i := 0 to |tiled.layers|
      invariant factory.Valid() && container.removals == old(container.removals) + 1
      invariant Shows(container.children, MapPlacements(tiled.layers[..i], tiled.tileWidth, tiled.tileHeight, firstGid), factory)
      invariant forall k | 0 <= k < |container.children| :: fresh(container.children[k])
    {
      var layer := tiled.layers[i];
      assert tiled.layers[..i + 1][..i] == tiled.layers[..i];
      if !layer.TileLayer? {
        continue;
      }
      ghost var before := container.children;
      RenderTileLayer(layer, tiled.tileWidth, tiled.tileHeight, firstGid, factory, container);
      ShowsAppend(before, MapPlacements(tiled.layers[..i], tiled.tileWidth, tiled.tileHeight, firstGid),
                  container.children[|before|..], TilePlacements(layer, tiled.tileWidth, tiled.tileHeight, firstGid),
                  factory);
    }
    assert tiled.layers[..|tiled.layers|] == tiled.layers;
  }

  // ---------------------------------------------------------------- the example room

  const SpawnObject: TiledObject := TiledObject(1, Some("player_spawn"), None, 100.0, 120.0, 0.0, 0.0, None)
  const DoorObject: TiledObject :=
    TiledObject(2, None, None, 10.0, 20.0, 16.0, 16.0, Some([TiledProperty("teleport", "string", StringValue("inn"))]))
  const BellObject: TiledObject :=
    TiledObject(3, None, None, 200.0, 220.0, 20.0, 10.0, Some([TiledProperty("interaction", "string", StringValue("bell"))]))
  const WallObject: TiledObject :=
    TiledObject(4, None, None, 40.0, 50.0, 30.0, 10.0, Some([TiledProperty("collision", "bool", BoolValue(true))]))

  /** A one-room map: one 32-pixel tile (gid 1, `firstgid` 1) and one object layer holding `objects`. */
  function ExampleRoom(objects: seq<TiledObject>): TiledMap {
    TiledMap(1, 1, 32.0, 32.0, [TileLayer("ground", 1, 1, [1]), ObjectLayer("objects", objects)], [TilesetRef(1, None)])
  }

  /** The example room's objects are those of its one object layer. */
  lemma ExampleRoomObjects(objects: seq<TiledObject>)
    ensures ObjectsOf(ExampleRoom(objects).layers) == objects
  {
    var layers := ExampleRoom(objects).layers;
    assert layers[..1][..0] == [];
    assert ObjectsOf(layers[..1]) == [];
    assert layers[..2 - 1] == layers[..1];
  }

  /** What `Collect` keeps of one object. */
  function Kept<T>(v: Option<T>): seq<T> {
    match v case Some(x) => [x] case None => []
  }

  /** `Collect` over four objects keeps what `f` keeps of each, in order. */
  lemma CollectFour<T>(a: TiledObject, b: TiledObject, c: TiledObject, d: TiledObject, f: TiledObject -> Option<T>)
    ensures Collect([a, b, c, d], f) == Kept(f(a)) + Kept(f(b)) + Kept(f(c)) + Kept(f(d))
  {
    assert [a][..0] == [];
    assert Collect([a], f) == Kept(f(a));
    assert [a, b][..1] == [a];
    assert Collect([a, b], f) == Kept(f(a)) + Kept(f(b));
    assert [a, b, c][..2] == [a, b];
    assert Collect([a, b, c], f) == Kept(f(a)) + Kept(f(b)) + Kept(f(c));
    assert [a, b, c, d][..3] == [a, b, c];
  }

  /** Which of the example objects are walls, zones and the bell. */
  lemma ExampleObjectKinds()
    ensures WallOf(SpawnObject).None? && WallOf(DoorObject).None? && WallOf(BellObject).None?
    ensures WallOf(WallObject) == Some(CollisionWall(40.0, 50.0, 30.0, 10.0))
    ensures ZoneOf(SpawnObject).None? && ZoneOf(BellObject).None? && ZoneOf(WallObject).None?
    ensures ZoneOf(DoorObject) == Some(TeleportZone(10.0, 20.0, 16.0, 16.0, "inn"))
    ensures !InteractionMatcher("bell")(SpawnObject) && !InteractionMatcher("bell")(DoorObject)
    ensures InteractionMatcher("bell")(BellObject)
    ensures SpawnMatcher("player_spawn")(SpawnObject)
    ensures !SpawnMatcher("player_spawn")(DoorObject) && !SpawnMatcher("player_spawn")(BellObject)
    ensures !SpawnMatcher("player_spawn")(WallObject)
  {
  }

  /** Loading the example room puts the player on its spawn object, at (100, 120). */
  lemma ExampleRoomSpawn()
    ensures SpawnPoint(ExampleRoom([SpawnObject, DoorObject, BellObject, WallObject]), "player_spawn")
      == Some(Point(100.0, 120.0))
  {
    var objs := [SpawnObject, DoorObject, BellObject, WallObject];
    ExampleRoomObjects(objs);
    ExampleObjectKinds();
    assert FindIndex(objs, SpawnMatcher("player_spawn")) == Some(0);
  }

  /** Without its spawn object, the example room has no spawn point: the loader falls back. */
  lemma ExampleRoomWithoutSpawn()
    ensures SpawnPoint(ExampleRoom([DoorObject, BellObject, WallObject]), "player_spawn") == None
  {
    var bare := [DoorObject, BellObject, WallObject];
    ExampleRoomObjects(bare);
    ExampleObjectKinds();
    assert forall j | 0 <= j < |bare| :: !SpawnMatcher("player_spawn")(bare[j]);
  }

  /** The example room's walls are its one colliding object. */
  lemma ExampleRoomWalls(fallbackWalls: seq<CollisionWall>)
    ensures WallsFor(ExampleRoom([SpawnObject, DoorObject, BellObject, WallObject]), fallbackWalls)
      == [CollisionWall(40.0, 50.0, 30.0, 10.0)]
  {
    ExampleRoomObjects([SpawnObject, DoorObject, BellObject, WallObject]);
    CollectFour(SpawnObject, DoorObject, BellObject, WallObject, WallOf);
    ExampleObjectKinds();
  }

  /** The example room's zones are its one teleport object. */
  lemma ExampleRoomZones()
    ensures Collect(ObjectsOf(ExampleRoom([SpawnObject, DoorObject, BellObject, WallObject]).layers), ZoneOf)
      == [TeleportZone(10.0, 20.0, 16.0, 16.0, "inn")]
  {
    ExampleRoomObjects([SpawnObject, DoorObject, BellObject, WallObject]);
    CollectFour(SpawnObject, DoorObject, BellObject, WallObject, ZoneOf);
    ExampleObjectKinds();
  }

  /** The example room's one tile, gid 1 with `firstgid` 1, becomes tile 0 at the origin. */
  lemma ExampleRoomPlacements(objects: seq<TiledObject>)
    ensures MapPlacements(ExampleRoom(objects).layers, 32.0, 32.0, FirstGid(ExampleRoom(objects))) == [TilePlacement(0.0, 0.0, 0)]
  {
    var room := ExampleRoom(objects);
    var ground := TileLayer("ground", 1, 1, [1]);
    assert FirstGid(room) == 1;
    assert room.layers[..1] == [ground] && [ground][..0] == [];
    assert PlacementsUpTo(ground, 32.0, 32.0, 1, 0) == [];
    assert PlacementAt(1, 32.0, 32.0, 0, 0) == TilePlacement(0.0, 0.0, 0);
    assert TilePlacements(ground, 32.0, 32.0, 1) == [TilePlacement(0.0, 0.0, 0)];
    assert MapPlacements([ground], 32.0, 32.0, 1) == [TilePlacement(0.0, 0.0, 0)];
  }

  /** The example room's "bell" object gives a point centred on it, reaching 10 pixels. */
  lemma ExampleRoomInteraction()
    ensures InteractionPointFor(ExampleRoom([SpawnObject, DoorObject, BellObject, WallObject]), "bell")
      == Some(InteractionPoint(210.0, 225.0, 10.0, Some(16.0), Rect(200.0, 220.0, 20.0, 10.0)))
  {
    var objs := [SpawnObject, DoorObject, BellObject, WallObject];
    ExampleRoomObjects(objs);
    ExampleObjectKinds();
    assert FindIndex(objs, InteractionMatcher("bell")) == Some(2);
    BellPoint();
  }

  /** The bell's point: the centre of its 20 by 10 rectangle, half its longer side as reach, the fixed offset. */
  lemma BellPoint()
    ensures InteractionPointOf(BellObject) == InteractionPoint(210.0, 225.0, 10.0, Some(16.0), Rect(200.0, 220.0, 20.0, 10.0))
  {
  }

  class RoomLoader {
    const mapsByKey: map<string, TiledMap>
    const world: World
    const player: nat
    const mapContainer: MapContainer
    const factory: TileSpriteFactory
    const collisionWalls: ArrayRef<CollisionWall>
    const interaction: InteractionRecord
    const teleportState: TeleportState
    const spawnFallback: Point
    const interactionId: string
    const fallbackCollisionWalls: seq<CollisionWall>
    const fallbackInteractionPoint: InteractionPoint
    /** The key of the map shown now, if any. */
    var activeMapKey: Option<string>

    /**
     * The loader can draw every registered map: the player has a slot in the
     * world, the sprite factory is consistent, and every tile layer has a width.
     */
    ghost predicate Valid()
      reads world, factory, factory.cache.Values
    {
      && world.Valid() && player < world.Capacity()
      && factory.Valid()
      && forall key | key in mapsByKey :: TileLayersHaveWidth(mapsByKey[key].layers)
    }

    /**
     * `createRoomLoader(options)`: no map is active yet; an absent fallback
     * spawn is (200, 200), absent fallback walls and interaction point are the
     * built-in ones, and an absent interaction id is "bell".
     */
    constructor (mapsByKey: map<string, TiledMap>, world: World, player: nat, mapContainer: MapContainer,
                 factory: TileSpriteFactory, collisionWalls: ArrayRef<CollisionWall>,
                 interaction: InteractionRecord, teleportState: TeleportState,
                 fallbackSpawn: Option<Point>, interactionId: Option<string>,
                 fallbackCollisionWalls: Option<seq<CollisionWall>>,
                 fallbackInteractionPoint: Option<InteractionPoint>)
      ensures activeMapKey == None
      ensures this.mapsByKey == mapsByKey && this.world == world && this.player == player
      ensures this.mapContainer == mapContainer && this.factory == factory
      ensures this.collisionWalls == collisionWalls && this.interaction == interaction
      ensures this.teleportState == teleportState
      ensures spawnFallback == fallbackSpawn.GetOr(Point(200.0, 200.0))
      ensures this.interactionId == interactionId.GetOr("bell")
      ensures this.fallbackCollisionWalls == fallbackCollisionWalls.GetOr(DefaultCollisionWalls())
      ensures this.fallbackInteractionPoint == fallbackInteractionPoint.GetOr(DefaultInteractionPoint())
    {
      this.mapsByKey := mapsByKey;
      this.world := world;
      this.player := player;
      this.mapContainer := mapContainer;
      this.factory := factory;
      this.collisionWalls := collisionWalls;
      this.interaction := interaction;
      this.teleportState := teleportState;
      spawnFallback := fallbackSpawn.GetOr(Point(200.0, 200.0));
      this.interactionId := interactionId.GetOr("bell");
      this.fallbackCollisionWalls := fallbackCollisionWalls.GetOr(DefaultCollisionWalls());
      this.fallbackInteractionPoint := fallbackInteractionPoint.GetOr(DefaultInteractionPoint());
      activeMapKey := None;
    }

    /** Placing the player (src/game/roomLoader.ts:102-104): the player stands on the map's `player_spawn`, or on the fallback spawn. */
    method PlacePlayer(tiled: TiledMap)
      requires world.Valid() && player < world.Capacity()
      modifies world.posX, world.posY
      ensures world.PositionOf(player) == SpawnPoint(tiled, "player_spawn").GetOr(spawnFallback)
      ensures forall e | 0 <= e < world.Capacity() && e != player :: world.PositionOf(e) == old(world.PositionOf(e))
      ensures forall e | 0 <= e < world.Capacity() :: world.VelocityOf(e) == old(world.VelocityOf(e))
    {
      var found := FindSpawnPoint(tiled, "player_spawn");
      var spawn := found.GetOr(spawnFallback);
      world.posX[player] := spawn.x;
      world.posY[player] := spawn.y;
    }

    /** Replacing the walls (src/game/roomLoader.ts:106-110): the shared walls become the map's walls, or the fallback walls when it has none. */
    method UseWalls(tiled: TiledMap)
      modifies collisionWalls
      ensures collisionWalls.items == WallsFor(tiled, fallbackCollisionWalls)
    {
      var nextWalls := ExtractCollisionWalls(tiled);
      ReplaceArray(collisionWalls, if |nextWalls| > 0 then nextWalls else fallbackCollisionWalls);
    }

    /** Copying the interaction point (src/game/roomLoader.ts:112-114): the shared record takes the map's interaction point, or the fallback point. */
    method UseInteraction(tiled: TiledMap)
      modifies interaction
      ensures interaction.Value() == InteractionPointFor(tiled, interactionId).GetOr(fallbackInteractionPoint)
    {
      var nextInteraction := FindInteractionPoint(tiled, interactionId);
      CopyInteractionPoint(interaction, nextInteraction.GetOr(fallbackInteractionPoint));
    }

    /** Replacing the zones (src/game/roomLoader.ts:116): the shared teleport zones become the map's zones. */
    method UseZones(tiled: TiledMap)
      modifies teleportState.zones
      ensures teleportState.zones.items == Collect(ObjectsOf(tiled.layers), ZoneOf)
    {
      var zones := ExtractTeleportZones(tiled);
      ReplaceArray(teleportState.zones, zones);
    }

    /** What `loadRoom` takes from the map's objects (src/game/roomLoader.ts:102-116), in order: the player, the walls, the interaction record and the zones. */
    method ApplyObjects(tiled: TiledMap)
      requires world.Valid() && player < world.Capacity()
      modifies world.posX, world.posY, collisionWalls, interaction, teleportState.zones
      ensures world.PositionOf(player) == SpawnPoint(tiled, "player_spawn").GetOr(spawnFallback)
      ensures collisionWalls.items == WallsFor(tiled, fallbackCollisionWalls)
      ensures interaction.Value() == InteractionPointFor(tiled, interactionId).GetOr(fallbackInteractionPoint)
      ensures teleportState.zones.items == Collect(ObjectsOf(tiled.layers), ZoneOf)
      ensures forall e | 0 <= e < world.Capacity() && e != player :: world.PositionOf(e) == old(world.PositionOf(e))
      ensures forall e | 0 <= e < world.Capacity() :: world.VelocityOf(e) == old(world.VelocityOf(e))
    {
      PlacePlayer(tiled);
      UseWalls(tiled);
      UseInteraction(tiled);
      UseZones(tiled);
    }

    /**
     * `loadRoom(mapKey)`: refuses the map already shown and an unknown key,
     * changing nothing. Otherwise the map becomes the active one; the
     * container is emptied once and then holds a fresh sprite per placement
     * of every tile layer, in map order; the player stands on the map's
     * `player_spawn` (or the fallback spawn); the shared walls are the map's
     * walls (or the fallback walls when it has none); the interaction record
     * holds the map's point for the interaction id (or the fallback point);
     * and the teleport zones are the map's zones.
     */
    method Load(mapKey: string) returns (loaded: bool)
      requires Valid()
      modifies this, world.posX, world.posY, mapContainer, factory, collisionWalls, interaction, teleportState.zones
      ensures Valid()
      ensures loaded <==> old(activeMapKey) != Some(mapKey) && mapKey in mapsByKey
      ensures !loaded ==>
        && activeMapKey == old(activeMapKey)
        && unchanged(world.posX, world.posY, mapContainer, factory, collisionWalls, interaction, teleportState.zones)
      ensures loaded ==> activeMapKey == Some(mapKey)
      ensures loaded ==> var tiled := mapsByKey[mapKey];
        && mapContainer.removals == old(mapContainer.removals) + 1
        && Shows(mapContainer.children,
                 MapPlacements(tiled.layers, tiled.tileWidth, tiled.tileHeight, FirstGid(tiled)), factory)
        && (forall k | 0 <= k < |mapContainer.children| :: fresh(mapContainer.children[k]))
        && world.PositionOf(player) == SpawnPoint(tiled, "player_spawn").GetOr(spawnFallback)
        && collisionWalls.items == WallsFor(tiled, fallbackCollisionWalls)
        && interaction.Value() == InteractionPointFor(tiled, interactionId).GetOr(fallbackInteractionPoint)
        && teleportState.zones.items == Collect(ObjectsOf(tiled.layers), ZoneOf)
      ensures forall e | 0 <= e < world.Capacity() && e != player :: world.PositionOf(e) == old(world.PositionOf(e))
      ensures forall e | 0 <= e < world.Capacity() :: world.VelocityOf(e) == old(world.VelocityOf(e))
    {
      if activeMapKey == Some(mapKey) {
        return false;
      }
      if mapKey !in mapsByKey {
        return false;
      }
      var tiled := mapsByKey[mapKey];
      activeMapKey := Some(mapKey);

      RenderMap(tiled, factory, mapContainer);
      ApplyObjects(tiled);
      return true;
    }
  }
}
