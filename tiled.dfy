/**
 * The Tiled map decoder (src/maps/tiled.ts): turns a map exported by the
 * Tiled editor into tile placements, collision walls, teleport zones, a
 * spawn point and an interaction point.
 */
module Tiled {
  import opened Wrappers
  import opened Js
  import opened Components
  import opened Movement
  import opened InteractionPrompt

  /** A custom property's value, which Tiled leaves untyped. */
  datatype PropertyValue = BoolValue(b: bool) | StringValue(s: string) | NumberValue(n: real) | OtherValue

  datatype TiledProperty = TiledProperty(name: string, kind: string, value: PropertyValue)

  /** A map object; `name`, `kind` (Tiled's `type`) and `properties` are optional. */
  datatype TiledObject = TiledObject(
    id: int, name: Option<string>, kind: Option<string>,
    x: real, y: real, width: real, height: real,
    properties: Option<seq<TiledProperty>>)

  /** A grid of global tile ids (row-major, `width` per row), or a list of objects. */
  datatype TiledLayer =
    | TileLayer(name: string, width: int, height: int, data: seq<int>)
    | ObjectLayer(name: string, objects: seq<TiledObject>)

  datatype TilesetRef = TilesetRef(firstGid: int, source: Option<string>)

  datatype TiledMap = TiledMap(
    width: int, height: int, tileWidth: real, tileHeight: real,
    layers: seq<TiledLayer>, tilesets: seq<TilesetRef>)

  /** A rectangle that sends the player to the map `targetMapKey`. */
  datatype TeleportZone = TeleportZone(x: real, y: real, width: real, height: real, targetMapKey: string)

  /** Where one tile of the sheet is drawn, in pixels. */
  datatype TilePlacement = TilePlacement(x: real, y: real, tileId: int)

  // ---------------------------------------------------------------- properties

  /** The value of the first property called `name`, or None when there is none. */
  function FindProperty(props: seq<TiledProperty>, name: string): (r: Option<PropertyValue>)
    ensures r.None? <==> forall i | 0 <= i < |props| :: props[i].name != name
    ensures r.Some? ==> exists i | 0 <= i < |props| ::
      && props[i].name == name && props[i].value == r.value
      && forall j | 0 <= j < i :: props[j].name != name
  {
    if |props| == 0 then None
    else if props[0].name == name then Some(props[0].value)
    else
      var r := FindProperty(props[1..], name);
      assert r.Some? ==> exists i | 0 <= i < |props| ::
        && props[i].name == name && props[i].value == r.value
        && forall j | 0 <= j < i :: props[j].name != name
      by {
        if r.Some? {
          var i :| 0 <= i < |props[1..]| && props[1..][i].name == name && props[1..][i].value == r.value
            && forall j | 0 <= j < i :: props[1..][j].name != name;
          assert props[i + 1].name == name && props[i + 1].value == r.value;
          assert forall j | 0 <= j < i + 1 :: props[j].name != name by {
            forall j | 0 <= j < i + 1 ensures props[j].name != name {
              if j > 0 { assert props[j] == props[1..][j - 1]; }
            }
          }
        }
      }
      r
  }

  /** `getObjectProperty`: absent when the object has no property list or no such property. */
  function GetObjectProperty(o: TiledObject, name: string): (r: Option<PropertyValue>)
    ensures o.properties.None? ==> r.None?
    ensures o.properties.Some? ==> r == FindProperty(o.properties.value, name)
  {
    match o.properties
    case None => None
    case Some(props) => FindProperty(props, name)
  }

  // ---------------------------------------------------------------- tile layers

  /** A grid cell holds a tile of this tileset: not empty (0) and not below `firstGid`. */
  predicate IsPlaced(gid: int, firstGid: int) {
    gid != 0 && gid - firstGid >= 0
  }

  /** `n` tiles of `size` pixels, end to end: `n * size`, spelled out so that it stays linear. */
  function Span(n: nat, size: real): (r: real)
    ensures n == 0 ==> r == 0.0
  {
    if n == 0 then 0.0 else Span(n - 1, size) + size
  }

  lemma {:induction false} SpanIsProduct(n: nat, size: real)
    ensures Span(n, size) == (n as real) * size
  {
    if n > 0 { SpanIsProduct(n - 1, size); }
  }

  /**
   * The placement of the tile at flat index `index` of a grid `width` cells
   * wide: column `index % width`, row `index / width` (the division floors,
   * as `Math.floor` does for these non-negative operands).
   */
  function PlacementAt(width: int, tileWidth: real, tileHeight: real, index: nat, tileId: int): TilePlacement
    requires width > 0
  {
    TilePlacement(Span(index % width, tileWidth), Span(index / width, tileHeight), tileId)
  }

  /**
   * What `buildTilePlacements` returns for the first `n` cells: one
   * placement per cell that holds a tile, in index order.
   */
  function PlacementsUpTo(layer: TiledLayer, tileWidth: real, tileHeight: real, firstGid: int, n: nat): seq<TilePlacement>
    requires layer.TileLayer? && layer.width > 0 && n <= |layer.data|
  {
    if n == 0 then []
    else
      PlacementsUpTo(layer, tileWidth, tileHeight, firstGid, n - 1)
        + if IsPlaced(layer.data[n - 1], firstGid)
          then [PlacementAt(layer.width, tileWidth, tileHeight, n - 1, layer.data[n - 1] - firstGid)]
          else []
  }

  function TilePlacements(layer: TiledLayer, tileWidth: real, tileHeight: real, firstGid: int): seq<TilePlacement>
    requires layer.TileLayer? && layer.width > 0
  {
    PlacementsUpTo(layer, tileWidth, tileHeight, firstGid, |layer.data|)
  }

  /**
   * `buildTilePlacements`: walks the grid in index order, skips empty cells
   * and ids below `firstGid`, and places each remaining tile at its column
   * and row, with its id relative to the tileset.
   */
  method BuildTilePlacements(layer: TiledLayer, tileWidth: real, tileHeight: real, firstGid: int)
    returns (placements: seq<TilePlacement>)
    requires layer.TileLayer? && layer.width > 0
    ensures placements == TilePlacements(layer, tileWidth, tileHeight, firstGid)
  {
    placements := [];
    for index := 0 to |layer.data|
      invariant placements == PlacementsUpTo(layer, tileWidth, tileHeight, firstGid, index)
    {
      var gid := layer.data[index];
      assert PlacementsUpTo(layer, tileWidth, tileHeight, firstGid, index + 1)
        == placements + if IsPlaced(gid, firstGid)
          then [PlacementAt(layer.width, tileWidth, tileHeight, index, gid - firstGid)]
          else [];
      if gid == 0 {
        assert placements + [] == placements;
        continue;
      }
      var tileId := gid - firstGid;
      if tileId < 0 {
        assert placements + [] == placements;
        continue;
      }
      var x := ((index % layer.width) as real) * tileWidth;
      var y := ((index / layer.width) as real) * tileHeight;
      SpanIsProduct(index % layer.width, tileWidth);
      SpanIsProduct(index / layer.width, tileHeight);
      assert TilePlacement(x, y, tileId) == PlacementAt(layer.width, tileWidth, tileHeight, index, tileId);
      placements := placements + [TilePlacement(x, y, tileId)];
    }
  }

  /**
   * Every placement comes from a cell that holds a tile: its id is the
   * cell's gid minus `firstGid`, hence not negative, and it sits at the
   * cell's column and row. There are at most as many placements as cells.
   */
  lemma {:induction false} PlacementsComeFromPlacedCells(layer: TiledLayer, tileWidth: real, tileHeight: real, firstGid: int, n: nat)
    requires layer.TileLayer? && layer.width > 0 && n <= |layer.data|
    ensures var ps := PlacementsUpTo(layer, tileWidth, tileHeight, firstGid, n);
      && |ps| <= n
      && forall k | 0 <= k < |ps| :: ps[k].tileId >= 0 && exists i | 0 <= i < n ::
           && IsPlaced(layer.data[i], firstGid)
           && ps[k] == PlacementAt(layer.width, tileWidth, tileHeight, i, layer.data[i] - firstGid)
  {
    if n > 0 {
      PlacementsComeFromPlacedCells(layer, tileWidth, tileHeight, firstGid, n - 1);
    }
  }

  /** Every cell that holds a tile gets its placement. */
  lemma {:induction false} EveryPlacedCellIsPlaced(layer: TiledLayer, tileWidth: real, tileHeight: real, firstGid: int, i: nat, n: nat)
    requires layer.TileLayer? && layer.width > 0 && i < n <= |layer.data|
    requires IsPlaced(layer.data[i], firstGid)
    ensures PlacementAt(layer.width, tileWidth, tileHeight, i, layer.data[i] - firstGid)
      in PlacementsUpTo(layer, tileWidth, tileHeight, firstGid, n)
  {
    if i < n - 1 {
      EveryPlacedCellIsPlaced(layer, tileWidth, tileHeight, firstGid, i, n - 1);
    }
  }

  /** The grid [0, 5, 6, 0], two cells wide with 32-pixel tiles and firstgid 1. */
  lemma PlacementsExample()
    ensures TilePlacements(TileLayer("ground", 2, 2, [0, 5, 6, 0]), 32.0, 32.0, 1)
      == [TilePlacement(32.0, 0.0, 4), TilePlacement(0.0, 32.0, 5)]
  {
    var layer := TileLayer("ground", 2, 2, [0, 5, 6, 0]);
    assert PlacementAt(2, 32.0, 32.0, 1, 4) == TilePlacement(32.0, 0.0, 4);
    assert PlacementAt(2, 32.0, 32.0, 2, 5) == TilePlacement(0.0, 32.0, 5);
    assert PlacementsUpTo(layer, 32.0, 32.0, 1, 1) == [];
    assert PlacementsUpTo(layer, 32.0, 32.0, 1, 2) == [TilePlacement(32.0, 0.0, 4)];
    assert PlacementsUpTo(layer, 32.0, 32.0, 1, 3) == [TilePlacement(32.0, 0.0, 4), TilePlacement(0.0, 32.0, 5)];
  }

  // ---------------------------------------------------------------- object layers

  /** The objects of an object layer; a tile layer has none. */
  function LayerObjects(layer: TiledLayer): seq<TiledObject> {
    if layer.ObjectLayer? then layer.objects else []
  }

  /** All objects of the object layers, layer by layer, each layer in its own order. */
  function ObjectsOf(layers: seq<TiledLayer>): seq<TiledObject> {
    if |layers| == 0 then []
    else ObjectsOf(layers[..|layers| - 1]) + LayerObjects(layers[|layers| - 1])
  }

  /** The objects of one more layer come after those of the layers before it. */
  lemma ObjectsOfPrefix(layers: seq<TiledLayer>, i: nat)
    requires i < |layers|
    ensures ObjectsOf(layers[..i + 1]) == ObjectsOf(layers[..i]) + LayerObjects(layers[i])
  {
    assert layers[..i + 1][..i] == layers[..i];
  }

  lemma {:induction false} ObjectsOfAppend(a: seq<TiledLayer>, b: seq<TiledLayer>)
    ensures ObjectsOf(a + b) == ObjectsOf(a) + ObjectsOf(b)
  {
    if |b| == 0 {
      assert a + b == a;
    } else {
      var b' := b[..|b| - 1];
      assert (a + b)[..|a + b| - 1] == a + b';
      ObjectsOfAppend(a, b');
    }
  }

  /** An object is visited exactly when it belongs to one of the object layers. */
  lemma {:induction false} ObjectsOfMembers(layers: seq<TiledLayer>, o: TiledObject)
    ensures o in ObjectsOf(layers) <==>
      exists l | 0 <= l < |layers| :: layers[l].ObjectLayer? && o in layers[l].objects
  {
    if |layers| > 0 {
      var front := layers[..|layers| - 1];
      ObjectsOfMembers(front, o);
      if o in ObjectsOf(layers) && o !in ObjectsOf(front) {
        assert o in LayerObjects(layers[|layers| - 1]);
      }
      if l :| 0 <= l < |layers| && layers[l].ObjectLayer? && o in layers[l].objects {
        if l < |layers| - 1 {
          assert front[l] == layers[l];
        }
      }
    }
  }

  /** The values `f` keeps from `objs`, in order: a loop that pushes what passes its checks. */
  function Collect<T>(objs: seq<TiledObject>, f: TiledObject -> Option<T>): seq<T> {
    if |objs| == 0 then []
    else
      Collect(objs[..|objs| - 1], f)
        + match f(objs[|objs| - 1]) case Some(v) => [v] case None => []
  }

  lemma {:induction false} CollectAppend<T>(a: seq<TiledObject>, b: seq<TiledObject>, f: TiledObject -> Option<T>)
    ensures Collect(a + b, f) == Collect(a, f) + Collect(b, f)
  {
    if |b| == 0 {
      assert a + b == a;
    } else {
      var b' := b[..|b| - 1];
      assert (a + b)[..|a + b| - 1] == a + b';
      CollectAppend(a, b', f);
    }
  }

  /** One more object adds what `f` keeps of it. */
  lemma CollectStep<T>(objs: seq<TiledObject>, f: TiledObject -> Option<T>, j: nat)
    requires j < |objs|
    ensures Collect(objs[..j + 1], f) == Collect(objs[..j], f) + match f(objs[j]) case Some(v) => [v] case None => []
  {
    assert objs[..j + 1][..j] == objs[..j];
  }

  /** A value is collected exactly when some object yields it. */
  lemma {:induction false} CollectMembers<T>(objs: seq<TiledObject>, f: TiledObject -> Option<T>, v: T)
    ensures v in Collect(objs, f) <==> exists i | 0 <= i < |objs| :: f(objs[i]) == Some(v)
  {
    if |objs| > 0 {
      var front := objs[..|objs| - 1];
      CollectMembers(front, f, v);
      if i :| 0 <= i < |objs| && f(objs[i]) == Some(v) {
        if i < |objs| - 1 {
          assert front[i] == objs[i];
        }
      }
    }
  }

  /** The wall an object stands for: its `collision` property is `true` and it has an area. */
  function WallOf(o: TiledObject): (r: Option<CollisionWall>)
    ensures r.Some? <==> GetObjectProperty(o, "collision") == Some(BoolValue(true)) && o.width > 0.0 && o.height > 0.0
    ensures r.Some? ==> r.value == CollisionWall(o.x, o.y, o.width, o.height)
  {
    if GetObjectProperty(o, "collision") != Some(BoolValue(true)) then None
    else if o.width <= 0.0 || o.height <= 0.0 then None
    else Some(CollisionWall(o.x, o.y, o.width, o.height))
  }

  /** The zone an object stands for: its `teleport` property is a string and it has an area. */
  function ZoneOf(o: TiledObject): (r: Option<TeleportZone>)
    ensures r.Some? <==>
      (GetObjectProperty(o, "teleport").Some? && GetObjectProperty(o, "teleport").value.StringValue?
       && o.width > 0.0 && o.height > 0.0)
    ensures r.Some? ==> r.value == TeleportZone(o.x, o.y, o.width, o.height, GetObjectProperty(o, "teleport").value.s)
  {
    match GetObjectProperty(o, "teleport")
    case Some(StringValue(target)) =>
      if o.width <= 0.0 || o.height <= 0.0 then None
      else Some(TeleportZone(o.x, o.y, o.width, o.height, target))
    case _ => None
  }

  /** The inner loop of `extractCollisionWalls`: the walls of one object layer, in object order. */
  method LayerWalls(objects: seq<TiledObject>) returns (walls: seq<CollisionWall>)
    ensures walls == Collect(objects, WallOf)
  {
    walls := [];
    for j := 0 to |objects|
      invariant walls == Collect(objects[..j], WallOf)
    {
      var o := objects[j];
      CollectStep(objects, WallOf, j);
      var shouldCollide := GetObjectProperty(o, "collision") == Some(BoolValue(true));
      if !shouldCollide {
        continue;
      }
      if o.width <= 0.0 || o.height <= 0.0 {
        continue;
      }
      walls := walls + [CollisionWall(o.x, o.y, o.width, o.height)];
    }
    assert objects[..|objects|] == objects;
  }

  /** `extractCollisionWalls`: one wall per colliding object of the object layers, in map order. */
  method ExtractCollisionWalls(tiled: TiledMap) returns (walls: seq<CollisionWall>)
    ensures walls == Collect(ObjectsOf(tiled.layers), WallOf)
  {
    walls := [];
    for i := 0 to |tiled.layers|
      invariant walls == Collect(ObjectsOf(tiled.layers[..i]), WallOf)
    {
      ObjectsOfPrefix(tiled.layers, i);
      CollectAppend(ObjectsOf(tiled.layers[..i]), LayerObjects(tiled.layers[i]), WallOf);
      var layer := tiled.layers[i];
      if !layer.ObjectLayer? {
        assert walls + Collect([], WallOf) == walls;
        continue;
      }
      var layerWalls := LayerWalls(layer.objects);
      walls := walls + layerWalls;
    }
    assert tiled.layers[..|tiled.layers|] == tiled.layers;
  }

  /** The inner loop of `extractTeleportZones`: the zones of one object layer, in object order. */
  method LayerZones(objects: seq<TiledObject>) returns (zones: seq<TeleportZone>)
    ensures zones == Collect(objects, ZoneOf)
  {
    zones := [];
    for j := 0 to |objects|
      invariant zones == Collect(objects[..j], ZoneOf)
    {
      var o := objects[j];
      CollectStep(objects, ZoneOf, j);
      var targetMapKey := GetObjectProperty(o, "teleport");
      if !(targetMapKey.Some? && targetMapKey.value.StringValue?) {
        continue;
      }
      if o.width <= 0.0 || o.height <= 0.0 {
        continue;
      }
      zones := zones + [TeleportZone(o.x, o.y, o.width, o.height, targetMapKey.value.s)];
    }
    assert objects[..|objects|] == objects;
  }

  /** `extractTeleportZones`: one zone per object with a string `teleport` target, in map order. */
  method ExtractTeleportZones(tiled: TiledMap) returns (zones: seq<TeleportZone>)
    ensures zones == Collect(ObjectsOf(tiled.layers), ZoneOf)
  {
    zones := [];
    for i := 0 to |tiled.layers|
      invariant zones == Collect(ObjectsOf(tiled.layers[..i]), ZoneOf)
    {
      ObjectsOfPrefix(tiled.layers, i);
      CollectAppend(ObjectsOf(tiled.layers[..i]), LayerObjects(tiled.layers[i]), ZoneOf);
      var layer := tiled.layers[i];
      if !layer.ObjectLayer? {
        assert zones + Collect([], ZoneOf) == zones;
        continue;
      }
      var layerZones := LayerZones(layer.objects);
      zones := zones + layerZones;
    }
    assert tiled.layers[..|tiled.layers|] == tiled.layers;
  }

  /**
   * A wall comes out of the map exactly when some object of an object layer
   * has `collision` set to `true` and a positive width and height; the wall
   * is that object's rectangle.
   */
  lemma WallsAreCollidingObjects(tiled: TiledMap, w: CollisionWall)
    ensures w in Collect(ObjectsOf(tiled.layers), WallOf) <==>
      exists o | o in ObjectsOf(tiled.layers) ::
        && GetObjectProperty(o, "collision") == Some(BoolValue(true))
        && o.width > 0.0 && o.height > 0.0
        && w == CollisionWall(o.x, o.y, o.width, o.height)
  {
    var objs := ObjectsOf(tiled.layers);
    CollectMembers(objs, WallOf, w);
    if o :| o in objs && WallOf(o) == Some(w) {
      var i :| 0 <= i < |objs| && objs[i] == o;
    }
  }

  /**
   * A teleport zone comes out of the map exactly when some object of an
   * object layer has a string `teleport` property and a positive width and
   * height; the zone is that object's rectangle, leading to that string.
   */
  lemma ZonesAreTeleportObjects(tiled: TiledMap, z: TeleportZone)
    ensures z in Collect(ObjectsOf(tiled.layers), ZoneOf) <==>
      exists o | o in ObjectsOf(tiled.layers) ::
        && GetObjectProperty(o, "teleport") == Some(StringValue(z.targetMapKey))
        && o.width > 0.0 && o.height > 0.0
        && z == TeleportZone(o.x, o.y, o.width, o.height, z.targetMapKey)
  {
    var objs := ObjectsOf(tiled.layers);
    CollectMembers(objs, ZoneOf, z);
    if o :| o in objs && ZoneOf(o) == Some(z) {
      var i :| 0 <= i < |objs| && objs[i] == o;
    }
  }

  // ---------------------------------------------------------------- named objects

  /** The test `findSpawnPoint` applies: the object's name or type is the id. */
  function SpawnMatcher(spawnId: string): TiledObject -> bool {
    (o: TiledObject) => o.name == Some(spawnId) || o.kind == Some(spawnId)
  }

  /** The test `findInteractionPoint` applies: its `interaction` property is the id. */
  function InteractionMatcher(interactionId: string): TiledObject -> bool {
    (o: TiledObject) => GetObjectProperty(o, "interaction") == Some(StringValue(interactionId))
  }

  /**
   * Looks through the object layers in order for the first object `p`
   * accepts: the per-layer `find` of the source, stopping at the first layer
   * with a match.
   */
  method FindObject(layers: seq<TiledLayer>, p: TiledObject -> bool) returns (r: Option<TiledObject>)
    ensures r == Find(ObjectsOf(layers), p)
  {
    for i := 0 to |layers|
      invariant Find(ObjectsOf(layers[..i]), p).None?
    {
      SearchNextLayer(layers, i, p);
      var layer := layers[i];
      if !layer.ObjectLayer? {
        continue;
      }
      var found := Find(layer.objects, p);
      if found.Some? {
        return found;
      }
    }
    assert layers[..|layers|] == layers;
    return None;
  }

  /**
   * When no layer before `i` holds a match, the search over all layers
   * finds layer `i`'s first match, if it has one, and otherwise goes on.
   */
  lemma SearchNextLayer(layers: seq<TiledLayer>, i: nat, p: TiledObject -> bool)
    requires i < |layers| && Find(ObjectsOf(layers[..i]), p).None?
    ensures Find(LayerObjects(layers[i]), p).Some? ==> Find(ObjectsOf(layers), p) == Find(LayerObjects(layers[i]), p)
    ensures Find(LayerObjects(layers[i]), p).None? ==> Find(ObjectsOf(layers[..i + 1]), p).None?
  {
    ObjectsOfPrefix(layers, i);
    assert layers == layers[..i + 1] + layers[i + 1..];
    ObjectsOfAppend(layers[..i + 1], layers[i + 1..]);
    FindPastMiss(ObjectsOf(layers[..i]), LayerObjects(layers[i]), ObjectsOf(layers[i + 1..]), p);
  }

  /**
   * The spawn point `findSpawnPoint` reports: the position of the first
   * object, in layer order, named or typed `spawnId`; none when no object is.
   */
  function SpawnPoint(tiled: TiledMap, spawnId: string): (r: Option<Point>)
    ensures r.None? <==> forall o | o in ObjectsOf(tiled.layers) :: o.name != Some(spawnId) && o.kind != Some(spawnId)
    ensures r.Some? ==> exists k | 0 <= k < |ObjectsOf(tiled.layers)| ::
      var o := ObjectsOf(tiled.layers)[k];
      && (o.name == Some(spawnId) || o.kind == Some(spawnId))
      && r.value == Point(o.x, o.y)
      && forall j | 0 <= j < k :: !SpawnMatcher(spawnId)(ObjectsOf(tiled.layers)[j])
  {
    var found := Find(ObjectsOf(tiled.layers), SpawnMatcher(spawnId));
    if found.None? then None
    else
      assert ObjectsOf(tiled.layers)[FindIndex(ObjectsOf(tiled.layers), SpawnMatcher(spawnId)).value] == found.value;
      Some(Point(found.value.x, found.value.y))
  }

  /** `findSpawnPoint`: searches the object layers in order. */
  method FindSpawnPoint(tiled: TiledMap, spawnId: string) returns (r: Option<Point>)
    ensures r == SpawnPoint(tiled, spawnId)
  {
    var found := FindObject(tiled.layers, SpawnMatcher(spawnId));
    if found.None? {
      return None;
    }
    return Some(Point(found.value.x, found.value.y));
  }

  /**
   * The interaction point an object stands for: centred on the object,
   * reaching half its larger side, with the prompt 16 pixels above, and
   * the object's rectangle as its bounds.
   */
  function InteractionPointOf(o: TiledObject): (p: InteractionPoint)
    ensures p.bounds == Rect(o.x, o.y, o.width, o.height)
    ensures p.x - o.x == o.x + o.width - p.x && p.y - o.y == o.y + o.height - p.y
    ensures p.radius * 2.0 >= o.width && p.radius * 2.0 >= o.height
    ensures p.radius * 2.0 == o.width || p.radius * 2.0 == o.height
    ensures p.offsetY == Some(16.0)
  {
    var radius := (if o.width >= o.height then o.width else o.height) / 2.0;
    InteractionPoint(o.x + o.width / 2.0, o.y + o.height / 2.0, radius, Some(16.0), Rect(o.x, o.y, o.width, o.height))
  }

  /**
   * The interaction point `findInteractionPoint` reports: that of the first
   * object, in layer order, whose `interaction` property is the id; none
   * when no object has it.
   */
  function InteractionPointFor(tiled: TiledMap, interactionId: string): (r: Option<InteractionPoint>)
    ensures r.None? <==> forall o | o in ObjectsOf(tiled.layers) ::
      GetObjectProperty(o, "interaction") != Some(StringValue(interactionId))
    ensures r.Some? ==> exists k | 0 <= k < |ObjectsOf(tiled.layers)| ::
      var o := ObjectsOf(tiled.layers)[k];
      && GetObjectProperty(o, "interaction") == Some(StringValue(interactionId))
      && r.value == InteractionPointOf(o)
      && forall j | 0 <= j < k :: !InteractionMatcher(interactionId)(ObjectsOf(tiled.layers)[j])
  {
    var found := Find(ObjectsOf(tiled.layers), InteractionMatcher(interactionId));
    if found.None? then None
    else
      assert ObjectsOf(tiled.layers)[FindIndex(ObjectsOf(tiled.layers), InteractionMatcher(interactionId)).value] == found.value;
      Some(InteractionPointOf(found.value))
  }

  /** `findInteractionPoint`: searches the object layers in order and builds the point of the first match. */
  method FindInteractionPoint(tiled: TiledMap, interactionId: string) returns (r: Option<InteractionPoint>)
    ensures r == InteractionPointFor(tiled, interactionId)
  {
    var found := FindObject(tiled.layers, InteractionMatcher(interactionId));
    if found.None? {
      return None;
    }
    return Some(InteractionPointOf(found.value));
  }

  /** The first tileset's `firstgid`, or 1 for a map without tilesets. */
  function FirstGid(tiled: TiledMap): (g: int)
    ensures |tiled.tilesets| == 0 ==> g == 1
    ensures |tiled.tilesets| > 0 ==> g == tiled.tilesets[0].firstGid
  {
    if |tiled.tilesets| > 0 then tiled.tilesets[0].firstGid else 1
  }
}
