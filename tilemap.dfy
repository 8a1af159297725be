/**
 * Tile layer rendering (src/render/tilemap.ts): one sprite per placed tile,
 * cut from a tileset sheet, with one texture per tile id shared by all its
 * sprites.
 */
module Tilemap {
  import opened Js
  import opened InteractionPrompt
  import opened Tiled

  /** The sheet cell of a tile id: column `tileId % columns` (JavaScript's `%`) and row `floor(tileId / columns)`. */
  function CellOf(tileId: int, columns: int): (cell: (int, int))
    requires columns > 0
    ensures tileId >= 0 ==> 0 <= cell.0 < columns && cell.1 >= 0 && cell.1 * columns + cell.0 == tileId
  {
    var cell := (RemInt(tileId, columns), tileId / columns);
    assert tileId >= 0 ==> cell.1 >= 0 && cell.1 * columns + cell.0 == tileId by {
      if tileId >= 0 {
        DivisionSplits(tileId, columns);
      }
    }
    cell
  }

  lemma DivisionSplits(a: int, b: int)
    requires a >= 0 && b > 0
    ensures a / b >= 0 && (a / b) * b + a % b == a
  {
  }

  /** The frame a tile's texture cuts out of the sheet. */
  function FrameOf(tileId: int, columns: int, tileWidth: real, tileHeight: real): Rect
    requires columns > 0
  {
    var cell := CellOf(tileId, columns);
    Rect((cell.0 as real) * tileWidth, (cell.1 as real) * tileHeight, tileWidth, tileHeight)
  }

  /** Different tile ids on the sheet get different cells: the cell gives the id back. */
  lemma CellsAreDistinct(a: int, b: int, columns: int)
    requires columns > 0 && a >= 0 && b >= 0 && a != b
    ensures CellOf(a, columns) != CellOf(b, columns)
  {
  }

  /** On a 64-pixel-wide sheet of 16-pixel tiles, tile 5 is cut from (16, 16). */
  lemma FrameExample()
    ensures FrameOf(5, (64.0 / 16.0).Floor, 16.0, 16.0) == Rect(16.0, 16.0, 16.0, 16.0)
  {
    assert (64.0 / 16.0).Floor == 4;
  }

  /** The grid [1, 0, 2, 3], two cells wide with 16-pixel tiles and firstgid 1, draws tiles 0, 1, 2. */
  lemma RenderExample()
    ensures TilePlacements(TileLayer("ground", 2, 2, [1, 0, 2, 3]), 16.0, 16.0, 1)
      == [TilePlacement(0.0, 0.0, 0), TilePlacement(0.0, 16.0, 1), TilePlacement(16.0, 16.0, 2)]
  {
    var layer := TileLayer("ground", 2, 2, [1, 0, 2, 3]);
    assert PlacementAt(2, 16.0, 16.0, 0, 0) == TilePlacement(0.0, 0.0, 0);
    assert PlacementAt(2, 16.0, 16.0, 2, 1) == TilePlacement(0.0, 16.0, 1);
    assert PlacementAt(2, 16.0, 16.0, 3, 2) == TilePlacement(16.0, 16.0, 2);
    assert PlacementsUpTo(layer, 16.0, 16.0, 1, 2) == [TilePlacement(0.0, 0.0, 0)];
    assert PlacementsUpTo(layer, 16.0, 16.0, 1, 3) == [TilePlacement(0.0, 0.0, 0), TilePlacement(0.0, 16.0, 1)];
  }

  /** A texture: a frame of the shared sheet. */
  class Texture {
    const tileId: int
    const frame: Rect

    constructor (tileId: int, frame: Rect)
      ensures this.tileId == tileId && this.frame == frame
    {
      this.tileId := tileId;
      this.frame := frame;
    }
  }

  /** A sprite drawing a texture at a position. */
  class Sprite {
    var x: real
    var y: real
    const texture: Texture

    constructor (texture: Texture)
      ensures this.texture == texture && x == 0.0 && y == 0.0
    {
      this.texture := texture;
      x, y := 0.0, 0.0;
    }
  }

  /**
   * `createPixiTileSpriteFactory(texture, tileWidth, tileHeight)`: the sheet
   * is `columns` tiles wide; `cache` holds the texture made for each tile id.
   */
  class TileSpriteFactory {
    const columns: int
    const tileWidth: real
    const tileHeight: real
    var cache: map<int, Texture>
    var texturesMade: nat

    /** Every cached texture cuts its own tile's frame, and a texture is made only on a cache miss. */
    ghost predicate Valid()
      reads this, cache.Values
    {
      && columns > 0
      && (forall id | id in cache :: cache[id].tileId == id && cache[id].frame == FrameOf(id, columns, tileWidth, tileHeight))
      && texturesMade == |cache.Keys|
    }

    /** The sheet must be at least one tile wide. */
    constructor (textureWidth: real, tileWidth: real, tileHeight: real)
      requires tileWidth > 0.0 && (textureWidth / tileWidth).Floor > 0
      ensures Valid() && columns == (textureWidth / tileWidth).Floor
      ensures this.tileWidth == tileWidth && this.tileHeight == tileHeight && cache == map[]
    {
      columns := (textureWidth / tileWidth).Floor;
      this.tileWidth := tileWidth;
      this.tileHeight := tileHeight;
      cache := map[];
      texturesMade := 0;
    }

    /**
     * The factory function: a new sprite at the origin on the tile's texture,
     * made and cached on first use and shared afterwards.
     */
    method CreateSprite(tileId: int) returns (sprite: Sprite)
      requires Valid()
      modifies this
      ensures Valid() && fresh(sprite) && sprite.x == 0.0 && sprite.y == 0.0
      ensures sprite.texture.tileId == tileId && sprite.texture.frame == FrameOf(tileId, columns, tileWidth, tileHeight)
      ensures cache == old(cache)[tileId := sprite.texture]
      ensures tileId in old(cache) ==> sprite.texture == old(cache)[tileId] && texturesMade == old(texturesMade)
      ensures tileId !in old(cache) ==> fresh(sprite.texture) && texturesMade == old(texturesMade) + 1
    {
      var texture: Texture;
      if tileId in cache {
        texture := cache[tileId];
      } else {
        texture := new Texture(tileId, FrameOf(tileId, columns, tileWidth, tileHeight));
        cache := cache[tileId := texture];
        texturesMade := texturesMade + 1;
      }
      sprite := new Sprite(texture);
    }
  }

  /** The map container: the sprites it draws, in order, and how many times it has been emptied. */
  class MapContainer {
    var children: seq<Sprite>
    var removals: nat

    constructor ()
      ensures children == [] && removals == 0
    {
      children, removals := [], 0;
    }

    /** `removeChildren`: the container is emptied. */
    method RemoveChildren()
      modifies this
      ensures children == [] && removals == old(removals) + 1
    {
      children, removals := [], removals + 1;
    }
  }

  /**
   * The sprites draw the placements, one for one and in order: each sits at
   * its placement's position on a texture cut for its placement's tile.
   */
  ghost predicate Shows(sprites: seq<Sprite>, placements: seq<TilePlacement>, factory: TileSpriteFactory)
    reads sprites
  {
    && factory.columns > 0
    && |sprites| == |placements|
    && forall k | 0 <= k < |placements| ::
         && sprites[k].x == placements[k].x && sprites[k].y == placements[k].y
         && sprites[k].texture.tileId == placements[k].tileId
         && sprites[k].texture.frame == FrameOf(placements[k].tileId, factory.columns, factory.tileWidth, factory.tileHeight)
  }

  /** Drawing two runs of placements one after the other draws their concatenation. */
  lemma ShowsAppend(s1: seq<Sprite>, p1: seq<TilePlacement>, s2: seq<Sprite>, p2: seq<TilePlacement>,
                    factory: TileSpriteFactory)
    requires Shows(s1, p1, factory) && Shows(s2, p2, factory)
    ensures Shows(s1 + s2, p1 + p2, factory)
  {
    forall k | 0 <= k < |p1 + p2|
      ensures (s1 + s2)[k].x == (p1 + p2)[k].x && (s1 + s2)[k].y == (p1 + p2)[k].y
      ensures (s1 + s2)[k].texture.tileId == (p1 + p2)[k].tileId
    {
      if k >= |p1| {
        assert (s1 + s2)[k] == s2[k - |p1|] && (p1 + p2)[k] == p2[k - |p1|];
      }
    }
  }

  /** The loop body of `renderTileLayer`: one new sprite for `placement`, positioned and appended to the container. */
  method AddTileSprite(placement: TilePlacement, factory: TileSpriteFactory, container: MapContainer)
    returns (sprite: Sprite)
    requires factory.Valid()
    modifies factory, container
    ensures factory.Valid() && container.removals == old(container.removals)
    ensures fresh(sprite) && container.children == old(container.children) + [sprite]
    ensures Shows([sprite], [placement], factory)
  {
    sprite := factory.CreateSprite(placement.tileId);
    sprite.x := placement.x;
    sprite.y := placement.y;
    container.children := container.children + [sprite];
  }

  /**
   * `renderTileLayer(layer, tileWidth, tileHeight, firstGid, createSprite, addSprite)`:
   * one new sprite per placement, in placement order, at the placement's
   * position and on the placement's tile, appended to the container.
   */
  method RenderTileLayer(layer: TiledLayer, tileWidth: real, tileHeight: real, firstGid: int,
                         factory: TileSpriteFactory, container: MapContainer)
    requires layer.TileLayer? && layer.width > 0 && factory.Valid()
    modifies factory, container
    ensures factory.Valid() && container.removals == old(container.removals)
    ensures |container.children| >= |old(container.children)|
    ensures var added := container.children[|old(container.children)|..];
      && container.children == old(container.children) + added
      && Shows(added, TilePlacements(layer, tileWidth, tileHeight, firstGid), factory)
      && forall k | 0 <= k < |added| :: fresh(added[k])
  {
    var placements := BuildTilePlacements(layer, tileWidth, tileHeight, firstGid);
    ghost var before := container.children;
    ghost var added: seq<Sprite> := [];
    for i := 0 to |placements|
      invariant factory.Valid() && container.removals == old(container.removals)
      invariant container.children == before + added
      invariant Shows(added, placements[..i], factory)
      invariant forall k | 0 <= k < |added| :: fresh(added[k])
    {
      ghost var shown := placements[..i];
      var sprite := AddTileSprite(placements[i], factory, container);
      assert Shows(added, shown, factory);
      ShowsAppend(added, shown, [sprite], [placements[i]], factory);
      assert placements[..i + 1] == shown + [placements[i]];
      added := added + [sprite];
    }
    assert placements[..|placements|] == placements;
    assert container.children[|before|..] == added;
  }
}
