/** The player sprite (src/render/playerRender.ts): drawn where the player's Position is. */
module PlayerRender {
  import opened Components

  /** The sprite frame of the inn manager, facing front, idle. */
  const ManagerSpriteFrame: string := "0001-manager-all-frames_frontidle_0001.png"

  /** A sprite handle: its position and the frame it shows. */
  class SpriteHandle {
    var x: real
    var y: real
    const frame: string

    /** `createSprite(frame)`: a sprite at the origin. */
    constructor (frame: string)
      ensures this.frame == frame && x == 0.0 && y == 0.0
    {
      this.frame := frame;
      x, y := 0.0, 0.0;
    }
  }

  /** The render store: sprites by entity, and the sprites handed to `addSprite`, in order. */
  class RenderStore {
    var sprites: map<nat, SpriteHandle>
    var attached: seq<SpriteHandle>

    constructor ()
      ensures sprites == map[] && attached == []
    {
      sprites, attached := map[], [];
    }
  }

  /**
   * `createPlayerRenderSystem(player, store)(world, dt)`: on first sight of the
   * player, creates the manager sprite, registers it under the player and
   * adds it to the scene; on every run, moves it to the player's position.
   */
  method PlayerRenderSystem(world: World, player: nat, store: RenderStore)
    requires world.Valid() && player < world.Capacity()
    modifies store, if player in store.sprites then {store.sprites[player]} else {}
    ensures player in store.sprites
    ensures var sprite := store.sprites[player];
      sprite.x == world.posX[player] && sprite.y == world.posY[player]
    ensures player in old(store.sprites) ==>
      store.sprites == old(store.sprites) && store.attached == old(store.attached)
    ensures player !in old(store.sprites) ==>
      var sprite := store.sprites[player];
      && fresh(sprite) && sprite.frame == ManagerSpriteFrame
      && store.sprites == old(store.sprites)[player := sprite]
      && store.attached == old(store.attached) + [sprite]
  {
    var sprite: SpriteHandle;
    if player in store.sprites {
      sprite := store.sprites[player];
    } else {
      sprite := new SpriteHandle(ManagerSpriteFrame);
      store.sprites := store.sprites[player := sprite];
      store.attached := store.attached + [sprite];
    }
    sprite.x := world.posX[player];
    sprite.y := world.posY[player];
  }
}
