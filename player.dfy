/** Spawning the player entity (src/ecs/entities/player.ts). */
module Player {
  import opened Components

  /**
   * `spawnPlayer`: a new entity with Position and Velocity components, placed at
   * `position` and standing still. No other entity's components change.
   */
  method SpawnPlayer(world: World, position: Point) returns (entity: nat)
    requires world.Valid() && world.nextId < world.Capacity()
    modifies world, world.posX, world.posY, world.velX, world.velY
    ensures world.Valid()
    ensures entity !in old(world.entities) && entity < world.Capacity()
    ensures world.entities == old(world.entities) + {entity}
    ensures world.withPosition == old(world.withPosition) + {entity}
    ensures world.withVelocity == old(world.withVelocity) + {entity}
    ensures world.PositionOf(entity) == position
    ensures world.VelocityOf(entity) == Point(0.0, 0.0)
    ensures forall e | 0 <= e < world.Capacity() && e != entity ::
      world.PositionOf(e) == old(world.PositionOf(e)) && world.VelocityOf(e) == old(world.VelocityOf(e))
  {
    entity := world.AddEntity();
    world.withPosition := world.withPosition + {entity};
    world.withVelocity := world.withVelocity + {entity};
    world.posX[entity] := position.x;
    world.posY[entity] := position.y;
    world.velX[entity] := 0.0;
    world.velY[entity] := 0.0;
  }
}
