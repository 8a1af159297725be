/**
 * The entity store. Entities are integer ids; the Position and Velocity
 * components are kept as structure-of-arrays, one numeric array per axis,
 * indexed by entity id and zero-initialised, as typed arrays are.
 */
module Components {

  /** A 2D point or vector: `{ x, y }`. */
  datatype Point = Point(x: real, y: real)

  class World {
    const posX: array<real>
    const posY: array<real>
    const velX: array<real>
    const velY: array<real>
    /** The live entity ids. */
    var entities: set<nat>
    /** The entities that carry a Position component. */
    var withPosition: set<nat>
    /** The entities that carry a Velocity component. */
    var withVelocity: set<nat>
    /** The id the next `addEntity` hands out (ids are never recycled here). */
    var nextId: nat

    /** The number of entity slots each component array has. */
    function Capacity(): nat {
      posX.Length
    }

    ghost predicate Valid()
      reads this
    {
      && posY.Length == velX.Length == velY.Length == posX.Length
      && posX != posY && posX != velX && posX != velY
      && posY != velX && posY != velY && velX != velY
      && nextId <= posX.Length
      && (forall e | e in entities :: e < nextId)
      && withPosition <= entities
      && withVelocity <= withPosition
    }

    /** The position of entity `e`, read from both Position arrays. */
    function PositionOf(e: nat): Point
      reads this, posX, posY
      requires e < Capacity() && posY.Length == posX.Length
    {
      Point(posX[e], posY[e])
    }

    /** The velocity of entity `e`, read from both Velocity arrays. */
    function VelocityOf(e: nat): Point
      reads this, velX, velY
      requires e < Capacity() && velX.Length == velY.Length == posX.Length
    {
      Point(velX[e], velY[e])
    }

    /** `createGameWorld`: an empty world whose arrays have `capacity` slots. */
    constructor (capacity: nat)
      ensures Valid() && Capacity() == capacity
      ensures fresh(posX) && fresh(posY) && fresh(velX) && fresh(velY)
      ensures entities == {} && withPosition == {} && withVelocity == {} && nextId == 0
    {
      posX := new real[capacity];
      posY := new real[capacity];
      velX := new real[capacity];
      velY := new real[capacity];
      entities, withPosition, withVelocity, nextId := {}, {}, {}, 0;
    }

    /** `addEntity`: hands out an id that is not in use. */
    method AddEntity() returns (e: nat)
      requires Valid() && nextId < Capacity()
      modifies this
      ensures Valid()
      ensures e !in old(entities) && e < Capacity()
      ensures entities == old(entities) + {e}
      ensures withPosition == old(withPosition) && withVelocity == old(withVelocity)
    {
      e := nextId;
      entities := entities + {e};
      nextId := nextId + 1;
    }
  }
}
