/** The input and movement systems (src/ecs/systems/movement.ts). */
module Movement {
  import opened Wrappers
  import opened Components
  import opened Hypot

  /** An axis-aligned rectangle that blocks movement; extracted from map objects. */
  datatype CollisionWall = CollisionWall(x: real, y: real, width: real, height: real)

  /** The default player speed, in pixels per second. */
  const DefaultSpeed: real := 120.0

  /**
   * The velocity the input system writes for input vector `input`, whose
   * Euclidean length is `length`: the input direction scaled to `speed`, or
   * standing still for a zero input.
   */
  function InputVelocity(input: Point, length: real, speed: real): Point
  {
    if length > 0.0 then Point(input.x / length * speed, input.y / length * speed)
    else Point(0.0, 0.0)
  }

  /** The velocity is zero exactly when the input is zero or the speed is zero. */
  lemma ZeroInputStandsStill(input: Point, length: real, speed: real)
    requires IsHypot(input.x, input.y, length)
    ensures InputVelocity(input, length, speed) == Point(0.0, 0.0) <==>
      (input == Point(0.0, 0.0) || speed == 0.0)
  {
    if length > 0.0 && speed != 0.0 {
      if input.x != 0.0 {
        ScaledNonZero(input.x, length, speed);
      } else {
        ScaledNonZero(input.y, length, speed);
      }
    }
  }

  lemma ScaledNonZero(a: real, length: real, speed: real)
    requires a != 0.0 && length > 0.0 && speed != 0.0
    ensures a / length * speed != 0.0
  {
  }

  /**
   * For a non-zero input, the velocity points the same way as the input
   * (it is a positive multiple of it) and its magnitude is exactly `speed`.
   */
  lemma VelocityIsScaledDirection(input: Point, length: real, speed: real)
    requires IsHypot(input.x, input.y, length) && length > 0.0 && speed > 0.0
    ensures var v := InputVelocity(input, length, speed);
      && v.x * input.y == v.y * input.x
      && (v.x > 0.0 <==> input.x > 0.0) && (v.x < 0.0 <==> input.x < 0.0)
      && (v.y > 0.0 <==> input.y > 0.0) && (v.y < 0.0 <==> input.y < 0.0)
      && v.x * v.x + v.y * v.y == speed * speed
  {
    var k := speed / length;
    assert k > 0.0;
    var v := InputVelocity(input, length, speed);
    assert v.x == input.x * k;
    assert v.y == input.y * k;
    SignOfScaled(input.x, k);
    SignOfScaled(input.y, k);
    assert v.x * input.y == input.x * k * input.y == v.y * input.x;
    calc {
      v.x * v.x + v.y * v.y;
      input.x * k * (input.x * k) + input.y * k * (input.y * k);
      (input.x * input.x + input.y * input.y) * (k * k);
      length * length * (k * k);
      (length * k) * (length * k);
      { assert length * k == speed; }
      speed * speed;
    }
  }

  lemma SignOfScaled(a: real, k: real)
    requires k > 0.0
    ensures (a * k > 0.0 <==> a > 0.0) && (a * k < 0.0 <==> a < 0.0)
  {
    if a > 0.0 { assert a * k > 0.0; }
    if a < 0.0 { assert a * k < 0.0; }
  }

  /** Input (1, 1) at speed 10 gives 10/sqrt(2) on both axes: equal, positive, squares summing to 100. */
  lemma DiagonalInputExample(length: real)
    requires IsHypot(1.0, 1.0, length)
    ensures var v := InputVelocity(Point(1.0, 1.0), length, 10.0);
      v.x == v.y && v.x > 0.0 && v.x * v.x == 50.0
  {
    assert length * length == 2.0;
    assert length != 0.0;
    VelocityIsScaledDirection(Point(1.0, 1.0), length, 10.0);
  }

  /**
   * `createInputSystem(player, input, speed)(world, dt)`: writes the player's
   * Velocity from the input vector (`Math.hypot` of it is passed in as
   * `length`); `dt` is ignored and nothing else changes.
   */
  method InputSystem(world: World, player: nat, input: Point, length: real, speed: Option<real>, dt: real)
    requires world.Valid() && player < world.Capacity()
    modifies world.velX, world.velY
    ensures world.VelocityOf(player) == InputVelocity(input, length, speed.GetOr(DefaultSpeed))
    ensures forall e | 0 <= e < world.Capacity() && e != player :: world.VelocityOf(e) == old(world.VelocityOf(e))
    ensures forall e | 0 <= e < world.Capacity() :: world.PositionOf(e) == old(world.PositionOf(e))
  {
    var s := speed.GetOr(DefaultSpeed);
    var vx, vy := 0.0, 0.0;
    if length > 0.0 {
      vx, vy := input.x / length * s, input.y / length * s;
    }
    world.velX[player] := vx;
    world.velY[player] := vy;
  }

  /** Where a body at `position` moving at `velocity` is after `dt` seconds, each axis on its own. */
  function Integrate(position: Point, velocity: Point, dt: real): Point {
    Point(position.x + velocity.x * dt, position.y + velocity.y * dt)
  }

  /** A step leaves the position where it is exactly when dt is zero or the velocity is zero. */
  lemma IntegrateStandsStill(position: Point, velocity: Point, dt: real)
    ensures Integrate(position, velocity, dt) == position <==> dt == 0.0 || velocity == Point(0.0, 0.0)
  {
    if dt != 0.0 && Integrate(position, velocity, dt) == position {
      assert velocity.x * dt == 0.0 && velocity.y * dt == 0.0;
      NonZeroFactor(velocity.x, dt);
      NonZeroFactor(velocity.y, dt);
    }
  }

  lemma NonZeroFactor(a: real, b: real)
    requires b != 0.0 && a * b == 0.0
    ensures a == 0.0
  {
  }

  /** Two steps at the same velocity go as far as one step over their summed time. */
  lemma IntegrateSplits(position: Point, velocity: Point, dt1: real, dt2: real)
    ensures Integrate(Integrate(position, velocity, dt1), velocity, dt2) == Integrate(position, velocity, dt1 + dt2)
  {
    assert velocity.x * dt1 + velocity.x * dt2 == velocity.x * (dt1 + dt2);
    assert velocity.y * dt1 + velocity.y * dt2 == velocity.y * (dt1 + dt2);
  }

  /** From the origin at velocity (10, -20), half a second takes the body to (5, -10). */
  lemma IntegrateExample()
    ensures Integrate(Point(0.0, 0.0), Point(10.0, -20.0), 0.5) == Point(5.0, -10.0)
  {
  }

  /**
   * `createMovementSystem(player)(world, dt)`: integrates the player's Position
   * by Velocity * dt. Velocity and other entities stay as they are.
   */
  method MovementSystem(world: World, player: nat, dt: real)
    requires world.Valid() && player < world.Capacity()
    modifies world.posX, world.posY
    ensures world.PositionOf(player) == Integrate(old(world.PositionOf(player)), world.VelocityOf(player), dt)
    ensures forall e | 0 <= e < world.Capacity() && e != player :: world.PositionOf(e) == old(world.PositionOf(e))
    ensures forall e | 0 <= e < world.Capacity() :: world.VelocityOf(e) == old(world.VelocityOf(e))
  {
    world.posX[player] := world.posX[player] + world.velX[player] * dt;
    world.posY[player] := world.posY[player] + world.velY[player] * dt;
  }
}
