/** The built-in room contents used when a map does not provide them (src/game/fixtures.ts). */
module Fixtures {
  import opened Wrappers
  import opened Movement
  import opened InteractionPrompt

  /**
   * `createDefaultCollisionWalls`: a horizontal and a vertical wall. Both
   * have a positive width and height, as walls decoded from a map do.
   */
  function DefaultCollisionWalls(): (walls: seq<CollisionWall>)
    ensures |walls| == 2
    ensures forall k | 0 <= k < |walls| :: walls[k].width > 0.0 && walls[k].height > 0.0
    ensures walls[0].width > walls[0].height && walls[1].height > walls[1].width
  {
    [CollisionWall(120.0, 240.0, 200.0, 20.0), CollisionWall(320.0, 80.0, 20.0, 200.0)]
  }

  /**
   * `createDefaultInteractionPoint`: the point sits at the centre of its
   * bounds, the prompt 16 pixels above it, and its radius reaches every
   * corner of the bounds.
   */
  function DefaultInteractionPoint(): (p: InteractionPoint)
    ensures p.x == p.bounds.x + p.bounds.width / 2.0 && p.y == p.bounds.y + p.bounds.height / 2.0
    ensures p.offsetY == Some(16.0)
    ensures p.radius > 0.0 && p.bounds.width > 0.0 && p.bounds.height > 0.0
    ensures forall cx, cy | cx in {p.bounds.x, p.bounds.x + p.bounds.width} && cy in {p.bounds.y, p.bounds.y + p.bounds.height} ::
      WithinReach(cx, cy, p)
  {
    InteractionPoint(200.0, 180.0, 40.0, Some(16.0), Rect(184.0, 164.0, 32.0, 32.0))
  }
}
