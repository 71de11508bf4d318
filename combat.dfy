/**
  Projectiles: a bullet advances in two half-steps per frame and dies on the
  first wall tile it touches.
 */
module Combat {
  import opened Geometry
  import opened Tiles

  datatype Team = PlayerTeam | HunterTeam

  /** The number of sub-steps a bullet takes per frame. */
  const STEPS: int := 2

  /** First and last tile coordinate that the span [v - r, v + r] touches, by truncation. */
  function SpanLo(v: real, r: real): int { TileCoord(v - r) }
  function SpanHi(v: real, r: real): int { TileCoord(v + r) }

  /**
    A circle at `pos` touches a wall: some tile in its truncated bounding box is
    a wall and the circle/rectangle test `collide` (raylib's
    CheckCollisionCircleRec) accepts that tile's square.
   */
  ghost predicate WallContact(world: Tilemap, pos: Vec, radius: real, collide: (Vec, real, Rect) -> bool)
    requires world.Valid()
    reads world.cells
  {
    exists ty, tx ::
      SpanLo(pos.y, radius) <= ty <= SpanHi(pos.y, radius) &&
      SpanLo(pos.x, radius) <= tx <= SpanHi(pos.x, radius) &&
      world.IsWall(tx, ty) && collide(pos, radius, TileRect(tx, ty))
  }

  /** Scans the bounding box row by row for a wall tile the circle touches. */
  method HitsWall(world: Tilemap, pos: Vec, radius: real, collide: (Vec, real, Rect) -> bool)
    returns (hit: bool)
    requires world.Valid()
    ensures hit <==> WallContact(world, pos, radius, collide)
  {
    var minTx, minTy := SpanLo(pos.x, radius), SpanLo(pos.y, radius);
    var maxTx, maxTy := SpanHi(pos.x, radius), SpanHi(pos.y, radius);
    var ty := minTy;
    while ty <= maxTy
      invariant minTy <= ty <= maxTy + 1 || (ty == minTy && maxTy < minTy)
      invariant forall y, x :: minTy <= y < ty && minTx <= x <= maxTx ==>
                  !(world.IsWall(x, y) && collide(pos, radius, TileRect(x, y)))
      decreases maxTy - ty
    {
      var tx := minTx;
      while tx <= maxTx
        invariant minTx <= tx <= maxTx + 1 || (tx == minTx && maxTx < minTx)
        invariant forall x :: minTx <= x < tx ==> !(world.IsWall(x, ty) && collide(pos, radius, TileRect(x, ty)))
        decreases maxTx - tx
      {
        if world.IsWall(tx, ty) && collide(pos, radius, TileRect(tx, ty)) {
          return true;
        }
        tx := tx + 1;
      }
      ty := ty + 1;
    }
    return false;
  }

  class Bullet {
    var pos: Vec
    var vel: Vec
    var radius: real
    var damage: real
    var team: Team
    var alive: bool

    /** The field defaults of the source's struct. */
    constructor ()
      ensures pos == Zero && vel == Zero
      ensures radius == 4.0 && damage == 12.0 && team == HunterTeam && alive
    {
      pos, vel := Zero, Zero;
      radius, damage := 4.0, 12.0;
      team, alive := HunterTeam, true;
    }

    /**
      One frame: a dead bullet is left alone; a live one advances by vel*dt/2
      twice and dies, without moving further, at the first half-step that
      leaves it touching a wall.
     */
    method Update(dt: real, world: Tilemap, collide: (Vec, real, Rect) -> bool)
      requires world.Valid()
      modifies this
      ensures vel == old(vel) && radius == old(radius) && damage == old(damage) && team == old(team)
      ensures alive ==> old(alive)
      ensures !old(alive) ==> pos == old(pos)
      ensures var half := old(vel).Scale(dt / STEPS as real);
              var p1 := old(pos).Plus(half);
              var p2 := p1.Plus(half);
              old(alive) ==>
                if !WallContact(world, p1, radius, collide) && !WallContact(world, p2, radius, collide)
                then alive && pos == p2
                else !alive &&
                     (if WallContact(world, p1, radius, collide) then pos == p1 else pos == p2)
      ensures old(alive) && alive ==> pos == old(pos).Plus(old(vel).Scale(dt))
    {
      if !alive {
        return;
      }
      var step := vel.Scale(dt / STEPS as real);
      ghost var p1 := old(pos).Plus(step);
      var i := 0;
      while i < STEPS && alive
        invariant 0 <= i <= STEPS && alive
        invariant i == 0 ==> pos == old(pos)
        invariant i >= 1 ==> !WallContact(world, p1, radius, collide)
        invariant i == 1 ==> pos == p1
        invariant i == 2 ==> pos == p1.Plus(step) && !WallContact(world, pos, radius, collide)
        invariant vel == old(vel) && radius == old(radius) && damage == old(damage) && team == old(team)
      {
        pos := pos.Plus(step);
        var hit := HitsWall(world, pos, radius, collide);
        if hit {
          alive := false;
          return;
        }
        i := i + 1;
      }
    }
  }
}
