/*
  The wandering prey of src/Animal.cpp. An animal has a home, roams around it
  toward a target that it re-picks on a timer, when it arrives, or when it has
  strayed too far from home, and takes wall-checked steps toward that target.
  The random draws are parameters; the colour draw only feeds drawing and is
  not modelled.
*/
module Animals {
  import opened Geometry
  import opened Tiles

  /** Seek steps shorter than this leave the direction at zero. */
  const SEEK_EPS: real := 0.001

  /**
    The GetRandomValue draws of `randomise`: radius (6..18), roam distance
    (120..240), the first target's angle in hundredths of a radian (0..628)
    and distance (30..roam), and the retarget delay in sixtieths of a second
    (60..180).
   */
  datatype SpawnDraws = SpawnDraws(radius: int, roam: int, angle: int, dist: int, timer: int)
  {
    predicate InRange() {
      6 <= radius <= 18 && 120 <= roam <= 240 && 0 <= angle <= 628 && 30 <= dist <= roam && 60 <= timer <= 180
    }
  }

  /** The draws of a retarget in `update`: angle (0..628), distance (40..roam) and delay (60..180). */
  datatype RetargetDraws = RetargetDraws(angle: int, dist: int, timer: int)
  {
    predicate InRange() {
      0 <= angle <= 628 && 60 <= timer <= 180
    }
  }

  /** Bigger creatures are slower: 140 - 4*radius, clamped to [40, 120]. */
  function SizeSpeed(radius: real): (s: real)
    ensures 40.0 <= s <= 120.0
    ensures 5.0 <= radius <= 25.0 ==> s == 140.0 - 4.0 * radius
  {
    Clampf(140.0 - radius * 4.0, 40.0, 120.0)
  }

  /** Over the drawn radii the clamp never binds and speed strictly falls as the radius grows. */
  lemma BiggerIsSlower(r1: real, r2: real)
    requires 6.0 <= r1 < r2 <= 18.0
    ensures 68.0 <= SizeSpeed(r2) < SizeSpeed(r1) <= 116.0
  {
  }

  /** A point `dist` away from `base` at `angle` hundredths of a radian. */
  function PointAround(base: Vec, angle: int, dist: int, m: Trig): Vec {
    base.Plus(Heading(m, angle as real / 100.0).Scale(dist as real))
  }

  /**
    The next position of a seeking step: toward `target` by speed*dt, or no
    move when the target is within the seek epsilon.
   */
  function SeekStep(pos: Vec, target: Vec, speed: real, dt: real, m: Trig): (next: Vec)
    ensures Length(m, target.Minus(pos)) <= SEEK_EPS ==> next == pos
    ensures Length(m, target.Minus(pos)) > SEEK_EPS ==>
              next.Minus(pos) == target.Minus(pos).Scale(speed * dt / Length(m, target.Minus(pos)))
  {
    var to := target.Minus(pos);
    var len := Length(m, to);
    var dir := if len > SEEK_EPS then to.Div(len) else Zero;
    var next := pos.Plus(Vec(dir.x * speed * dt, dir.y * speed * dt));
    assert len > SEEK_EPS ==> next.Minus(pos) == to.Scale(speed * dt / len) by {
      if len > SEEK_EPS {
        assert next.x - pos.x == to.x / len * speed * dt == to.x * (speed * dt / len);
        assert next.y - pos.y == to.y / len * speed * dt == to.y * (speed * dt / len);
      }
    }
    next
  }

  class Animal {
    var pos: Vec
    var home: Vec
    var target: Vec
    var speed: real
    var radius: real
    var roam: real
    var retargetTimer: real
    /** Read and cleared by the player's bite, dash and slam; not declared in src/Animal.hpp. */
    var alive: bool

    /** The defaults of src/Animal.hpp. */
    constructor ()
      ensures pos == Zero && home == Zero && target == Zero
      ensures speed == 60.0 && radius == 10.0 && roam == 160.0 && retargetTimer == 0.0 && alive
    {
      pos, home, target := Zero, Zero, Zero;
      speed, radius, roam := 60.0, 10.0, 160.0;
      retargetTimer := 0.0;
      alive := true;
    }

    /** The arrival test: the squared distance to the target is under 1.5 radius squared. */
    predicate Arrived()
      reads this`pos, this`target, this`radius
    {
      target.Minus(pos).Len2() < radius * radius * 1.5
    }

    /** Strayed: farther than `roam` from home. */
    predicate TooFar()
      reads this`pos, this`home, this`roam
    {
      pos.Minus(home).Len2() > roam * roam
    }

    /**
      Places the animal at `spawn` (a random floor position) and makes it its
      home, draws its size, speed and roam distance, a first target around home
      and the first retarget delay.
     */
    method Randomise(spawn: Vec, draws: SpawnDraws, m: Trig)
      modifies this`pos, this`home, this`radius, this`speed, this`roam, this`target, this`retargetTimer
      ensures pos == spawn && home == spawn
      ensures radius == draws.radius as real && roam == draws.roam as real && speed == SizeSpeed(radius)
      ensures target == PointAround(home, draws.angle, draws.dist, m)
      ensures retargetTimer == draws.timer as real / 60.0
      ensures draws.InRange() ==>
                6.0 <= radius <= 18.0 && 68.0 <= speed <= 116.0 && 120.0 <= roam <= 240.0 &&
                1.0 <= retargetTimer <= 3.0
    {
      pos := spawn;
      home := pos;
      radius := draws.radius as real;
      speed := SizeSpeed(radius);
      roam := draws.roam as real;
      target := PointAround(home, draws.angle, draws.dist, m);
      retargetTimer := draws.timer as real / 60.0;
      assert draws.InRange() ==> 60.0 <= draws.timer as real <= 180.0;
    }

    /**
      The retarget rule: the clock runs down by dt; a new target is drawn
      when it has run out, when the animal has arrived, or when it has strayed
      from home (then around home, else around the animal), and the clock
      restarts from the delay draw.
     */
    method Retarget(dt: real, draws: RetargetDraws, m: Trig)
      modifies this`retargetTimer, this`target
      ensures var retarget := old(retargetTimer) - dt <= 0.0 || old(Arrived()) || old(TooFar());
              && target == (if retarget then PointAround(if old(TooFar()) then home else pos, draws.angle, draws.dist, m)
                            else old(target))
              && retargetTimer == (if retarget then draws.timer as real / 60.0 else old(retargetTimer) - dt)
      ensures draws.InRange() && (old(retargetTimer) - dt <= 0.0 || old(Arrived()) || old(TooFar())) ==>
                1.0 <= retargetTimer <= 3.0
    {
      retargetTimer := retargetTimer - dt;

      var toTarget := target.Minus(pos);
      var d2 := toTarget.Len2();
      var needNew := retargetTimer <= 0.0 || d2 < radius * radius * 1.5;

      // corrects to roam near home
      var homeD2 := pos.Minus(home).Len2();
      var tooFar := homeD2 > roam * roam;

      if needNew || tooFar {
        var a := draws.angle as real / 100.0;
        var r := draws.dist as real;
        var base := if tooFar then home else pos;
        target := Vec(base.x + m.cos(a) * r, base.y + m.sin(a) * r);
        retargetTimer := draws.timer as real / 60.0;
      }
    }

    /**
      One frame: the retarget rule, then a seeking step toward the target; a
      step into a wall is refused and forces a retarget on the next frame.
     */
    method Update(dt: real, world: Tilemap, draws: RetargetDraws, m: Trig)
      requires world.Valid()
      modifies this`retargetTimer, this`target, this`pos
      ensures var retarget := old(retargetTimer) - dt <= 0.0 || old(Arrived()) || old(TooFar());
              && target == (if retarget then PointAround(if old(TooFar()) then home else old(pos), draws.angle, draws.dist, m)
                            else old(target))
              && var next := SeekStep(old(pos), target, speed, dt, m);
                 && (world.Free(next) ==>
                       pos == next &&
                       retargetTimer == (if retarget then draws.timer as real / 60.0 else old(retargetTimer) - dt))
                 && (!world.Free(next) ==> pos == old(pos) && retargetTimer == 0.0)
      ensures pos == old(pos) || world.Free(pos)
      ensures draws.InRange() && retargetTimer != 0.0 && (old(retargetTimer) - dt <= 0.0 || old(Arrived()) || old(TooFar())) ==>
                1.0 <= retargetTimer <= 3.0
    {
      Retarget(dt, draws, m);

      // seek the target
      var next := SeekStep(pos, target, speed, dt, m);
      if !world.IsWall(TileCoord(next.x), TileCoord(next.y)) {
        pos := next;
      } else {
        // a wall forces a new target
        retargetTimer := 0.0;
      }
    }
  }
}
