/**
  The hunter squad controller: perception, the shared intel slot, the
  Patrol/Chase/Search state machine, path following, knockback, and the
  fire-control pipeline with burst timing and friendly-fire avoidance.
 */
module Hunters {
  import opened Geometry
  import opened Tiles
  import opened Angles
  import opened Combat

  datatype State = Patrol | Chase | Search

  /** How long a sighting published to the squad stays valid, in seconds. */
  const INTEL_TTL: real := 2.5
  /** A searching hunter this close to the shared spot clears it. */
  const INTEL_CLEAR_RADIUS: real := 24.0
  /** Below this length a vector counts as zero and is not normalised. */
  const EPS: real := 0.0001
  /** Muzzle offset beyond the body, bullet speed and damage of a hunter's rifle. */
  const MUZZLE_GAP: real := 6.0
  const BULLET_SPEED: real := 700.0
  const BULLET_DAMAGE: real := 12.0
  /** The friendly-fire test looks this far past the player and this far to each side. */
  const OVERSHOOT: real := 60.0
  const SAFETY: real := 20.0
  /** The delay before a hunter whose line is blocked by a squad mate tries again. */
  const HOLD_FIRE_DELAY: real := 0.1

  /** The squad's one shared sighting: where the player was seen and for how much longer that counts. */
  class SquadIntel {
    var spot: Vec
    var timeToLive: real

    /** A fresh slot carries no lead: no hunter reports shared intel until someone writes it. */
    constructor ()
      ensures spot == Zero && timeToLive == 0.0
      ensures !HasLead()
    {
      spot, timeToLive := Zero, 0.0;
    }

    predicate HasLead()
      reads this
    {
      timeToLive > 0.0
    }
  }

  /**
    The three GetRandomValue draws of `pickNewPatrolTarget`: an angle in
    hundredths of a radian (0..628), a distance (80..patrolRadius) and the
    retarget delay in sixtieths of a second (120..240).
   */
  datatype PatrolDraws = PatrolDraws(angle: int, dist: int, retarget: int)
  {
    predicate InRange() {
      0 <= angle <= 628 && 120 <= retarget <= 240
    }
  }

  /** Squared distance from `p` to the segment from `a` to `b`; a segment shorter than the epsilon counts as the point `a`. */
  function SegDist2(a: Vec, b: Vec, p: Vec): (r: real)
    ensures r >= 0.0
    ensures b.Minus(a).Len2() < EPS ==> r == Dist2(p, a)
  {
    var ab := b.Minus(a);
    var ap := p.Minus(a);
    var ab2 := ab.Len2();
    if ab2 < EPS then
      assert ap.x * ap.x >= 0.0 && ap.y * ap.y >= 0.0;
      ap.Len2()
    else
      var t := Min(1.0, Max(0.0, ap.Dot(ab) / ab2));
      var d := p.Minus(a.Plus(ab.Scale(t)));
      assert d.x * d.x >= 0.0 && d.y * d.y >= 0.0;
      d.Len2()
  }

  /**
    For a segment longer than the epsilon, SegDist2 is the least squared
    distance from `p` to any point of the segment.
   */
  lemma SegDist2Minimal(a: Vec, b: Vec, p: Vec, s: real)
    requires b.Minus(a).Len2() >= EPS
    requires 0.0 <= s <= 1.0
    ensures SegDist2(a, b, p) <= Dist2(p, a.Plus(b.Minus(a).Scale(s)))
  {
    var v := b.Minus(a);
    var u := p.Minus(a);
    var t := Min(1.0, Max(0.0, u.Dot(v) / v.Len2()));
    assert p.Minus(a.Plus(v.Scale(t))) == u.Minus(v.Scale(t));
    assert p.Minus(a.Plus(v.Scale(s))) == u.Minus(v.Scale(s));
    QuadraticAlongSegment(u, v, t);
    QuadraticAlongSegment(u, v, s);
    ClampedParameterMinimal(u.Len2(), u.Dot(v), v.Len2(), s);
  }

  /**
    The quadratic U - 2 s D + s^2 V with V > 0 takes its least value over
    [0, 1] at D / V clamped to [0, 1].
   */
  lemma ClampedParameterMinimal(U: real, D: real, V: real, s: real)
    requires V > 0.0 && 0.0 <= s <= 1.0
    ensures var t := Min(1.0, Max(0.0, D / V));
            U - 2.0 * t * D + t * t * V <= U - 2.0 * s * D + s * s * V
  {
    var t0 := D / V;
    var t := Min(1.0, Max(0.0, t0));
    assert D == t0 * V;
    var gap := (U - 2.0 * s * D + s * s * V) - (U - 2.0 * t * D + t * t * V);
    assert gap == (s - t) * ((s + t) * V - 2.0 * D);
    if t0 < 0.0 {
      assert D < 0.0;
      assert gap == s * (s * V - 2.0 * D);
      assert s * V >= 0.0;
    } else if t0 > 1.0 {
      assert D - V == (t0 - 1.0) * V;
      assert (t0 - 1.0) * V > 0.0;
      assert (s + 1.0) * V - 2.0 * D <= (s - 1.0) * V;
      assert (s - 1.0) * V <= 0.0;
    } else {
      assert gap == (s - t) * (s - t) * V;
      assert (s - t) * (s - t) >= 0.0;
    }
  }

  lemma QuadraticAlongSegment(u: Vec, v: Vec, s: real)
    ensures u.Minus(v.Scale(s)).Len2() == u.Len2() - 2.0 * s * u.Dot(v) + s * s * v.Len2()
  {
  }

  /**
    Burst bookkeeping after one shot, from `burstLeft` with bursts of `burstSize`:
    the new burstLeft and whether the long inter-burst cooldown applies.
   */
  function BurstStep(burstLeft: int, burstSize: int): (r: (int, bool))
    ensures 1 <= burstSize && 0 <= burstLeft < burstSize ==> 0 <= r.0 < burstSize
    ensures r.1 <==> burstLeft == 1
    ensures r.1 ==> r.0 == 0
  {
    if burstLeft <= 0 then (burstSize - 1, false)
    else (burstLeft - 1, burstLeft - 1 == 0)
  }

  /** The burstLeft after `shots` consecutive shots, and for each shot whether it took the long cooldown. */
  function BurstRun(burstLeft: int, burstSize: int, shots: nat): (int, seq<bool>)
    decreases shots
  {
    if shots == 0 then (burstLeft, [])
    else
      var s := BurstStep(burstLeft, burstSize);
      var rest := BurstRun(s.0, burstSize, shots - 1);
      (rest.0, [s.1] + rest.1)
  }

  function Repeat(b: bool, n: nat): (r: seq<bool>)
    ensures |r| == n && forall i :: 0 <= i < n ==> r[i] == b
  {
    if n == 0 then [] else [b] + Repeat(b, n - 1)
  }

  /** With `left` shots still owed in the burst, the next `left` shots take the short cooldown except the last, which ends the burst. */
  lemma {:induction false} BurstDrains(left: int, burstSize: int)
    requires 1 <= left
    ensures BurstRun(left, burstSize, left) == (0, Repeat(false, left - 1) + [true])
  {
    if left == 1 {
      assert BurstStep(1, burstSize) == (0, true);
      assert BurstRun(1, burstSize, 1) == (0, [true] + []);
      assert Repeat(false, 0) + [true] == [true];
      assert BurstRun(left, burstSize, left).0 == 0;
      assert BurstRun(left, burstSize, left).1 == [true];
    } else {
      BurstDrains(left - 1, burstSize);
      assert [false] + (Repeat(false, left - 2) + [true]) == Repeat(false, left - 1) + [true];
    }
  }

  /**
    From burstLeft = 0 with bursts of at least two, a burst is burstSize shots
    of which only the last takes burstCooldown, and it ends at burstLeft = 0
    again, so every burstSize-th consecutive shot takes the long cooldown.
   */
  lemma BurstCycle(burstSize: int)
    requires burstSize >= 2
    ensures BurstRun(0, burstSize, burstSize) == (0, Repeat(false, burstSize - 1) + [true])
  {
    BurstDrains(burstSize - 1, burstSize);
    assert [false] + (Repeat(false, burstSize - 2) + [true]) == Repeat(false, burstSize - 1) + [true];
  }

  /** With bursts of one, burstLeft stays 0 and no shot ever takes burstCooldown. */
  lemma {:induction false} BurstOfOne(shots: nat)
    ensures BurstRun(0, 1, shots) == (0, Repeat(false, shots))
  {
    if shots > 0 {
      BurstOfOne(shots - 1);
    }
  }

  /** `norm`: the unit vector along `v`, or zero when `v` is shorter than the epsilon. */
  function Norm(m: Trig, v: Vec): Vec {
    var l := Length(m, v);
    if l > EPS then v.Div(l) else Zero
  }

  /** The strafe side picked from the whole seconds of the game clock: +1 for the first two of every four. */
  function StrafeSide(clock: real): real {
    if CRem(Trunc(clock), 4) < 2 then 1.0 else -1.0
  }

  /** Knockback velocity after one frame of friction: reduced by friction*dt of itself, at most to nothing. */
  function Decay(knock: Vec, friction: real, dt: real): Vec {
    knock.Minus(knock.Scale(Min(friction * dt, 1.0)))
  }

  /** Scaling by a factor in [0, 1] never lengthens a vector. */
  lemma ScaleShrinks(v: Vec, e: real)
    requires 0.0 <= e <= 1.0
    ensures v.Scale(e).Len2() <= v.Len2()
  {
    var x2, y2 := v.x * v.x, v.y * v.y;
    assert x2 >= 0.0 && y2 >= 0.0;
    assert e * e <= 1.0 by {
      assert e * e <= e * 1.0;
    }
    assert v.Scale(e).Len2() == (e * e) * (x2 + y2);
    assert (1.0 - e * e) * (x2 + y2) >= 0.0;
  }

  /** With non-negative friction and frame time the knockback never grows, and a large enough step stops it. */
  lemma DecayShrinks(knock: Vec, friction: real, dt: real)
    requires friction >= 0.0 && dt >= 0.0
    ensures Decay(knock, friction, dt).Len2() <= knock.Len2()
    ensures friction * dt >= 1.0 ==> Decay(knock, friction, dt) == Zero
  {
    var c := Min(friction * dt, 1.0);
    assert 0.0 <= c <= 1.0 by { assert friction * dt >= 0.0; }
    assert Decay(knock, friction, dt) == knock.Scale(1.0 - c) by {
      assert Decay(knock, friction, dt) == Vec(knock.x - knock.x * c, knock.y - knock.y * c);
      assert knock.x - knock.x * c == knock.x * (1.0 - c);
      assert knock.y - knock.y * c == knock.y * (1.0 - c);
    }
    ScaleShrinks(knock, 1.0 - c);
  }

  /**
    The movement direction once knockback and stun are applied: `intent` plus
    the knockback velocity divided by the speed (at least 1), quartered while
    stunned, then normalised unless it is shorter than the epsilon.
   */
  function Steering(intent: Vec, knock: Vec, speed: real, stunned: bool, m: Trig): (r: Vec)
    // the result points the way of intent plus knockback: parallel to it, and never against it
    ensures var d := intent.Plus(knock.Div(Max(speed, 1.0)));
            r.x * d.y == r.y * d.x && r.Dot(d) >= 0.0
    // a push too short to normalise is kept as it is, quartered while stunned
    ensures var d := intent.Plus(knock.Div(Max(speed, 1.0)));
            var d' := if stunned then d.Scale(0.25) else d;
            Length(m, d') <= EPS ==> r == d'
  {
    var d := intent.Plus(knock.Div(Max(speed, 1.0)));
    var d' := if stunned then d.Scale(0.25) else d;
    var l := Length(m, d');
    var c := if stunned then 0.25 else 1.0;
    if l > EPS then
      assert d'.Div(l) == d.Scale(c / l);
      ScaledAlong(d, c / l);
      d'.Div(l)
    else
      ScaledAlong(d, c);
      d'
  }

  /** A non-negative multiple of `d` is parallel to `d` and never points against it. */
  lemma ScaledAlong(d: Vec, q: real)
    requires q >= 0.0
    ensures d.Scale(q).x * d.y == d.Scale(q).y * d.x && d.Scale(q).Dot(d) >= 0.0
  {
    assert d.Scale(q).Dot(d) == q * (d.x * d.x + d.y * d.y);
    assert d.x * d.x + d.y * d.y >= 0.0;
  }

  /**
    The transition table of a frame: a sighting means Chase; otherwise shared
    intel turns a patrolling hunter into a searching one and leaves the other
    states alone; personal memory alone keeps the state; with no knowledge at
    all the hunter patrols.
   */
  function NextState(s: State, seePlayer: bool, hasSharedIntel: bool, hasPersonalIntel: bool): (r: State)
    ensures seePlayer ==> r == Chase
    // without a sighting no hunter enters Chase, and only a patrolling one enters Search
    ensures !seePlayer && r == Chase ==> s == Chase
    ensures !seePlayer && r == Search ==> s == Search || (s == Patrol && hasSharedIntel)
    ensures !seePlayer && hasSharedIntel && s == Patrol ==> r == Search
    // with no knowledge at all the hunter patrols; with only its own memory it keeps its state
    ensures !seePlayer && !hasSharedIntel ==> r == (if hasPersonalIntel then s else Patrol)
  {
    if seePlayer then Chase
    else if hasSharedIntel then (if s == Patrol then Search else s)
    else if !hasPersonalIntel then Patrol
    else s
  }

  /**
    The give-up test at the end of a frame (Chase, far away, nothing known)
    never passes: a sighting always comes with shared intel, so a hunter the
    transition table leaves in Chase still knows something.
   */
  lemma GiveUpUnreachable(s: State, seePlayer: bool, hasSharedIntel: bool, hasPersonalIntel: bool)
    requires seePlayer ==> hasSharedIntel
    ensures NextState(s, seePlayer, hasSharedIntel, hasPersonalIntel) == Chase ==> hasSharedIntel || hasPersonalIntel
    ensures !hasSharedIntel && !hasPersonalIntel ==> NextState(s, seePlayer, hasSharedIntel, hasPersonalIntel) == Patrol
  {
  }

  /** The point a frame tracks: the player when seen, else the squad's shared spot, else the hunter's last sighting. */
  function Track(seePlayer: bool, hasSharedIntel: bool, pp: Vec, spot: Vec, lastSeen: Vec): Vec {
    if seePlayer then pp else if hasSharedIntel then spot else lastSeen
  }

  /** The heading after `rotateTowards` toward the direction of `aim` at turnRate*dt; an aim within the epsilon leaves it alone. */
  ghost function FacingToward(facing: real, turnRate: real, aim: Vec, m: Trig, dt: real): real {
    if Length(m, aim) > EPS then Turned(facing, m.atan2(aim.y, aim.x), turnRate * dt) else facing
  }

  /**
    The facing rule of a frame: while the hunter knows anything it turns
    toward the tracked point, otherwise toward its next waypoint, otherwise
    the facing stays.
   */
  ghost function OrientTo(facing: real, turnRate: real, pos: Vec, knows: bool, track: Vec,
                          path: seq<Vec>, idx: nat, m: Trig, dt: real): real
  {
    if knows then FacingToward(facing, turnRate, track.Minus(pos), m, dt)
    else if idx < |path| then FacingToward(facing, turnRate, path[idx].Minus(pos), m, dt)
    else facing
  }

  /** Turning never leaves the facing outside (-PI, PI] unless it leaves it alone. */
  lemma OrientToWrapped(facing: real, turnRate: real, pos: Vec, knows: bool, track: Vec,
                        path: seq<Vec>, idx: nat, m: Trig, dt: real)
    ensures var f := OrientTo(facing, turnRate, pos, knows, track, path, idx, m, dt);
            f == facing || -PI < f <= PI
  {
    var aim := if knows then track.Minus(pos) else if idx < |path| then path[idx].Minus(pos) else Zero;
    var t := m.atan2(aim.y, aim.x);
    WrappedInRange(facing + TurnStep(Wrapped(t - facing), turnRate * dt));
  }

  /**
    One step of `followPath` from `pos` along `path` at cursor `idx`, as the
    new position, cursor and facing: past the end nothing changes; within 6
    units of the waypoint the cursor advances; otherwise the hunter turns
    toward the waypoint and moves speed*dt toward it through the grid's
    all-or-nothing collision.
   */
  ghost function FollowStep(world: Tilemap, pos: Vec, path: seq<Vec>, idx: nat, facing: real,
                            speed: real, turnRate: real, m: Trig, dt: real): (Vec, nat, real)
    requires world.Valid()
    reads world.cells
  {
    if idx >= |path| then (pos, idx, facing)
    else
      var to := path[idx].Minus(pos);
      if Length(m, to) < 6.0 then (pos, idx + 1, facing)
      else
        var dir := Norm(m, to);
        (world.Resolve(pos, dir.Scale(speed * dt)), idx, Turned(facing, m.atan2(dir.y, dir.x), turnRate * dt))
  }

  /** The facing rule reads the tracked point only while the hunter knows something, and the path only while it does not. */
  lemma OrientToAgrees(facing: real, turnRate: real, pos: Vec, knows: bool, track: Vec, track': Vec,
                       path: seq<Vec>, idx: nat, path': seq<Vec>, idx': nat, m: Trig, dt: real)
    requires knows ==> track == track'
    requires !knows ==> path == path' && idx == idx'
    ensures OrientTo(facing, turnRate, pos, knows, track, path, idx, m, dt) ==
            OrientTo(facing, turnRate, pos, knows, track', path', idx', m, dt)
  {
  }

  /**
    The re-planning of a frame without a sighting, put together from its two
    halves: the transition table (state `s0` to NextState, the path to the
    shared spot when Patrol turns into Search) and then the repath and patrol
    clocks run from the new state. `r0` is the retarget clock before the
    frame; `toSpot`, `toLastSeen` and `toGoal` are the paths planned toward
    the shared spot, the last sighting and the new patrol goal.
   */
  lemma UnseenReplan(s0: State, shared: bool, personal: bool, due: bool, r0: real, dt: real, r1: real,
                     path0: seq<Vec>, idx0: nat, path1: seq<Vec>, idx1: nat, path2: seq<Vec>, idx2: nat,
                     toSpot: seq<Vec>, toLastSeen: seq<Vec>, toGoal: seq<Vec>)
    // the transition half
    requires r1 == if !shared && !personal && s0 != Patrol then 0.0 else r0
    requires shared && s0 == Patrol ==> path1 == toSpot && idx1 == 0
    requires !(shared && s0 == Patrol) ==> path1 == path0 && idx1 == idx0
    // the clock half, from the new state
    requires var s1 := NextState(s0, false, shared, personal);
             !(s1 == Patrol && r1 - dt <= 0.0) ==>
               && (due && shared ==> path2 == toSpot && idx2 == 0)
               && (due && !shared && s1 == Search && personal ==> path2 == toLastSeen && idx2 == 0)
               && (!(due && shared) && !(due && s1 == Search && personal) ==> path2 == path1 && idx2 == idx1)
    requires NextState(s0, false, shared, personal) == Patrol && r1 - dt <= 0.0 ==> path2 == toGoal && idx2 == 0
    ensures var r := if s0 == Patrol then r0 else 0.0;
            var sharedPick := shared && (s0 == Patrol || due);
            var searchPick := !shared && personal && due && s0 == Search;
            var patrolPick := NextState(s0, false, shared, personal) == Patrol && r - dt <= 0.0;
            && (sharedPick ==> path2 == toSpot && idx2 == 0)
            && (searchPick ==> path2 == toLastSeen && idx2 == 0)
            && (patrolPick ==> path2 == toGoal && idx2 == 0)
            && (!sharedPick && !searchPick && !patrolPick ==> path2 == path0 && idx2 == idx0)
  {
  }

  /** The step that walks: the position moves toward the waypoint and the facing turns toward it. */
  lemma FollowStepWalks(world: Tilemap, pos: Vec, path: seq<Vec>, idx: nat, facing: real,
                        speed: real, turnRate: real, m: Trig, dt: real, p: Vec, f: real)
    requires world.Valid() && idx < |path| && Length(m, path[idx].Minus(pos)) >= 6.0
    requires var dir := Norm(m, path[idx].Minus(pos));
             p == world.Resolve(pos, dir.Scale(speed * dt)) && f == Turned(facing, m.atan2(dir.y, dir.x), turnRate * dt)
    ensures FollowStep(world, pos, path, idx, facing, speed, turnRate, m, dt) == (p, idx, f)
  {
  }

  class Hunter {
    var pos: Vec
    const radius: real
    const speed: real
    const turnRate: real

    const maxHp: real
    var hp: real

    // rifle
    const shootRange: real
    const shootCooldown: real
    const burstCooldown: real
    const burstSize: int
    var burstLeft: int
    var shootTimer: real

    // sensing
    const fovDeg: real
    const sightRange: real
    var facingRad: real
    const loseSightTime: real
    var memory: real
    var lastSeen: Vec

    // pathing
    var path: seq<Vec>
    var pathIndex: nat
    var repathTimer: real
    const repathInterval: real

    // behaviour
    var state: State
    var patrolHome: Vec
    const patrolRadius: real
    var retargetTimer: real

    // hit reaction and ranged movement
    var hitFlashTimer: real
    var hitStunTimer: real
    var knockVel: Vec
    const knockFriction: real
    const minRange: real
    const preferredRange: real
    const strafeSpeed: real
    const maxChaseRange: real

    /**
      The field defaults of the class. The hit-reaction and ranged-movement
      tunables are not declared in the header and are taken as parameters.
     */
    constructor (knockFriction: real, minRange: real, preferredRange: real, strafeSpeed: real, maxChaseRange: real)
      ensures state == Patrol && burstLeft == 0 && shootTimer == 0.0 && burstSize == 3
      ensures hp == maxHp == 120.0 && IsAlive()
      ensures memory == 0.0 && path == [] && pathIndex == 0 && repathTimer == 0.0 && retargetTimer == 0.0
      ensures hitFlashTimer == 0.0 && hitStunTimer == 0.0 && knockVel == Zero
      ensures this.knockFriction == knockFriction && this.minRange == minRange
      ensures this.preferredRange == preferredRange && this.strafeSpeed == strafeSpeed
      ensures this.maxChaseRange == maxChaseRange
    {
      pos, radius, speed := Zero, 12.0, 120.0;
      turnRate := 6.0;
      maxHp, hp := 120.0, 120.0;
      shootRange, shootCooldown, burstCooldown := 560.0, 0.6, 1.2;
      burstSize, burstLeft, shootTimer := 3, 0, 0.0;
      fovDeg, sightRange, facingRad := 70.0, 520.0, 0.0;
      loseSightTime, memory, lastSeen := 2.0, 0.0, Zero;
      path, pathIndex, repathTimer, repathInterval := [], 0, 0.0, 0.25;
      state, patrolHome, patrolRadius, retargetTimer := Patrol, Zero, 220.0, 0.0;
      hitFlashTimer, hitStunTimer, knockVel := 0.0, 0.0, Zero;
      this.knockFriction, this.minRange, this.preferredRange := knockFriction, minRange, preferredRange;
      this.strafeSpeed, this.maxChaseRange := strafeSpeed, maxChaseRange;
    }

    predicate IsAlive()
      reads this`hp
      ensures IsAlive() <==> hp > 0.0
    {
      hp > 0.0
    }

    /** Subtracts the damage and floors hp at zero. */
    method TakeDamage(dmg: real)
      modifies this`hp
      ensures hp == Max(old(hp) - dmg, 0.0)
      ensures hp >= 0.0
      ensures dmg >= 0.0 && old(hp) >= 0.0 ==> hp <= old(hp)
      ensures dmg >= old(hp) ==> hp == 0.0 && !IsAlive()
    {
      hp := hp - dmg;
      if hp < 0.0 {
        hp := 0.0;
      }
    }

    /** `target` lies within `range` and inside this hunter's field-of-view cone. */
    predicate InCone(target: Vec, range: real, m: Trig)
      reads this`pos, this`facingRad
    {
      Length(m, target.Minus(pos)) <= range &&
      Heading(m, facingRad).Dot(Norm(m, target.Minus(pos))) >= m.cos(fovDeg * 0.5 * (PI / 180.0))
    }

    /** The perception test of `update`: in sight range, in the cone, and a clear line of sight. */
    predicate SeesPlayer(pp: Vec, m: Trig, nav: Nav)
      reads this`pos, this`facingRad
    {
      InCone(pp, sightRange, m) && nav.lineOfSight(pos, pp)
    }

    /** Where `pickNewPatrolTarget` aims: a point at the drawn angle and distance from home. */
    function PatrolGoal(m: Trig, draws: PatrolDraws): Vec
      reads this`patrolHome
    {
      patrolHome.Plus(Heading(m, draws.angle as real / 100.0).Scale(draws.dist as real))
    }

    method RequestPathTo(nav: Nav, goal: Vec)
      modifies this`path, this`pathIndex
      ensures path == nav.findPath(pos, goal) && pathIndex == 0
    {
      path := nav.findPath(pos, goal);
      pathIndex := 0;
    }

    /** Paths toward a random point near home and waits two to four seconds before the next one. */
    method PickNewPatrolTarget(nav: Nav, m: Trig, draws: PatrolDraws)
      modifies this`path, this`pathIndex, this`retargetTimer
      ensures path == nav.findPath(pos, PatrolGoal(m, draws)) && pathIndex == 0
      ensures retargetTimer == draws.retarget as real / 60.0
      ensures draws.InRange() ==> 2.0 <= retargetTimer <= 4.0
    {
      var a := draws.angle as real / 100.0;
      var r := draws.dist as real;
      var goal := patrolHome.Plus(Heading(m, a).Scale(r));
      RequestPathTo(nav, goal);
      retargetTimer := draws.retarget as real / 60.0;
    }

    /** Places the hunter, makes the spot its patrol home and picks a first patrol target. */
    method SpawnAt(p: Vec, nav: Nav, m: Trig, draws: PatrolDraws)
      modifies this`pos, this`patrolHome, this`path, this`pathIndex, this`retargetTimer
      ensures pos == p && patrolHome == p
      ensures path == nav.findPath(p, PatrolGoal(m, draws)) && pathIndex == 0
      ensures retargetTimer == draws.retarget as real / 60.0
    {
      pos := p;
      patrolHome := p;
      PickNewPatrolTarget(nav, m, draws);
    }

    /**
      Turns toward the direction of `aim` by at most turnRate*dt through
      `rotateTowards`; an aim shorter than the epsilon leaves the facing alone.
      The ghost result `turn` is the turn applied.
     */
    method FaceToward(aim: Vec, m: Trig, dt: real) returns (ghost turn: real)
      modifies this`facingRad
      ensures facingRad == FacingToward(old(facingRad), turnRate, aim, m, dt)
      ensures Length(m, aim) <= EPS ==> facingRad == old(facingRad) && turn == 0.0
      ensures Length(m, aim) > EPS ==> -PI < facingRad <= PI && facingRad == Wrapped(old(facingRad) + turn)
      ensures 0.0 <= turnRate * dt ==> -(turnRate * dt) <= turn <= turnRate * dt
      ensures Length(m, aim) > EPS && 0.0 <= turnRate * dt ==>
                var d := Wrapped(m.atan2(aim.y, aim.x) - old(facingRad));
                (0.0 <= turn <= d || d <= turn <= 0.0) &&
                (d > turnRate * dt ==> turn == turnRate * dt) &&
                (d < -(turnRate * dt) ==> turn == -(turnRate * dt)) &&
                (-(turnRate * dt) <= d <= turnRate * dt ==> facingRad == Wrapped(m.atan2(aim.y, aim.x)))
    {
      turn := 0.0;
      var l := Length(m, aim);
      if l > EPS {
        var targetAng := m.atan2(aim.y, aim.x);
        facingRad, turn := RotateTowards(facingRad, targetAng, turnRate * dt);
      }
    }

    /**
      Steps toward the current waypoint: past the end of the path nothing
      happens; within 6 units of the waypoint the cursor advances; otherwise
      the hunter turns toward it and moves by speed*dt through the grid's
      all-or-nothing collision.
     */
    method FollowPath(world: Tilemap, m: Trig, dt: real)
      requires world.Valid()
      modifies this`pathIndex, this`facingRad, this`pos
      ensures (pos, pathIndex, facingRad) ==
                FollowStep(world, old(pos), path, old(pathIndex), old(facingRad), speed, turnRate, m, dt)
      ensures world.Free(old(pos)) ==> world.Free(pos)
      ensures facingRad == old(facingRad) || -PI < facingRad <= PI
      ensures old(pathIndex) >= |path| ==> pos == old(pos) && pathIndex == old(pathIndex) && facingRad == old(facingRad)
      ensures old(pathIndex) < |path| && Length(m, path[old(pathIndex)].Minus(old(pos))) < 6.0 ==>
                pos == old(pos) && pathIndex == old(pathIndex) + 1 && facingRad == old(facingRad)
      ensures old(pathIndex) < |path| && Length(m, path[old(pathIndex)].Minus(old(pos))) >= 6.0 ==>
                var dir := Norm(m, path[old(pathIndex)].Minus(old(pos)));
                pathIndex == old(pathIndex) &&
                pos == world.Resolve(old(pos), dir.Scale(speed * dt)) &&
                facingRad == Turned(old(facingRad), m.atan2(dir.y, dir.x), turnRate * dt)
    {
      if pathIndex < |path| {
        var target := path[pathIndex];
        var to := target.Minus(pos);
        var d := Length(m, to);
        if d < 6.0 {
          pathIndex := pathIndex + 1;
        } else {
          var dir := to.Div(d);
          assert dir == Norm(m, to);
          var sp, tr := speed, turnRate;
          var delta := dir.Scale(sp * dt);
          var targetAng := m.atan2(dir.y, dir.x);
          ghost var turn;
          ghost var pos0, facing0 := pos, facingRad;
          facingRad, turn := RotateTowards(facingRad, targetAng, tr * dt);
          pos := world.ResolveCollision(pos, radius, delta);
          FollowStepWalks(world, pos0, path, pathIndex, facing0, sp, tr, m, dt, pos, facingRad);
        }
      }
    }

    /**
      The kiting rule while the player is seen: back away inside minRange,
      close in beyond 1.2 x preferredRange, and in between strafe sideways at
      strafeSpeed relative to speed.
     */
    function RangedIntent(dirToP: Vec, distP: real, clock: real): (r: Vec)
      // backing away and closing in keep the aim's length; strafing scales it by strafeSpeed / max(speed, 1)
      ensures distP < minRange || distP > preferredRange * 1.2 ==> r.Len2() == dirToP.Len2()
      ensures minRange <= distP <= preferredRange * 1.2 ==>
                var k := strafeSpeed / Max(speed, 1.0);
                r.Len2() == dirToP.Len2() * (k * k)
    {
      if distP < minRange then Vec(-dirToP.x, -dirToP.y)
      else if distP > preferredRange * 1.2 then dirToP
      else
        var side := StrafeSide(clock);
        var k := strafeSpeed / Max(speed, 1.0);
        var r := Vec(-dirToP.y, dirToP.x).Scale(side).Scale(k);
        assert side * side == 1.0;
        assert r == Vec(-dirToP.y * (side * k), dirToP.x * (side * k));
        assert r.Len2() == (dirToP.y * dirToP.y + dirToP.x * dirToP.x) * ((side * side) * (k * k));
        r
    }

    /** The three count-down timers of a frame: hit flash, hit stun and sighting memory. */
    method TickTimers(dt: real)
      modifies this`hitFlashTimer, this`hitStunTimer, this`memory
      ensures hitFlashTimer == Tick(old(hitFlashTimer), dt) && hitStunTimer == Tick(old(hitStunTimer), dt)
      ensures memory == Tick(old(memory), dt)
      ensures old(memory) > 0.0 && dt > 0.0 ==> memory < old(memory)
    {
      if hitFlashTimer > 0.0 {
        hitFlashTimer := hitFlashTimer - dt;
      }
      if hitStunTimer > 0.0 {
        hitStunTimer := hitStunTimer - dt;
      }
      if memory > 0.0 {
        memory := memory - dt;
      }
    }

    /** The sensing step: distance and direction to the player and whether the hunter sees it. */
    method Sense(pp: Vec, m: Trig, nav: Nav) returns (seePlayer: bool, distP: real, dirToP: Vec)
      ensures seePlayer <==> SeesPlayer(pp, m, nav)
      ensures seePlayer ==> distP <= sightRange && nav.lineOfSight(pos, pp)
      ensures distP == Length(m, pp.Minus(pos)) && dirToP == Norm(m, pp.Minus(pos))
    {
      var toP := pp.Minus(pos);
      distP := Length(m, toP);
      dirToP := Norm(m, toP);
      var fwd := Heading(m, facingRad);
      var cosHalf := m.cos(fovDeg * 0.5 * (PI / 180.0));
      var inCone := distP <= sightRange && fwd.Dot(dirToP) >= cosHalf;
      seePlayer := inCone && nav.lineOfSight(pos, pp);
    }

    /** A sighting refreshes the hunter's memory and publishes the spot to the squad. */
    method ShareIntel(seePlayer: bool, pp: Vec, intel: SquadIntel)
      modifies this`lastSeen, this`memory, intel
      ensures seePlayer ==>
                lastSeen == pp && memory == loseSightTime && intel.spot == pp && intel.timeToLive == INTEL_TTL
      ensures !seePlayer ==>
                lastSeen == old(lastSeen) && memory == old(memory) &&
                intel.spot == old(intel.spot) && intel.timeToLive == old(intel.timeToLive)
    {
      if seePlayer {
        lastSeen := pp;
        memory := loseSightTime;
        intel.spot := pp;
        intel.timeToLive := INTEL_TTL;
      }
    }

    /**
      The state transitions of a frame: entering Chase or Search plans a path
      (to the last sighting or the shared spot), and falling back to Patrol
      zeroes the retarget clock.
     */
    method Transition(seePlayer: bool, hasSharedIntel: bool, hasPersonalIntel: bool, spot: Vec, nav: Nav)
      modifies this`state, this`path, this`pathIndex, this`retargetTimer
      ensures state == NextState(old(state), seePlayer, hasSharedIntel, hasPersonalIntel)
      ensures retargetTimer ==
                if !seePlayer && !hasSharedIntel && !hasPersonalIntel && old(state) != Patrol then 0.0
                else old(retargetTimer)
      ensures seePlayer && old(state) != Chase ==> path == nav.findPath(pos, lastSeen) && pathIndex == 0
      ensures !seePlayer && hasSharedIntel && old(state) == Patrol ==>
                path == nav.findPath(pos, spot) && pathIndex == 0
      ensures !(seePlayer && old(state) != Chase) && !(!seePlayer && hasSharedIntel && old(state) == Patrol) ==>
                path == old(path) && pathIndex == old(pathIndex)
    {
      if seePlayer {
        if state != Chase {
          state := Chase;
          RequestPathTo(nav, lastSeen);
        }
      } else if hasSharedIntel {
        if state == Patrol {
          state := Search;
          RequestPathTo(nav, spot);
        }
      } else if !hasPersonalIntel {
        if state != Patrol {
          state := Patrol;
          retargetTimer := 0.0;
        }
      }
    }

    /**
      The periodic re-plan: when the repath clock runs out it restarts at
      repathInterval and the path is re-planned toward the freshest knowledge:
      the player when seen, else the shared spot, else, while searching, the
      hunter's own last sighting.
     */
    method Repath(dt: real, seePlayer: bool, hasSharedIntel: bool, hasPersonalIntel: bool, pp: Vec, spot: Vec, nav: Nav)
      modifies this`repathTimer, this`path, this`pathIndex
      ensures repathTimer == (if old(repathTimer) - dt <= 0.0 then repathInterval else old(repathTimer) - dt)
      ensures var due := old(repathTimer) - dt <= 0.0;
              && (due && seePlayer ==> path == nav.findPath(pos, pp) && pathIndex == 0)
              && (due && !seePlayer && hasSharedIntel ==> path == nav.findPath(pos, spot) && pathIndex == 0)
              && (due && !seePlayer && !hasSharedIntel && state == Search && hasPersonalIntel ==>
                    path == nav.findPath(pos, lastSeen) && pathIndex == 0)
              && (!due || (!seePlayer && !hasSharedIntel && !(state == Search && hasPersonalIntel)) ==>
                    path == old(path) && pathIndex == old(pathIndex))
    {
      repathTimer := repathTimer - dt;
      if repathTimer <= 0.0 {
        repathTimer := repathInterval;
        if seePlayer {
          RequestPathTo(nav, pp);
        } else if hasSharedIntel {
          RequestPathTo(nav, spot);
        } else if state == Search && hasPersonalIntel {
          RequestPathTo(nav, lastSeen);
        }
      }
    }

    /** Without a sighting a patrolling hunter runs its retarget clock and picks a new patrol target when it expires. */
    method PatrolClock(dt: real, nav: Nav, m: Trig, draws: PatrolDraws)
      modifies this`retargetTimer, this`path, this`pathIndex
      ensures state == Patrol && old(retargetTimer) - dt <= 0.0 ==>
                retargetTimer == draws.retarget as real / 60.0 &&
                path == nav.findPath(pos, PatrolGoal(m, draws)) && pathIndex == 0
      ensures state == Patrol && old(retargetTimer) - dt > 0.0 ==>
                retargetTimer == old(retargetTimer) - dt && path == old(path) && pathIndex == old(pathIndex)
      ensures state != Patrol ==>
                retargetTimer == old(retargetTimer) && path == old(path) && pathIndex == old(pathIndex)
    {
      if state == Patrol {
        retargetTimer := retargetTimer - dt;
        if retargetTimer <= 0.0 {
          PickNewPatrolTarget(nav, m, draws);
        }
      }
    }

    /**
      The movement step of a frame, given the displacement `step` the steering
      produced: the knockback decays by knockFriction*dt (at most all of it);
      a hunter that sees the player moves by `step` through the grid's
      collision, any other takes one step along its path.
     */
    method Move(seePlayer: bool, step: Vec, world: Tilemap, m: Trig, dt: real)
      requires world.Valid()
      modifies this`knockVel, this`pos, this`pathIndex, this`facingRad
      ensures knockVel == Decay(old(knockVel), knockFriction, dt)
      ensures seePlayer ==> pos == world.Resolve(old(pos), step) && pathIndex == old(pathIndex) && facingRad == old(facingRad)
      ensures !seePlayer ==>
                (pos, pathIndex, facingRad) ==
                  FollowStep(world, old(pos), path, old(pathIndex), old(facingRad), speed, turnRate, m, dt)
      ensures world.Free(old(pos)) ==> world.Free(pos)
      ensures facingRad == old(facingRad) || -PI < facingRad <= PI
    {
      knockVel := Decay(knockVel, knockFriction, dt);
      if seePlayer {
        pos := world.ResolveCollision(pos, radius, step);
      } else {
        FollowPath(world, m, dt);
      }
    }

    /**
      Sharing and the transition table: a sighting is published, then the
      shared and personal knowledge of this frame decide the new state.
     */
    method Decide(seePlayer: bool, pp: Vec, intel: SquadIntel, nav: Nav) returns (hasSharedIntel: bool, hasPersonalIntel: bool)
      modifies this`lastSeen, this`memory, intel, this`state, this`path, this`pathIndex, this`retargetTimer
      ensures seePlayer ==>
                lastSeen == pp && memory == loseSightTime && intel.spot == pp && intel.timeToLive == INTEL_TTL
      ensures !seePlayer ==>
                lastSeen == old(lastSeen) && memory == old(memory) &&
                intel.spot == old(intel.spot) && intel.timeToLive == old(intel.timeToLive)
      ensures hasSharedIntel == (seePlayer || old(intel.timeToLive) > 0.0)
      ensures hasPersonalIntel == (!seePlayer && old(memory) > 0.0)
      ensures state == NextState(old(state), seePlayer, hasSharedIntel, hasPersonalIntel)
      ensures retargetTimer ==
                if !seePlayer && !hasSharedIntel && !hasPersonalIntel && old(state) != Patrol then 0.0
                else old(retargetTimer)
      ensures seePlayer && old(state) != Chase ==> path == nav.findPath(pos, pp) && pathIndex == 0
      ensures !seePlayer && hasSharedIntel && old(state) == Patrol ==>
                path == nav.findPath(pos, old(intel.spot)) && pathIndex == 0
      ensures !(seePlayer && old(state) != Chase) && !(!seePlayer && hasSharedIntel && old(state) == Patrol) ==>
                path == old(path) && pathIndex == old(pathIndex)
    {
      ShareIntel(seePlayer, pp, intel);
      hasSharedIntel := intel.timeToLive > 0.0;
      hasPersonalIntel := !seePlayer && memory > 0.0;
      Transition(seePlayer, hasSharedIntel, hasPersonalIntel, intel.spot, nav);
    }

    /**
      Facing: toward the freshest knowledge (the player, the shared spot, the
      last sighting), else toward the next waypoint, else unchanged.
     */
    method Orient(seePlayer: bool, hasSharedIntel: bool, hasPersonalIntel: bool, pp: Vec, spot: Vec, m: Trig, dt: real)
      modifies this`facingRad
      ensures facingRad ==
                OrientTo(old(facingRad), turnRate, pos, seePlayer || hasSharedIntel || hasPersonalIntel,
                         Track(seePlayer, hasSharedIntel, pp, spot, lastSeen), path, pathIndex, m, dt)
      ensures facingRad == old(facingRad) || -PI < facingRad <= PI
      ensures seePlayer && Length(m, pp.Minus(pos)) <= EPS ==> facingRad == old(facingRad)
      ensures !seePlayer && !hasSharedIntel && !hasPersonalIntel && pathIndex >= |path| ==> facingRad == old(facingRad)
    {
      var trackPos := Zero;
      if seePlayer {
        trackPos := pp;
      } else if hasSharedIntel {
        trackPos := spot;
      } else if hasPersonalIntel {
        trackPos := lastSeen;
      }
      ghost var turn;
      if seePlayer || hasSharedIntel || hasPersonalIntel {
        turn := FaceToward(trackPos.Minus(pos), m, dt);
      } else if pathIndex < |path| {
        turn := FaceToward(path[pathIndex].Minus(pos), m, dt);
      }
      OrientToWrapped(old(facingRad), turnRate, pos, seePlayer || hasSharedIntel || hasPersonalIntel,
                      Track(seePlayer, hasSharedIntel, pp, spot, lastSeen), path, pathIndex, m, dt);
    }

    /**
      The end of a frame: a searching hunter within INTEL_CLEAR_RADIUS of the
      shared spot clears it; a chasing hunter beyond maxChaseRange with no
      knowledge at all gives up and patrols.
     */
    method Settle(hasSharedIntel: bool, hasPersonalIntel: bool, distP: real, intel: SquadIntel)
      modifies intel`timeToLive, this`state, this`retargetTimer
      ensures intel.timeToLive ==
                if state == Search && hasSharedIntel && Dist2(pos, intel.spot) <= INTEL_CLEAR_RADIUS * INTEL_CLEAR_RADIUS
                then 0.0 else old(intel.timeToLive)
      ensures old(state) == Chase && distP > maxChaseRange && !hasSharedIntel && !hasPersonalIntel ==>
                state == Patrol && retargetTimer == 0.0
      ensures !(old(state) == Chase && distP > maxChaseRange && !hasSharedIntel && !hasPersonalIntel) ==>
                state == old(state) && retargetTimer == old(retargetTimer)
    {
      if state == Search && hasSharedIntel {
        if Dist2(pos, intel.spot) <= INTEL_CLEAR_RADIUS * INTEL_CLEAR_RADIUS {
          intel.timeToLive := 0.0;
        }
      }
      if state == Chase && distP > maxChaseRange && !hasSharedIntel && !hasPersonalIntel {
        state := Patrol;
        retargetTimer := 0.0;
      }
    }

    /** The sensing half of a frame: timers, sensing, sharing and the transition table. */
    method Perceive(dt: real, pp: Vec, intel: SquadIntel, m: Trig, nav: Nav)
      returns (seePlayer: bool, distP: real, dirToP: Vec, hasSharedIntel: bool, hasPersonalIntel: bool)
      modifies this`hitFlashTimer, this`hitStunTimer, this`memory, this`lastSeen, this`state
      modifies this`path, this`pathIndex, this`retargetTimer, intel
      ensures hitFlashTimer == Tick(old(hitFlashTimer), dt) && hitStunTimer == Tick(old(hitStunTimer), dt)
      ensures seePlayer == old(SeesPlayer(pp, m, nav))
      ensures distP == Length(m, pp.Minus(pos)) && dirToP == Norm(m, pp.Minus(pos))
      ensures hasSharedIntel == (seePlayer || old(intel.timeToLive) > 0.0)
      ensures hasPersonalIntel == (!seePlayer && Tick(old(memory), dt) > 0.0)
      ensures seePlayer ==>
                lastSeen == pp && memory == loseSightTime && intel.spot == pp && intel.timeToLive == INTEL_TTL
      ensures !seePlayer ==>
                lastSeen == old(lastSeen) && memory == Tick(old(memory), dt) &&
                intel.spot == old(intel.spot) && intel.timeToLive == old(intel.timeToLive)
      ensures state == NextState(old(state), seePlayer, hasSharedIntel, hasPersonalIntel)
      ensures retargetTimer ==
                if !seePlayer && !hasSharedIntel && !hasPersonalIntel && old(state) != Patrol then 0.0
                else old(retargetTimer)
      ensures seePlayer && old(state) != Chase ==> path == nav.findPath(pos, pp) && pathIndex == 0
      ensures !seePlayer && hasSharedIntel && old(state) == Patrol ==>
                path == nav.findPath(pos, old(intel.spot)) && pathIndex == 0
      ensures !(seePlayer && old(state) != Chase) && !(!seePlayer && hasSharedIntel && old(state) == Patrol) ==>
                path == old(path) && pathIndex == old(pathIndex)
    {
      TickTimers(dt);
      seePlayer, distP, dirToP := Sense(pp, m, nav);
      hasSharedIntel, hasPersonalIntel := Decide(seePlayer, pp, intel, nav);
    }

    /**
      The deciding half of a frame, before anything moves: timers, sensing,
      sharing, transitions, facing, the periodic re-plan and the movement
      intent (kiting while the player is seen, the patrol clock otherwise).
     */
    method Think(dt: real, pp: Vec, intel: SquadIntel, m: Trig, nav: Nav, clock: real, draws: PatrolDraws)
      returns (seePlayer: bool, distP: real, step: Vec, hasSharedIntel: bool, hasPersonalIntel: bool)
      modifies this`hitFlashTimer, this`hitStunTimer, this`memory, this`lastSeen, this`state
      modifies this`path, this`pathIndex, this`retargetTimer, this`facingRad, this`repathTimer, intel
      ensures hitFlashTimer == Tick(old(hitFlashTimer), dt) && hitStunTimer == Tick(old(hitStunTimer), dt)
      ensures seePlayer == old(SeesPlayer(pp, m, nav))
      ensures distP == Length(m, pp.Minus(pos))
      ensures seePlayer ==> step == old(KiteStep(pp, m, clock, dt))
      ensures hasSharedIntel == (seePlayer || old(intel.timeToLive) > 0.0)
      ensures hasPersonalIntel == (!seePlayer && Tick(old(memory), dt) > 0.0)
      ensures seePlayer ==>
                lastSeen == pp && memory == loseSightTime &&
                intel.spot == pp && intel.timeToLive == INTEL_TTL && state == Chase
      ensures !seePlayer ==>
                lastSeen == old(lastSeen) && memory == Tick(old(memory), dt) &&
                intel.spot == old(intel.spot) && intel.timeToLive == old(intel.timeToLive) &&
                state == NextState(old(state), false, hasSharedIntel, hasPersonalIntel)
      ensures retargetTimer ==
                if !seePlayer && state == Patrol then
                  var r0 := if old(state) == Patrol then old(retargetTimer) else 0.0;
                  if r0 - dt <= 0.0 then draws.retarget as real / 60.0 else r0 - dt
                else old(retargetTimer)
      ensures seePlayer && (old(state) != Chase || old(repathTimer) - dt <= 0.0) ==>
                path == nav.findPath(pos, pp) && pathIndex == 0
      ensures seePlayer && old(state) == Chase && old(repathTimer) - dt > 0.0 ==>
                path == old(path) && pathIndex == old(pathIndex)
      // without a sighting: entering Search or the repath clock plans toward the shared spot, a searching
      // hunter's clock toward its last sighting, and the patrol clock toward a new patrol target
      ensures !seePlayer ==>
                var due := old(repathTimer) - dt <= 0.0;
                var r0 := if old(state) == Patrol then old(retargetTimer) else 0.0;
                var sharedPick := hasSharedIntel && (old(state) == Patrol || due);
                var searchPick := !hasSharedIntel && hasPersonalIntel && due && old(state) == Search;
                var patrolPick := state == Patrol && r0 - dt <= 0.0;
                && (sharedPick ==> path == nav.findPath(pos, old(intel.spot)) && pathIndex == 0)
                && (searchPick ==> path == nav.findPath(pos, old(lastSeen)) && pathIndex == 0)
                && (patrolPick ==> path == nav.findPath(pos, old(PatrolGoal(m, draws))) && pathIndex == 0)
                && (!sharedPick && !searchPick && !patrolPick ==> path == old(path) && pathIndex == old(pathIndex))
      ensures repathTimer == (if old(repathTimer) - dt <= 0.0 then repathInterval else old(repathTimer) - dt)
      ensures facingRad ==
                OrientTo(old(facingRad), turnRate, pos, seePlayer || hasSharedIntel || hasPersonalIntel,
                         Track(seePlayer, hasSharedIntel, pp, old(intel.spot), old(lastSeen)), old(path), old(pathIndex), m, dt)
      ensures facingRad == old(facingRad) || -PI < facingRad <= PI
    {
      ghost var intent0 := RangedIntent(Norm(m, pp.Minus(pos)), Length(m, pp.Minus(pos)), clock);
      ghost var stunTimer0 := Tick(hitStunTimer, dt);
      assert KiteStep(pp, m, clock, dt) == SteerStep(intent0, stunTimer0, m, dt);
      var dirToP;
      seePlayer, distP, dirToP, hasSharedIntel, hasPersonalIntel := Perceive(dt, pp, intel, m, nav);
      assert seePlayer ==> RangedIntent(dirToP, distP, clock) == intent0;
      ghost var retarget1, path1, index1 := retargetTimer, path, pathIndex;
      step := Plan(dt, seePlayer, distP, dirToP, hasSharedIntel, hasPersonalIntel, pp, intel.spot, m, nav, clock, draws);
      OrientToAgrees(old(facingRad), turnRate, pos, seePlayer || hasSharedIntel || hasPersonalIntel,
                     Track(seePlayer, hasSharedIntel, pp, intel.spot, lastSeen),
                     Track(seePlayer, hasSharedIntel, pp, old(intel.spot), old(lastSeen)),
                     path1, index1, old(path), old(pathIndex), m, dt);
      if !seePlayer {
        UnseenReplan(old(state), hasSharedIntel, hasPersonalIntel, old(repathTimer) - dt <= 0.0, old(retargetTimer), dt,
                     retarget1, old(path), old(pathIndex), path1, index1, path, pathIndex,
                     nav.findPath(pos, old(intel.spot)), nav.findPath(pos, old(lastSeen)),
                     nav.findPath(pos, old(PatrolGoal(m, draws))));
      }
    }

    /** After perception: facing, the periodic re-plan and the movement intent. */
    method Plan(dt: real, seePlayer: bool, distP: real, dirToP: Vec, hasSharedIntel: bool, hasPersonalIntel: bool,
                pp: Vec, spot: Vec, m: Trig, nav: Nav, clock: real, draws: PatrolDraws)
      returns (step: Vec)
      modifies this`facingRad, this`repathTimer, this`path, this`pathIndex, this`state, this`retargetTimer
      ensures facingRad == old(facingRad) || -PI < facingRad <= PI
      ensures repathTimer == (if old(repathTimer) - dt <= 0.0 then repathInterval else old(repathTimer) - dt)
      ensures seePlayer && old(repathTimer) - dt <= 0.0 ==> path == nav.findPath(pos, pp) && pathIndex == 0
      ensures seePlayer && old(repathTimer) - dt > 0.0 ==> path == old(path) && pathIndex == old(pathIndex)
      ensures seePlayer ==>
                step == SteerStep(RangedIntent(dirToP, distP, clock), hitStunTimer, m, dt) && state == Chase &&
                retargetTimer == old(retargetTimer)
      ensures !seePlayer ==>
                state == old(state) &&
                retargetTimer ==
                  if state == Patrol then
                    (if old(retargetTimer) - dt <= 0.0 then draws.retarget as real / 60.0 else old(retargetTimer) - dt)
                  else old(retargetTimer)
      ensures facingRad ==
                OrientTo(old(facingRad), turnRate, pos, seePlayer || hasSharedIntel || hasPersonalIntel,
                         Track(seePlayer, hasSharedIntel, pp, spot, lastSeen), old(path), old(pathIndex), m, dt)
      // without a sighting: the re-plan toward the shared spot or the last sighting, unless the patrol clock re-plans
      ensures !seePlayer && !(old(state) == Patrol && old(retargetTimer) - dt <= 0.0) ==>
                var due := old(repathTimer) - dt <= 0.0;
                && (due && hasSharedIntel ==> path == nav.findPath(pos, spot) && pathIndex == 0)
                && (due && !hasSharedIntel && old(state) == Search && hasPersonalIntel ==>
                      path == nav.findPath(pos, lastSeen) && pathIndex == 0)
                && (!(due && hasSharedIntel) && !(due && old(state) == Search && hasPersonalIntel) ==>
                      path == old(path) && pathIndex == old(pathIndex))
      ensures !seePlayer && old(state) == Patrol && old(retargetTimer) - dt <= 0.0 ==>
                path == nav.findPath(pos, PatrolGoal(m, draws)) && pathIndex == 0
    {
      Orient(seePlayer, hasSharedIntel, hasPersonalIntel, pp, spot, m, dt);
      Repath(dt, seePlayer, hasSharedIntel, hasPersonalIntel, pp, spot, nav);
      step := Intend(dt, seePlayer, dirToP, distP, m, nav, clock, draws);
    }

    /**
      The movement intent of a frame: kite while the player is seen (and stay
      in Chase), otherwise let the patrol clock run; then knockback, stun and
      normalisation turn the intent into this frame's step.
     */
    method Intend(dt: real, seePlayer: bool, dirToP: Vec, distP: real, m: Trig, nav: Nav, clock: real, draws: PatrolDraws)
      returns (step: Vec)
      modifies this`state, this`retargetTimer, this`path, this`pathIndex
      ensures seePlayer ==>
                step == SteerStep(RangedIntent(dirToP, distP, clock), hitStunTimer, m, dt) && state == Chase &&
                retargetTimer == old(retargetTimer) && path == old(path) && pathIndex == old(pathIndex)
      ensures !seePlayer ==> state == old(state)
      ensures !seePlayer && state == Patrol && old(retargetTimer) - dt <= 0.0 ==>
                retargetTimer == draws.retarget as real / 60.0 &&
                path == nav.findPath(pos, PatrolGoal(m, draws)) && pathIndex == 0
      ensures !seePlayer && state == Patrol && old(retargetTimer) - dt > 0.0 ==>
                retargetTimer == old(retargetTimer) - dt && path == old(path) && pathIndex == old(pathIndex)
      ensures !seePlayer && state != Patrol ==>
                retargetTimer == old(retargetTimer) && path == old(path) && pathIndex == old(pathIndex)
    {
      var desiredMove := Zero;
      if seePlayer {
        desiredMove := RangedIntent(dirToP, distP, clock);
        state := Chase;
      } else {
        PatrolClock(dt, nav, m, draws);
      }

      // knockback, stun and normalisation
      step := SteerStep(desiredMove, hitStunTimer, m, dt);
    }

    /**
      One frame of the controller. `pp` is the player's position, `clock` the
      game time the strafe side is taken from, `draws` the random values a
      patrol retarget in this frame takes.
     */
    method Update(dt: real, world: Tilemap, pp: Vec, intel: SquadIntel, m: Trig, nav: Nav, clock: real, draws: PatrolDraws)
      returns (ghost planIndex: nat, ghost planFacing: real)
      requires world.Valid()
      modifies this`hitFlashTimer, this`hitStunTimer, this`memory, this`lastSeen, this`state
      modifies this`path, this`pathIndex, this`retargetTimer, this`facingRad, this`repathTimer
      modifies this`knockVel, this`pos, intel
      // timers count down only while positive
      ensures hitFlashTimer == Tick(old(hitFlashTimer), dt) && hitStunTimer == Tick(old(hitStunTimer), dt)
      // a sighting refreshes memory, publishes the spot, and ends in Chase
      ensures old(SeesPlayer(pp, m, nav)) ==>
                lastSeen == pp && memory == loseSightTime &&
                intel.spot == pp && intel.timeToLive == INTEL_TTL && state == Chase
      ensures !old(SeesPlayer(pp, m, nav)) ==>
                lastSeen == old(lastSeen) && memory == Tick(old(memory), dt) && intel.spot == old(intel.spot)
      // without a sighting the state follows the transition table on the shared and personal intel
      ensures !old(SeesPlayer(pp, m, nav)) ==>
                state == NextState(old(state), false, old(intel.timeToLive) > 0.0, Tick(old(memory), dt) > 0.0)
      // the patrol retarget clock; a hunter that just fell back to Patrol retargets at once when dt >= 0
      ensures retargetTimer ==
                if !old(SeesPlayer(pp, m, nav)) && state == Patrol then
                  var r0 := if old(state) == Patrol then old(retargetTimer) else 0.0;
                  if r0 - dt <= 0.0 then draws.retarget as real / 60.0 else r0 - dt
                else old(retargetTimer)
      // a searching hunter that reaches the shared spot clears it
      ensures !old(SeesPlayer(pp, m, nav)) ==>
                intel.timeToLive ==
                  if state == Search && old(intel.timeToLive) > 0.0 &&
                     Dist2(pos, intel.spot) <= INTEL_CLEAR_RADIUS * INTEL_CLEAR_RADIUS
                  then 0.0 else old(intel.timeToLive)
      // a sighting re-plans the path to the player when the hunter starts chasing or the repath clock runs out
      ensures old(SeesPlayer(pp, m, nav)) && (old(state) != Chase || old(repathTimer) - dt <= 0.0) ==>
                path == nav.findPath(old(pos), pp) && pathIndex == 0
      ensures repathTimer == (if old(repathTimer) - dt <= 0.0 then repathInterval else old(repathTimer) - dt)
      // while the player is seen the hunter steers by the kiting rule instead of the path
      ensures old(SeesPlayer(pp, m, nav)) && old(state) == Chase && old(repathTimer) - dt > 0.0 ==>
                path == old(path) && pathIndex == old(pathIndex)
      // without a sighting the path is re-planned as the transitions and the two clocks decide; `planIndex` is
      // the path cursor once planning is done
      ensures !old(SeesPlayer(pp, m, nav)) ==>
                var shared, personal := old(intel.timeToLive) > 0.0, Tick(old(memory), dt) > 0.0;
                var due := old(repathTimer) - dt <= 0.0;
                var r0 := if old(state) == Patrol then old(retargetTimer) else 0.0;
                var sharedPick := shared && (old(state) == Patrol || due);
                var searchPick := !shared && personal && due && old(state) == Search;
                var patrolPick := NextState(old(state), false, shared, personal) == Patrol && r0 - dt <= 0.0;
                && (sharedPick ==> path == nav.findPath(old(pos), old(intel.spot)) && planIndex == 0)
                && (searchPick ==> path == nav.findPath(old(pos), old(lastSeen)) && planIndex == 0)
                && (patrolPick ==> path == nav.findPath(old(pos), old(PatrolGoal(m, draws))) && planIndex == 0)
                && (!sharedPick && !searchPick && !patrolPick ==> path == old(path) && planIndex == old(pathIndex))
      // the facing is turned toward the freshest knowledge, else toward the next waypoint; `planFacing` is that facing
      ensures var see := old(SeesPlayer(pp, m, nav));
              planFacing ==
                OrientTo(old(facingRad), turnRate, old(pos), see || old(intel.timeToLive) > 0.0 || Tick(old(memory), dt) > 0.0,
                         Track(see, old(intel.timeToLive) > 0.0, pp, old(intel.spot), old(lastSeen)),
                         old(path), old(pathIndex), m, dt)
      // while the player is seen the hunter steers by the kiting rule instead of the path
      ensures old(SeesPlayer(pp, m, nav)) ==>
                pos == world.Resolve(old(pos), old(KiteStep(pp, m, clock, dt))) &&
                pathIndex == planIndex && facingRad == planFacing
      // otherwise it takes one step along the planned path
      ensures !old(SeesPlayer(pp, m, nav)) ==>
                (pos, pathIndex, facingRad) ==
                  FollowStep(world, old(pos), path, planIndex, planFacing, speed, turnRate, m, dt)
      ensures knockVel == Decay(old(knockVel), knockFriction, dt)
      ensures world.Free(old(pos)) ==> world.Free(pos)
      ensures facingRad == old(facingRad) || -PI < facingRad <= PI
    {
      var seePlayer, distP, step, hasSharedIntel, hasPersonalIntel := Think(dt, pp, intel, m, nav, clock, draws);
      planIndex, planFacing := pathIndex, facingRad;
      Move(seePlayer, step, world, m, dt);
      Settle(hasSharedIntel, hasPersonalIntel, distP, intel);
    }

    /**
      The displacement of a frame in which the player is seen, taken in the
      state before the frame: the kiting intent toward `pp`, steered by the
      knockback and by a stun that is still running after this frame's tick.
     */
    function KiteStep(pp: Vec, m: Trig, clock: real, dt: real): Vec
      reads this`pos
      reads this`knockVel, this`hitStunTimer
    {
      SteerStep(RangedIntent(Norm(m, pp.Minus(pos)), Length(m, pp.Minus(pos)), clock), Tick(hitStunTimer, dt), m, dt)
    }

    /** The displacement of a frame for a movement intent: steered by the knockback and the stun, scaled by speed*dt. */
    function SteerStep(intent: Vec, stunTimer: real, m: Trig, dt: real): Vec
      reads this`knockVel
    {
      Steering(intent, knockVel, speed, stunTimer > 0.0, m).Scale(speed * dt)
    }

    /** The far end of the friendly-fire test line: OVERSHOOT units past the player along the aim. */
    function AimEnd(pp: Vec, m: Trig): Vec
      reads this`pos
    {
      pos.Plus(Norm(m, pp.Minus(pos)).Scale(Length(m, pp.Minus(pos)) + OVERSHOOT))
    }

    /** Every gate of `tryShoot` but the cooldown: not stunned, in range, in the cone, line of sight. */
    predicate Aimed(pp: Vec, m: Trig, nav: Nav)
      reads this`hitStunTimer, this`pos, this`facingRad
    {
      hitStunTimer <= 0.0 && InCone(pp, shootRange, m) && nav.lineOfSight(pos, pp)
    }

    /** The cooldown runs out in this frame and every gate is open. */
    predicate ReadyToFire(dt: real, pp: Vec, m: Trig, nav: Nav)
      reads this`shootTimer, this`hitStunTimer, this`pos, this`facingRad
    {
      shootTimer - dt <= 0.0 && Aimed(pp, m, nav)
    }

    /**
      The fire-control pipeline. The cooldown is counted down first; then the
      gates in order: cooldown, stun, range, cone, line of sight. A live squad
      mate near the line of fire vetoes the shot and sets a short retry delay.
      Otherwise one hunter bullet, leaving the muzzle toward the player, is
      appended to `out` and the burst bookkeeping picks the next cooldown.
     */
    method TryShoot(dt: real, pp: Vec, squad: seq<Hunter>, selfIndex: int, out: seq<Bullet>, m: Trig, nav: Nav)
      returns (fired: bool, out': seq<Bullet>)
      modifies this`shootTimer, this`burstLeft
      ensures fired <==>
                old(ReadyToFire(dt, pp, m, nav)) && !old(FriendlyInLine(squad, selfIndex, pos, AimEnd(pp, m), SAFETY))
      ensures !old(ReadyToFire(dt, pp, m, nav)) ==>
                shootTimer == old(shootTimer) - dt && burstLeft == old(burstLeft)
      ensures old(ReadyToFire(dt, pp, m, nav)) && old(FriendlyInLine(squad, selfIndex, pos, AimEnd(pp, m), SAFETY)) ==>
                shootTimer == HOLD_FIRE_DELAY && burstLeft == old(burstLeft)
      ensures fired ==>
                var step := BurstStep(old(burstLeft), burstSize);
                burstLeft == step.0 && shootTimer == (if step.1 then burstCooldown else shootCooldown)
      ensures 1 <= burstSize && 0 <= old(burstLeft) < burstSize ==> 0 <= burstLeft < burstSize
      ensures !fired ==> out' == out
      ensures fired ==> |out'| == |out| + 1 && out'[..|out|] == out && fresh(out'[|out|])
      ensures fired ==>
                var b := out'[|out|];
                b.team == HunterTeam && b.damage == BULLET_DAMAGE && b.alive && b.radius == 4.0 &&
                b.pos == old(pos.Plus(Heading(m, facingRad).Scale(radius + MUZZLE_GAP))) &&
                b.vel == old(Norm(m, pp.Minus(pos)).Scale(BULLET_SPEED))
    {
      out' := out;
      var ready := CheckReady(dt, pp, m, nav);
      if !ready {
        return false, out';
      }
      fired, out' := Fire(pp, squad, selfIndex, out, m);
    }

    /** The cooldown is counted down, then the gates in order: cooldown, stun, range, cone, line of sight. */
    method CheckReady(dt: real, pp: Vec, m: Trig, nav: Nav) returns (ready: bool)
      modifies this`shootTimer
      ensures shootTimer == old(shootTimer) - dt
      ensures ready == old(ReadyToFire(dt, pp, m, nav))
    {
      shootTimer := shootTimer - dt;
      if shootTimer > 0.0 {
        return false;
      }
      if hitStunTimer > 0.0 {
        return false;
      }

      var toP := pp.Minus(pos);
      var dist := Length(m, toP);
      if dist > shootRange {
        return false;
      }
      var fwd := Heading(m, facingRad);
      var dir := Norm(m, toP);
      var cosHalf := m.cos(fovDeg * 0.5 * (PI / 180.0));
      if fwd.Dot(dir) < cosHalf {
        return false;
      }
      if !nav.lineOfSight(pos, pp) {
        return false;
      }
      return true;
    }

    /**
      A shot that passed every gate: a live squad mate near the line of fire
      vetoes it with a short retry delay; otherwise one bullet leaves the
      muzzle toward the player and the burst bookkeeping picks the next cooldown.
     */
    method Fire(pp: Vec, squad: seq<Hunter>, selfIndex: int, out: seq<Bullet>, m: Trig)
      returns (fired: bool, out': seq<Bullet>)
      modifies this`shootTimer, this`burstLeft
      ensures fired <==> !old(FriendlyInLine(squad, selfIndex, pos, AimEnd(pp, m), SAFETY))
      ensures !fired ==> shootTimer == HOLD_FIRE_DELAY && burstLeft == old(burstLeft) && out' == out
      ensures fired ==>
                var step := BurstStep(old(burstLeft), burstSize);
                burstLeft == step.0 && shootTimer == (if step.1 then burstCooldown else shootCooldown)
      ensures fired ==> |out'| == |out| + 1 && out'[..|out|] == out && fresh(out'[|out|])
      ensures fired ==>
                var b := out'[|out|];
                b.team == HunterTeam && b.damage == BULLET_DAMAGE && b.alive && b.radius == 4.0 &&
                b.pos == old(pos.Plus(Heading(m, facingRad).Scale(radius + MUZZLE_GAP))) &&
                b.vel == old(Norm(m, pp.Minus(pos)).Scale(BULLET_SPEED))
    {
      ghost var friendly := FriendlyInLine(squad, selfIndex, pos, AimEnd(pp, m), SAFETY);
      ghost var muzzle := pos.Plus(Heading(m, facingRad).Scale(radius + MUZZLE_GAP));
      ghost var aim := Norm(m, pp.Minus(pos));
      out' := out;
      var toP := pp.Minus(pos);
      var dist := Length(m, toP);
      var fwd := Heading(m, facingRad);
      var dir := Norm(m, toP);

      // friendly fire avoidance
      var end := pos.Plus(dir.Scale(dist + OVERSHOOT));
      var muzzlePos := pos.Plus(fwd.Scale(radius + MUZZLE_GAP));
      var blocked := HasFriendlyInLine(squad, selfIndex, pos, end, SAFETY);
      assert blocked == friendly;
      if blocked {
        shootTimer := HOLD_FIRE_DELAY;
        return false, out';
      }

      // fire one bullet
      var b := new Bullet();
      b.team := HunterTeam;
      b.pos := muzzlePos;
      b.vel := dir.Scale(BULLET_SPEED);
      b.damage := BULLET_DAMAGE;
      out' := out + [b];

      // burst bookkeeping
      if burstLeft <= 0 {
        burstLeft := burstSize - 1;
        shootTimer := shootCooldown;
      } else {
        burstLeft := burstLeft - 1;
        shootTimer := if burstLeft == 0 then burstCooldown else shootCooldown;
      }
      return true, out';
    }

    /**
      A hit: damage floored at zero, a brief flash and stun, and a knockback
      impulse away from `sourcePos`, unnormalised when the two points are
      closer than the epsilon.
     */
    method ApplyHit(dmg: real, sourcePos: Vec, impulse: real, m: Trig)
      modifies this`hp, this`hitFlashTimer, this`hitStunTimer, this`knockVel
      ensures hp == Max(old(hp) - dmg, 0.0) && hp >= 0.0
      ensures hitFlashTimer == 0.12 && hitStunTimer == 0.15
      ensures var away := pos.Minus(sourcePos);
              var len := Length(m, away);
              knockVel == old(knockVel).Plus((if len > EPS then away.Div(len) else away).Scale(impulse))
    {
      hp := hp - dmg;
      if hp < 0.0 {
        hp := 0.0;
      }
      hitFlashTimer := 0.12;
      hitStunTimer := 0.15;
      var away := pos.Minus(sourcePos);
      var len := Length(m, away);
      if len > EPS {
        away := away.Div(len);
      }
      knockVel := knockVel.Plus(away.Scale(impulse));
    }
  }

  /**
    The kiting rule's component along the direction to the player: away from
    it inside minRange, toward it beyond 1.2 x preferredRange, and none while
    strafing in between.
   */
  lemma RangedIntentRadial(h: Hunter, dirToP: Vec, distP: real, clock: real)
    ensures h.RangedIntent(dirToP, distP, clock).Dot(dirToP) ==
              if distP < h.minRange then -dirToP.Len2()
              else if distP > h.preferredRange * 1.2 then dirToP.Len2()
              else 0.0
  {
    if h.minRange <= distP <= h.preferredRange * 1.2 {
      var k := StrafeSide(clock) * (h.strafeSpeed / Max(h.speed, 1.0));
      var r := Vec(-dirToP.y, dirToP.x).Scale(StrafeSide(clock)).Scale(h.strafeSpeed / Max(h.speed, 1.0));
      assert r == Vec(-dirToP.y * k, dirToP.x * k);
      assert r.Dot(dirToP) == (-dirToP.y * k) * dirToP.x + (dirToP.x * k) * dirToP.y;
    }
  }

  /** Some live squad member other than `selfIndex` lies within `safety` of the segment from `start` to `end`. */
  predicate FriendlyInLine(squad: seq<Hunter>, selfIndex: int, start: Vec, end: Vec, safety: real)
    reads squad
  {
    exists i :: 0 <= i < |squad| && i != selfIndex && squad[i].IsAlive() &&
                SegDist2(start, end, squad[i].pos) <= safety * safety
  }

  /** Scans the squad in order and stops at the first live member, other than `selfIndex`, near the segment. */
  method HasFriendlyInLine(squad: seq<Hunter>, selfIndex: int, start: Vec, end: Vec, safety: real)
    returns (found: bool)
    ensures found <==> FriendlyInLine(squad, selfIndex, start, end, safety)
  {
    var safety2 := safety * safety;
    for i := 0 to |squad|
      invariant forall j :: 0 <= j < i && j != selfIndex && squad[j].IsAlive() ==>
                  SegDist2(start, end, squad[j].pos) > safety2
    {
      if i == selfIndex {
        continue;
      }
      var h := squad[i];
      if !h.IsAlive() {
        continue;
      }
      if SegDist2(start, end, h.pos) <= safety2 {
        return true;
      }
    }
    return false;
  }

  /**
    A hunter standing exactly on the player does not see it whenever the cone's
    half-angle cosine is positive (as for the default 70 degree field of view):
    the direction to the player is the zero vector, whose dot product with the
    facing is 0.
   */
  lemma CoincidentTargetUnseen(h: Hunter, m: Trig, nav: Nav)
    requires m.cos(h.fovDeg * 0.5 * (PI / 180.0)) > 0.0
    ensures !h.SeesPlayer(h.pos, m, nav)
  {
    assert h.pos.Minus(h.pos) == Zero;
    assert Norm(m, Zero) == Zero by {
      if Length(m, Zero) > EPS {
        assert Zero.Div(Length(m, Zero)) == Zero;
      }
    }
  }
}
