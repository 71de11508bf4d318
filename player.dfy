/*
  The player's creature of src/Player.cpp: cooldown timers, the four-stage
  evolution with food consumption, the dash, the boulder wind-up and throw,
  the ground slam, the bite, and the stage table of radius and maximum health.

  Keyboard, mouse and frame-time queries are gathered into an `Input` value;
  the tuning constants, whose declarations are not in any shown header, are a
  `Tuning` value fixed at construction.
*/
module Players {
  import opened Geometry
  import opened Tiles
  import opened Angles
  import opened Animals

  /** Direction vectors shorter than this are not normalised. */
  const DIR_EPS: real := 0.0001
  /** How long the dash hint stays on screen after stage 2 is reached. */
  const DASH_HINT_TIME: real := 4.0
  /** How long the bite arc is drawn. */
  const BITE_FX_TIME: real := 0.12
  /** Health regained per animal eaten. */
  const BITE_HEAL: real := 10.0
  /** Walking speed, the one constant declared in src/Player.hpp. */
  const WALK_SPEED: real := 180.0
  /** The last stage. */
  const MAX_STAGE: int := 4

  /** One frame's input: the mouse in world space, the evolve readiness and the keys and buttons pressed or held. */
  datatype Input = Input(
    mouseWorld: Vec,
    evolveReady: bool,
    evolveKey: bool,
    dashKey: bool,
    slamKey: bool,
    up: bool, down: bool, left: bool, right: bool,
    biteClick: bool,
    throwClick: bool)

  /** The tuning constants of the creature. */
  datatype Tuning = Tuning(
    transformTime: real,
    evolveThresholds: seq<int>,
    stageRadii: seq<real>,
    dashSpeed: real, dashDuration: real, dashCooldown: real, dashKillPad: real,
    boulderWindTime: real, boulderRadius: real, boulderSpeed: real, boulderCooldown: real,
    slamWindTime: real, slamCooldown: real, slamRadius: real, slamKillPad: real,
    biteCooldown: real, biteArcDeg: real)
  {
    /** A threshold for each of stages 1 to 3 and a radius for each of the four stages. */
    predicate WellFormed() {
      |evolveThresholds| >= 3 && |stageRadii| == 4
    }
  }

  /** A thrown boulder; the defaults of src/Boulder.hpp for the fields a throw leaves alone. */
  datatype Boulder = Boulder(pos: Vec, vel: Vec, radius: real, life: real, alive: bool)

  /** An animal's state as the sweeps see it. */
  datatype Prey = Prey(pos: Vec, radius: real, alive: bool)

  /** The stage table row: stage 1 or below, 2, 3, and 4 or above. */
  function StageIndex(stage: int): (idx: nat)
    ensures idx < 4
    ensures 1 <= stage <= 4 ==> idx == stage - 1
  {
    if stage <= 1 then 0 else if stage == 2 then 1 else if stage == 3 then 2 else 3
  }

  /** The maximum health of a stage. */
  function StageMaxHp(stage: int): real {
    [100.0, 115.0, 130.0, 150.0][StageIndex(stage)]
  }

  /** A later stage never has less maximum health, and each stage has at least 100. */
  lemma StageMaxHpMonotone(s1: int, s2: int)
    requires s1 <= s2
    ensures 100.0 <= StageMaxHp(s1) <= StageMaxHp(s2) <= 150.0
  {
  }

  /** The stage after a completed transformation: one more, up to the last. */
  function NextStage(stage: int): (s: int)
    ensures 1 <= stage <= MAX_STAGE ==> 1 <= s <= MAX_STAGE
    ensures stage < MAX_STAGE ==> s == stage + 1
    ensures stage >= MAX_STAGE ==> s == MAX_STAGE
  {
    if stage < MAX_STAGE then stage + 1 else MAX_STAGE
  }

  /** Food after a completed transformation: below the last stage the stage's threshold is paid, never below zero. */
  function FoodAfterEvolve(food: int, stage: int, thresholds: seq<int>): (f: int)
    requires 1 <= stage <= MAX_STAGE && |thresholds| >= 3
    ensures stage < MAX_STAGE ==> f >= 0 && (f == 0 || f == food - thresholds[stage - 1])
    ensures stage < MAX_STAGE && food >= thresholds[stage - 1] ==> f == food - thresholds[stage - 1]
    ensures stage < MAX_STAGE && food < thresholds[stage - 1] ==> f == 0
    ensures stage == MAX_STAGE ==> f == food
  {
    if stage < MAX_STAGE then
      var f := food - thresholds[stage - 1];
      if f < 0 then 0 else f
    else food
  }

  /** Paying a non-negative threshold never adds food. */
  lemma EvolveNeverAddsFood(food: int, stage: int, thresholds: seq<int>)
    requires 1 <= stage <= MAX_STAGE && |thresholds| >= 3 && food >= 0
    requires forall i :: 0 <= i < |thresholds| ==> thresholds[i] >= 0
    ensures 0 <= FoodAfterEvolve(food, stage, thresholds) <= food
  {
  }

  /** Where the creature looks: toward the mouse, normalised unless the mouse is on top of it. */
  function Aim(mouse: Vec, pos: Vec, m: Trig): Vec {
    var f := mouse.Minus(pos);
    var l := Length(m, f);
    if l > DIR_EPS then f.Div(l) else f
  }

  /** The direction of a dash or a throw: toward the mouse, or the current facing when the mouse is on top of the creature. */
  function LaunchDir(mouse: Vec, pos: Vec, angle: real, m: Trig): (d: Vec)
    ensures Length(m, mouse.Minus(pos)) < DIR_EPS ==> d == Heading(m, angle)
    ensures Length(m, mouse.Minus(pos)) >= DIR_EPS ==> d.Scale(Length(m, mouse.Minus(pos))) == mouse.Minus(pos)
  {
    var d := mouse.Minus(pos);
    var l := Length(m, d);
    if l < DIR_EPS then Heading(m, angle)
    else
      var r := d.Div(l);
      assert r.Scale(l) == d by {
        assert r.x * l == d.x && r.y * l == d.y;
      }
      r
  }

  /** The walking displacement: forward/back along the aim and strafing across it, normalised, times speed*dt. */
  function WalkStep(forward: Vec, input: Input, speed: real, dt: real, m: Trig): Vec {
    var right := Vec(-forward.y, forward.x);
    var f := (if input.up then 1.0 else 0.0) - (if input.down then 1.0 else 0.0);
    var r := (if input.right then 1.0 else 0.0) - (if input.left then 1.0 else 0.0);
    var move := Vec(forward.x * f + right.x * r, forward.y * f + right.y * r);
    var l := Length(m, move);
    var dir := if l > DIR_EPS then move.Div(l) else move;
    Vec(dir.x * speed * dt, dir.y * speed * dt)
  }

  /** Without a movement key pressed (or with opposite keys cancelling) the creature does not walk. */
  lemma NoKeysNoWalk(forward: Vec, input: Input, speed: real, dt: real, m: Trig)
    requires input.up == input.down && input.left == input.right
    ensures WalkStep(forward, input, speed, dt, m) == Zero
  {
    var right := Vec(-forward.y, forward.x);
    var f := (if input.up then 1.0 else 0.0) - (if input.down then 1.0 else 0.0);
    var r := (if input.right then 1.0 else 0.0) - (if input.left then 1.0 else 0.0);
    assert f == 0.0 && r == 0.0;
    var move := Vec(forward.x * f + right.x * r, forward.y * f + right.y * r);
    assert move == Zero;
    var l := Length(m, move);
    var dir := if l > DIR_EPS then move.Div(l) else move;
    assert dir == Zero;
  }

  /** The dash and slam kill test: centre distance within `reach` plus the animal's radius (squared, without a root). */
  function Within(center: Vec, reach: real): (Vec, real) -> bool {
    (p: Vec, r: real) => Dist2(p, center) <= (reach + r) * (reach + r)
  }

  /**
    The bite test: within `range` plus the animal's radius, and inside the arc
    whose half-angle cosine is `cosHalf` around `fwd`; an animal on the
    creature's centre has direction zero.
   */
  function InBite(center: Vec, fwd: Vec, range: real, cosHalf: real, m: Trig): (Vec, real) -> bool {
    (p: Vec, r: real) =>
      var to := p.Minus(center);
      var d := Length(m, to);
      d <= range + r && fwd.Dot(if d > DIR_EPS then to.Div(d) else Zero) >= cosHalf
  }

  /** No animal occurs twice in the list. */
  predicate Distinct(animals: seq<Animal>) {
    forall i, j :: 0 <= i < j < |animals| ==> animals[i] != animals[j]
  }

  /** The sweep-relevant state of the animals. */
  function Herd(animals: seq<Animal>): (h: seq<Prey>)
    reads animals
    ensures |h| == |animals|
    ensures forall i :: 0 <= i < |animals| ==> h[i] == Prey(animals[i].pos, animals[i].radius, animals[i].alive)
  {
    seq(|animals|, i requires 0 <= i < |animals| reads animals => Prey(animals[i].pos, animals[i].radius, animals[i].alive))
  }

  /** Whether a sweep kills this animal: it is alive and the test holds. */
  predicate Hit(p: Prey, hit: (Vec, real) -> bool) {
    p.alive && hit(p.pos, p.radius)
  }

  /** The herd after a sweep: exactly the hit animals are dead. */
  function AfterSweep(h: seq<Prey>, hit: (Vec, real) -> bool): (h': seq<Prey>)
    ensures |h'| == |h|
    ensures forall i :: 0 <= i < |h| ==> h'[i] == h[i].(alive := h[i].alive && !Hit(h[i], hit))
  {
    seq(|h|, i requires 0 <= i < |h| => h[i].(alive := h[i].alive && !Hit(h[i], hit)))
  }

  /** The number of animals a sweep kills. */
  function Kills(h: seq<Prey>, hit: (Vec, real) -> bool): nat {
    if h == [] then 0 else Kills(h[..|h| - 1], hit) + (if Hit(h[|h| - 1], hit) then 1 else 0)
  }

  /** The number of live animals. */
  function AliveCount(h: seq<Prey>): nat {
    if h == [] then 0 else AliveCount(h[..|h| - 1]) + (if h[|h| - 1].alive then 1 else 0)
  }

  /** Every kill turns exactly one live animal dead: the live count drops by the kill count. */
  lemma {:induction false} SweepAccounts(h: seq<Prey>, hit: (Vec, real) -> bool)
    ensures AliveCount(h) == AliveCount(AfterSweep(h, hit)) + Kills(h, hit)
    ensures Kills(h, hit) <= AliveCount(h)
  {
    if h != [] {
      var k := |h| - 1;
      SweepAccounts(h[..k], hit);
      assert AfterSweep(h, hit)[..k] == AfterSweep(h[..k], hit);
    }
  }

  /** A sweep leaves nothing for a second sweep with the same test: the second one kills nothing and changes nothing. */
  lemma {:induction false} SweepIdempotent(h: seq<Prey>, hit: (Vec, real) -> bool)
    ensures Kills(AfterSweep(h, hit), hit) == 0
    ensures AfterSweep(AfterSweep(h, hit), hit) == AfterSweep(h, hit)
  {
    if h != [] {
      var k := |h| - 1;
      SweepIdempotent(h[..k], hit);
      assert AfterSweep(h, hit)[..k] == AfterSweep(h[..k], hit);
    }
  }

  /**
    The loop shared by the dash, the slam and the bite: each live animal that
    passes `hit` is made dead; the result is how many were.
   */
  method Sweep(animals: seq<Animal>, hit: (Vec, real) -> bool) returns (n: nat)
    requires Distinct(animals)
    modifies animals`alive
    ensures Herd(animals) == AfterSweep(old(Herd(animals)), hit)
    ensures n == Kills(old(Herd(animals)), hit)
  {
    ghost var h0 := Herd(animals);
    n := 0;
    var k := 0;
    while k < |animals|
      invariant 0 <= k <= |animals|
      invariant n == Kills(h0[..k], hit)
      invariant forall i :: 0 <= i < |animals| ==> animals[i].pos == h0[i].pos && animals[i].radius == h0[i].radius
      invariant forall i :: 0 <= i < k ==> animals[i].alive == (h0[i].alive && !Hit(h0[i], hit))
      invariant forall i :: k <= i < |animals| ==> animals[i].alive == h0[i].alive
    {
      assert h0[..k + 1][..k] == h0[..k];
      var a := animals[k];
      if a.alive && hit(a.pos, a.radius) {
        a.alive := false;
        n := n + 1;
      }
      k := k + 1;
    }
    assert h0[..|animals|] == h0;
    assert Herd(animals) == AfterSweep(h0, hit);
  }

  class Player {
    const tune: Tuning

    var pos: Vec
    var angle: real
    var radius: real
    var biteRange: real
    var hp: real
    var maxHp: real
    var stage: int
    var food: int

    var biteTimer: real
    var biteFxTimer: real
    var dashCDTimer: real
    var boulderCDTimer: real
    var slamCDTimer: real
    var showDashHint: bool
    var dashHintTimer: real

    var transforming: bool
    var transformElapsed: real

    var dashing: bool
    var dashDir: Vec
    var dashElapsed: real

    var boulderWinding: bool
    var boulderWindElapsed: real
    var boulderDir: Vec

    var slamWinding: bool
    var slamWindElapsed: real
    var slamImpactPos: Vec
    var slamJustFired: bool

    /** The tuning is well formed and the stage is one of the four. */
    ghost predicate Valid()
      reads this`stage
    {
      tune.WellFormed() && 1 <= stage <= MAX_STAGE
    }

    /**
      A stage-1 creature at `startPos` with health `hp0`, idle, with every
      timer at zero, then the stage visuals applied.
     */
    constructor (startPos: Vec, tune: Tuning, hp0: real)
      requires tune.WellFormed()
      ensures Valid() && this.tune == tune
      ensures pos == startPos && stage == 1 && food == 0
      ensures maxHp == 100.0 && hp == Min(hp0, 100.0) && radius == tune.stageRadii[0]
      ensures !transforming && !dashing && !boulderWinding && !slamWinding
    {
      this.tune := tune;
      pos := startPos;
      angle := 0.0;
      hp := hp0;
      stage := 1;
      food := 0;
      biteTimer, biteFxTimer, dashCDTimer, boulderCDTimer, slamCDTimer := 0.0, 0.0, 0.0, 0.0, 0.0;
      showDashHint, dashHintTimer := false, 0.0;
      transforming, transformElapsed := false, 0.0;
      dashing, dashDir, dashElapsed := false, Zero, 0.0;
      boulderWinding, boulderWindElapsed, boulderDir := false, 0.0, Zero;
      slamWinding, slamWindElapsed, slamImpactPos, slamJustFired := false, 0.0, Zero, false;
      new;
      ApplyStageVisuals();
    }

    /**
      Sets the body radius, bite range and maximum health of the current
      stage, and cuts health down to the new maximum.
     */
    method ApplyStageVisuals()
      requires tune.WellFormed()
      modifies this`radius, this`biteRange, this`maxHp, this`hp
      ensures radius == tune.stageRadii[StageIndex(stage)] && biteRange == 24.0 + (radius - 14.0) * 1.2
      ensures maxHp == StageMaxHp(stage)
      ensures hp == Min(old(hp), maxHp) && hp <= maxHp
    {
      var idx := StageIndex(stage);
      radius := tune.stageRadii[idx];
      biteRange := 24.0 + (radius - 14.0) * 1.2;
      var stageHp := [100.0, 115.0, 130.0, 150.0];
      maxHp := stageHp[idx];
      if hp > maxHp {
        hp := maxHp;
      }
    }

    /** The cooldowns count down while positive; the dash hint counts down while shown and hides at zero. */
    method TickCooldowns(dt: real)
      modifies this`biteTimer, this`biteFxTimer, this`dashCDTimer, this`showDashHint, this`dashHintTimer
      modifies this`boulderCDTimer, this`slamCDTimer
      ensures biteTimer == Tick(old(biteTimer), dt) && biteFxTimer == Tick(old(biteFxTimer), dt)
      ensures dashCDTimer == Tick(old(dashCDTimer), dt) && boulderCDTimer == Tick(old(boulderCDTimer), dt)
      ensures slamCDTimer == Tick(old(slamCDTimer), dt)
      ensures dashHintTimer == (if old(showDashHint) then old(dashHintTimer) - dt else old(dashHintTimer))
      ensures showDashHint == (old(showDashHint) && old(dashHintTimer) - dt > 0.0)
    {
      if biteTimer > 0.0 {
        biteTimer := biteTimer - dt;
      }
      if biteFxTimer > 0.0 {
        biteFxTimer := biteFxTimer - dt;
      }
      if dashCDTimer > 0.0 {
        dashCDTimer := dashCDTimer - dt;
      }
      if showDashHint {
        dashHintTimer := dashHintTimer - dt;
        if dashHintTimer <= 0.0 {
          showDashHint := false;
        }
      }
      if boulderCDTimer > 0.0 {
        boulderCDTimer := boulderCDTimer - dt;
      }
      if slamCDTimer > 0.0 {
        slamCDTimer := slamCDTimer - dt;
      }
    }

    /**
      A frame of the transformation: it runs for transformTime, then ends,
      pays the stage's food, advances the stage, applies the new stage's
      visuals and, on reaching stage 2, shows the dash hint.
     */
    method Transform(dt: real)
      requires Valid()
      modifies this
      ensures Valid()
      // position, facing, the cooldowns and the dash, boulder and slam states are left alone
      ensures unchanged(this`pos, this`angle, this`biteTimer, this`biteFxTimer)
      ensures unchanged(this`dashCDTimer, this`boulderCDTimer, this`slamCDTimer)
      ensures unchanged(this`dashing, this`dashDir, this`dashElapsed)
      ensures unchanged(this`boulderWinding, this`boulderWindElapsed, this`boulderDir)
      ensures unchanged(this`slamWinding, this`slamWindElapsed, this`slamImpactPos, this`slamJustFired)
      ensures transformElapsed == old(transformElapsed) + dt
      ensures transformElapsed < tune.transformTime ==>
                transforming == old(transforming) && food == old(food) && stage == old(stage) && hp == old(hp) &&
                radius == old(radius) && biteRange == old(biteRange) && maxHp == old(maxHp) &&
                showDashHint == old(showDashHint) && dashHintTimer == old(dashHintTimer)
      ensures transformElapsed >= tune.transformTime ==>
                !transforming && stage == NextStage(old(stage)) &&
                food == FoodAfterEvolve(old(food), old(stage), tune.evolveThresholds) &&
                radius == tune.stageRadii[stage - 1] && biteRange == 24.0 + (radius - 14.0) * 1.2 &&
                maxHp == StageMaxHp(stage) && hp == Min(old(hp), maxHp)
      ensures transformElapsed >= tune.transformTime && stage == 2 ==> showDashHint && dashHintTimer == DASH_HINT_TIME
      ensures !(transformElapsed >= tune.transformTime && stage == 2) ==>
                showDashHint == old(showDashHint) && dashHintTimer == old(dashHintTimer)
    {
      transformElapsed := transformElapsed + dt;
      if transformElapsed >= tune.transformTime {
        CompleteTransform();
      }
    }

    /**
      The end of a transformation: it pays the stage's food, advances the
      stage, applies the new stage's visuals and, on reaching stage 2, shows
      the dash hint.
     */
    method CompleteTransform()
      requires Valid()
      modifies this`transforming, this`food, this`stage
      modifies this`radius, this`biteRange, this`maxHp, this`hp, this`showDashHint, this`dashHintTimer
      ensures Valid()
      ensures !transforming && stage == NextStage(old(stage)) &&
              food == FoodAfterEvolve(old(food), old(stage), tune.evolveThresholds)
      ensures radius == tune.stageRadii[stage - 1] && biteRange == 24.0 + (radius - 14.0) * 1.2
      ensures maxHp == StageMaxHp(stage) && hp == Min(old(hp), maxHp)
      ensures stage == 2 ==> showDashHint && dashHintTimer == DASH_HINT_TIME
      ensures stage != 2 ==> showDashHint == old(showDashHint) && dashHintTimer == old(dashHintTimer)
    {
      transforming := false;
      if stage < 4 {
        food := food - tune.evolveThresholds[stage - 1];
        if food < 0 {
          food := 0;
        }
      }
      stage := if stage < 4 then stage + 1 else 4;
      ApplyStageVisuals();
      if stage == 2 {
        showDashHint := true;
        dashHintTimer := DASH_HINT_TIME;
      }
    }

    /** The dash gate: stage 2 or later, dash cooldown run out, not already dashing. */
    predicate CanDash()
      reads this`stage, this`dashCDTimer, this`dashing
    {
      stage >= 2 && dashCDTimer <= 0.0 && !dashing
    }

    /**
      Starts a dash when allowed and asked for: the dash direction is taken
      toward the mouse, facing locks to it, and a pending bite cooldown is kept
      non-negative.
     */
    method StartDash(input: Input, m: Trig)
      modifies this
      // only the dash state, facing and bite cooldown change
      ensures unchanged(this`pos, this`radius, this`biteRange, this`hp, this`maxHp, this`stage, this`food)
      ensures unchanged(this`biteFxTimer, this`dashCDTimer, this`boulderCDTimer, this`slamCDTimer)
      ensures unchanged(this`showDashHint, this`dashHintTimer, this`transforming, this`transformElapsed)
      ensures unchanged(this`boulderWinding, this`boulderWindElapsed, this`boulderDir)
      ensures unchanged(this`slamWinding, this`slamWindElapsed, this`slamImpactPos, this`slamJustFired)
      ensures old(CanDash()) && input.dashKey ==>
                dashing && dashElapsed == 0.0 &&
                dashDir == LaunchDir(input.mouseWorld, pos, old(angle), m) &&
                angle == m.atan2(dashDir.y, dashDir.x) && biteTimer == Max(old(biteTimer), 0.0)
      ensures !(old(CanDash()) && input.dashKey) ==>
                dashing == old(dashing) && dashElapsed == old(dashElapsed) && dashDir == old(dashDir) &&
                angle == old(angle) && biteTimer == old(biteTimer)
    {
      var canDash := stage >= 2 && dashCDTimer <= 0.0 && !dashing;
      if canDash && input.dashKey {
        dashDir := LaunchDir(input.mouseWorld, pos, angle, m);
        angle := m.atan2(dashDir.y, dashDir.x);
        dashing := true;
        dashElapsed := 0.0;
        biteTimer := Max(biteTimer, 0.0);
      }
    }

    /** A frame of the boulder wind-up inside `update`: it ends once boulderWindTime has passed. */
    method WindBoulder(dt: real)
      modifies this
      // only the boulder wind-up changes
      ensures unchanged(this`pos, this`angle, this`radius, this`biteRange, this`hp, this`maxHp, this`stage, this`food)
      ensures unchanged(this`biteTimer, this`biteFxTimer, this`dashCDTimer, this`boulderCDTimer, this`slamCDTimer)
      ensures unchanged(this`showDashHint, this`dashHintTimer, this`transforming, this`transformElapsed)
      ensures unchanged(this`dashing, this`dashDir, this`dashElapsed, this`boulderDir)
      ensures unchanged(this`slamWinding, this`slamWindElapsed, this`slamImpactPos, this`slamJustFired)
      ensures boulderWindElapsed == old(boulderWindElapsed) + dt
      ensures boulderWinding == (old(boulderWinding) && boulderWindElapsed < tune.boulderWindTime)
    {
      boulderWindElapsed := boulderWindElapsed + dt;
      if boulderWindElapsed >= tune.boulderWindTime {
        boulderWinding := false;
      }
    }

    /** The slam gate, checked only at stage 4: not winding, cooldown run out, and no dash, wind-up or transformation. */
    predicate CanSlam()
      reads this`slamWinding, this`slamCDTimer, this`dashing, this`boulderWinding, this`transforming
    {
      !slamWinding && slamCDTimer <= 0.0 && !dashing && !boulderWinding && !transforming
    }

    /**
      The stage-4 ground slam. A slam starts when allowed and asked for; while
      it winds up the creature faces the mouse and does nothing else; when the
      wind-up is over the cooldown starts, the impact is recorded and every
      live animal within slamRadius plus slamKillPad plus its own radius dies.
      The result says whether the slam held the creature this frame.
     */
    method Slam(dt: real, input: Input, animals: seq<Animal>, m: Trig) returns (held: bool)
      requires Distinct(animals)
      modifies this, animals`alive
      // only the slam state, facing and the animals change
      ensures unchanged(this`pos, this`radius, this`biteRange, this`hp, this`maxHp, this`stage, this`food)
      ensures unchanged(this`biteTimer, this`biteFxTimer, this`dashCDTimer, this`boulderCDTimer)
      ensures unchanged(this`showDashHint, this`dashHintTimer, this`transforming, this`transformElapsed)
      ensures unchanged(this`dashing, this`dashDir, this`dashElapsed)
      ensures unchanged(this`boulderWinding, this`boulderWindElapsed, this`boulderDir)
      ensures held == (old(slamWinding) || (old(CanSlam()) && input.slamKey))
      ensures !held ==> unchanged(this) && unchanged(animals)
      ensures held ==>
                slamWindElapsed == (if old(slamWinding) then old(slamWindElapsed) else 0.0) + dt &&
                angle == Facing(input, m)
      ensures held && slamWindElapsed >= tune.slamWindTime ==>
                !slamWinding && slamCDTimer == tune.slamCooldown && slamImpactPos == pos && slamJustFired &&
                Herd(animals) == AfterSweep(old(Herd(animals)), SlamTest())
      ensures held && slamWindElapsed < tune.slamWindTime ==>
                slamWinding && slamCDTimer == old(slamCDTimer) && slamJustFired == old(slamJustFired) &&
                slamImpactPos == old(slamImpactPos) && unchanged(animals)
    {
      if CanSlam() && input.slamKey {
        slamWinding := true;
        slamWindElapsed := 0.0;
      }
      held := slamWinding;
      if slamWinding {
        SlamWindStep(dt, input, animals, m);
      }
    }

    /** The facing toward the mouse from the current position. */
    function Facing(input: Input, m: Trig): real
      reads this`pos
    {
      var forward := Aim(input.mouseWorld, pos, m);
      m.atan2(forward.y, forward.x)
    }

    /** The slam's kill test: within slamRadius plus slamKillPad plus the animal's radius of the creature. */
    function SlamTest(): (Vec, real) -> bool
      reads this`pos
    {
      Within(pos, tune.slamRadius + tune.slamKillPad)
    }

    /**
      A frame of a slam wind-up: facing follows the mouse, and when the wind-up
      is over the slam lands, its cooldown starts and the animals in reach die.
     */
    method SlamWindStep(dt: real, input: Input, animals: seq<Animal>, m: Trig)
      requires Distinct(animals)
      modifies this`slamWinding, this`slamWindElapsed, this`angle, this`slamCDTimer, this`slamImpactPos
      modifies this`slamJustFired, animals`alive
      ensures slamWindElapsed == old(slamWindElapsed) + dt
      ensures angle == Facing(input, m)
      ensures slamWindElapsed >= tune.slamWindTime ==>
                !slamWinding && slamCDTimer == tune.slamCooldown && slamImpactPos == pos && slamJustFired &&
                Herd(animals) == AfterSweep(old(Herd(animals)), SlamTest())
      ensures slamWindElapsed < tune.slamWindTime ==>
                slamWinding == old(slamWinding) && slamCDTimer == old(slamCDTimer) &&
                slamJustFired == old(slamJustFired) && slamImpactPos == old(slamImpactPos) && unchanged(animals)
    {
      ghost var h0 := Herd(animals);
      slamWindElapsed := slamWindElapsed + dt;
      var fw := Aim(input.mouseWorld, pos, m);
      angle := m.atan2(fw.y, fw.x);
      if slamWindElapsed >= tune.slamWindTime {
        slamWinding := false;
        slamCDTimer := tune.slamCooldown;
        slamImpactPos := pos;
        slamJustFired := true;
        assert Herd(animals) == h0;
        var _ := Sweep(animals, SlamTest());
      }
    }

    /**
      A dash frame: the creature moves dashSpeed*dt along the dash direction
      through the grid's collision, eats every live animal within its radius
      plus dashKillPad plus the animal's radius (one food each), and the dash
      ends with the dash cooldown once dashDuration has passed.
     */
    method Dash(dt: real, world: Tilemap, animals: seq<Animal>, m: Trig)
      requires world.Valid() && Distinct(animals)
      modifies this`pos, this`food, animals`alive, this`dashElapsed, this`dashing, this`dashCDTimer, this`angle
      ensures pos == world.Resolve(old(pos), DashDelta(dt))
      ensures Herd(animals) == AfterSweep(old(Herd(animals)), DashTest())
      ensures food == old(food) + Kills(old(Herd(animals)), DashTest())
      ensures dashElapsed == old(dashElapsed) + dt
      ensures dashElapsed >= tune.dashDuration ==> !dashing && dashCDTimer == tune.dashCooldown
      ensures dashElapsed < tune.dashDuration ==> dashing == old(dashing) && dashCDTimer == old(dashCDTimer)
      ensures angle == m.atan2(dashDir.y, dashDir.x)
    {
      DashMove(dt, world);
      DashEat(animals);
      ghost var h1 := Herd(animals);
      DashClock(dt, m);
      assert Herd(animals) == h1;
    }

    /** A dash frame's displacement: dashSpeed*dt along the dash direction. */
    function DashDelta(dt: real): Vec
      reads this`dashDir
    {
      Vec(dashDir.x * tune.dashSpeed * dt, dashDir.y * tune.dashSpeed * dt)
    }

    /** The moving part of a dash frame: dashSpeed*dt along the dash direction, through the grid's collision. */
    method DashMove(dt: real, world: Tilemap)
      requires world.Valid()
      modifies this`pos
      ensures pos == world.Resolve(old(pos), DashDelta(dt))
      ensures world.Free(old(pos)) ==> world.Free(pos)
    {
      pos := world.ResolveCollision(pos, radius, DashDelta(dt));
    }

    /** The dash's kill test: within the creature's radius plus dashKillPad plus the animal's radius. */
    function DashTest(): (Vec, real) -> bool
      reads this`pos, this`radius
    {
      Within(pos, radius + tune.dashKillPad)
    }

    /** The eating part of a dash frame: every live animal within reach dies, one food each. */
    method DashEat(animals: seq<Animal>)
      requires Distinct(animals)
      modifies this`food, animals`alive
      ensures Herd(animals) == AfterSweep(old(Herd(animals)), DashTest())
      ensures food == old(food) + Kills(old(Herd(animals)), DashTest())
    {
      var eaten := Sweep(animals, DashTest());
      ghost var h1 := Herd(animals);
      food := food + eaten;
      assert Herd(animals) == h1;
    }

    /** The clock half of a dash frame: the dash ends with its cooldown after dashDuration, facing locked to the dash. */
    method DashClock(dt: real, m: Trig)
      modifies this`dashElapsed, this`dashing, this`dashCDTimer, this`angle
      ensures dashElapsed == old(dashElapsed) + dt
      ensures dashElapsed >= tune.dashDuration ==> !dashing && dashCDTimer == tune.dashCooldown
      ensures dashElapsed < tune.dashDuration ==> dashing == old(dashing) && dashCDTimer == old(dashCDTimer)
      ensures angle == m.atan2(dashDir.y, dashDir.x)
    {
      dashElapsed := dashElapsed + dt;
      if dashElapsed >= tune.dashDuration {
        dashing := false;
        dashCDTimer := tune.dashCooldown;
      }
      angle := m.atan2(dashDir.y, dashDir.x);
    }

    /** Whether this frame's update is taken by the transformation: already transforming, or starting now. */
    predicate TransformsNow(input: Input)
      reads this`transforming
    {
      transforming || (input.evolveReady && input.evolveKey)
    }

    /**
      One frame of the creature. Cooldowns tick and the creature faces the
      mouse; a transformation, once started, takes the whole frame; otherwise a
      dash may start, a boulder wind-up takes the frame, a stage-4 slam may
      take it, a dash moves and eats, and else the creature walks.
     */
    method Update(dt: real, world: Tilemap, input: Input, animals: seq<Animal>, m: Trig)
      requires Valid() && world.Valid() && Distinct(animals)
      modifies this, animals`alive
      ensures Valid()
      // the cooldowns tick; a dash that starts keeps the bite cooldown non-negative, and a dash
      // that ends or a slam that lands this frame restarts its own cooldown instead
      ensures biteFxTimer == Tick(old(biteFxTimer), dt) && boulderCDTimer == Tick(old(boulderCDTimer), dt)
      ensures biteTimer ==
                (if old(DashStarts(input, dt)) then Max(Tick(old(biteTimer), dt), 0.0) else Tick(old(biteTimer), dt))
      ensures dashCDTimer ==
                (if (old(dashing) || old(DashStarts(input, dt))) && !dashing then tune.dashCooldown
                 else Tick(old(dashCDTimer), dt))
      ensures slamCDTimer ==
                (if !old(TransformsNow(input)) && !old(boulderWinding) && old(SlamTakes(input, dt)) && !slamWinding
                 then tune.slamCooldown
                 else Tick(old(slamCDTimer), dt))
      // the dash hint counts down while shown, and shows anew on reaching stage 2
      ensures old(stage) == 1 && stage == 2 ==> showDashHint && dashHintTimer == DASH_HINT_TIME
      ensures !(old(stage) == 1 && stage == 2) ==>
                dashHintTimer == (if old(showDashHint) then old(dashHintTimer) - dt else old(dashHintTimer)) &&
                showDashHint == (old(showDashHint) && old(dashHintTimer) - dt > 0.0)
      // a transformation takes the whole frame: no dash, slam, move or kill
      ensures old(TransformsNow(input)) ==>
                pos == old(pos) && dashing == old(dashing) && slamWinding == old(slamWinding) &&
                boulderWinding == old(boulderWinding) && unchanged(animals)
      // a transformation runs for transformTime, then pays the stage's food and advances the stage
      ensures old(TransformsNow(input)) ==>
                transformElapsed == (if old(transforming) then old(transformElapsed) else 0.0) + dt
      ensures old(TransformsNow(input)) ==>
                unchanged(this`dashDir, this`dashElapsed, this`boulderWindElapsed) &&
                unchanged(this`slamWindElapsed, this`slamImpactPos, this`slamJustFired)
      ensures old(TransformsNow(input)) && transformElapsed >= tune.transformTime ==>
                !transforming && stage == NextStage(old(stage)) &&
                food == FoodAfterEvolve(old(food), old(stage), tune.evolveThresholds) &&
                radius == tune.stageRadii[stage - 1] && biteRange == 24.0 + (radius - 14.0) * 1.2 &&
                maxHp == StageMaxHp(stage) && hp == Min(old(hp), maxHp)
      ensures old(TransformsNow(input)) && transformElapsed < tune.transformTime ==>
                transforming && stage == old(stage) && food == old(food) &&
                unchanged(this`radius, this`biteRange, this`hp, this`maxHp)
      // outside a transformation the body and the transformation state are left alone
      ensures !old(TransformsNow(input)) ==>
                radius == old(radius) && biteRange == old(biteRange) && hp == old(hp) && maxHp == old(maxHp)
      ensures boulderDir == old(boulderDir)
      ensures !old(TransformsNow(input)) ==> stage == old(stage)
      ensures !old(TransformsNow(input)) ==> !transforming && transformElapsed == old(transformElapsed)
      // facing: toward the mouse, except along a dash that starts or is under way and is not held by a slam
      ensures angle ==
                (if old(TransformsNow(input)) then old(Facing(input, m))
                 else if old(boulderWinding) then
                   (if old(DashStarts(input, dt)) then m.atan2(dashDir.y, dashDir.x) else old(Facing(input, m)))
                 else if old(SlamTakes(input, dt)) then old(Facing(input, m))
                 else if old(dashing) || old(DashStarts(input, dt)) then m.atan2(dashDir.y, dashDir.x)
                 else old(Facing(input, m)))
      // a boulder wind-up takes the frame: no move, no meal, no slam, only the wind-up clock runs
      ensures !old(TransformsNow(input)) && old(boulderWinding) ==>
                pos == old(pos) && food == old(food) && unchanged(animals) &&
                boulderWindElapsed == old(boulderWindElapsed) + dt &&
                boulderWinding == (boulderWindElapsed < tune.boulderWindTime) &&
                slamWinding == old(slamWinding) && slamWindElapsed == old(slamWindElapsed) &&
                slamImpactPos == old(slamImpactPos) && slamJustFired == old(slamJustFired)
      ensures !old(boulderWinding) ==> boulderWinding == old(boulderWinding) && boulderWindElapsed == old(boulderWindElapsed)
      // a dash that starts in a wind-up or slam frame is under way with its clock at 0, and otherwise the dash is kept
      ensures !old(TransformsNow(input)) && (old(boulderWinding) || old(SlamTakes(input, dt))) ==>
                dashing == (old(dashing) || old(DashStarts(input, dt))) &&
                dashElapsed == (if old(DashStarts(input, dt)) then 0.0 else old(dashElapsed))
      // a stage-4 slam that takes the frame winds up in place and, once the wind-up is over, lands
      ensures !old(TransformsNow(input)) && !old(boulderWinding) && old(SlamTakes(input, dt)) ==>
                pos == old(pos) && food == old(food) &&
                slamWindElapsed == (if old(slamWinding) then old(slamWindElapsed) else 0.0) + dt &&
                (slamWindElapsed >= tune.slamWindTime ==>
                   !slamWinding && slamCDTimer == tune.slamCooldown && slamImpactPos == pos && slamJustFired &&
                   Herd(animals) == AfterSweep(old(Herd(animals)), SlamTest())) &&
                (slamWindElapsed < tune.slamWindTime ==>
                   slamWinding && unchanged(animals) && slamImpactPos == old(slamImpactPos) &&
                   slamJustFired == old(slamJustFired))
      // a dash under way, or one that starts this frame, moves, eats at the new position and runs the dash clock
      ensures !old(TransformsNow(input)) && !old(boulderWinding) && !(old(stage) >= 4 && old(slamWinding)) &&
              (old(dashing) || old(DashStarts(input, dt))) ==>
                pos == world.Resolve(old(pos), DashDelta(dt)) &&
                Herd(animals) == AfterSweep(old(Herd(animals)), DashTest()) &&
                food == old(food) + Kills(old(Herd(animals)), DashTest()) &&
                dashElapsed == (if old(dashing) then old(dashElapsed) else 0.0) + dt &&
                (dashElapsed >= tune.dashDuration ==> !dashing && dashCDTimer == tune.dashCooldown) &&
                (dashElapsed < tune.dashDuration ==> dashing) &&
                unchanged(this`slamWinding, this`slamWindElapsed, this`slamImpactPos, this`slamJustFired)
      // a dash starts only when allowed and asked for, toward the mouse
      ensures dashing && !old(dashing) ==>
                !old(TransformsNow(input)) && old(stage) >= 2 && Tick(old(dashCDTimer), dt) <= 0.0 && input.dashKey
      ensures old(DashStarts(input, dt)) ==> dashDir == LaunchDir(input.mouseWorld, old(pos), old(Facing(input, m)), m)
      ensures !old(DashStarts(input, dt)) ==> dashDir == old(dashDir)
      // otherwise the creature walks, and eats, dashes and slams nothing
      ensures !old(TransformsNow(input)) && !old(boulderWinding) && !old(dashing) && !old(DashStarts(input, dt)) &&
              !old(SlamTakes(input, dt)) ==>
                pos == world.Resolve(old(pos), old(WalkDelta(input, dt, m))) && unchanged(animals) &&
                food == old(food) && !dashing && dashElapsed == old(dashElapsed) &&
                unchanged(this`slamWinding, this`slamWindElapsed, this`slamImpactPos, this`slamJustFired)
      // the stage only moves up, one step per frame at most
      ensures old(stage) <= stage <= old(stage) + 1
      ensures world.Free(old(pos)) ==> world.Free(pos)
    {
      ghost var herd0 := Herd(animals);
      Prelude(dt, input, m);
      assert Herd(animals) == herd0;
      Advance(dt, world, input, animals, m);
    }

    /**
      Whether a dash starts this frame, judged before the frame's cooldowns
      tick: no transformation takes the frame, the stage is 2 or later, the dash
      cooldown runs out this frame, no dash is under way and the dash key is down.
     */
    predicate DashStarts(input: Input, dt: real)
      reads this`transforming, this`stage, this`dashCDTimer, this`dashing
    {
      !TransformsNow(input) && stage >= 2 && Tick(dashCDTimer, dt) <= 0.0 && !dashing && input.dashKey
    }

    /** The rest of a frame after the prelude: a transformation takes the frame, otherwise the creature acts. */
    method Advance(dt: real, world: Tilemap, input: Input, animals: seq<Animal>, m: Trig)
      requires Valid() && world.Valid() && Distinct(animals)
      modifies this, animals`alive
      ensures Valid()
      // the bite effect and boulder cooldowns and the boulder direction are left alone
      ensures unchanged(this`biteFxTimer, this`boulderCDTimer, this`boulderDir)
      // a transformation under way takes the whole frame and completes after transformTime
      ensures old(transforming) ==>
                pos == old(pos) && dashing == old(dashing) && slamWinding == old(slamWinding) &&
                boulderWinding == old(boulderWinding) && unchanged(animals) &&
                transformElapsed == old(transformElapsed) + dt
      ensures old(transforming) ==>
                unchanged(this`dashDir, this`dashElapsed, this`boulderWindElapsed) &&
                unchanged(this`slamWindElapsed, this`slamImpactPos, this`slamJustFired)
      ensures old(transforming) && transformElapsed >= tune.transformTime ==>
                !transforming && stage == NextStage(old(stage)) &&
                food == FoodAfterEvolve(old(food), old(stage), tune.evolveThresholds) &&
                radius == tune.stageRadii[stage - 1] && biteRange == 24.0 + (radius - 14.0) * 1.2 &&
                maxHp == StageMaxHp(stage) && hp == Min(old(hp), maxHp)
      ensures old(transforming) && transformElapsed < tune.transformTime ==>
                transforming && stage == old(stage) && food == old(food) &&
                unchanged(this`radius, this`biteRange, this`hp, this`maxHp)
      ensures !old(transforming) ==> stage == old(stage)
      // the dash hint shows on reaching stage 2 and is otherwise left alone
      ensures old(stage) == 1 && stage == 2 ==> showDashHint && dashHintTimer == DASH_HINT_TIME
      ensures !(old(stage) == 1 && stage == 2) ==> showDashHint == old(showDashHint) && dashHintTimer == old(dashHintTimer)
      // otherwise the creature acts: a boulder wind-up takes the frame
      ensures !old(transforming) && old(boulderWinding) ==>
                pos == old(pos) && food == old(food) && unchanged(animals) &&
                boulderWindElapsed == old(boulderWindElapsed) + dt &&
                boulderWinding == (boulderWindElapsed < tune.boulderWindTime) &&
                slamWinding == old(slamWinding) && slamWindElapsed == old(slamWindElapsed) &&
                slamImpactPos == old(slamImpactPos) && slamJustFired == old(slamJustFired)
      ensures !old(boulderWinding) ==> boulderWinding == old(boulderWinding) && boulderWindElapsed == old(boulderWindElapsed)
      // a dash that starts in a wind-up or slam frame is under way with its clock at 0, and otherwise the dash is kept
      ensures !old(transforming) && (old(boulderWinding) || old(SlamWins(input))) ==>
                dashing == (old(dashing) || (old(CanDash()) && input.dashKey)) && dashElapsed == (if old(CanDash()) && input.dashKey then 0.0 else old(dashElapsed))
      // a slam that takes the frame
      ensures !old(transforming) && !old(boulderWinding) && old(SlamWins(input)) ==>
                pos == old(pos) && food == old(food) &&
                slamWindElapsed == (if old(slamWinding) then old(slamWindElapsed) else 0.0) + dt &&
                (slamWindElapsed >= tune.slamWindTime ==>
                   !slamWinding && slamCDTimer == tune.slamCooldown && slamImpactPos == pos && slamJustFired &&
                   Herd(animals) == AfterSweep(old(Herd(animals)), SlamTest())) &&
                (slamWindElapsed < tune.slamWindTime ==>
                   slamWinding && unchanged(animals) && slamImpactPos == old(slamImpactPos) &&
                   slamJustFired == old(slamJustFired))
      // a dash under way or started now
      ensures !old(transforming) && !old(boulderWinding) && !old(SlamWins(input)) &&
              (old(dashing) || (old(CanDash()) && input.dashKey)) ==>
                pos == world.Resolve(old(pos), DashDelta(dt)) &&
                Herd(animals) == AfterSweep(old(Herd(animals)), DashTest()) &&
                food == old(food) + Kills(old(Herd(animals)), DashTest()) &&
                dashElapsed == (if old(dashing) then old(dashElapsed) else 0.0) + dt &&
                (dashElapsed >= tune.dashDuration ==> !dashing && dashCDTimer == tune.dashCooldown) &&
                (dashElapsed < tune.dashDuration ==> dashing) &&
                unchanged(this`slamWinding, this`slamWindElapsed, this`slamImpactPos, this`slamJustFired)
      ensures dashing && !old(dashing) ==> !old(transforming) && old(CanDash()) && input.dashKey
      ensures !old(transforming) && old(CanDash()) && input.dashKey ==>
                dashDir == LaunchDir(input.mouseWorld, old(pos), old(angle), m)
      // or a walk
      ensures !old(transforming) && !old(boulderWinding) && !old(dashing) && !(old(CanDash()) && input.dashKey) &&
              !old(SlamWins(input)) ==>
                pos == world.Resolve(old(pos), old(WalkDelta(input, dt, m))) && unchanged(animals) &&
                food == old(food) && !dashing && dashElapsed == old(dashElapsed) &&
                unchanged(this`slamWinding, this`slamWindElapsed, this`slamImpactPos, this`slamJustFired)
      // facing: kept through a transformation, otherwise as `Act` sets it
      ensures angle ==
                (if old(transforming) then old(angle)
                 else if old(boulderWinding) then
                   (if old(CanDash()) && input.dashKey then m.atan2(dashDir.y, dashDir.x) else old(angle))
                 else if old(SlamWins(input)) then old(Facing(input, m))
                 else if old(dashing) || (old(CanDash()) && input.dashKey) then m.atan2(dashDir.y, dashDir.x)
                 else old(angle))
      // outside a transformation the body and the transformation state are left alone
      ensures !old(transforming) ==> unchanged(this`radius, this`biteRange, this`hp, this`maxHp)
      ensures !old(transforming) ==> !transforming && transformElapsed == old(transformElapsed)
      ensures !(!old(transforming) && old(CanDash()) && input.dashKey) ==> dashDir == old(dashDir)
      // the bite cooldown is kept non-negative when a dash starts; a dash that ends or a slam that lands restarts its cooldown
      ensures biteTimer ==
                (if !old(transforming) && old(CanDash()) && input.dashKey then Max(old(biteTimer), 0.0)
                 else old(biteTimer))
      ensures dashCDTimer ==
                (if (old(dashing) || (!old(transforming) && old(CanDash()) && input.dashKey)) && !dashing then tune.dashCooldown
                 else old(dashCDTimer))
      ensures slamCDTimer ==
                (if !old(transforming) && !old(boulderWinding) && old(SlamWins(input)) && !slamWinding then tune.slamCooldown
                 else old(slamCDTimer))
      ensures world.Free(old(pos)) ==> world.Free(pos)
    {
      if transforming {
        Transform(dt);
      } else {
        Act(dt, world, input, animals, m);
      }
    }

    /**
      The start of every frame: cooldowns tick, the creature faces the mouse,
      and a transformation starts when evolution is ready and asked for.
     */
    method Prelude(dt: real, input: Input, m: Trig)
      modifies this
      // position, body, food, stage and the dash, boulder and slam states are left alone
      ensures unchanged(this`pos, this`radius, this`biteRange, this`hp, this`maxHp, this`stage, this`food)
      ensures unchanged(this`dashing, this`dashDir, this`dashElapsed)
      ensures unchanged(this`boulderWinding, this`boulderWindElapsed, this`boulderDir)
      ensures unchanged(this`slamWinding, this`slamWindElapsed, this`slamImpactPos, this`slamJustFired)
      ensures biteTimer == Tick(old(biteTimer), dt) && biteFxTimer == Tick(old(biteFxTimer), dt)
      ensures dashCDTimer == Tick(old(dashCDTimer), dt) && boulderCDTimer == Tick(old(boulderCDTimer), dt)
      ensures slamCDTimer == Tick(old(slamCDTimer), dt)
      ensures dashHintTimer == (if old(showDashHint) then old(dashHintTimer) - dt else old(dashHintTimer))
      ensures showDashHint == (old(showDashHint) && old(dashHintTimer) - dt > 0.0)
      ensures angle == Facing(input, m)
      ensures transforming == old(TransformsNow(input))
      ensures !old(transforming) && transforming ==> transformElapsed == 0.0
      ensures old(transforming) || !transforming ==> transformElapsed == old(transformElapsed)
      // the kill tests and the walk step are those of the state before the tick
      ensures SlamTest() == old(SlamTest()) && DashTest() == old(DashTest())
      ensures WalkDelta(input, dt, m) == old(WalkDelta(input, dt, m))
      // the gates judged before the tick agree with the gates after it
      ensures old(DashStarts(input, dt)) == (!transforming && CanDash() && input.dashKey)
      ensures !transforming && !boulderWinding ==> (old(SlamTakes(input, dt)) <==> SlamWins(input))
      ensures dashing || (CanDash() && input.dashKey) ==> (SlamWins(input) <==> stage >= 4 && slamWinding)
    {
      TickCooldowns(dt);
      FaceAndEvolve(input, m);
    }

    /** The creature faces the mouse, and a transformation starts when evolution is ready and asked for. */
    method FaceAndEvolve(input: Input, m: Trig)
      modifies this`angle, this`transforming, this`transformElapsed
      ensures angle == Facing(input, m)
      ensures transforming == old(TransformsNow(input))
      ensures !old(transforming) && transforming ==> transformElapsed == 0.0
      ensures old(transforming) || !transforming ==> transformElapsed == old(transformElapsed)
    {
      // face the mouse
      var forward := Aim(input.mouseWorld, pos, m);
      angle := m.atan2(forward.y, forward.x);

      // evolution input
      if !transforming && input.evolveReady && input.evolveKey {
        transforming := true;
        transformElapsed := 0.0;
      }
    }

    /**
      The part of a frame outside a transformation: a dash may start, a boulder
      wind-up takes the frame, a stage-4 slam may take it, a dash moves and
      eats, and else the creature walks.
     */
    method Act(dt: real, world: Tilemap, input: Input, animals: seq<Animal>, m: Trig)
      requires world.Valid() && Distinct(animals)
      modifies this, animals`alive
      // the body, stage, transformation and the other cooldowns are left alone
      ensures unchanged(this`radius, this`biteRange, this`hp, this`maxHp, this`stage)
      ensures unchanged(this`biteFxTimer, this`boulderCDTimer, this`showDashHint, this`dashHintTimer)
      ensures unchanged(this`transforming, this`transformElapsed, this`boulderDir)
      // a dash starts only when allowed and asked for, toward the mouse
      ensures dashing && !old(dashing) ==> old(CanDash()) && input.dashKey
      ensures old(CanDash()) && input.dashKey ==> dashDir == LaunchDir(input.mouseWorld, old(pos), old(angle), m)
      ensures !(old(CanDash()) && input.dashKey) ==> dashDir == old(dashDir)
      // a boulder wind-up takes the frame: no move, no meal, no slam, only the wind-up clock runs
      ensures old(boulderWinding) ==>
                pos == old(pos) && food == old(food) && unchanged(animals) &&
                boulderWindElapsed == old(boulderWindElapsed) + dt &&
                boulderWinding == (boulderWindElapsed < tune.boulderWindTime) &&
                slamWinding == old(slamWinding) && slamWindElapsed == old(slamWindElapsed) &&
                slamImpactPos == old(slamImpactPos) && slamJustFired == old(slamJustFired)
      ensures !old(boulderWinding) ==> boulderWinding == old(boulderWinding) && boulderWindElapsed == old(boulderWindElapsed)
      // a dash that starts in a wind-up or slam frame is under way with its clock at 0, and otherwise the dash is kept
      ensures old(boulderWinding) || old(SlamWins(input)) ==>
                dashing == (old(dashing) || (old(CanDash()) && input.dashKey)) && dashElapsed == (if old(CanDash()) && input.dashKey then 0.0 else old(dashElapsed))
      // a stage-4 slam takes the frame when it is winding up already, or starts now and no dash starts first
      ensures !old(boulderWinding) && old(SlamWins(input)) ==>
                pos == old(pos) && food == old(food) &&
                slamWindElapsed == (if old(slamWinding) then old(slamWindElapsed) else 0.0) + dt &&
                (slamWindElapsed >= tune.slamWindTime ==>
                   !slamWinding && slamCDTimer == tune.slamCooldown && slamImpactPos == pos && slamJustFired &&
                   Herd(animals) == AfterSweep(old(Herd(animals)), SlamTest())) &&
                (slamWindElapsed < tune.slamWindTime ==>
                   slamWinding && unchanged(animals) && slamImpactPos == old(slamImpactPos) &&
                   slamJustFired == old(slamJustFired))
      // a dash under way or started now moves, eats at the new position and runs the dash clock
      ensures !old(boulderWinding) && !old(SlamWins(input)) && (old(dashing) || (old(CanDash()) && input.dashKey)) ==>
                pos == world.Resolve(old(pos), DashDelta(dt)) &&
                Herd(animals) == AfterSweep(old(Herd(animals)), DashTest()) &&
                food == old(food) + Kills(old(Herd(animals)), DashTest()) &&
                dashElapsed == (if old(dashing) then old(dashElapsed) else 0.0) + dt &&
                (dashElapsed >= tune.dashDuration ==> !dashing && dashCDTimer == tune.dashCooldown) &&
                (dashElapsed < tune.dashDuration ==> dashing) &&
                unchanged(this`slamWinding, this`slamWindElapsed, this`slamImpactPos, this`slamJustFired)
      // otherwise the creature walks, and eats, dashes and slams nothing
      ensures !old(boulderWinding) && !old(dashing) && !(old(CanDash()) && input.dashKey) && !old(SlamWins(input)) ==>
                pos == world.Resolve(old(pos), old(WalkDelta(input, dt, m))) && unchanged(animals) &&
                food == old(food) && !dashing && dashElapsed == old(dashElapsed) &&
                unchanged(this`slamWinding, this`slamWindElapsed, this`slamImpactPos, this`slamJustFired)
      // facing: along a dash that starts or is under way, toward the mouse while a slam holds the frame
      ensures angle ==
                (if old(boulderWinding) then
                   (if old(CanDash()) && input.dashKey then m.atan2(dashDir.y, dashDir.x) else old(angle))
                 else if old(SlamWins(input)) then old(Facing(input, m))
                 else if old(dashing) || (old(CanDash()) && input.dashKey) then m.atan2(dashDir.y, dashDir.x)
                 else old(angle))
      // the bite cooldown is kept non-negative when a dash starts; a dash that ends or a slam that lands restarts its cooldown
      ensures biteTimer == (if old(CanDash()) && input.dashKey then Max(old(biteTimer), 0.0) else old(biteTimer))
      ensures dashCDTimer ==
                (if (old(dashing) || (old(CanDash()) && input.dashKey)) && !dashing then tune.dashCooldown
                 else old(dashCDTimer))
      ensures slamCDTimer ==
                (if !old(boulderWinding) && old(SlamWins(input)) && !slamWinding then tune.slamCooldown
                 else old(slamCDTimer))
      ensures world.Free(old(pos)) ==> world.Free(pos)
    {
      ghost var herd0 := Herd(animals);
      ghost var slams := SlamWins(input);
      StartDash(input, m);
      assert Herd(animals) == herd0;
      assert !boulderWinding ==> SlamHolds(input) == slams;
      Steer(dt, world, input, animals, m);
    }

    /** After the dash check: a boulder wind-up locks the creature for the frame, otherwise it engages. */
    method Steer(dt: real, world: Tilemap, input: Input, animals: seq<Animal>, m: Trig)
      requires world.Valid() && Distinct(animals)
      modifies this, animals`alive
      // the body, stage, transformation, directions and the other cooldowns are left alone
      ensures unchanged(this`radius, this`biteRange, this`hp, this`maxHp, this`stage)
      ensures unchanged(this`biteTimer, this`biteFxTimer, this`boulderCDTimer, this`showDashHint, this`dashHintTimer)
      ensures unchanged(this`transforming, this`transformElapsed, this`dashDir, this`boulderDir)
      ensures dashing ==> old(dashing)
      // a boulder wind-up takes the frame: only its clock runs
      ensures old(boulderWinding) ==>
                pos == old(pos) && food == old(food) && unchanged(animals) &&
                boulderWindElapsed == old(boulderWindElapsed) + dt &&
                boulderWinding == (boulderWindElapsed < tune.boulderWindTime) &&
                unchanged(this`dashing, this`dashElapsed, this`dashCDTimer) &&
                unchanged(this`slamWinding, this`slamWindElapsed, this`slamCDTimer, this`slamImpactPos, this`slamJustFired)
      ensures !old(boulderWinding) ==> boulderWinding == old(boulderWinding) && boulderWindElapsed == old(boulderWindElapsed)
      // a slam that holds the frame winds up in place and, once the wind-up is over, lands
      ensures !old(boulderWinding) && old(SlamHolds(input)) ==>
                pos == old(pos) && food == old(food) &&
                slamWindElapsed == (if old(slamWinding) then old(slamWindElapsed) else 0.0) + dt &&
                (slamWindElapsed >= tune.slamWindTime ==>
                   !slamWinding && slamCDTimer == tune.slamCooldown && slamImpactPos == pos && slamJustFired &&
                   Herd(animals) == AfterSweep(old(Herd(animals)), SlamTest())) &&
                (slamWindElapsed < tune.slamWindTime ==>
                   slamWinding && unchanged(animals) && slamImpactPos == old(slamImpactPos) &&
                   slamJustFired == old(slamJustFired))
      ensures !old(boulderWinding) && old(SlamHolds(input)) ==> dashing == old(dashing) && dashElapsed == old(dashElapsed)
      // a dash frame moves, eats at the new position and runs the dash clock
      ensures !old(boulderWinding) && !old(SlamHolds(input)) && old(dashing) ==>
                pos == world.Resolve(old(pos), DashDelta(dt)) &&
                Herd(animals) == AfterSweep(old(Herd(animals)), DashTest()) &&
                food == old(food) + Kills(old(Herd(animals)), DashTest()) &&
                dashElapsed == old(dashElapsed) + dt &&
                (dashElapsed >= tune.dashDuration ==> !dashing && dashCDTimer == tune.dashCooldown) &&
                (dashElapsed < tune.dashDuration ==> dashing) &&
                unchanged(this`slamWinding, this`slamWindElapsed, this`slamImpactPos, this`slamJustFired)
      // otherwise the creature walks
      ensures !old(boulderWinding) && !old(SlamHolds(input)) && !old(dashing) ==>
                pos == world.Resolve(old(pos), old(WalkDelta(input, dt, m))) && unchanged(animals) &&
                food == old(food) && dashElapsed == old(dashElapsed) &&
                unchanged(this`slamWinding, this`slamWindElapsed, this`slamImpactPos, this`slamJustFired)
      // facing: kept through a wind-up, toward the mouse while a slam holds the frame, along a dash under way
      ensures angle ==
                (if old(boulderWinding) then old(angle)
                 else if old(SlamHolds(input)) then old(Facing(input, m))
                 else if old(dashing) then m.atan2(dashDir.y, dashDir.x)
                 else old(angle))
      // the dash and slam cooldowns restart exactly when a dash ends or a slam lands
      ensures dashCDTimer == (if old(dashing) && !dashing then tune.dashCooldown else old(dashCDTimer))
      ensures slamCDTimer ==
                (if !old(boulderWinding) && old(SlamHolds(input)) && !slamWinding then tune.slamCooldown
                 else old(slamCDTimer))
      ensures world.Free(old(pos)) ==> world.Free(pos)
    {
      if boulderWinding {
        WindBoulder(dt);
      } else {
        Engage(dt, world, input, animals, m);
      }
    }

    /**
      Whether a stage-4 slam takes a frame that is neither a transformation nor
      a boulder wind-up, judged after the frame's cooldowns tick and before a
      dash may start: it is winding up already, or it may start, the slam key
      is down and no dash starts first.
     */
    predicate SlamWins(input: Input)
      reads this`stage, this`slamWinding, this`slamCDTimer, this`dashCDTimer, this`dashing
      reads this`boulderWinding, this`transforming
    {
      stage >= 4 && (slamWinding || (CanSlam() && input.slamKey && !(CanDash() && input.dashKey)))
    }

    /**
      Whether a stage-4 slam takes a frame that is neither a transformation nor
      a boulder wind-up, judged before the frame's cooldowns tick: it is
      winding up already, or its cooldown runs out this frame, no dash is
      under way or starts this frame, and the slam key is down.
     */
    predicate SlamTakes(input: Input, dt: real)
      reads this`stage, this`slamWinding, this`slamCDTimer, this`dashing, this`dashCDTimer
    {
      stage >= 4 &&
      (slamWinding ||
       (Tick(slamCDTimer, dt) <= 0.0 && !dashing && input.slamKey &&
        !(Tick(dashCDTimer, dt) <= 0.0 && input.dashKey)))
    }

    /** Whether a stage-4 slam takes this frame: it is winding up already, or starts now. */
    predicate SlamHolds(input: Input)
      reads this`stage, this`slamWinding, this`slamCDTimer, this`dashing, this`boulderWinding, this`transforming
    {
      stage >= 4 && (slamWinding || (CanSlam() && input.slamKey))
    }

    /** After the dash and wind-up checks: a stage-4 slam may take the frame, a dash moves and eats, else the creature walks. */
    method Engage(dt: real, world: Tilemap, input: Input, animals: seq<Animal>, m: Trig)
      requires world.Valid() && Distinct(animals)
      modifies this, animals`alive
      // the body, stage, transformation, boulder and the other cooldowns are left alone
      ensures unchanged(this`radius, this`biteRange, this`hp, this`maxHp, this`stage)
      ensures unchanged(this`biteTimer, this`biteFxTimer, this`boulderCDTimer, this`showDashHint, this`dashHintTimer)
      ensures unchanged(this`transforming, this`transformElapsed, this`dashDir)
      ensures unchanged(this`boulderWinding, this`boulderWindElapsed, this`boulderDir)
      ensures dashing ==> old(dashing)
      // a slam that holds the frame winds up in place and, once the wind-up is over, lands
      ensures old(SlamHolds(input)) ==>
                pos == old(pos) && food == old(food) && dashing == old(dashing) && dashElapsed == old(dashElapsed) &&
                slamWindElapsed == (if old(slamWinding) then old(slamWindElapsed) else 0.0) + dt
      ensures old(SlamHolds(input)) && slamWindElapsed >= tune.slamWindTime ==>
                !slamWinding && slamCDTimer == tune.slamCooldown && slamImpactPos == pos && slamJustFired &&
                Herd(animals) == AfterSweep(old(Herd(animals)), SlamTest())
      ensures old(SlamHolds(input)) && slamWindElapsed < tune.slamWindTime ==>
                slamWinding && unchanged(animals) && slamImpactPos == old(slamImpactPos) &&
                slamJustFired == old(slamJustFired)
      // a dash frame moves, eats at the new position and runs the dash clock
      ensures !old(SlamHolds(input)) && old(dashing) ==>
                pos == world.Resolve(old(pos), old(DashDelta(dt))) &&
                Herd(animals) == AfterSweep(old(Herd(animals)), DashTest()) &&
                food == old(food) + Kills(old(Herd(animals)), DashTest()) &&
                dashElapsed == old(dashElapsed) + dt &&
                (dashElapsed >= tune.dashDuration ==> !dashing && dashCDTimer == tune.dashCooldown) &&
                (dashElapsed < tune.dashDuration ==> dashing)
      // otherwise the creature walks
      ensures !old(SlamHolds(input)) && !old(dashing) ==>
                pos == world.Resolve(old(pos), old(WalkDelta(input, dt, m))) && unchanged(animals) &&
                food == old(food) && dashElapsed == old(dashElapsed)
      ensures !old(SlamHolds(input)) ==>
                unchanged(this`slamWinding, this`slamWindElapsed, this`slamImpactPos, this`slamJustFired)
      // facing: toward the mouse while a slam holds the frame, along a dash under way, else as it was
      ensures angle ==
                (if old(SlamHolds(input)) then old(Facing(input, m))
                 else if old(dashing) then m.atan2(dashDir.y, dashDir.x)
                 else old(angle))
      // the dash and slam cooldowns restart exactly when a dash ends or a slam lands
      ensures dashCDTimer == (if old(dashing) && !dashing then tune.dashCooldown else old(dashCDTimer))
      ensures slamCDTimer == (if old(SlamHolds(input)) && !slamWinding then tune.slamCooldown else old(slamCDTimer))
      ensures world.Free(old(pos)) ==> world.Free(pos)
    {
      if stage >= 4 {
        var held := Slam(dt, input, animals, m);
        if held {
          return;
        }
      }

      Travel(dt, world, input, animals, m);
    }

    /** The moving half of a frame that no slam holds: a dash frame while dashing, otherwise a walk. */
    method Travel(dt: real, world: Tilemap, input: Input, animals: seq<Animal>, m: Trig)
      requires world.Valid() && Distinct(animals)
      modifies this, animals`alive
      // only the position, facing, food and the dash clock change
      ensures unchanged(this`radius, this`biteRange, this`hp, this`maxHp, this`stage)
      ensures unchanged(this`biteTimer, this`biteFxTimer, this`boulderCDTimer, this`showDashHint, this`dashHintTimer)
      ensures unchanged(this`transforming, this`transformElapsed, this`dashDir)
      ensures unchanged(this`boulderWinding, this`boulderWindElapsed, this`boulderDir)
      ensures unchanged(this`slamWinding, this`slamWindElapsed, this`slamCDTimer, this`slamImpactPos, this`slamJustFired)
      ensures dashing ==> old(dashing)
      ensures old(dashing) ==>
                pos == world.Resolve(old(pos), old(DashDelta(dt))) &&
                Herd(animals) == AfterSweep(old(Herd(animals)), DashTest()) &&
                food == old(food) + Kills(old(Herd(animals)), DashTest()) &&
                dashElapsed == old(dashElapsed) + dt &&
                (dashElapsed >= tune.dashDuration ==> !dashing && dashCDTimer == tune.dashCooldown) &&
                (dashElapsed < tune.dashDuration ==> dashing)
      ensures !old(dashing) ==>
                pos == world.Resolve(old(pos), old(WalkDelta(input, dt, m))) && unchanged(animals) &&
                food == old(food) && angle == old(angle) && dashElapsed == old(dashElapsed)
      ensures old(dashing) ==> angle == m.atan2(dashDir.y, dashDir.x)
      // the dash cooldown restarts exactly when a dash ends
      ensures dashCDTimer == (if old(dashing) && !dashing then tune.dashCooldown else old(dashCDTimer))
      ensures world.Free(old(pos)) ==> world.Free(pos)
    {
      if dashing {
        Dash(dt, world, animals, m);
        return;
      }

      Walk(dt, world, input, m);
    }

    /** The walking displacement of a frame: from the keys, along the aim toward the mouse. */
    function WalkDelta(input: Input, dt: real, m: Trig): Vec
      reads this`pos
    {
      WalkStep(Aim(input.mouseWorld, pos, m), input, WALK_SPEED, dt, m)
    }

    /** A walking frame: the key-driven displacement through the grid's collision. */
    method Walk(dt: real, world: Tilemap, input: Input, m: Trig)
      requires world.Valid()
      modifies this`pos
      ensures pos == world.Resolve(old(pos), old(WalkDelta(input, dt, m)))
      ensures world.Free(old(pos)) ==> world.Free(pos)
    {
      pos := world.ResolveCollision(pos, radius, WalkDelta(input, dt, m));
    }

    /**
      The bite. Nothing happens without a click, while dashing, transforming
      or winding a boulder, or while the bite cools down. Otherwise the bite
      cooldown restarts, the bite arc shows, and every live animal within
      biteRange plus its radius and inside the bite arc is eaten: one food
      and ten health each.
     */
    method TryBite(input: Input, animals: seq<Animal>, m: Trig) returns (eaten: nat)
      requires Distinct(animals)
      modifies this`biteTimer, this`biteFxTimer, this`hp, this`food, animals`alive
      ensures var gate := input.biteClick && !dashing && !transforming && !boulderWinding && old(biteTimer) <= 0.0;
              && (!gate ==>
                    eaten == 0 && biteTimer == old(biteTimer) && biteFxTimer == old(biteFxTimer) &&
                    hp == old(hp) && food == old(food) && unchanged(animals))
              && (gate ==>
                    var hit := BiteTest(m);
                    && biteTimer == tune.biteCooldown && biteFxTimer == BITE_FX_TIME
                    && Herd(animals) == AfterSweep(old(Herd(animals)), hit)
                    && eaten == Kills(old(Herd(animals)), hit)
                    && food == old(food) + eaten && hp == old(hp) + BITE_HEAL * eaten as real)
    {
      if !input.biteClick {
        return 0;
      }
      if dashing || transforming || boulderWinding {
        return 0;
      }
      if biteTimer > 0.0 {
        return 0;
      }

      eaten := Chomp(animals, m);
    }

    /** The bite test of the current pose: in range and inside the bite arc around the facing. */
    function BiteTest(m: Trig): (Vec, real) -> bool
      reads this`pos, this`angle, this`biteRange
    {
      InBite(pos, Heading(m, angle), biteRange, m.cos(tune.biteArcDeg * 0.5 * (PI / 180.0)), m)
    }

    /** A bite that passed its gate: cooldown and arc restart, and every animal the bite test catches is eaten. */
    method Chomp(animals: seq<Animal>, m: Trig) returns (eaten: nat)
      requires Distinct(animals)
      modifies this`biteTimer, this`biteFxTimer, this`hp, this`food, animals`alive
      ensures biteTimer == tune.biteCooldown && biteFxTimer == BITE_FX_TIME
      ensures Herd(animals) == AfterSweep(old(Herd(animals)), BiteTest(m))
      ensures eaten == Kills(old(Herd(animals)), BiteTest(m))
      ensures food == old(food) + eaten && hp == old(hp) + BITE_HEAL * eaten as real
    {
      ghost var h0 := Herd(animals);
      biteTimer := tune.biteCooldown;
      biteFxTimer := BITE_FX_TIME;
      assert Herd(animals) == h0;

      eaten := Sweep(animals, BiteTest(m));
      ghost var h1 := Herd(animals);
      hp := hp + BITE_HEAL * eaten as real;

      if eaten > 0 {
        food := food + eaten;
        biteTimer := tune.biteCooldown;
      } else {
        // a miss costs the same cooldown
        biteTimer := tune.biteCooldown;
      }
      assert Herd(animals) == h1;
    }

    /**
      The boulder throw, from stage 3, never while transforming or dashing. A
      right click with the boulder cooldown run out starts a wind-up toward the
      mouse and throws nothing. During a wind-up the elapsed time grows by the
      frame time and the boulder is thrown when it exceeds minus
      boulderWindTime, as the source writes it: just ahead of the creature,
      along the wind-up direction, after which the boulder cooldown starts.
     */
    method TryFireBoulder(input: Input, frameTime: real, pool: seq<Boulder>, m: Trig)
      returns (thrown: bool, pool': seq<Boulder>)
      modifies this`boulderDir, this`boulderWinding, this`boulderWindElapsed, this`angle, this`boulderCDTimer
      ensures !thrown ==> pool' == pool
      ensures thrown ==>
                pool' == pool + [Boulder(pos.Plus(old(boulderDir).Scale(radius + tune.boulderRadius + 4.0)),
                                         old(boulderDir).Scale(tune.boulderSpeed), tune.boulderRadius, 2.0, true)]
      ensures thrown <==>
                stage >= 3 && !transforming && !dashing &&
                !(!old(boulderWinding) && old(boulderCDTimer) <= 0.0 && input.throwClick) &&
                old(boulderWinding) && old(boulderWindElapsed) + frameTime > -tune.boulderWindTime
      ensures thrown ==> !boulderWinding && boulderCDTimer == tune.boulderCooldown
      // as written, any wind-up throws on its next call once the frame time is positive
      ensures (stage >= 3 && !transforming && !dashing && old(boulderWinding) && old(boulderWindElapsed) >= 0.0 &&
               frameTime > 0.0 && tune.boulderWindTime >= 0.0) ==> thrown
      ensures stage >= 3 && !transforming && !dashing && !old(boulderWinding) && old(boulderCDTimer) <= 0.0 &&
              input.throwClick ==>
                boulderWinding && boulderWindElapsed == 0.0 &&
                boulderDir == LaunchDir(input.mouseWorld, pos, old(angle), m) &&
                angle == m.atan2(boulderDir.y, boulderDir.x)
      // below stage 3, while transforming or dashing, or with no wind-up to start or run, nothing changes
      ensures stage < 3 || transforming || dashing ==>
                unchanged(this`boulderDir, this`boulderWinding, this`boulderWindElapsed, this`angle, this`boulderCDTimer)
      ensures stage >= 3 && !transforming && !dashing && !old(boulderWinding) &&
              !(old(boulderCDTimer) <= 0.0 && input.throwClick) ==>
                unchanged(this`boulderDir, this`boulderWinding, this`boulderWindElapsed, this`angle, this`boulderCDTimer)
      // a wind-up under way runs its clock by the frame time and keeps its direction and the facing
      ensures stage >= 3 && !transforming && !dashing && old(boulderWinding) ==>
                boulderWindElapsed == old(boulderWindElapsed) + frameTime && boulderWinding == !thrown &&
                unchanged(this`boulderDir, this`angle)
      ensures !thrown ==> boulderCDTimer == old(boulderCDTimer)
    {
      pool' := pool;
      if stage < 3 {
        return false, pool';
      }
      if transforming || dashing {
        return false, pool';
      }

      if !boulderWinding && boulderCDTimer <= 0.0 && input.throwClick {
        boulderDir := LaunchDir(input.mouseWorld, pos, angle, m);
        boulderWinding := true;
        boulderWindElapsed := 0.0;
        angle := m.atan2(boulderDir.y, boulderDir.x);
        // nothing thrown yet
        return false, pool';
      }

      if boulderWinding {
        boulderWindElapsed := boulderWindElapsed + frameTime;
        if boulderWindElapsed > -tune.boulderWindTime {
          var b := Boulder(pos.Plus(boulderDir.Scale(radius + tune.boulderRadius + 4.0)),
                           boulderDir.Scale(tune.boulderSpeed), tune.boulderRadius, 2.0, true);
          pool' := pool + [b];
          boulderWinding := false;
          boulderCDTimer := tune.boulderCooldown;
          return true, pool';
        }
      }
      return false, pool';
    }
  }

}
