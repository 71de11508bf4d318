# A Dafny model of the COMP3016 top-down survival game core

The game is a top-down 2-D arena on a 100 x 100 grid of 32-pixel tiles. The
player is a creature that eats wandering animals and grows through four
evolution stages. Each stage unlocks a move: a dash at stage 2, a thrown
boulder at stage 3 and a ground slam at stage 4. Squads of hunters patrol the
map, share sightings of the player, and kite and strafe around it while firing
bursts of bullets.

This project models one simulation frame of each of these entities and proves
what a frame guarantees.

| file | module | models |
|---|---|---|
| `geometry.dfy` | `Geometry` | raylib's `Vector2` arithmetic; the C++ `(int)` cast and `%`; `clampf`; count-down timers |
| `tilemap.dfy` | `Tiles` | `Tilemap`: the grid, random map generation, wall lookup and move-or-stay collision |
| `combat.dfy` | `Combat` | `Bullet`: sub-stepped flight that dies on the first wall contact |
| `angles.dfy` | `Angles` | `wrapPi` and `rotateTowards` from the hunter code |
| `hunter.dfy` | `Hunters` | `SquadIntel`, `Hunter` (sensing, state machine, pathing, kiting, knockback, burst fire) and the friendly-fire check |
| `animal.dfy` | `Animals` | `Animal`: random size and speed, roaming around a home point, seeking and wall bounce |
| `player.dfy` | `Players` | `Player`: cooldowns, evolution, dash, boulder, slam, bite, and the herd of animals it eats |

## Modelling choices

- **Floats and library calls:**
  - `float` is `real`.
  - `sqrtf`, `cosf`, `sinf` and `atan2f` are fields of a `Trig` value and stay uninterpreted. Every contract that involves them is stated in terms of them.
- **Random draws:** each `GetRandomValue` draw is a parameter. The `SpawnDraws`, `RetargetDraws` and `PatrolDraws` datatypes group them, and each has an `InRange` predicate for the ranges raylib promises.
  - Contracts that depend on those ranges are stated under `InRange()`.
  - Map generation takes its draws as a function from draw number to value.
- **Keyboard and mouse:** an `Input` value carries them, with the mouse already in world coordinates.
- **Services the core only calls:**
  - path finding and line of sight are the `Nav` parameter;
  - circle-versus-rectangle collision is a `collide` parameter;
  - `GetTime` is a `clock` parameter.
- **Objects updated in place:**
  - `Tilemap`, `Bullet`, `Hunter`, `SquadIntel`, `Animal` and `Player` are classes.
  - Their update methods name the fields they change. Where a player method's frame is the whole object, its contract lists, with `unchanged`, every field it always leaves alone; the fields it changes are stated case by case.
  - The animal vector is a sequence of `Animal` objects whose `alive` fields the player's attacks clear.
- **Player tunables:** the values the player code reads (stage radii, evolve thresholds, dash, boulder, slam and bite tunables) are a `Tuning` value fixed at construction.
- **Hunter tunables:** the knockback and kiting tunables are hunter constructor parameters. Every hunter field the code never assigns after construction (speed, turn rate, ranges, cooldowns and the like) is a `const`.

The hunter and player headers do not declare every field their `.cpp` files use. The model follows the fields the code reads and writes.

## Model

| member | source | states |
|---|---|---|
| Geometry.Trunc | src/Tilemap.cpp:57-58 | the `(int)` cast truncates toward zero: for non-negative x it is the floor, for negative x the ceiling |
| Geometry.CRem | src/Hunter.cpp:218-221 | C++ `%` takes the sign of the dividend, its magnitude is below the divisor, and it differs from the dividend by a multiple of the divisor |
| Geometry.Clampf | src/Animal.cpp:5 | the result lies in [lo, hi]; inside that range it is v, below it it is lo, above it it is hi |
| Tiles.DrawIndexInjective | src/Tilemap.cpp:6-17 | every interior cell consumes its own random draw, and the draw numbers lie below 98 x 98 |
| Tiles.TileCoordNearZero | src/Tilemap.cpp:57-58 | truncation maps all of (-32, 32) to tile 0, so a position just left of or above the map counts as tile 0 |
| Tiles.Tilemap.constructor | src/Tilemap.hpp:7-17 | a 100 x 100 grid, all floor |
| Tiles.Tilemap.IsWall | src/Tilemap.cpp:24-29 | out-of-bounds tiles are walls; an in-bounds tile is a wall exactly when its cell holds 1 |
| Tiles.Tilemap.LoadExampleMap | src/Tilemap.cpp:4-22 | after generation the border is all walls and every cell is 0 or 1; an interior cell is a wall exactly when its own draw is below 10 |
| Tiles.Tilemap.Resolve | src/Tilemap.cpp:52-64 | a move is taken whole or not at all; it is taken exactly when the destination's tile is not a wall |
| Tiles.Tilemap.ResolveCollision | src/Tilemap.cpp:52-64 | the method computes `Resolve`; an entity standing on floor is still on floor afterwards |
| Tiles.ResolveKeepsFloor | src/Tilemap.cpp:52-64 | collision resolution never moves a body from a floor tile into a wall |
| Combat.HitsWall | src/Combat.cpp:18-37 | the tile scan reports a hit exactly when some wall tile in the bounding span of the circle collides with it |
| Combat.Bullet.constructor | src/Combat.hpp:10-17 | the defaults: radius 4, damage 12, hunter team, alive |
| Combat.Bullet.Update | src/Combat.cpp:4-39 | a dead bullet stays put; velocity, radius, damage and team never change; a live bullet moves in two half-steps and dies at the first half-step that touches a wall; a bullet that survives has moved by velocity x dt |
| Angles.WrappedInRange | src/Hunter.cpp:12-19 | the wrapped angle lies in (-PI, PI] |
| Angles.WrappedUnique | src/Hunter.cpp:12-19 | the wrapped angle is the only value in (-PI, PI] that differs from the input by whole turns |
| Angles.WrappedShift | src/Hunter.cpp:12-19 | adding whole turns does not change the wrapped angle |
| Angles.WrapPi | src/Hunter.cpp:12-19 | the two loops end with the angle in (-PI, PI], equal to the input up to whole turns |
| Angles.TurnStep | src/Hunter.cpp:24-26 | the clamped turn lies in [-maxStep, maxStep] and on the same side of zero as the difference, no further than it; it is the difference within reach and exactly ±maxStep beyond it |
| Angles.TurnedReachesTarget | src/Hunter.cpp:20-28 | a target within one step is reached exactly, up to wrapping |
| Angles.RotateTowards | src/Hunter.cpp:20-28 | the result is wrapped and is the current angle turned toward the target by the wrapped difference clamped to maxStep: within reach it lands exactly on the wrapped target, beyond reach it turns by exactly maxStep in the target's direction |
| Hunters.SquadIntel.constructor | src/Hunter.hpp:8-12 | a fresh squad has no lead: spot at the origin, time to live 0 |
| Hunters.SegDist2 | src/Hunter.cpp:353-364 | the point-to-segment distance is never negative, and a segment shorter than the epsilon measures the distance to its start point |
| Hunters.SegDist2Minimal | src/Hunter.cpp:352-364 | the clamped projection gives the distance to the closest point of the segment: no point of the segment is closer |
| Hunters.ClampedParameterMinimal | src/Hunter.cpp:359-360 | clamping the projection parameter to [0, 1] minimises the squared distance over the segment |
| Hunters.QuadraticAlongSegment | src/Hunter.cpp:361-363 | the squared distance along the segment is a quadratic in the parameter |
| Hunters.BurstStep | src/Hunter.cpp:423-433 | burstLeft stays in [0, burstSize); the long cooldown follows exactly the last shot of a burst, which leaves burstLeft at 0 |
| Hunters.BurstDrains | src/Hunter.cpp:423-433 | with `left` shots remaining, the next `left` shots take short cooldowns until the last one, which takes the long cooldown |
| Hunters.BurstCycle | src/Hunter.cpp:423-433 | from an empty burst, every full burst ends with exactly one long cooldown |
| Hunters.BurstOfOne | src/Hunter.cpp:423-433 | with burstSize 1 the long cooldown never applies |
| Hunters.ScaleShrinks | src/Hunter.cpp:242-243 | scaling by a factor in [0, 1] never lengthens a vector |
| Hunters.Steering | src/Hunter.cpp:239-257 | the steering direction keeps the way of the intent plus knockback over max(speed, 1): parallel to it and never against it, and a push too short to normalise is kept as it is, quartered while stunned |
| Hunters.DecayShrinks | src/Hunter.cpp:242-243 | knockback friction never increases the knockback velocity, and stops it dead once friction x dt reaches 1 |
| Hunters.Hunter.constructor | src/Hunter.hpp:24-73 | the declared defaults: patrol state, 120 hp, burst size 3, empty path, shoot, memory, repath and retarget timers 0; the tunables as given; a zero hit flash, hit stun and knockback velocity are assumed initial values |
| Hunters.Hunter.IsAlive | src/Hunter.hpp:32 | a hunter is alive exactly while its hp is positive |
| Hunters.Hunter.TakeDamage | src/Hunter.hpp:33-38 | hp becomes max(hp - dmg, 0); damage never raises hp; lethal damage leaves the hunter dead |
| Hunters.Hunter.RequestPathTo | src/Hunter.cpp:47-51 | the path is the path finder's answer from the current position, restarted at index 0 |
| Hunters.Hunter.PickNewPatrolTarget | src/Hunter.cpp:37-45 | re-paths toward a point drawn around home; the retarget timer is draw/60, which is 2 to 4 seconds for in-range draws |
| Hunters.Hunter.SpawnAt | src/Hunter.cpp:30-35 | the hunter stands at, and patrols around, the spawn point, with a patrol path from there |
| Hunters.Hunter.FaceToward | src/Hunter.cpp:164-170 | facing is unchanged for a negligible aim; otherwise it turns toward the aim's direction by the `rotateTowards` rule: by at most turnRate x dt, never past the target, exactly onto it within reach and by exactly turnRate x dt beyond it, and stays wrapped |
| Hunters.Hunter.FollowPath | src/Hunter.cpp:53-77 | a finished path does nothing; a waypoint within 6 px advances the index without moving or turning; otherwise the hunter turns toward the waypoint by the `rotateTowards` rule and takes one collision-resolved step of speed x dt toward it; floor is preserved |
| Hunters.Hunter.TickTimers | src/Hunter.cpp:81-87 | the flash, stun and memory timers count down only while positive, so a positive memory strictly shrinks |
| Hunters.Hunter.Sense | src/Hunter.cpp:90-99 | the player is seen exactly when within sight range, inside the view cone and in line of sight |
| Hunters.Hunter.ShareIntel | src/Hunter.cpp:101-108 | a sighting records the last seen spot, refills memory, and posts the spot to the squad for 2.5 s; without one nothing changes |
| Hunters.Hunter.Transition | src/Hunter.cpp:123-147 | the state follows the patrol, chase and search table; entering chase re-paths to the player; shared intel pulls a patroller toward the posted spot |
| Hunters.Hunter.Repath | src/Hunter.cpp:184-201 | the repath timer reloads when due, and then the path targets the player, the squad spot or the last seen spot, in that priority |
| Hunters.Hunter.PatrolClock | src/Hunter.cpp:228-237 | a patroller whose retarget timer runs out picks a new patrol target; otherwise the timer only counts down |
| Hunters.Hunter.Move | src/Hunter.cpp:239-279 | knockback decays by friction; a hunter that sees the player takes one collision-resolved steering step without touching its path or facing, otherwise it takes exactly one `FollowPath` step; floor is preserved |
| Hunters.Hunter.Decide | src/Hunter.cpp:101-147 | the shared and personal intel flags as the frame computes them, the state transition they cause, the re-plan to the player on entering chase and to the squad spot when a patroller starts searching; otherwise the path is kept |
| Hunters.Hunter.Orient | src/Hunter.cpp:162-182 | facing turns toward the player if seen, else the squad spot if posted, else the last sighting if remembered, else the next waypoint, else stays; it stays wrapped |
| Hunters.Hunter.Settle | src/Hunter.cpp:282-298 | a searcher that reaches the squad spot clears it; a chaser far beyond its chase range with no intel falls back to patrol with an immediate retarget |
| Hunters.NextState | src/Hunter.cpp:123-147 | a sighting means chase; without one no hunter enters chase, shared intel turns exactly a patrolling hunter into a searching one, memory alone keeps the state, and no knowledge at all means patrol |
| Hunters.GiveUpUnreachable | src/Hunter.cpp:294-298 | the give-up branch never fires after the transition table: a hunter left in chase always has shared or personal intel, because a sighting posts the squad spot |
| Hunters.OrientToWrapped | src/Hunter.cpp:162-182 | the facing rule either leaves the facing alone or yields a wrapped angle |
| Hunters.UnseenReplan | src/Hunter.cpp:123-237 | without a sighting, the transition's re-plan followed by the repath and patrol clocks targets the squad spot, the last sighting or a new patrol goal in that order of precedence, and otherwise keeps the path |
| Hunters.Hunter.Perceive | src/Hunter.cpp:81-147 | timers, sensing, intel sharing, the state transition and the transition's re-plans (to the player on entering chase, to the squad spot when a patroller starts searching) of one frame, composed |
| Hunters.Hunter.Think | src/Hunter.cpp:81-237 | everything before the move: when the player is seen, chase and the kiting step; without a sighting the path is re-planned toward the squad spot, the last sighting or a new patrol goal as the transition and the repath and retarget clocks decide, else kept; facing follows the `Orient` priority |
| Hunters.Hunter.Plan | src/Hunter.cpp:162-237 | facing by the `Orient` priority; the repath clock re-plans toward the player, the squad spot or the last sighting; a sighted player yields chase and the kiting step; otherwise the patrol clock runs and may re-plan toward a new patrol goal |
| Hunters.Hunter.Intend | src/Hunter.cpp:206-237 | a sighted player puts the hunter in chase with the kiting intent; otherwise only the patrol clock changes anything |
| Hunters.Hunter.Update | src/Hunter.cpp:79-299 | one frame: timers tick; a seen player means chase state and a collision-resolved kiting step; without a sighting the path is re-planned toward the squad spot, the last sighting or a new patrol goal as the transition and clocks decide, and the hunter then takes one `FollowPath` step along it; facing follows the `Orient` priority; knockback decays; floor is preserved |
| Hunters.Hunter.RangedIntent | src/Hunter.cpp:206-225 | backing away and closing in keep the aim's length, and strafing scales it by strafeSpeed / max(speed, 1) |
| Hunters.RangedIntentRadial | src/Hunter.cpp:206-227 | the kiting intent backs away inside minRange, closes in beyond 1.2 x preferredRange, and strafes with no radial component in between |
| Hunters.Hunter.TryShoot | src/Hunter.cpp:381-435 | a shot is fired exactly when the gates pass and no live squad mate is near the line of fire; a blocked shot holds fire briefly; a fired shot appends one fresh bullet and advances the burst |
| Hunters.Hunter.CheckReady | src/Hunter.cpp:385-404 | the shoot timer counts down, and readiness is decided by stun, cooldown, range, facing and line of sight |
| Hunters.Hunter.Fire | src/Hunter.cpp:406-434 | fires exactly when no squad mate is in the line of fire, else holds fire for 0.1 s; a fired bullet is a live 12-damage hunter bullet placed radius + 6 ahead along the facing and flying toward the player at 700 px/s; the burst advances |
| Hunters.Hunter.ApplyHit | src/Hunter.cpp:437-456 | damage clamps hp at 0, the flash and stun timers restart, and knockback is pushed away from the source |
| Hunters.HasFriendlyInLine | src/Hunter.cpp:349-379 | the scan reports a friendly exactly when some live squad mate other than the shooter lies within the safety margin of the firing segment |
| Hunters.CoincidentTargetUnseen | src/Hunter.cpp:93-99 | a player standing exactly on the hunter is never seen, because the zero direction fails any cone narrower than 180 degrees |
| Animals.SizeSpeed | src/Animal.cpp:13-14 | speed lies in [40, 120] and is 140 - 4 x radius for radii 5 to 25 |
| Animals.BiggerIsSlower | src/Animal.cpp:13-14 | over the drawn radii 6 to 18, a bigger animal is strictly slower, between 68 and 116 |
| Animals.SeekStep | src/Animal.cpp:53-60 | an animal already at its target stays put; otherwise it steps speed x dt along the direction to the target |
| Animals.Animal.constructor | src/Animal.hpp:5-15 | the declared defaults: speed 60, radius 10, roam 160, timer 0; alive is an assumed initial value |
| Animals.Animal.Randomise | src/Animal.cpp:7-28 | the animal is homed at the spawn point with the drawn size and the matching speed; the first target lies around home; the timer is 1 to 3 seconds for in-range draws |
| Animals.Animal.Retarget | src/Animal.cpp:32-51 | a new target is picked exactly when the timer runs out, the target is reached or the animal strayed too far, around home if too far and around itself otherwise |
| Animals.Animal.Update | src/Animal.cpp:30-68 | retargets as above, then moves one seek step unless it would enter a wall, in which case it stays and forces a retarget next frame |
| Players.StageIndex | src/Player.cpp:402 | the stage is mapped to a table index below 4, namely stage - 1 for stages 1 to 4 |
| Players.StageMaxHpMonotone | src/Player.cpp:408-409 | the stage hp table rises from 100 to 150 with the stage |
| Players.NextStage | src/Player.cpp:65 | evolution adds one stage and caps at stage 4 |
| Players.FoodAfterEvolve | src/Player.cpp:58-63 | evolving spends the stage threshold from food, floored at 0; at the top stage food is kept |
| Players.EvolveNeverAddsFood | src/Player.cpp:58-63 | evolution never increases food and never leaves it negative |
| Players.LaunchDir | src/Player.cpp:84-97 | a dash aimed at the creature itself uses its facing; otherwise the direction times the mouse distance is the offset to the mouse |
| Players.NoKeysNoWalk | src/Player.cpp:205-217 | with opposite keys cancelling, the walk step is zero |
| Players.Herd | src/Player.cpp:176-188 | the position, radius and liveness of each animal, in order |
| Players.AfterSweep | src/Player.cpp:176-188 | an attack kills exactly the live animals it reaches and leaves every other field alone |
| Players.SweepAccounts | src/Player.cpp:176-188 | the live animals before an attack are those left alive plus those it killed |
| Players.SweepIdempotent | src/Player.cpp:150-158 | a second identical sweep finds nothing left to kill |
| Players.Sweep | src/Player.cpp:176-188 | the loop over the animal vector performs `AfterSweep` and returns the number killed |
| Players.Player.constructor | src/Player.cpp:5-8 | the creature starts at the given position; stage 1, no food, 100 max hp, the stage 1 radius and no move in progress are assumed initial values |
| Players.Player.ApplyStageVisuals | src/Player.cpp:400-411 | radius and bite range follow the stage; max hp follows the stage table and hp is clamped to it |
| Players.Player.TickCooldowns | src/Player.cpp:12-28 | each cooldown counts down only while positive; the dash hint counts down while shown and hides once it runs out |
| Players.Player.Transform | src/Player.cpp:48-78 | the transformation clock runs; an unfinished frame keeps stage, food, hp, radius, bite range, max hp and the hint; on completion the stage advances, food is spent, radius, bite range and max hp follow the new stage with hp clamped to it, and reaching stage 2 shows the dash hint; position, facing, the cooldowns and the dash, boulder and slam states are left alone |
| Players.Player.CompleteTransform | src/Player.cpp:52-75 | the transformation ends: the stage advances by one up to 4, the threshold is spent from food floored at 0, radius, bite range and max hp follow the new stage with hp clamped to it, and reaching stage 2 shows the dash hint |
| Players.Player.StartDash | src/Player.cpp:80-105 | a dash starts exactly when the dash is available and the key is pressed, along the launch direction, and with the bite timer floored at 0; no other field changes |
| Players.Player.WindBoulder | src/Player.cpp:107-116 | the wind-up clock runs, and winding ends once it reaches the wind time; no other field changes |
| Players.Player.Slam | src/Player.cpp:118-165 | the slam holds the frame exactly when it is winding or starts now, and otherwise changes nothing; on completion it kills every live animal in the slam radius and starts the cooldown, and before it the impact position is kept; only the slam state, facing and the animals change |
| Players.Player.SlamWindStep | src/Player.cpp:129-164 | the wind clock runs and the creature faces the mouse; on completion the slam fires at the current position, and before it the impact position is kept |
| Players.Player.Dash | src/Player.cpp:170-203 | a dash frame moves by the dash step, eats every live animal it overlaps (adding one food each), and ends with the cooldown once the dash duration is reached |
| Players.Player.DashMove | src/Player.cpp:173-174 | the dash step is resolved against the walls and keeps the creature on floor |
| Players.Player.DashEat | src/Player.cpp:176-188 | the overlapped live animals die and food grows by their number |
| Players.Player.DashClock | src/Player.cpp:190-199 | the dash clock runs, the dash ends with the cooldown at its duration, and facing locks to the dash direction |
| Players.Player.Update | src/Player.cpp:10-221 | one frame: stage invariants hold; the bite effect and boulder cooldowns tick; the bite, dash and slam cooldowns tick too, except that a dash starting this frame floors the bite cooldown at 0, a dash ending restarts the dash cooldown and a slam landing restarts the slam cooldown; the dash hint counts down unless the frame reaches stage 2, which shows it; a transformation frame neither moves nor attacks and, once the clock reaches transformTime, ends with the next stage, the threshold spent from food, the stage's radius, bite range and max hp and hp clamped to it, while an unfinished one keeps the body; it leaves the dash, boulder and slam clocks alone; outside a transformation the body, stage and transformation state stay and the boulder direction never changes; a boulder wind-up frame stays in place, eats nothing, leaves the slam state alone and only runs the wind-up clock, and any other frame leaves the wind-up state alone; a slam that takes the frame winds up in place and on completion kills the live animals in its radius and starts its cooldown, and until then keeps the impact position and flag; in a wind-up or slam frame a dash that starts is under way with its clock at 0, and otherwise the dash state is kept; a dash frame, including one whose dash starts this frame, moves by the dash step, eats what it overlaps (one food each), leaves the slam state alone, goes on while short of its duration and ends with the cooldown once it reaches it; a new dash needs stage 2, a ready cooldown and the key, and heads toward the mouse, and the dash direction changes only then; facing follows the dash direction in a dash frame and the mouse in every other frame; any other frame walks by the collision-resolved walk step and eats, dashes and slams nothing; the stage grows by at most one; floor is preserved |
| Players.Player.Advance | src/Player.cpp:48-221 | after the prelude: a transformation under way takes the frame and completes as in `Update`, showing the dash hint on reaching stage 2, keeping its facing and the dash, boulder and slam clocks; otherwise the creature acts, with the boulder, slam, dash, walk, facing and cooldown outcomes of `Update` (a dash goes on while short of its duration, a dash started in a wind-up or slam frame is under way with its clock at 0, and the slam state is kept outside a landing), and keeps its body and transformation state; the wind-up state changes only in a wind-up frame |
| Players.Player.Prelude | src/Player.cpp:12-46 | all five cooldowns tick and the dash hint counts down as in `TickCooldowns`, facing follows the mouse, and a transformation starts exactly when evolution is ready and its key is pressed; nothing else changes, so the kill tests, the walk step and the dash and slam gates judged after the tick agree with those judged before it |
| Players.Player.FaceAndEvolve | src/Player.cpp:30-46 | facing follows the mouse, and a transformation starts exactly when evolution is ready and its key is pressed, with its clock at 0 |
| Players.Player.Act | src/Player.cpp:80-221 | a dash starts only as allowed, toward the mouse, flooring the bite cooldown at 0; a boulder wind-up freezes movement, food, the slam state and the animals and runs its clock; a slam that takes the frame winds up in place and lands on completion, keeping the impact position and flag until then; in a wind-up or slam frame a dash that starts is under way with its clock at 0, and otherwise the dash state is kept; a dash frame, also one started now, moves, eats, leaves the slam state alone, goes on while short of its duration and ends with the cooldown at it; an ordinary frame walks by the collision-resolved walk step and eats, dashes and slams nothing; facing follows the dash direction in a dash frame, the mouse in a slam frame, and is otherwise kept; the dash and slam cooldowns change only when a dash ends or a slam lands |
| Players.Player.Steer | src/Player.cpp:107-221 | a boulder wind-up takes the frame: only its clock runs, and it ends at the wind time, with the dash and slam states kept; otherwise the wind-up state is untouched and the creature engages as in `Engage`, relaying its slam, dash and walk cases (a dash goes on while short of its duration and leaves the slam state alone); facing is kept through a wind-up; the dash and slam cooldowns change only when a dash ends or a slam lands |
| Players.Player.Engage | src/Player.cpp:118-221 | no dash starts here; a slam that holds the frame winds up in place, leaves the dash alone and, on completion, kills the live animals in its radius and starts the cooldown, keeping the impact position and flag until then; a dash frame goes on while short of its duration; otherwise the slam state is untouched and the creature travels as in `Travel`; facing follows the mouse in a slam frame and the dash direction in a dash frame; the dash and slam cooldowns change only when a dash ends or a slam lands; floor is preserved |
| Players.Player.Travel | src/Player.cpp:170-220 | a dash frame moves by the dash step, eats every live animal it overlaps (one food each), goes on while short of its duration and ends with the cooldown once it reaches it; otherwise the creature walks by the collision-resolved walk step, its food, facing and dash state stay and the animals are untouched; a dash frame faces along the dash; the dash cooldown restarts exactly when a dash ends; floor is preserved |
| Players.Player.Walk | src/Player.cpp:205-220 | the walk step from the keys, relative to the mouse direction, is resolved against the walls and keeps the creature on floor |
| Players.Player.TryBite | src/Player.cpp:297-348 | a bite happens exactly when clicked while idle and off cooldown; it kills the live animals in the bite cone and returns their number |
| Players.Player.Chomp | src/Player.cpp:308-347 | the cooldown and effect timers restart; the animals in the cone die; hp grows by 10 and food by 1 per animal eaten |
| Players.Player.TryFireBoulder | src/Player.cpp:350-398 | a boulder is thrown exactly when a stage 3 creature's wind-up passes the release test; it is appended to the pool from the muzzle along the wind-up direction; the cooldown starts; otherwise a click starts a wind-up when the cooldown is ready, a wind-up under way runs its clock by the frame time and keeps its direction and the facing, the cooldown is left alone, and below stage 3, while transforming or dashing, or with nothing to start or run, nothing changes |

## Left out

- Drawing, colours, the camera and the HUD are not modelled. Neither are the `draw` methods and `Boulder`'s drawing.
- raylib's input functions, `GetRandomValue`, `GetTime` and the maths library are outside the model. They appear only as parameters: `Input`, the draw datatypes, `clock` and `Trig`.
- `Tilemap::findPath`, `hasLineOfSight`, `randomFloorPosition`, `pickSpawnFloorNearCenter` and `carveCircle` are not part of this model. The first two are the `Nav` parameter; a slam's wall carving is not modelled.
- `Player::isEvolveReady` is not part of this model. Readiness is the `evolveReady` flag of `Input`.
- `Hunter::canSeePlayerCone` (src/Hunter.hpp:48) is declared but never defined, so it has no counterpart.
- `Boulder::update` is declared in src/Boulder.hpp:18 but its definition is not part of this model. Only the boulders' creation by the player is modelled.
- The squad intel's time-to-live is set to 2.5 s on a sighting (src/Hunter.cpp:107) and cleared at the spot (src/Hunter.cpp:290), but none of the source files decrements it. The model has no countdown either, so a posted spot stays live until it is cleared or overwritten.
- Single-precision rounding is not modelled. All arithmetic is exact.
- Tiles.Tilemap.constructor: the source leaves the grid uninitialised until the map is loaded. The model starts it at all floor.
- Tiles.Tilemap.ResolveCollision: the radius parameter is unused, exactly as in the source, so only the body's centre is tested against walls.
- Players.Sweep: requires the animals to be distinct objects. In the source they are distinct elements of one vector, so no animal can be visited twice.
- Players.Player.TryFireBoulder: the release test is kept as written, `boulderWindElapsed > -boulderWindTime`. With a non-negative wind time it passes on the first call after the wind-up starts, so the boulder leaves without waiting for the wind time. The model proves this rather than a wait.
- Players.Player.Update: the slam's wall carving is not modelled, so its contract says nothing about the map after a slam.
- Players.Player.constructor: src/Player.hpp declares neither hp nor the stage tables, so the initial hp is a constructor parameter and the tables are `Tuning` values. src/Player.hpp:5-17 declares only the position, angle and speed, and src/Player.cpp:5-8 sets only the position. Stage 1, no food, cleared move flags and zero timers are assumed initial values, not source defaults.
- Hunters.Hunter.constructor: src/Hunter.hpp declares neither hitFlashTimer, hitStunTimer nor knockVel, which src/Hunter.cpp uses at 82-85, 240-243 and 443-455. Their zero initial values are assumptions, not source defaults.
- Animals.Animal.constructor: src/Animal.hpp declares no `alive` field; the model adds it, assumed true at construction.
