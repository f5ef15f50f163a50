# Asteroids game core in Dafny

This project models the core of a small raylib Asteroids clone. It covers
`src/entities.c` (the spaceship, asteroids, bullets and UFOs, and the screen
edge wrap) and `src/game.c` (the `GameState` director). The director owns the
ship and the fixed slot arrays of 28 asteroids, 32 bullets and 2 UFOs. It runs
the MENU / PLAYING / PAUSED / GAME_OVER phase machine, spawns levels and UFOs,
fires the player's gun, resolves collisions and scores, and handles the lives,
respawn and game-over sequence. The model also covers `src/input.c`, which turns
the keyboard into commands for each phase, and the two random helpers of
`src/utils.c`.

How the C code maps to Dafny:

- Each entity struct is a `datatype`.
- A C function that updates a struct passed by address is a method. It takes
  the old value and returns the new one. The game keeps those values in
  arrays, so updating a slot behaves like the C arrays of structs.
- `GameState` is a class. Its scalar fields are `var`s and its three slot
  arrays are `array`s. Each `game.c` function is a method with a `modifies`
  frame and an `ensures` that states the new state.
- `Game.World` is a value holding every field of `GameState` that a tick or
  a key can change, and `GameState.Snap()` reads it off the object. Each
  step of a tick is specified as a relation between the world before and the
  world after (`Shattered`, `BulletStep`, `Collided`, `Moved`, `Ticked`,
  `Input.PlayedInput` and so on). A method's `ensures` states that relation
  between `old(Snap())` and `Snap()`, so it pins the whole new state,
  including the fields it leaves alone. Lemmas about the relations then
  derive what a tick promises as a whole.
- `GameState.Valid()` is the invariant every method keeps:
  - the arrays have their capacities;
  - `asteroidCount` equals the number of live asteroid slots;
  - an asteroid slot owns an outline exactly while it is live, and a live one
    has a radius and outline that agree with its size;
  - the score never exceeds the high score;
  - a live ship has no respawn countdown running;
  - the screen is at least 200 wide.
- Floats are modelled as reals.
- The C library's `cos`, `sin`, `sqrt` and `atan2` are not interpreted. They
  come in as a `Geometry.Math` record that works in degrees. Properties that
  depend on them say which law they need: `HalfTurnLaw`, or `ExactRootAt` for
  an exact square root.
- Sound calls (`PlayShootSound`, `PlayExplosionSound` and the rest) append an
  event to `GameState.sounds`. The contracts state exactly which sounds a call
  triggers, and in what order.
- `rand()` is a linear congruential generator in `Utils.Random`. It has the
  same range `[0, RAND_MAX]`, and the `time()` seed is a constructor parameter.

What is proved, beyond each operation's own contract:

- Scoring:
  - the score only rises;
  - the high score tracks it, and the new-record flag is set exactly when it
    is passed;
  - smaller targets pay more.
- Levels:
  - a level starts `min(4 + 2(level-1), 12)` fresh large asteroids in the
    lowest free slots, all on screen, at least 100 from the ship and moving
    at a speed in [20, 100];
  - the UFO interval falls by 2 s a level down to 10 s;
  - later levels are never easier.
- Asteroid split:
  - the two children go into the lowest free slot and the next free one
    above it, one size smaller;
  - they fly half a turn apart at the same speed;
  - the split is dropped exactly when fewer than two slots are free;
  - the live count moves by +2 per split and by -1 per destruction.
- Speed: the ship's speed never exceeds 400 across an update, and drag alone
  scales the squared speed by 0.9801.
- Collisions:
  - the sweep is specified bullet by bullet, in slot order. A live bullet
    meets the asteroids, then the UFOs, then the ship, and each pass sees
    what the one before it left. The ship's own checks come last;
  - each pass hits the lowest-index target it touches;
  - across the sweep, bullets and UFOs can only be switched off, the score
    only rises, and the ship can only die, and only while exposed.
- Invulnerability: a freshly placed ship is invulnerable for its first tick,
  and a ship that is not invulnerable never becomes so by flying.
- Aiming: where `atan2` obeys its law, a small UFO's shot flies straight at
  the target at bullet speed.
- UFO fire only fills free bullet slots, with enemy bullets.
- Game state:
  - a new game always starts in the same state, whatever came before;
  - a death costs exactly one life, booked on the tick it happens, and
    starts the respawn countdown;
  - GAME_OVER is reached only with no lives left;
  - a tick raises the level by at most one and counts the gun cooldown down.

## Model

| member | source | states |
|---|---|---|
| Geometry.WrapCoord | src/entities.c:374-379 | one coordinate of the edge teleport: with a non-negative extent the result is on screen, and a coordinate already on screen is kept |
| Geometry.WrapCoordIdempotent | src/entities.c:374-379 | wrapping an already wrapped coordinate changes nothing, for every extent |
| Geometry.WrapPosition | src/entities.c:374-379 | the four sequential edge tests give the coordinate-wise wrap; the result is on screen and a fixed point of a second wrap |
| Geometry.OppositeHeadings | src/entities.c:210-215 | where cos and sin obey the half-turn law at an angle, heading + 180 degrees gives the negated vector; this is the law applied once |
| Utils.Random.constructor | src/utils.c:7-12 | seeding puts the generator state in range |
| Utils.Random.Rand | src/utils.c:16 | a draw of rand() lies in [0, RAND_MAX] |
| Utils.Random.RandomFloat | src/utils.c:14-18 | the result lies between the two bounds, both included, in whichever order they are given |
| Utils.Random.RandomInt | src/utils.c:20-23 | the result lies in [min, max] |
| Utils.ScaleBetween | src/utils.c:16-17 | a fraction in [0, 1] of a span added to its start stays inside the span, for spans of either sign |
| Entities.ReadyAtDetermines | src/entities.c:8-28 | a restatement of ReadyAt: it fixes every field but lives, so two ready ships at the same point with the same lives are equal |
| Entities.InitSpaceship | src/entities.c:8-17 | the ship is at the point, motionless, heading 0, not thrusting, alive, fully invulnerable, with 3 lives |
| Entities.RespawnSpaceship | src/entities.c:19-28 | the same reset as InitSpaceship, except that the lives are kept |
| Entities.UpdateSpaceship | src/entities.c:30-54 | a dead ship is unchanged; a live one turns, gets thrust along heading - 90 and the speed clamp while thrusting, then drag every tick, moves by its new velocity and counts invulnerability down; it stays alive, keeps its lives and never becomes invulnerable again |
| Entities.PilotedFacts | src/entities.c:30-54 | the ship's per-tick update with its wrap keeps the alive flag and lives, leaves the ship on screen, and never makes a ship invulnerable again |
| Entities.GraceOnSpawn | src/entities.c:125-127 | a ship just placed by InitSpaceship or RespawnSpaceship is invulnerable, and still is after a first tick shorter than 3 s |
| Entities.ClampBoundsSpeed | src/entities.c:40-43 | with an exact square root, the clamp leaves a squared speed of at most 400 squared |
| Entities.SpeedStaysBounded | src/entities.c:32-46 | a ship within the maximum speed (or thrusting, with an exact root) ends the update within it |
| Entities.DragSlows | src/entities.c:46 | without thrust, the squared speed is multiplied by 0.99 squared, so it never grows |
| Entities.ThrustSpaceship | src/entities.c:111-113 | only the thrust flag changes, to set |
| Entities.RotateSpaceship | src/entities.c:115-117 | only the turn rate changes, to direction times 250 degrees per second |
| Entities.HyperspaceJump | src/entities.c:119-123 | only position and velocity change: the ship stops at a point on the screen |
| Entities.RadiusShrinks | src/entities.c:134-144 | each split step goes to a strictly smaller, positive radius |
| Entities.Radius | src/entities.c:134-144 | every radius is positive and at most the large radius, which only a large asteroid has |
| Entities.InitAsteroid | src/entities.c:129-164 | a live, well-formed asteroid at the point with its size's radius; 8 to 12 outline vertices at evenly spaced angles with radius jittered by 0.8 to 1.2; speed in [20, 100] at a heading in [0, 360]; rotation in [0, 360] and turn rate in [-100, 100] |
| Entities.UpdateAsteroid | src/entities.c:166-174 | a free slot is unchanged; a live asteroid moves by its velocity, wraps onto the screen and turns, and stays live and well-formed |
| Entities.SplitAsteroid | src/entities.c:202-216 | a small parent leaves both slots alone; otherwise both children are live, one size smaller, at the parent's position, flying the same speed in [30, 150] at headings half a turn apart, hence opposite velocities under the half-turn law |
| Entities.DestroyAsteroid | src/entities.c:218-224 | the asteroid is inactive with no outline, which is well-formed; destroying it again changes nothing |
| Entities.InitBullet | src/entities.c:226-237 | a live bullet at the point, at 500 along heading - 90, with lifetime 1.2 and the given owner |
| Entities.UpdateBullet | src/entities.c:239-251 | a spent bullet is unchanged; a live one moves, wraps and ages, and is spent once its lifetime runs out; a bullet never comes back to life |
| Entities.DestroyBullet | src/entities.c:258-260 | only the active flag changes, to cleared |
| Entities.FirstFreeBullet | src/entities.c:305-306 | the slot scan returns the lowest inactive bullet slot, or -1 exactly when every slot is live |
| Entities.LowestFreeBulletUnique | src/entities.c:305-306 | a sanity fact about the definition: the lowest free bullet slot is unique, and exists only if some slot is free |
| Entities.InitUfo | src/entities.c:262-280 | a live UFO with both timers at zero, entering at the left edge heading right or at the right edge heading left, at its type's speed, in the middle 60% of the height |
| Entities.UfoSpeed | src/entities.c:278 | every UFO speed is positive, and it exceeds the large UFO's speed exactly for the small UFO |
| Entities.UpdateUfo | src/entities.c:282-320 | a free slot changes nothing; a live UFO moves horizontally (and, if small, vertically with its drift redrawn every 0.5 s) and retires once past the far edge; when its shot timer passes 1.5 s it fires once into the lowest free bullet slot, aimed at the target when small and the target is alive, otherwise at bullet speed along a heading drawn from [0, 360]; the bullets are untouched when it does not fire |
| Entities.AimedAtTarget | src/entities.c:308-310 | where atan2 obeys its law for the vector to the target, the aimed shot's velocity is that vector scaled to bullet speed |
| Entities.DestroyUfo | src/entities.c:370-372 | only the active flag changes, to cleared |
| Slots.ActiveCount | src/game.c:94 | the live-asteroid count never exceeds the number of slots |
| Slots.ActiveCountUpdate | src/game.c:281-293 | replacing one slot moves the live count by exactly that slot's change in activity, which is the +2 and -1 bookkeeping of the resolver |
| Slots.ActiveCountZero | src/game.c:144 | the live count is zero exactly when every slot is free |
| Slots.FreeRankMonotone | src/game.c:84-85 | the number of free slots below an index grows with the index |
| Slots.FreeRankAllFree | src/game.c:58-62 | on a cleared field, slot i has exactly i free slots below it |
| Slots.SplitSlotsExclusive | src/game.c:274-287 | a sanity fact about the definitions: a split pair of free slots and "no two free slots" never hold together |
| Slots.FindFreePair | src/game.c:274-287 | the nested scan returns the lowest free slot and the next free one above it, or -1 exactly when fewer than two slots are free |
| Game.GetAsteroidPoints | src/game.c:373-380 | every asteroid is worth a positive number of points |
| Game.GetUfoPoints | src/game.c:382-384 | every UFO is worth a positive number of points |
| Game.SmallerTargetsPayMore | src/game.c:373-384 | a split child is worth more than its parent, and the small UFO more than the large one |
| Game.LevelAsteroidCount | src/game.c:67-70 | a level from 1 on starts 4 + 2(level - 1) asteroids below the cap, and the cap of 12 only where that formula reaches it |
| Game.UfoSpawnTime | src/game.c:74-77 | the UFO interval is 20 - 2 * level seconds above the floor of 10, the floor only where that formula falls to 10 or below, and at most 20 from level 0 on |
| Game.LevelsGetHarder | src/game.c:66-79 | a later level has at least as many asteroids and a UFO interval no longer |
| Game.SpawnPoint | src/game.c:86-90 | a spawn point is on the screen and at least 100 from the ship |
| Game.SpawnIntoEmpty | src/game.c:81-97 | spawning n asteroids onto an empty field fills exactly slots 0 to n - 1 with fresh large asteroids |
| Game.EnemyShotsStep | src/game.c:128-130 | one more UFO update, which fired into the lowest free slot or left the bullets alone, keeps "slots only go from free to a live enemy bullet" |
| Game.FindAsteroidHit | src/game.c:263-267 | the lowest live asteroid the bullet touches, or -1 exactly when it touches none |
| Game.EnemyBulletsSpareUfos | src/game.c:301-303 | immediate from the hit test: an enemy bullet never hits a UFO |
| Game.FindUfoHit | src/game.c:298-303 | the lowest live UFO a player bullet touches, or -1 exactly when there is none |
| Game.GameState.constructor | src/game.c:18-27 | every field zero, as calloc leaves it, except the screen size; the phase is MENU and all slots are empty |
| Game.GameState.InitGame | src/game.c:41-44 | the phase is MENU and the high-score banner is off |
| Game.GameState.SpawnInSlot | src/game.c:85-94 | a free slot receives a fresh large asteroid on screen and clear of the ship, moving at a speed in [20, 100] along some heading, its spin in range; no other slot changes and the live count rises by one |
| Game.GameState.SpawnAsteroids | src/game.c:81-97 | the free slots of rank below count hold fresh large asteroids (on screen, clear of the ship, speed in [20, 100]) and every other slot is as it was; the live count rises by min(count, free slots), or 0 for a non-positive count |
| Game.GameState.StartNewLevel | src/game.c:66-79 | the level's asteroids are spawned into free slots and the UFO clock restarts with the level's interval |
| Game.GameState.ClearSlots | src/game.c:58-60 | every asteroid, bullet and UFO slot is the zero struct |
| Game.GameState.ResetForNewGame | src/game.c:46-60 | score 0, level 1, no live asteroid, bullet or UFO, all timers zero and a fresh ship with 3 lives at the centre |
| Game.GameState.ResetCounters | src/game.c:46-55 | the counters and clocks take their new-game values and the ship is ready at the centre with 3 lives |
| Game.GameState.StartNewGame | src/game.c:46-64 | whatever came before, play starts at level 1 with score 0, a fresh ship, exactly slots 0-3 holding fresh large asteroids clear of it, no bullets or UFOs and all timers reset; the high score is kept |
| Game.GameState.SpawnUfo | src/game.c:99-109 | both slots taken: nothing changes; otherwise the lowest free slot gets a UFO entering from a side edge at its type's speed towards the other side, in the middle 60% of the height, large while the score is below 10000, and the UFO sound plays |
| Game.GameState.FireBullet | src/game.c:246-257 | when the cooldown is over, the ship alive and a slot free, exactly the lowest free slot becomes a player bullet from the ship along its heading, the cooldown becomes 0.25 and the shot sounds; otherwise nothing changes |
| Game.GameState.UpdateScore | src/game.c:349-355 | the score rises by the points; the high score becomes the larger of the two and the record flag is set when it is passed |
| Game.GameState.PauseGame | src/game.c:357-361 | PLAYING becomes PAUSED; every other phase is kept |
| Game.GameState.ResumeGame | src/game.c:363-367 | PAUSED becomes PLAYING; every other phase is kept |
| Game.GameState.GameOver | src/game.c:369-371 | the phase becomes GAME_OVER |
| Game.GameState.SplitRock | src/game.c:273-288 | the split goes to the lowest free slot and the next free one above it, both children of the struck asteroid flying apart at one speed in [30, 150] along headings half a turn apart, count +2; nothing changes exactly when fewer than two slots are free |
| Game.GameState.WreckAsteroid | src/game.c:290-293 | the asteroid and the bullet are switched off, the outline released, the explosion sounds and the count drops by one |
| Game.GameState.ShatterAsteroid | src/game.c:269-294 | a player bullet scores the asteroid's points, a non-small asteroid splits into two children flying apart at one speed in [30, 150] where two slots are free, then asteroid and bullet are destroyed; the count moves by +1 or -1 accordingly |
| Game.GameState.BulletAsteroidPass | src/game.c:263-296 | with no live asteroid touched nothing changes; otherwise the first live asteroid the bullet touches is shattered, and nothing else changes |
| Game.GameState.ShatterHit | src/game.c:269-294 | on the whole state: a player bullet scores the points, a non-small asteroid splits into the lowest free slot and the next free one, the children flying apart at one speed in [30, 150], the asteroid and bullet are destroyed with an explosion, and every other field is kept |
| Game.GameState.BulletUfoPass | src/game.c:298-311 | a player bullet, live or not, destroys the first live UFO it touches, scores 200 or 1000 and sounds an explosion; otherwise nothing changes |
| Game.GameState.DownUfo | src/game.c:305-308 | the UFO's points are scored, the UFO and the bullet are switched off and the explosion sounds |
| Game.GameState.BulletShipPass | src/game.c:313-320 | an enemy bullet, live or not, touching the exposed ship kills it, is spent and sounds an explosion; nothing else changes, and nothing at all otherwise |
| Game.GameState.ShipCollisions | src/game.c:323-346 | an exposed ship dies on the first live asteroid it touches, which is left alive, and on the first live UFO it touches, which is destroyed; one explosion per kind; both checks use the exposure at the start; a ship that is not exposed changes nothing |
| Game.GameState.RamAsteroids | src/game.c:324-333 | the first live asteroid the ship touches kills it with an explosion; with none touched the ship and sounds are unchanged |
| Game.GameState.RamUfos | src/game.c:335-345 | the first live UFO the ship touches kills it and is destroyed, with an explosion; with none touched nothing changes |
| Game.GameState.CollideBullet | src/game.c:260-320 | a spent bullet changes nothing; a live one goes through the asteroid pass, then the UFO pass, then the ship pass, each on the state the previous one left |
| Game.GameState.CheckCollisions | src/game.c:259-347 | every bullet slot in increasing order takes its step, then the ship is checked against asteroids and UFOs |
| Game.GameState.SweepBullets | src/game.c:260-321 | the worlds between the bullet steps form a sweep from the old state to the new one, one step per slot in increasing order |
| Game.AsteroidPassSwitchesOff | src/game.c:263-296 | an asteroid pass keeps the phase, level and clocks; the score only rises with the high score tracking it; bullets and UFOs can only be switched off; the ship can only die, and only while exposed |
| Game.UfoPassSwitchesOff | src/game.c:298-311 | a UFO pass keeps the same guarantees as an asteroid pass |
| Game.ShipPassSwitchesOff | src/game.c:313-320 | a ship pass keeps the same guarantees as an asteroid pass |
| Game.BulletStepSwitchesOff | src/game.c:260-320 | one bullet's step: the score only rises, bullets and UFOs can only be switched off, the ship can only die and only while exposed |
| Game.ShipCollidedSwitchesOff | src/game.c:323-346 | the ship's own checks keep the same guarantees as a bullet step |
| Game.SweepSwitchesOff | src/game.c:260-321 | by induction over the slots, the first n bullet steps together keep the same guarantees |
| Game.CollidedSwitchesOff | src/game.c:259-347 | the whole of CheckCollisions: the score only rises with the high score tracking it, bullets and UFOs can only be switched off, and the ship can only die, only while exposed, keeping its lives |
| Game.GameState.MoveShip | src/game.c:117-118 | the new ship is UpdateSpaceship followed by the wrap, field by field: a live ship turns, takes its new velocity, moves along it and counts invulnerability down; a dead one is only wrapped |
| Game.GameState.MoveAsteroids | src/game.c:120-122 | every slot becomes UpdateAsteroid of its old value |
| Game.DriftAll | src/game.c:120-122 | stepping every asteroid keeps each slot's activity and well-formedness and leaves every live one on screen |
| Game.GameState.MoveBullets | src/game.c:124-126 | every slot becomes UpdateBullet of its old value |
| Game.FlyAll | src/game.c:124-126 | stepping every bullet keeps the slot count and never brings a spent bullet back |
| Game.GameState.MoveUfos | src/game.c:128-130 | each UFO slot in order is stepped by UpdateUfo against the ship, on the bullet slots the previous UFO left |
| Game.UfoShotsOnlyFill | src/game.c:128-130 | by induction over the UFO slots, the bullet slots only go from free to live enemy bullets |
| Game.GameState.MoveEntities | src/game.c:117-130 | the ship, the asteroids, the bullets and the UFOs are stepped in that order, and nothing else changes |
| Game.GameState.TickUfoSpawner | src/game.c:132-136 | past the level's interval a UFO is launched and the clock restarts; otherwise the clock advances; nothing else changes |
| Game.GameState.RunClocks | src/game.c:132-140 | the UFO spawn clock runs, then the gun cooldown counts down while positive |
| Game.GameState.AdvanceLevel | src/game.c:144-151 | with asteroids left nothing changes; with the field cleared the delay accumulates, and past 2 s the next level starts |
| Game.GameState.BeginNextLevel | src/game.c:146-150 | the level goes up by one, its asteroids fill the first slots of the empty field clear of the ship, the UFO clock restarts with the level's interval and the delay resets; nothing else changes |
| Game.GameState.EnterLevel | src/game.c:147-148 | the level goes up by one and exactly its first slots hold fresh large asteroids clear of the ship |
| Game.GameState.ResolveShipDeath | src/game.c:153-171 | a fresh death costs one life and starts the 2 s countdown; the countdown runs; at its end the ship respawns at the centre with its lives if any remain, otherwise the phase becomes GAME_OVER; nothing else changes |
| Game.GameState.ConcludeTick | src/game.c:144-171 | the level clock and then the death sequence |
| Game.GameState.StepWorld | src/game.c:117-142 | entities move, the UFO clock runs, the gun cools down and collisions resolve, in that order |
| Game.MovedLeavesScore | src/game.c:117-130 | moving keeps the ship's alive flag and lives and touches no score, phase, level or clock |
| Game.SpawnLeavesScore | src/game.c:132-136 | the UFO clock leaves the ship, the score, the phase, the level and the other clocks alone |
| Game.StepKeepsLivesAndScore | src/game.c:117-142 | the world step only raises the score, with the high score tracking it; lives are kept and the ship can die but not revive; the gun cooldown counts down; phase, level and the level and respawn clocks are kept |
| Game.GameState.UpdateGame | src/game.c:111-180 | outside PLAYING nothing changes; while playing the world steps, then the level clock and the death sequence run, on the state each part leaves |
| Game.LevelLeavesShip | src/game.c:144-151 | the level clock leaves the ship, phase, score and respawn clock alone and raises the level by at most one |
| Game.DeathBooksLives | src/game.c:153-171 | the death sequence ends the game only with no lives and a dead ship, takes a life exactly when a death is booked and then starts the countdown, and leaves the score and level alone |
| Game.TickBooksLives | src/game.c:111-180 | a playing tick ends PLAYING or GAME_OVER, the latter only with no lives and a dead ship; the score only rises; a life is lost exactly on the tick a death is booked, which starts the respawn countdown; the level rises by at most one; the gun cooldown counts down |
| Input.TurnDirection | src/input.c:24-30 | the turn is right exactly when a right key is held, left when only a left key is held, and none otherwise |
| Input.Steer | src/input.c:14-30 | thrust and turn are reset and then set from the held keys; the thrust sound starts or stops |
| Input.Jump | src/input.c:36-39 | the ship stops at a random point on the screen and the hyperspace sound plays |
| Input.PlayingInput | src/input.c:13-44 | thrust and turn follow the held keys, space fires when the gun is ready, H jumps, P or Escape pauses; the sounds are the thrust cue, the shot, then the jump; nothing else in the game changes |
| Input.SteerAndFire | src/input.c:14-34 | steering from the held keys, then FireBullet when space is pressed |
| Input.JumpAndPause | src/input.c:36-43 | the hyperspace jump when H is pressed, then the pause when P or Escape is pressed |
| Input.ProcessInput | src/input.c:5-59 | from MENU or GAME_OVER, space starts a new game (clearing the record banner after GAME_OVER) and without it nothing changes; while paused only the phase can change; while playing, the PLAYING rules apply |
| Input.PausedInput | src/input.c:46-50 | P or Escape resumes, and nothing else changes |

## Left out

- Drawing (`DrawGame` and the `Draw*` functions of `src/entities.c`) is a read-only pass over the state; it is not part of this model.
- Audio synthesis (`src/audio.c`) is not part of this model: each sound call is recorded as an event in `GameState.sounds`.
- The main loop, window handling and `GetFrameTime` (`src/main.c`) are not part of this model: the frame time is the parameter `dt`, and the keyboard state is the `Input.Keys` record.
- `rand`, `srand` and `time` are replaced by a linear congruential generator seeded by a parameter, so no claim is made about the distribution of draws, only their ranges.
- Single-precision rounding is not modelled: floats are reals.
- `cos`, `sin`, `sqrt` and `atan2` are not interpreted; properties that need them assume a stated law (`HalfTurnLaw`, `ExactRootAt`).
- `malloc`/`calloc` failure (the null returns of `CreateGameState` and `InitAsteroid`) is not modelled; allocation always succeeds.
- `DestroyGameState` only frees memory and is not modelled. An outline is an `Option` value, so the outlines that the `memset` in `StartNewGame` drops without freeing do not show up as a leak.
- `UpdateUFO`'s null-target check is not modelled: the game always passes its own ship as the target.
- Game.SpawnPoint: the source retries the random position until it is at least 100 from the ship, a loop with no bound. The model takes one draw and, if it is too close, moves it to the vertical edge farther from the ship. The guarantee is the same: on screen and at least 100 away.
- Game.GameState.constructor: requires a screen at least 200 wide, which the spawn fallback above needs to reach 100 units of clearance; the source accepts any size. `Valid()` carries the same bound, so every `GameState` method assumes a screen at least 200 wide. The window is resizable and `src/main.c:23-29` copies its size into `screenWidth` and `screenHeight` every frame; that runtime resizing is not modelled, and the model's screen size is fixed at construction.
- The C `int` width of the score, high score, level and lives is not modelled: they are unbounded integers, so no overflow or wrap-around can occur in the model.
- Entities.DragSlows: states the exact factor 0.99 squared on the squared speed and a non-strict bound, so a motionless ship is covered; "strictly slower" follows for any moving ship.

Behaviour of the code worth noting:

- The invulnerability countdown is decremented while positive and can end below zero; it is not clamped at zero (`src/entities.c:51-53`).
- A small UFO aims at the ship whenever it is alive, invulnerable or not (`src/entities.c:308`).
- The UFO and ship passes of the collision sweep do not re-check that the bullet is still live. A player bullet that destroys an asteroid can also destroy a UFO on the same tick, and an enemy bullet that destroys an asteroid can still kill the ship (`src/game.c:298-320`).
- A random heading is drawn from [0, 360] with both ends included, as `RandomFloat` includes its upper bound.
- The ship-against-asteroid check kills the ship and leaves the asteroid in play (`src/game.c:323-333`).
- `SpawnAsteroids`' retry loop (`src/game.c:86-90`) cannot exit when no point of the screen is 100 or more from the ship. The window can be resized to such a size: on a 150 by 100 screen, a new game from the menu puts the ship at (75, 50), and the farthest corner is about 90 away, so the first spawn never finds a position. The model's 200-wide bound and edge fallback keep it out of that case.
