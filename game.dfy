/**
 * The game director: one `GameState` owning the ship and the fixed slot
 * arrays of asteroids, bullets and UFOs, with the phase machine, level and
 * UFO spawning, firing, the collision and scoring resolver and the
 * lives/respawn/game-over sequence.
 */
module Game {
  import opened Geometry
  import opened Utils
  import opened Entities
  import opened Slots

  const INITIAL_ASTEROIDS: int := 4
  const ASTEROIDS_PER_LEVEL: int := 2
  const MAX_LEVEL_ASTEROIDS: int := 12
  const UFO_BASE_SPAWN_TIME: real := 20.0
  const UFO_MIN_SPAWN_TIME: real := 10.0
  const FIRE_DELAY: real := 0.25
  const NEXT_LEVEL_DELAY: real := 2.0
  const RESPAWN_DELAY: real := 2.0
  /** A new asteroid appears at least this far from the ship. */
  const SPAWN_CLEARANCE: real := 100.0
  /** Below this score every UFO is a large one. */
  const SMALL_UFO_SCORE: int := 10000
  /** The narrowest screen on which the far vertical edge is always SPAWN_CLEARANCE away from the ship. */
  const MIN_SCREEN_WIDTH: real := 200.0

  datatype Phase = Menu | Playing | Paused | GameOver

  /** The sound effects the game triggers, recorded in order instead of played. */
  datatype Sound = ShootSound | ExplosionSound | ThrustSound | ThrustStopped | HyperspaceSound | UfoSound

  function Max(a: int, b: int): int {
    if a < b then b else a
  }

  function GetAsteroidPoints(size: AsteroidSize): (p: int)
    ensures p > 0
  {
    match size
    case Large => 20
    case Medium => 50
    case Small => 100
  }

  function GetUfoPoints(kind: UfoType): (p: int)
    ensures p > 0
  {
    if kind == LargeUfo then 200 else 1000
  }

  /** Smaller targets are worth more: each split step and the small UFO pay more. */
  lemma SmallerTargetsPayMore(size: AsteroidSize)
    requires size != Small
    ensures GetAsteroidPoints(size) < GetAsteroidPoints(Smaller(size))
    ensures GetUfoPoints(LargeUfo) < GetUfoPoints(SmallUfo)
  {
  }

  /** How many large asteroids a level starts with. */
  function LevelAsteroidCount(level: int): (n: int)
    ensures n <= MAX_LEVEL_ASTEROIDS
    ensures 1 <= level ==> INITIAL_ASTEROIDS <= n
    ensures 1 <= level && n < MAX_LEVEL_ASTEROIDS ==> n == INITIAL_ASTEROIDS + 2 * (level - 1)
    ensures n == MAX_LEVEL_ASTEROIDS ==> INITIAL_ASTEROIDS + 2 * (level - 1) >= MAX_LEVEL_ASTEROIDS
  {
    var n := INITIAL_ASTEROIDS + (level - 1) * ASTEROIDS_PER_LEVEL;
    if n > MAX_LEVEL_ASTEROIDS then MAX_LEVEL_ASTEROIDS else n
  }

  /** The UFO spawn interval of a level. */
  function UfoSpawnTime(level: int): (t: real)
    ensures UFO_MIN_SPAWN_TIME <= t
    ensures 0 <= level ==> t <= UFO_BASE_SPAWN_TIME
    ensures UFO_MIN_SPAWN_TIME < t ==> t == UFO_BASE_SPAWN_TIME - (2 * level) as real
    ensures t == UFO_MIN_SPAWN_TIME ==> UFO_BASE_SPAWN_TIME - (2 * level) as real <= UFO_MIN_SPAWN_TIME
  {
    var t := UFO_BASE_SPAWN_TIME - (level * 2) as real;
    if t < UFO_MIN_SPAWN_TIME then UFO_MIN_SPAWN_TIME else t
  }

  /** Later levels bring at least as many asteroids and UFOs at least as often. */
  lemma LevelsGetHarder(a: int, b: int)
    requires a <= b
    ensures LevelAsteroidCount(a) <= LevelAsteroidCount(b)
    ensures UfoSpawnTime(b) <= UfoSpawnTime(a)
  {
  }

  /**
   * The point SpawnAsteroids places a new asteroid at: on the screen and at
   * least SPAWN_CLEARANCE from `avoid`. One draw is taken; if it lands too
   * close, it moves to the vertical edge farther from `avoid`.
   */
  method SpawnPoint(rng: Random, avoid: Vec, width: real, height: real) returns (p: Vec)
    requires MIN_SCREEN_WIDTH <= width && 0.0 <= height
    modifies rng
    ensures InBounds(p, width, height) && FarFrom(p, avoid, SPAWN_CLEARANCE)
  {
    var x := rng.RandomFloat(0.0, width);
    var y := rng.RandomFloat(0.0, height);
    p := Vec(x, y);
    if !FarFrom(p, avoid, SPAWN_CLEARANCE) {
      if avoid.x >= width / 2.0 {
        p := Vec(0.0, y);
      } else {
        p := Vec(width, y);
      }
      FarAlongX(p, avoid, SPAWN_CLEARANCE);
    }
  }

  /**
   * A freshly spawned large asteroid: on screen and clear of `avoid`, moving
   * at a speed in [20, 100] along some heading, with its spin drawn as
   * InitAsteroid draws it.
   */
  ghost predicate FreshLarge(m: Math, a: Asteroid, avoid: Vec, width: real, height: real) {
    && a.isActive && a.size == Large && WellFormed(a)
    && InBounds(a.position, width, height) && FarFrom(a.position, avoid, SPAWN_CLEARANCE)
    && SomeHeading(m, a.velocity, ASTEROID_SPEED_MIN, ASTEROID_SPEED_MAX)
    && 0.0 <= a.rotation <= 360.0 && -100.0 <= a.rotationSpeed <= 100.0
  }

  /**
   * The asteroid slots after spawning `count` asteroids: the free slots of
   * rank below `count` hold fresh large asteroids, every other slot is as it was.
   */
  ghost predicate SpawnedInFreeSlots(m: Math, before: seq<Asteroid>, after: seq<Asteroid>, count: int,
                                     avoid: Vec, width: real, height: real) {
    && |after| == |before|
    && forall i :: 0 <= i < |before| ==>
         if !before[i].isActive && FreeRank(before, i) < count
         then FreshLarge(m, after[i], avoid, width, height)
         else after[i] == before[i]
  }

  /** How many asteroids a request for `count` gets when `free` slots are free. */
  function SpawnTotal(count: int, free: int): int {
    if count <= 0 then 0 else if count < free then count else free
  }

  /** Spawning `n` asteroids into all-free slots fills exactly slots 0 to n-1. */
  lemma SpawnIntoEmpty(m: Math, before: seq<Asteroid>, after: seq<Asteroid>, n: int, avoid: Vec, width: real, height: real)
    requires forall j :: 0 <= j < |before| ==> !before[j].isActive
    requires SpawnedInFreeSlots(m, before, after, n, avoid, width, height)
    requires 0 <= n <= |before|
    ensures FreeCount(before) == |before| && SpawnTotal(n, FreeCount(before)) == n
    ensures forall j :: 0 <= j < |after| ==> (after[j].isActive <==> j < n)
    ensures forall j :: 0 <= j < n ==> FreshLarge(m, after[j], avoid, width, height)
  {
    ActiveCountZero(before);
    forall j | 0 <= j < |before|
      ensures (after[j].isActive <==> j < n) && (j < n ==> FreshLarge(m, after[j], avoid, width, height))
    {
      FreeRankAllFree(before, j);
    }
  }

  /** The bullet slots after UFO fire: a slot changes only from free to a live enemy bullet. */
  ghost predicate EnemyShotsOnly(before: seq<Bullet>, after: seq<Bullet>) {
    && |after| == |before|
    && forall j :: 0 <= j < |before| ==>
         after[j] == before[j] || (!before[j].isActive && after[j].isActive && !after[j].fromPlayer)
  }

  /** Scanning up from `i`, past taken slots, finds the lowest free bullet slot. */
  lemma {:induction false} LowestFreeFrom(s: seq<Bullet>, i: int) returns (k: int)
    requires 0 <= i <= |s|
    requires forall j :: 0 <= j < i ==> s[j].isActive
    requires exists j :: i <= j < |s| && !s[j].isActive
    ensures LowestFreeBullet(s, k)
    decreases |s| - i
  {
    if !s[i].isActive {
      k := i;
    } else {
      k := LowestFreeFrom(s, i + 1);
    }
  }

  /** One more UFO update, which shot or left the bullets alone, keeps the slots filled only by enemy shots. */
  lemma EnemyShotsStep(b0: seq<Bullet>, b1: seq<Bullet>, b2: seq<Bullet>, from: Vec)
    requires EnemyShotsOnly(b0, b1)
    requires b2 == b1 || ShotIntoLowestFree(b1, b2, from, false)
    ensures EnemyShotsOnly(b0, b2)
  {
    if b2 != b1 && !AllBulletsActive(b1) {
      var k := LowestFreeFrom(b1, 0);
      assert b2 == b1[k := b2[k]];
    }
  }

  /** The gun may fire: the cooldown is over, the ship is alive and a bullet slot is free. */
  ghost predicate CanFire(fireDelay: real, ship: Spaceship, bullets: seq<Bullet>) {
    fireDelay <= 0.0 && ship.isAlive && !AllBulletsActive(bullets)
  }

  /**
   * The bullet slots after the player's shot: only the lowest free slot has
   * changed, to a live player bullet at the ship leaving along its heading.
   */
  ghost predicate PlayerShot(m: Math, before: seq<Bullet>, after: seq<Bullet>, ship: Spaceship) {
    exists k :: LowestFreeBullet(before, k) &&
      after == before[k := Bullet(ship.position, Polar(m, ship.rotation - 90.0, BULLET_SPEED), BULLET_LIFETIME, true, true)]
  }

  /** `k` is the lowest inactive UFO slot. */
  ghost predicate LowestFreeUfo(s: seq<Ufo>, k: int) {
    0 <= k < |s| && !s[k].isActive && forall j :: 0 <= j < k ==> s[j].isActive
  }

  ghost predicate AllUfosActive(s: seq<Ufo>) {
    forall j :: 0 <= j < |s| ==> s[j].isActive
  }

  /**
   * The UFO slots and sound log after SpawnUFO: unchanged when both slots are
   * taken, otherwise the lowest free slot holds a UFO entering from a side
   * edge at its type's speed towards the other side, in the middle 60% of
   * the height, large while the score is below SMALL_UFO_SCORE, and its
   * sound plays.
   */
  ghost predicate UfoLaunched(before: seq<Ufo>, after: seq<Ufo>, soundsBefore: seq<Sound>, soundsAfter: seq<Sound>,
                              score: int, width: real, height: real) {
    && |after| == |before|
    && (AllUfosActive(before) ==> after == before && soundsAfter == soundsBefore)
    && (forall k :: LowestFreeUfo(before, k) ==>
          && after == before[k := after[k]]
          && after[k].isActive && after[k].shootTimer == 0.0 && after[k].moveTimer == 0.0
          && ((after[k].position.x == 0.0 && after[k].direction == 1) ||
              (after[k].position.x == width && after[k].direction == -1))
          && after[k].velocity == Vec(UfoSpeed(after[k].kind) * after[k].direction as real, 0.0)
          && (0.0 <= height ==> height * 0.2 <= after[k].position.y <= height * 0.8)
          && (score < SMALL_UFO_SCORE ==> after[k].kind == LargeUfo)
          && soundsAfter == soundsBefore + [UfoSound])
  }

  /** Bullet `b` touches live asteroid `a`. */
  predicate BulletHitsAsteroid(b: Bullet, a: Asteroid) {
    a.isActive && Overlap(b.position, BULLET_RADIUS, a.position, a.radius)
  }

  ghost predicate FirstAsteroidHit(b: Bullet, s: seq<Asteroid>, j: int) {
    0 <= j < |s| && BulletHitsAsteroid(b, s[j]) && forall i :: 0 <= i < j ==> !BulletHitsAsteroid(b, s[i])
  }

  ghost predicate NoAsteroidHit(b: Bullet, s: seq<Asteroid>) {
    forall i :: 0 <= i < |s| ==> !BulletHitsAsteroid(b, s[i])
  }

  /** The lowest asteroid slot bullet `b` hits, or -1. */
  method FindAsteroidHit(b: Bullet, rocks: array<Asteroid>) returns (j: int)
    ensures j == -1 <==> NoAsteroidHit(b, rocks[..])
    ensures j != -1 ==> FirstAsteroidHit(b, rocks[..], j)
  {
    j := 0;
    while j < rocks.Length
      invariant 0 <= j <= rocks.Length
      invariant forall i :: 0 <= i < j ==> !BulletHitsAsteroid(b, rocks[i])
    {
      if rocks[j].isActive && Overlap(b.position, BULLET_RADIUS, rocks[j].position, rocks[j].radius) {
        return;
      }
      j := j + 1;
    }
    j := -1;
  }

  /** Bullet `b` is a player bullet touching live UFO `u`. */
  predicate BulletHitsUfo(b: Bullet, u: Ufo) {
    u.isActive && b.fromPlayer && Overlap(b.position, BULLET_RADIUS, u.position, UFO_SIZE)
  }

  ghost predicate FirstUfoHit(b: Bullet, s: seq<Ufo>, j: int) {
    0 <= j < |s| && BulletHitsUfo(b, s[j]) && forall i :: 0 <= i < j ==> !BulletHitsUfo(b, s[i])
  }

  ghost predicate NoUfoHit(b: Bullet, s: seq<Ufo>) {
    forall i :: 0 <= i < |s| ==> !BulletHitsUfo(b, s[i])
  }

  /** Enemy bullets never hit a UFO. */
  lemma EnemyBulletsSpareUfos(b: Bullet, s: seq<Ufo>)
    requires !b.fromPlayer
    ensures NoUfoHit(b, s)
  {
  }

  /** The lowest UFO slot bullet `b` hits, or -1. */
  method FindUfoHit(b: Bullet, saucers: array<Ufo>) returns (j: int)
    ensures j == -1 <==> NoUfoHit(b, saucers[..])
    ensures j != -1 ==> FirstUfoHit(b, saucers[..], j)
  {
    j := 0;
    while j < saucers.Length
      invariant 0 <= j <= saucers.Length
      invariant forall i :: 0 <= i < j ==> !BulletHitsUfo(b, saucers[i])
    {
      if saucers[j].isActive && b.fromPlayer && Overlap(b.position, BULLET_RADIUS, saucers[j].position, UFO_SIZE) {
        return;
      }
      j := j + 1;
    }
    j := -1;
  }

  /** The ship can be hit: alive and no longer invulnerable. */
  predicate Exposed(ship: Spaceship) {
    ship.isAlive && !IsSpaceshipInvulnerable(ship)
  }

  /** Enemy bullet `b` hits an exposed ship. */
  predicate ShotDown(b: Bullet, ship: Spaceship) {
    !b.fromPlayer && Exposed(ship) && Overlap(b.position, BULLET_RADIUS, ship.position, SPACESHIP_SIZE)
  }

  predicate ShipTouchesAsteroid(ship: Spaceship, a: Asteroid) {
    a.isActive && Overlap(ship.position, SPACESHIP_SIZE, a.position, a.radius)
  }

  predicate ShipTouchesUfo(ship: Spaceship, u: Ufo) {
    u.isActive && Overlap(ship.position, SPACESHIP_SIZE, u.position, UFO_SIZE)
  }

  ghost predicate FirstUfoRammed(ship: Spaceship, s: seq<Ufo>, j: int) {
    0 <= j < |s| && ShipTouchesUfo(ship, s[j]) && forall i :: 0 <= i < j ==> !ShipTouchesUfo(ship, s[i])
  }

  // ------------------------------------------------------ one tick, part by part

  /**
   * Every field of the game state that a tick or a key press can change, as
   * one value. The relations below say what each part of a tick does to it.
   */
  datatype World = World(
    ship: Spaceship,
    asteroids: seq<Asteroid>,
    bullets: seq<Bullet>,
    ufos: seq<Ufo>,
    phase: Phase,
    score: int,
    highScore: int,
    level: int,
    asteroidCount: int,
    ufoSpawnTimer: real,
    nextUfoSpawn: real,
    fireDelay: real,
    nextLevelDelay: real,
    respawnDelay: real,
    showingHighScore: bool,
    sounds: seq<Sound>)

  /** The score went up from `s0`, the high score followed it and the banner flags a new record. */
  ghost predicate ScoreRose(s0: int, h0: int, shown0: bool, s1: int, h1: int, shown1: bool) {
    && s0 <= s1
    && h1 == Max(h0, s1)
    && shown1 == (shown0 || s1 > h0)
  }

  /**
   * Bullet `i` has hit live asteroid `hit` of `w`: a player bullet scores the
   * asteroid's points; a non-small asteroid splits into the lowest free slot
   * and the next free one above it when two are free, the children flying
   * apart at one speed; the asteroid and the
   * bullet are destroyed and an explosion sounds.
   */
  ghost predicate Shattered(m: Math, w: World, v: World, i: int, hit: int) {
    && 0 <= i < |w.bullets| && 0 <= hit < |w.asteroids| && |v.asteroids| == |w.asteroids|
    && (var parent := w.asteroids[hit];
        var split := parent.size != Small && !NoTwoFree(w.asteroids);
        && v == w.(asteroids := v.asteroids,
                   bullets := w.bullets[i := w.bullets[i].(isActive := false)],
                   score := w.score + (if w.bullets[i].fromPlayer then GetAsteroidPoints(parent.size) else 0),
                   highScore := v.highScore,
                   showingHighScore := v.showingHighScore,
                   asteroidCount := w.asteroidCount + (if split then 1 else -1),
                   sounds := w.sounds + [ExplosionSound])
        && ScoreRose(w.score, w.highScore, w.showingHighScore, v.score, v.highScore, v.showingHighScore)
        && v.asteroids[hit] == parent.(isActive := false, shape := None)
        && (!split ==> v.asteroids == w.asteroids[hit := v.asteroids[hit]])
        && (split ==>
              exists k, l :: && SplitSlots(w.asteroids, k, l)
                             && SplitChild(parent, v.asteroids[k]) && SplitChild(parent, v.asteroids[l])
                             && SplitApart(m, v.asteroids[k], v.asteroids[l])
                             && v.asteroids == w.asteroids[k := v.asteroids[k]][l := v.asteroids[l]][hit := v.asteroids[hit]]))
  }

  /**
   * Bullet `i` against the asteroids of `w`: `hit` is -1 and nothing changes
   * when it touches none; otherwise `hit` is the first live asteroid it
   * touches, and that asteroid is shattered.
   */
  ghost predicate AsteroidPassed(m: Math, w: World, v: World, i: int, hit: int) {
    && 0 <= i < |w.bullets|
    && (hit == -1 ==> NoAsteroidHit(w.bullets[i], w.asteroids) && v == w)
    && (hit != -1 ==> FirstAsteroidHit(w.bullets[i], w.asteroids, hit) && Shattered(m, w, v, i, hit))
  }

  /**
   * Bullet `i` against the UFOs of `w`, whether or not it is still live:
   * `hit` is -1 and nothing changes unless it is a player bullet touching a
   * live UFO; otherwise `hit` is the first UFO it touches, its points are
   * scored, the UFO and the bullet are destroyed and an explosion sounds.
   */
  ghost predicate UfoPassed(w: World, v: World, i: int, hit: int) {
    && 0 <= i < |w.bullets|
    && (hit == -1 ==> NoUfoHit(w.bullets[i], w.ufos) && v == w)
    && (hit != -1 ==>
          && FirstUfoHit(w.bullets[i], w.ufos, hit)
          && v == w.(ufos := w.ufos[hit := w.ufos[hit].(isActive := false)],
                     bullets := w.bullets[i := w.bullets[i].(isActive := false)],
                     score := w.score + GetUfoPoints(w.ufos[hit].kind),
                     highScore := v.highScore,
                     showingHighScore := v.showingHighScore,
                     sounds := w.sounds + [ExplosionSound])
          && ScoreRose(w.score, w.highScore, w.showingHighScore, v.score, v.highScore, v.showingHighScore))
  }

  /** Bullet `i` against the ship: an enemy bullet touching the exposed ship kills it and is spent, with an explosion. */
  ghost predicate ShipPassed(w: World, v: World, i: int) {
    && 0 <= i < |w.bullets|
    && v == if ShotDown(w.bullets[i], w.ship)
            then w.(ship := w.ship.(isAlive := false),
                    bullets := w.bullets[i := w.bullets[i].(isActive := false)],
                    sounds := w.sounds + [ExplosionSound])
            else w
  }

  /**
   * One bullet of the collision sweep: a spent bullet changes nothing; a live
   * one meets the asteroids, then the UFOs, then the ship, each pass seeing
   * what the one before it left.
   */
  ghost predicate BulletStep(m: Math, w: World, v: World, i: int) {
    && 0 <= i < |w.bullets|
    && (!w.bullets[i].isActive ==> v == w)
    && (w.bullets[i].isActive ==>
          exists w1, w2, a, u :: AsteroidPassed(m, w, w1, i, a) && UfoPassed(w1, w2, i, u) && ShipPassed(w2, v, i))
  }

  /**
   * The exposed ship against the asteroids, then against the UFOs, both
   * judged by its exposure before either check: `rock` is the first live
   * asteroid it touches and `saucer` the first live UFO, or -1. Either kills
   * the ship with an explosion; the asteroid stays, the UFO is destroyed.
   */
  ghost predicate ShipCollided(w: World, v: World, rock: int, saucer: int) {
    && (!Exposed(w.ship) ==> rock == -1 && saucer == -1)
    && (rock != -1 ==>
          && 0 <= rock < |w.asteroids| && ShipTouchesAsteroid(w.ship, w.asteroids[rock])
          && forall j :: 0 <= j < rock ==> !ShipTouchesAsteroid(w.ship, w.asteroids[j]))
    && (Exposed(w.ship) && rock == -1 ==>
          forall j :: 0 <= j < |w.asteroids| ==> !ShipTouchesAsteroid(w.ship, w.asteroids[j]))
    && (saucer != -1 ==> FirstUfoRammed(w.ship, w.ufos, saucer))
    && (Exposed(w.ship) && saucer == -1 ==>
          forall j :: 0 <= j < |w.ufos| ==> !ShipTouchesUfo(w.ship, w.ufos[j]))
    && v == w.(ship := w.ship.(isAlive := w.ship.isAlive && rock == -1 && saucer == -1),
               ufos := if saucer == -1 then w.ufos else w.ufos[saucer := w.ufos[saucer].(isActive := false)],
               sounds := w.sounds + (if rock == -1 then [] else [ExplosionSound])
                                  + (if saucer == -1 then [] else [ExplosionSound]))
  }

  /** The worlds between the bullet steps of the collision sweep, before bullet 0 to after the last bullet. */
  ghost predicate Swept(m: Math, sweep: seq<World>) {
    && |sweep| == MAX_BULLETS + 1
    && forall k :: 0 <= k < MAX_BULLETS ==> BulletStep(m, sweep[k], sweep[k + 1], k)
  }

  /** CheckCollisions: every bullet slot in order, then the ship. */
  ghost predicate Collided(m: Math, w: World, v: World) {
    exists sweep, rock, saucer :: Swept(m, sweep) && sweep[0] == w && ShipCollided(sweep[MAX_BULLETS], v, rock, saucer)
  }

  /**
   * What collisions can do: the score only rises, bullets, UFOs and an
   * exposed ship can only be switched off, and the phase, level, lives and
   * timers are left alone.
   */
  ghost predicate SwitchedOff(w: World, v: World) {
    && v == w.(ship := v.ship, asteroids := v.asteroids, bullets := v.bullets, ufos := v.ufos,
               score := v.score, highScore := v.highScore, showingHighScore := v.showingHighScore,
               asteroidCount := v.asteroidCount, sounds := v.sounds)
    && ScoreRose(w.score, w.highScore, w.showingHighScore, v.score, v.highScore, v.showingHighScore)
    && |v.bullets| == |w.bullets| && |v.ufos| == |w.ufos|
    && (forall j :: 0 <= j < |w.bullets| ==>
          v.bullets[j] == w.bullets[j] || v.bullets[j] == w.bullets[j].(isActive := false))
    && (forall j :: 0 <= j < |w.ufos| ==> v.ufos[j] == w.ufos[j] || v.ufos[j] == w.ufos[j].(isActive := false))
    && (v.ship == w.ship || (Exposed(w.ship) && v.ship == w.ship.(isAlive := false)))
  }

  lemma SwitchedOffTrans(u: World, v: World, w: World)
    requires SwitchedOff(u, v) && SwitchedOff(v, w)
    ensures SwitchedOff(u, w)
  {
  }

  lemma AsteroidPassSwitchesOff(m: Math, w: World, v: World, i: int, hit: int)
    requires AsteroidPassed(m, w, v, i, hit) && w.score <= w.highScore
    ensures SwitchedOff(w, v) && v.score <= v.highScore
  {
  }

  lemma UfoPassSwitchesOff(w: World, v: World, i: int, hit: int)
    requires UfoPassed(w, v, i, hit) && w.score <= w.highScore
    ensures SwitchedOff(w, v) && v.score <= v.highScore
  {
  }

  lemma ShipPassSwitchesOff(w: World, v: World, i: int)
    requires ShipPassed(w, v, i) && w.score <= w.highScore
    ensures SwitchedOff(w, v) && v.score <= v.highScore
  {
  }

  /** A bullet step only switches things off, and keeps the high score at or above the score. */
  lemma {:induction false} BulletStepSwitchesOff(m: Math, w: World, v: World, i: int)
    requires BulletStep(m, w, v, i) && w.score <= w.highScore
    ensures SwitchedOff(w, v) && v.score <= v.highScore
  {
    if w.bullets[i].isActive {
      var w1, w2, a, u :| AsteroidPassed(m, w, w1, i, a) && UfoPassed(w1, w2, i, u) && ShipPassed(w2, v, i);
      AsteroidPassSwitchesOff(m, w, w1, i, a);
      UfoPassSwitchesOff(w1, w2, i, u);
      ShipPassSwitchesOff(w2, v, i);
      SwitchedOffTrans(w, w1, w2);
      SwitchedOffTrans(w, w2, v);
    }
  }

  lemma ShipCollidedSwitchesOff(w: World, v: World, rock: int, saucer: int)
    requires ShipCollided(w, v, rock, saucer) && w.score <= w.highScore
    ensures SwitchedOff(w, v)
  {
  }

  /** The first `n` bullet steps of a sweep only switch things off. */
  lemma {:induction false} SweepSwitchesOff(m: Math, sweep: seq<World>, n: int)
    requires Swept(m, sweep) && 0 <= n <= MAX_BULLETS && sweep[0].score <= sweep[0].highScore
    ensures SwitchedOff(sweep[0], sweep[n]) && sweep[n].score <= sweep[n].highScore
  {
    if n > 0 {
      SweepSwitchesOff(m, sweep, n - 1);
      BulletStepSwitchesOff(m, sweep[n - 1], sweep[n], n - 1);
      SwitchedOffTrans(sweep[0], sweep[n - 1], sweep[n]);
    }
  }

  /** All of CheckCollisions only switches things off. */
  lemma {:induction false} CollidedSwitchesOff(m: Math, w: World, v: World)
    requires Collided(m, w, v) && w.score <= w.highScore
    ensures SwitchedOff(w, v)
  {
    var sweep, rock, saucer :| Swept(m, sweep) && sweep[0] == w && ShipCollided(sweep[MAX_BULLETS], v, rock, saucer);
    SweepSwitchesOff(m, sweep, MAX_BULLETS);
    ShipCollidedSwitchesOff(sweep[MAX_BULLETS], v, rock, saucer);
    SwitchedOffTrans(w, sweep[MAX_BULLETS], v);
  }

  /** The asteroid slots after UpdateAsteroid on each: live ones drift, free ones stay. */
  function DriftAll(s: seq<Asteroid>, dt: real, width: real, height: real): (r: seq<Asteroid>)
    ensures |r| == |s|
    ensures forall j :: 0 <= j < |s| ==> r[j].isActive == s[j].isActive && (WellFormed(s[j]) ==> WellFormed(r[j]))
    ensures 0.0 <= width && 0.0 <= height ==>
      forall j :: 0 <= j < |r| && r[j].isActive ==> InBounds(r[j].position, width, height)
  {
    seq(|s|, j requires 0 <= j < |s| => if s[j].isActive then Drifted(s[j], dt, width, height) else s[j])
  }

  /** The bullet slots after UpdateBullet on each: live ones fly and age, free ones stay; none comes back to life. */
  function FlyAll(s: seq<Bullet>, dt: real, width: real, height: real): (r: seq<Bullet>)
    ensures |r| == |s|
    ensures forall j :: 0 <= j < |s| && r[j].isActive ==> s[j].isActive
  {
    seq(|s|, j requires 0 <= j < |s| => if s[j].isActive then Flown(s[j], dt, width, height) else s[j])
  }

  /**
   * The UFO slots in order, each stepped by UpdateUfo towards `target`;
   * `shots` lists the bullet slots before the first UFO, between the two and
   * after the last.
   */
  ghost predicate UfosFlew(m: Math, before: seq<Ufo>, after: seq<Ufo>, shots: seq<seq<Bullet>>,
                           dt: real, target: Spaceship, width: real) {
    && |after| == |before| && |shots| == |before| + 1
    && forall j :: 0 <= j < |before| ==>
         UfoStepped(m, before[j], after[j], dt, target, shots[j], shots[j + 1], width)
  }

  /** UFO shots only turn free bullet slots into live enemy bullets. */
  lemma {:induction false} UfoShotsOnlyFill(m: Math, before: seq<Ufo>, after: seq<Ufo>, shots: seq<seq<Bullet>>,
                                            dt: real, target: Spaceship, width: real, n: int)
    requires UfosFlew(m, before, after, shots, dt, target, width) && 0 <= n <= |before|
    ensures EnemyShotsOnly(shots[0], shots[n])
  {
    if n > 0 {
      UfoShotsOnlyFill(m, before, after, shots, dt, target, width, n - 1);
      assert UfoStepped(m, before[n - 1], after[n - 1], dt, target, shots[n - 1], shots[n], width);
      EnemyShotsStep(shots[0], shots[n - 1], shots[n], after[n - 1].position);
    }
  }

  /**
   * The movement part of a tick: the ship flies and wraps, live asteroids
   * drift and live bullets fly, then the UFOs fly in slot order, each maybe
   * shooting into the bullet slots the one before it left, aimed at the
   * ship where it now is.
   */
  ghost predicate Moved(m: Math, w: World, v: World, dt: real, width: real, height: real) {
    && v == w.(ship := Piloted(m, w.ship, dt, width, height),
               asteroids := DriftAll(w.asteroids, dt, width, height),
               bullets := v.bullets,
               ufos := v.ufos)
    && exists shots :: && UfosFlew(m, w.ufos, v.ufos, shots, dt, v.ship, width)
                       && shots[0] == FlyAll(w.bullets, dt, width, height)
                       && shots[|w.ufos|] == v.bullets
  }

  /** The UFO spawn clock: past the level's interval a UFO is launched and the clock restarts. */
  ghost predicate SpawnTicked(w: World, v: World, dt: real, width: real, height: real) {
    if w.ufoSpawnTimer + dt > w.nextUfoSpawn
    then && v == w.(ufos := v.ufos, sounds := v.sounds, ufoSpawnTimer := 0.0)
         && UfoLaunched(w.ufos, v.ufos, w.sounds, v.sounds, w.score, width, height)
    else v == w.(ufoSpawnTimer := w.ufoSpawnTimer + dt)
  }

  /** The two clocks of a tick: the UFO spawn clock, then the gun cooldown. */
  ghost predicate ClocksRan(w: World, v: World, dt: real, width: real, height: real) {
    SpawnTicked(w, v.(fireDelay := w.fireDelay), dt, width, height) && v.fireDelay == CountDown(w.fireDelay, dt)
  }

  /**
   * StepWorld: the entities move, the UFO clock runs, the gun cools down and
   * the collisions resolve, in that order.
   */
  ghost predicate WorldStepped(m: Math, w: World, v: World, dt: real, width: real, height: real) {
    exists w1, w2 :: Moved(m, w, w1, dt, width, height) && ClocksRan(w1, w2, dt, width, height) && Collided(m, w2, v)
  }

  /** The three parts of StepWorld, composed. */
  lemma WorldSteppedVia(m: Math, w: World, w1: World, w2: World, v: World, dt: real, width: real, height: real)
    requires Moved(m, w, w1, dt, width, height) && ClocksRan(w1, w2, dt, width, height) && Collided(m, w2, v)
    ensures WorldStepped(m, w, v, dt, width, height)
  {
  }

  /** Level `n` has just started on an empty field, its asteroids placed clear of `avoid`. */
  ghost predicate LevelStarted(m: Math, w: World, n: int, avoid: Vec, width: real, height: real) {
    && w.level == n && w.asteroidCount == LevelAsteroidCount(n)
    && (forall j :: 0 <= j < |w.asteroids| ==> (w.asteroids[j].isActive <==> j < w.asteroidCount))
    && (forall j :: 0 <= j < w.asteroidCount && j < |w.asteroids| ==> FreshLarge(m, w.asteroids[j], avoid, width, height))
    && w.nextUfoSpawn == UfoSpawnTime(n) && w.ufoSpawnTimer == 0.0
  }

  /**
   * The level clock: it runs only while no asteroid is left, and once it
   * passes NEXT_LEVEL_DELAY the next level starts, clear of the ship.
   */
  ghost predicate LevelAdvanced(m: Math, w: World, v: World, dt: real, width: real, height: real) {
    if w.asteroidCount != 0 then v == w
    else if w.nextLevelDelay + dt <= NEXT_LEVEL_DELAY then v == w.(nextLevelDelay := w.nextLevelDelay + dt)
    else NextLevelBegun(m, w.(nextLevelDelay := w.nextLevelDelay + dt), v, width, height)
  }

  /** The level goes up by one, its asteroids are spawned clear of the ship and the level clock restarts. */
  ghost predicate NextLevelBegun(m: Math, w: World, v: World, width: real, height: real) {
    && v == w.(level := v.level, asteroids := v.asteroids, asteroidCount := v.asteroidCount,
               nextUfoSpawn := v.nextUfoSpawn, ufoSpawnTimer := v.ufoSpawnTimer, nextLevelDelay := 0.0)
    && LevelStarted(m, v, w.level + 1, w.ship.position, width, height)
  }

  /**
   * The death sequence: a fresh death costs a life and starts the respawn
   * countdown; when it runs out the ship respawns at the centre with the
   * lives it has, or with none left the game is over.
   */
  ghost predicate DeathResolved(w: World, v: World, dt: real, width: real, height: real) {
    if w.ship.isAlive then v == w
    else if w.respawnDelay == 0.0 then v == w.(ship := w.ship.(lives := w.ship.lives - 1), respawnDelay := RESPAWN_DELAY)
    else if w.respawnDelay - dt > 0.0 then v == w.(respawnDelay := w.respawnDelay - dt)
    else if 0 < w.ship.lives
    then && v == w.(ship := v.ship, respawnDelay := 0.0)
         && ReadyAt(v.ship, width / 2.0, height / 2.0) && v.ship.lives == w.ship.lives
    else v == w.(respawnDelay := 0.0, phase := Phase.GameOver)
  }

  /** The bookkeeping after the world step: the level clock, then the death sequence. */
  ghost predicate Concluded(m: Math, w: World, v: World, dt: real, width: real, height: real) {
    exists w2 :: LevelAdvanced(m, w, w2, dt, width, height) && DeathResolved(w2, v, dt, width, height)
  }

  /** UpdateGame: nothing outside PLAYING; while playing the world steps, then the level and the death sequence. */
  ghost predicate Ticked(m: Math, w: World, v: World, dt: real, width: real, height: real) {
    if w.phase != Playing then v == w
    else exists w1 :: WorldStepped(m, w, w1, dt, width, height) && Concluded(m, w1, v, dt, width, height)
  }

  /**
   * The movement, spawn and collision part of a tick only raises the score,
   * can kill the ship but never revives it, keeps its lives, counts the gun
   * cooldown down, and leaves the phase, level and level and respawn clocks.
   */
  lemma {:induction false} StepKeepsLivesAndScore(m: Math, w: World, v: World, dt: real, width: real, height: real)
    requires WorldStepped(m, w, v, dt, width, height) && w.score <= w.highScore
    ensures ScoreRose(w.score, w.highScore, w.showingHighScore, v.score, v.highScore, v.showingHighScore)
    ensures v.ship.lives == w.ship.lives && (v.ship.isAlive ==> w.ship.isAlive)
    ensures v.fireDelay == CountDown(w.fireDelay, dt)
    ensures v.phase == w.phase && v.level == w.level
    ensures v.respawnDelay == w.respawnDelay && v.nextLevelDelay == w.nextLevelDelay
  {
    var w1, w2 :| Moved(m, w, w1, dt, width, height) && ClocksRan(w1, w2, dt, width, height) && Collided(m, w2, v);
    MovedLeavesScore(m, w, w1, dt, width, height);
    SpawnLeavesScore(w1, w2.(fireDelay := w1.fireDelay), dt, width, height);
    CollidedSwitchesOff(m, w2, v);
  }

  /** Movement keeps the ship's life and lives and touches no score, phase, level or clock. */
  lemma MovedLeavesScore(m: Math, w: World, v: World, dt: real, width: real, height: real)
    requires Moved(m, w, v, dt, width, height)
    ensures v.ship.lives == w.ship.lives && v.ship.isAlive == w.ship.isAlive
    ensures v.score == w.score && v.highScore == w.highScore && v.showingHighScore == w.showingHighScore
    ensures v.phase == w.phase && v.level == w.level && v.fireDelay == w.fireDelay
    ensures v.respawnDelay == w.respawnDelay && v.nextLevelDelay == w.nextLevelDelay
  {
    PilotedFacts(m, w.ship, dt, width, height);
  }

  /** The UFO clock leaves the ship, the score, the phase, the level and the other clocks alone. */
  lemma SpawnLeavesScore(w: World, v: World, dt: real, width: real, height: real)
    requires SpawnTicked(w, v, dt, width, height)
    ensures v.ship == w.ship
    ensures v.score == w.score && v.highScore == w.highScore && v.showingHighScore == w.showingHighScore
    ensures v.phase == w.phase && v.level == w.level && v.fireDelay == w.fireDelay
    ensures v.respawnDelay == w.respawnDelay && v.nextLevelDelay == w.nextLevelDelay
  {
  }

  /** The level clock touches only the asteroids, the level and the level and UFO clocks; the level goes up by at most one. */
  lemma LevelLeavesShip(m: Math, w: World, v: World, dt: real, width: real, height: real)
    requires LevelAdvanced(m, w, v, dt, width, height)
    ensures v.ship == w.ship && v.phase == w.phase && v.respawnDelay == w.respawnDelay && v.fireDelay == w.fireDelay
    ensures v.score == w.score && v.highScore == w.highScore && v.showingHighScore == w.showingHighScore
    ensures v.level == w.level || v.level == w.level + 1
  {
  }

  /**
   * The death sequence ends the game only with no lives and a dead ship,
   * takes a life exactly when it books a fresh death, and then starts the
   * respawn countdown.
   */
  lemma DeathBooksLives(w: World, v: World, dt: real, width: real, height: real)
    requires DeathResolved(w, v, dt, width, height) && w.phase == Playing
    ensures v.phase == Playing || v.phase == Phase.GameOver
    ensures v.phase == Phase.GameOver ==> v.ship.lives <= 0 && !v.ship.isAlive
    ensures v.ship.lives == w.ship.lives - (if w.respawnDelay == 0.0 && !v.ship.isAlive then 1 else 0)
    ensures v.ship.lives < w.ship.lives ==> v.respawnDelay == RESPAWN_DELAY
    ensures v.score == w.score && v.highScore == w.highScore && v.showingHighScore == w.showingHighScore
    ensures v.level == w.level && v.fireDelay == w.fireDelay
  {
  }

  /**
   * A playing tick keeps playing or ends the game with no lives and a dead
   * ship; the score only rises; a life is lost exactly on the tick a death
   * is booked, which starts the respawn countdown; the level goes up by at
   * most one; and the gun cooldown counts down.
   */
  lemma {:induction false} TickBooksLives(m: Math, w: World, v: World, dt: real, width: real, height: real)
    requires Ticked(m, w, v, dt, width, height) && w.phase == Playing && w.score <= w.highScore
    ensures v.phase == Playing || v.phase == Phase.GameOver
    ensures v.phase == Phase.GameOver ==> v.ship.lives <= 0 && !v.ship.isAlive
    ensures ScoreRose(w.score, w.highScore, w.showingHighScore, v.score, v.highScore, v.showingHighScore)
    ensures v.ship.lives == w.ship.lives - (if w.respawnDelay == 0.0 && !v.ship.isAlive then 1 else 0)
    ensures v.ship.lives < w.ship.lives ==> v.respawnDelay == RESPAWN_DELAY
    ensures v.level == w.level || v.level == w.level + 1
    ensures v.fireDelay == CountDown(w.fireDelay, dt)
  {
    var w1 :| WorldStepped(m, w, w1, dt, width, height) && Concluded(m, w1, v, dt, width, height);
    var w2 :| LevelAdvanced(m, w1, w2, dt, width, height) && DeathResolved(w2, v, dt, width, height);
    StepKeepsLivesAndScore(m, w, w1, dt, width, height);
    LevelLeavesShip(m, w1, w2, dt, width, height);
    DeathBooksLives(w2, v, dt, width, height);
  }

  class GameState {
    var ship: Spaceship
    const asteroids: array<Asteroid>
    const bullets: array<Bullet>
    const ufos: array<Ufo>
    /** The source's `state` field. */
    var phase: Phase
    var score: int
    var highScore: int
    var level: int
    var asteroidCount: int
    var screenWidth: real
    var screenHeight: real
    var ufoSpawnTimer: real
    var nextUfoSpawn: real
    var fireDelay: real
    var nextLevelDelay: real
    var respawnDelay: real
    var showingHighScore: bool
    /** Every sound effect triggered so far, oldest first. */
    var sounds: seq<Sound>
    /** The trigonometry and square root of the platform. */
    const math: Math

    /**
     * The slot arrays have their capacities, `asteroidCount` is the number of
     * live asteroid slots, every asteroid slot owns an outline exactly while
     * live, the high score bounds the score, and a live ship has no respawn
     * countdown running.
     */
    ghost predicate Valid()
      reads this, asteroids
    {
      && asteroids.Length == MAX_ASTEROIDS && bullets.Length == MAX_BULLETS && ufos.Length == MAX_UFOS
      && asteroidCount == ActiveCount(asteroids[..])
      && (forall i :: 0 <= i < asteroids.Length ==> WellFormed(asteroids[i]))
      && score <= highScore && 0 <= highScore
      && 0 <= level
      && 0.0 <= respawnDelay && (ship.isAlive ==> respawnDelay == 0.0)
      && MIN_SCREEN_WIDTH <= screenWidth && 0.0 <= screenHeight
    }

    /** The current value of every field a tick or a key can change. */
    ghost function Snap(): World
      reads this, asteroids, bullets, ufos
    {
      World(ship, asteroids[..], bullets[..], ufos[..], phase, score, highScore, level, asteroidCount,
            ufoSpawnTimer, nextUfoSpawn, fireDelay, nextLevelDelay, respawnDelay, showingHighScore, sounds)
    }

    /** CreateGameState: every field zero, as calloc leaves it, apart from the screen size. */
    constructor (m: Math, width: real, height: real)
      requires MIN_SCREEN_WIDTH <= width && 0.0 <= height
      ensures Valid()
      ensures fresh(asteroids) && fresh(bullets) && fresh(ufos)
      ensures math == m && screenWidth == width && screenHeight == height
      ensures phase == Menu && score == 0 && highScore == 0 && level == 0 && asteroidCount == 0
      ensures ship == ZERO_SHIP && !showingHighScore && sounds == []
      ensures ufoSpawnTimer == 0.0 && nextUfoSpawn == 0.0 && fireDelay == 0.0
      ensures nextLevelDelay == 0.0 && respawnDelay == 0.0
      ensures forall i :: 0 <= i < asteroids.Length ==> asteroids[i] == EMPTY_ASTEROID
      ensures forall i :: 0 <= i < bullets.Length ==> bullets[i] == EMPTY_BULLET
      ensures forall i :: 0 <= i < ufos.Length ==> ufos[i] == EMPTY_UFO
    {
      ship := ZERO_SHIP;
      asteroids := new Asteroid[MAX_ASTEROIDS](_ => EMPTY_ASTEROID);
      bullets := new Bullet[MAX_BULLETS](_ => EMPTY_BULLET);
      ufos := new Ufo[MAX_UFOS](_ => EMPTY_UFO);
      phase := Menu;
      score := 0;
      highScore := 0;
      level := 0;
      asteroidCount := 0;
      screenWidth := width;
      screenHeight := height;
      ufoSpawnTimer := 0.0;
      nextUfoSpawn := 0.0;
      fireDelay := 0.0;
      nextLevelDelay := 0.0;
      respawnDelay := 0.0;
      showingHighScore := false;
      sounds := [];
      math := m;
      new;
      ActiveCountZero(asteroids[..]);
    }

    method InitGame()
      requires Valid()
      modifies this`phase, this`showingHighScore
      ensures Valid()
      ensures phase == Menu && !showingHighScore
    {
      phase := Menu;
      showingHighScore := false;
    }

    /** One spawn: a fresh large asteroid in free slot `i`, clear of the ship. */
    method SpawnInSlot(rng: Random, i: int)
      requires Valid() && 0 <= i < MAX_ASTEROIDS && !asteroids[i].isActive
      modifies asteroids, this`asteroidCount, rng
      ensures Valid()
      ensures asteroids[..] == old(asteroids[..])[i := asteroids[i]]
      ensures FreshLarge(math, asteroids[i], ship.position, screenWidth, screenHeight)
      ensures asteroidCount == old(asteroidCount) + 1
    {
      var p := SpawnPoint(rng, ship.position, screenWidth, screenHeight);
      var a := InitAsteroid(math, rng, p.x, p.y, Large);
      ActiveCountUpdate(asteroids[..], i, a);
      asteroids[i] := a;
      asteroidCount := asteroidCount + 1;
    }

    /**
     * Fills free asteroid slots in increasing index order with fresh large
     * asteroids until `count` have been placed or the slots run out.
     */
    method SpawnAsteroids(rng: Random, count: int)
      requires Valid()
      modifies asteroids, this`asteroidCount, rng
      ensures Valid()
      ensures SpawnedInFreeSlots(math, old(asteroids[..]), asteroids[..], count, ship.position, screenWidth, screenHeight)
      ensures asteroidCount == old(asteroidCount) + SpawnTotal(count, FreeCount(old(asteroids[..])))
    {
      ghost var before := asteroids[..];
      var spawned := 0;
      var i := 0;
      while i < MAX_ASTEROIDS && spawned < count
        invariant 0 <= i <= MAX_ASTEROIDS
        invariant spawned == FreeRank(before, i)
        invariant spawned == 0 || spawned <= count
        invariant asteroidCount == old(asteroidCount) + spawned
        invariant Valid()
        invariant forall j :: i <= j < MAX_ASTEROIDS ==> asteroids[j] == before[j]
        invariant forall j :: 0 <= j < i ==>
          if !before[j].isActive
          then FreeRank(before, j) < count && FreshLarge(math, asteroids[j], ship.position, screenWidth, screenHeight)
          else asteroids[j] == before[j]
      {
        FreeRankStep(before, i);
        if !asteroids[i].isActive {
          SpawnInSlot(rng, i);
          spawned := spawned + 1;
        }
        i := i + 1;
      }
      FreeRankWhole(before);
      FreeRankMonotone(before, i, MAX_ASTEROIDS);
      forall j | i <= j < MAX_ASTEROIDS && !before[j].isActive
        ensures count <= FreeRank(before, j)
      {
        FreeRankMonotone(before, i, j);
      }
    }

    /** Spawns the level's asteroids and sets the level's UFO interval. */
    method StartNewLevel(rng: Random)
      requires Valid()
      modifies asteroids, this`asteroidCount, this`nextUfoSpawn, this`ufoSpawnTimer, rng
      ensures Valid()
      ensures SpawnedInFreeSlots(math, old(asteroids[..]), asteroids[..], LevelAsteroidCount(level),
                                 ship.position, screenWidth, screenHeight)
      ensures asteroidCount == old(asteroidCount) + SpawnTotal(LevelAsteroidCount(level), FreeCount(old(asteroids[..])))
      ensures nextUfoSpawn == UfoSpawnTime(level) && ufoSpawnTimer == 0.0
    {
      var count := INITIAL_ASTEROIDS + (level - 1) * ASTEROIDS_PER_LEVEL;
      if count > MAX_LEVEL_ASTEROIDS {
        count := MAX_LEVEL_ASTEROIDS;
      }
      SpawnAsteroids(rng, count);
      nextUfoSpawn := UFO_BASE_SPAWN_TIME - (level * 2) as real;
      if nextUfoSpawn < UFO_MIN_SPAWN_TIME {
        nextUfoSpawn := UFO_MIN_SPAWN_TIME;
      }
      ufoSpawnTimer := 0.0;
    }

    /** The state right after StartNewGame, whatever came before. */
    ghost predicate AtFirstLevel()
      reads this, asteroids, bullets, ufos
    {
      && phase == Playing && score == 0 && level == 1 && asteroidCount == INITIAL_ASTEROIDS
      && ReadyAt(ship, screenWidth / 2.0, screenHeight / 2.0) && ship.lives == SPACESHIP_LIVES
      && (forall j :: 0 <= j < bullets.Length ==> !bullets[j].isActive)
      && (forall j :: 0 <= j < ufos.Length ==> !ufos[j].isActive)
      && (forall j :: 0 <= j < asteroids.Length ==> (asteroids[j].isActive <==> j < INITIAL_ASTEROIDS))
      && (forall j :: 0 <= j < INITIAL_ASTEROIDS && j < asteroids.Length ==>
            FreshLarge(math, asteroids[j], ship.position, screenWidth, screenHeight))
      && ufoSpawnTimer == 0.0 && nextUfoSpawn == UfoSpawnTime(1)
      && fireDelay == 0.0 && nextLevelDelay == 0.0 && respawnDelay == 0.0
    }

    /** The memset of the three slot arrays. */
    method ClearSlots()
      modifies asteroids, bullets, ufos
      ensures forall i :: 0 <= i < asteroids.Length ==> asteroids[i] == EMPTY_ASTEROID
      ensures forall i :: 0 <= i < bullets.Length ==> bullets[i] == EMPTY_BULLET
      ensures forall i :: 0 <= i < ufos.Length ==> ufos[i] == EMPTY_UFO
    {
      forall i | 0 <= i < asteroids.Length {
        asteroids[i] := EMPTY_ASTEROID;
      }
      forall i | 0 <= i < bullets.Length {
        bullets[i] := EMPTY_BULLET;
      }
      forall i | 0 <= i < ufos.Length {
        ufos[i] := EMPTY_UFO;
      }
    }

    /** Everything StartNewGame clears before the first level is spawned. */
    ghost predicate Cleared()
      reads this, asteroids, bullets, ufos
    {
      && score == 0 && level == 1 && asteroidCount == 0
      && ReadyAt(ship, screenWidth / 2.0, screenHeight / 2.0) && ship.lives == SPACESHIP_LIVES
      && (forall j :: 0 <= j < asteroids.Length ==> !asteroids[j].isActive)
      && (forall j :: 0 <= j < bullets.Length ==> !bullets[j].isActive)
      && (forall j :: 0 <= j < ufos.Length ==> !ufos[j].isActive)
      && ufoSpawnTimer == 0.0 && fireDelay == 0.0 && nextLevelDelay == 0.0 && respawnDelay == 0.0
    }

    method ResetForNewGame()
      requires Valid()
      modifies this`score, this`level, this`asteroidCount, this`ufoSpawnTimer, this`nextUfoSpawn,
               this`fireDelay, this`nextLevelDelay, this`respawnDelay, this`ship, asteroids, bullets, ufos
      ensures Valid() && Cleared()
    {
      ResetCounters();
      ClearSlots();
      ActiveCountZero(asteroids[..]);
    }

    /** The counters and clocks of a new game, and a ready ship at the centre. */
    method ResetCounters()
      modifies this`score, this`level, this`asteroidCount, this`ufoSpawnTimer, this`nextUfoSpawn,
               this`fireDelay, this`nextLevelDelay, this`respawnDelay, this`ship
      ensures score == 0 && level == 1 && asteroidCount == 0
      ensures ufoSpawnTimer == 0.0 && nextUfoSpawn == UFO_BASE_SPAWN_TIME
      ensures fireDelay == 0.0 && nextLevelDelay == 0.0 && respawnDelay == 0.0
      ensures ReadyAt(ship, screenWidth / 2.0, screenHeight / 2.0) && ship.lives == SPACESHIP_LIVES
    {
      score := 0;
      level := 1;
      asteroidCount := 0;
      ufoSpawnTimer := 0.0;
      nextUfoSpawn := UFO_BASE_SPAWN_TIME;
      fireDelay := 0.0;
      nextLevelDelay := 0.0;
      respawnDelay := 0.0;
      ship := InitSpaceship(screenWidth / 2.0, screenHeight / 2.0);
    }

    method StartNewGame(rng: Random)
      requires Valid()
      modifies this, asteroids, bullets, ufos, rng
      ensures Valid() && AtFirstLevel()
      ensures highScore == old(highScore) && showingHighScore == old(showingHighScore)
      ensures screenWidth == old(screenWidth) && screenHeight == old(screenHeight) && sounds == old(sounds)
    {
      ResetForNewGame();
      ghost var before := asteroids[..];
      StartNewLevel(rng);
      SpawnIntoEmpty(math, before, asteroids[..], INITIAL_ASTEROIDS, ship.position, screenWidth, screenHeight);
      phase := Playing;
    }

    /** Puts a UFO into the lowest free UFO slot, if there is one. */
    method SpawnUfo(rng: Random)
      requires Valid()
      modifies ufos, this`sounds, rng
      ensures Valid()
      ensures UfoLaunched(old(ufos[..]), ufos[..], old(sounds), sounds, score, screenWidth, screenHeight)
    {
      for i := 0 to MAX_UFOS
        invariant forall j :: 0 <= j < i ==> ufos[j].isActive
        invariant ufos[..] == old(ufos[..]) && sounds == old(sounds)
      {
        if !ufos[i].isActive {
          var kind := LargeUfo;
          if score >= SMALL_UFO_SCORE {
            var roll := rng.RandomInt(0, 2);
            kind := if roll == 0 then LargeUfo else SmallUfo;
          }
          var u := InitUfo(rng, kind, screenWidth, screenHeight);
          ufos[i] := u;
          sounds := sounds + [UfoSound];
          assert ufos[..] == old(ufos[..])[i := u];
          assert forall k :: LowestFreeUfo(old(ufos[..]), k) ==> k == i;
          return;
        }
      }
    }

    /** The player fires into the lowest free bullet slot, when the gun is ready and the ship alive. */
    method FireBullet()
      requires Valid()
      modifies bullets, this`fireDelay, this`sounds
      ensures Valid()
      ensures !CanFire(old(fireDelay), ship, old(bullets[..])) ==>
        bullets[..] == old(bullets[..]) && fireDelay == old(fireDelay) && sounds == old(sounds)
      ensures CanFire(old(fireDelay), ship, old(bullets[..])) ==>
        && PlayerShot(math, old(bullets[..]), bullets[..], ship)
        && fireDelay == FIRE_DELAY && sounds == old(sounds) + [ShootSound]
    {
      if fireDelay > 0.0 || !ship.isAlive {
        return;
      }
      var k := FirstFreeBullet(bullets);
      if k != -1 {
        var b := InitBullet(math, ship.position, ship.rotation, true);
        bullets[k] := b;
        fireDelay := FIRE_DELAY;
        sounds := sounds + [ShootSound];
      }
    }

    method UpdateScore(points: int)
      requires Valid()
      modifies this`score, this`highScore, this`showingHighScore
      ensures Valid()
      ensures score == old(score) + points
      ensures highScore == Max(old(highScore), score)
      ensures showingHighScore == (old(showingHighScore) || score > old(highScore))
    {
      score := score + points;
      if score > highScore {
        highScore := score;
        showingHighScore := true;
      }
    }

    method PauseGame()
      requires Valid()
      modifies this`phase
      ensures Valid()
      ensures phase == (if old(phase) == Playing then Paused else old(phase))
    {
      if phase == Playing {
        phase := Paused;
      }
    }

    method ResumeGame()
      requires Valid()
      modifies this`phase
      ensures Valid()
      ensures phase == (if old(phase) == Paused then Playing else old(phase))
    {
      if phase == Paused {
        phase := Playing;
      }
    }

    method GameOver()
      requires Valid()
      modifies this`phase
      ensures Valid()
      ensures phase == Phase.GameOver
    {
      phase := Phase.GameOver;
    }

    /**
     * The split of live asteroid `hit`: its two children go into the lowest
     * free slot and the next free one above it; with fewer than two free
     * slots nothing happens.
     */
    method SplitRock(rng: Random, hit: int) returns (k: int, l: int)
      requires Valid() && 0 <= hit < MAX_ASTEROIDS && asteroids[hit].isActive && asteroids[hit].size != Small
      modifies asteroids, this`asteroidCount, rng
      ensures Valid()
      ensures k == -1 <==> NoTwoFree(old(asteroids[..]))
      ensures k == -1 ==> asteroids[..] == old(asteroids[..]) && asteroidCount == old(asteroidCount)
      ensures k != -1 ==>
        && SplitSlots(old(asteroids[..]), k, l)
        && SplitChild(old(asteroids[hit]), asteroids[k]) && SplitChild(old(asteroids[hit]), asteroids[l])
        && SplitApart(math, asteroids[k], asteroids[l])
        && asteroids[..] == old(asteroids[..])[k := asteroids[k]][l := asteroids[l]]
        && asteroidCount == old(asteroidCount) + 2
    {
      k, l := FindFreePair(asteroids);
      if k != -1 {
        var parent := asteroids[hit];
        var c1, c2 := SplitAsteroid(math, rng, parent, asteroids[k], asteroids[l]);
        ActiveCountUpdate(asteroids[..], k, c1);
        asteroids[k] := c1;
        ActiveCountUpdate(asteroids[..], l, c2);
        asteroids[l] := c2;
        asteroidCount := asteroidCount + 2;
      }
    }

    /** The wreck of asteroid `hit` and bullet `i` once the split is done. */
    method WreckAsteroid(i: int, hit: int)
      requires Valid() && 0 <= i < MAX_BULLETS && 0 <= hit < MAX_ASTEROIDS && asteroids[hit].isActive
      modifies asteroids, bullets, this`asteroidCount, this`sounds
      ensures Valid()
      ensures asteroids[..] == old(asteroids[..])[hit := old(asteroids[hit]).(isActive := false, shape := None)]
      ensures bullets[..] == old(bullets[..])[i := old(bullets[i]).(isActive := false)]
      ensures asteroidCount == old(asteroidCount) - 1 && sounds == old(sounds) + [ExplosionSound]
    {
      var wreck := DestroyAsteroid(asteroids[hit]);
      ActiveCountUpdate(asteroids[..], hit, wreck);
      asteroids[hit] := wreck;
      var spent := DestroyBullet(bullets[i]);
      bullets[i] := spent;
      sounds := sounds + [ExplosionSound];
      asteroidCount := asteroidCount - 1;
    }

    /**
     * Bullet `i` has hit live asteroid `hit`: a player bullet scores, a
     * non-small asteroid splits, then the asteroid and the bullet are destroyed.
     */
    method ShatterAsteroid(rng: Random, i: int, hit: int) returns (k: int, l: int)
      requires Valid() && 0 <= i < MAX_BULLETS && 0 <= hit < MAX_ASTEROIDS && asteroids[hit].isActive
      modifies asteroids, bullets, this`score, this`highScore, this`showingHighScore, this`asteroidCount,
               this`sounds, rng
      ensures Valid()
      ensures ScoreRose(old(score), old(highScore), old(showingHighScore), score, highScore, showingHighScore)
      ensures score == old(score) + (if old(bullets[i]).fromPlayer then GetAsteroidPoints(old(asteroids[hit]).size) else 0)
      ensures bullets[..] == old(bullets[..])[i := old(bullets[i]).(isActive := false)]
      ensures sounds == old(sounds) + [ExplosionSound]
      ensures asteroids[hit] == old(asteroids[hit]).(isActive := false, shape := None)
      ensures k == -1 <==> old(asteroids[hit]).size == Small || NoTwoFree(old(asteroids[..]))
      ensures k == -1 ==>
        asteroids[..] == old(asteroids[..])[hit := asteroids[hit]] && asteroidCount == old(asteroidCount) - 1
      ensures k != -1 ==>
        && SplitSlots(old(asteroids[..]), k, l)
        && SplitChild(old(asteroids[hit]), asteroids[k]) && SplitChild(old(asteroids[hit]), asteroids[l])
        && SplitApart(math, asteroids[k], asteroids[l])
        && asteroids[..] == old(asteroids[..])[k := asteroids[k]][l := asteroids[l]][hit := asteroids[hit]]
        && asteroidCount == old(asteroidCount) + 1
    {
      k, l := -1, -1;
      if bullets[i].fromPlayer {
        UpdateScore(GetAsteroidPoints(asteroids[hit].size));
      }
      if asteroids[hit].size != Small {
        k, l := SplitRock(rng, hit);
      }
      WreckAsteroid(i, hit);
    }

    /** Bullet `i` against the asteroids: the first live asteroid it touches, if any, is shattered. */
    method BulletAsteroidPass(rng: Random, i: int) returns (hit: int)
      requires Valid() && 0 <= i < MAX_BULLETS
      modifies asteroids, bullets, this`score, this`highScore, this`showingHighScore, this`asteroidCount,
               this`sounds, rng
      ensures Valid()
      ensures AsteroidPassed(math, old(Snap()), Snap(), i, hit)
    {
      hit := FindAsteroidHit(bullets[i], asteroids);
      if hit != -1 {
        ShatterHit(rng, i, hit);
      }
    }

    /** ShatterAsteroid seen on the whole state. */
    method ShatterHit(rng: Random, i: int, hit: int)
      requires Valid() && 0 <= i < MAX_BULLETS && 0 <= hit < MAX_ASTEROIDS && asteroids[hit].isActive
      modifies asteroids, bullets, this`score, this`highScore, this`showingHighScore, this`asteroidCount,
               this`sounds, rng
      ensures Valid()
      ensures Shattered(math, old(Snap()), Snap(), i, hit)
    {
      ghost var w := Snap();
      var k, l := ShatterAsteroid(rng, i, hit);
      ghost var v := Snap();
      assert v == w.(asteroids := v.asteroids, bullets := v.bullets, score := v.score, highScore := v.highScore,
                     showingHighScore := v.showingHighScore, asteroidCount := v.asteroidCount, sounds := v.sounds);
      if k != -1 {
        assert SplitSlots(w.asteroids, k, l);
      }
    }

    /**
     * Bullet `i` against the UFOs. The bullet's activity is not checked, so a
     * bullet that has just destroyed an asteroid can still destroy a UFO.
     */
    method BulletUfoPass(i: int) returns (hit: int)
      requires Valid() && 0 <= i < MAX_BULLETS
      modifies ufos, bullets, this`score, this`highScore, this`showingHighScore, this`sounds
      ensures Valid()
      ensures UfoPassed(old(Snap()), Snap(), i, hit)
    {
      ghost var w := Snap();
      hit := FindUfoHit(bullets[i], ufos);
      if hit != -1 {
        DownUfo(i, hit);
        ghost var v := Snap();
        assert v == w.(ufos := v.ufos, bullets := v.bullets, score := v.score, highScore := v.highScore,
                       showingHighScore := v.showingHighScore, sounds := v.sounds);
      }
    }

    /** Bullet `i` has hit UFO `hit`: its points are scored, the UFO and the bullet are destroyed. */
    method DownUfo(i: int, hit: int)
      requires Valid() && 0 <= i < MAX_BULLETS && 0 <= hit < MAX_UFOS
      modifies ufos, bullets, this`score, this`highScore, this`showingHighScore, this`sounds
      ensures Valid()
      ensures score == old(score) + GetUfoPoints(old(ufos[hit]).kind)
      ensures ScoreRose(old(score), old(highScore), old(showingHighScore), score, highScore, showingHighScore)
      ensures ufos[..] == old(ufos[..])[hit := old(ufos[hit]).(isActive := false)]
      ensures bullets[..] == old(bullets[..])[i := old(bullets[i]).(isActive := false)]
      ensures sounds == old(sounds) + [ExplosionSound]
    {
      UpdateScore(GetUfoPoints(ufos[hit].kind));
      var downed := DestroyUfo(ufos[hit]);
      ufos[hit] := downed;
      var spent := DestroyBullet(bullets[i]);
      bullets[i] := spent;
      sounds := sounds + [ExplosionSound];
    }

    /** Bullet `i` against the ship: an enemy bullet kills an exposed ship it touches. */
    method BulletShipPass(i: int)
      requires Valid() && 0 <= i < MAX_BULLETS
      modifies this`ship, bullets, this`sounds
      ensures Valid()
      ensures ShipPassed(old(Snap()), Snap(), i)
    {
      if !bullets[i].fromPlayer && ship.isAlive && !IsSpaceshipInvulnerable(ship) {
        if Overlap(bullets[i].position, BULLET_RADIUS, ship.position, SPACESHIP_SIZE) {
          ship := ship.(isAlive := false);
          var spent := DestroyBullet(bullets[i]);
          bullets[i] := spent;
          sounds := sounds + [ExplosionSound];
        }
      }
    }

    /**
     * The exposed ship against asteroids, then against UFOs. Touching an
     * asteroid kills the ship and leaves the asteroid; touching a UFO kills
     * the ship and the UFO. Both checks use the exposure at the start, so
     * one tick can do both.
     */
    method ShipCollisions() returns (rock: int, saucer: int)
      requires Valid()
      modifies this`ship, ufos, this`sounds
      ensures Valid()
      ensures ShipCollided(old(Snap()), Snap(), rock, saucer)
    {
      rock, saucer := -1, -1;
      if !(ship.isAlive && !IsSpaceshipInvulnerable(ship)) {
        return;
      }
      ghost var w := Snap();
      rock := RamAsteroids();
      saucer := RamUfos();
      ghost var v := Snap();
      assert v == w.(ship := v.ship, ufos := v.ufos, sounds := v.sounds);
    }

    /** The ship's asteroid loop: the first live asteroid it touches kills it. */
    method RamAsteroids() returns (rock: int)
      requires Valid()
      modifies this`ship, this`sounds
      ensures Valid()
      ensures rock == -1 ==> forall j :: 0 <= j < MAX_ASTEROIDS ==> !ShipTouchesAsteroid(old(ship), asteroids[j])
      ensures rock != -1 ==>
        && 0 <= rock < MAX_ASTEROIDS && ShipTouchesAsteroid(old(ship), asteroids[rock])
        && forall j :: 0 <= j < rock ==> !ShipTouchesAsteroid(old(ship), asteroids[j])
      ensures ship == old(ship).(isAlive := old(ship).isAlive && rock == -1)
      ensures sounds == old(sounds) + (if rock == -1 then [] else [ExplosionSound])
    {
      rock := -1;
      for j := 0 to MAX_ASTEROIDS
        invariant forall a :: 0 <= a < j ==> !ShipTouchesAsteroid(old(ship), asteroids[a])
        invariant ship == old(ship) && sounds == old(sounds)
      {
        if asteroids[j].isActive && Overlap(ship.position, SPACESHIP_SIZE, asteroids[j].position, asteroids[j].radius) {
          ship := ship.(isAlive := false);
          sounds := sounds + [ExplosionSound];
          rock := j;
          return;
        }
      }
    }

    /** The ship's UFO loop: the first live UFO it touches kills it and is destroyed. */
    method RamUfos() returns (saucer: int)
      requires Valid()
      modifies this`ship, ufos, this`sounds
      ensures Valid()
      ensures saucer == -1 ==> forall j :: 0 <= j < MAX_UFOS ==> !ShipTouchesUfo(old(ship), old(ufos[j]))
      ensures saucer != -1 ==> FirstUfoRammed(old(ship), old(ufos[..]), saucer)
      ensures ship == old(ship).(isAlive := old(ship).isAlive && saucer == -1)
      ensures ufos[..] == if saucer == -1 then old(ufos[..]) else old(ufos[..])[saucer := old(ufos[saucer]).(isActive := false)]
      ensures sounds == old(sounds) + (if saucer == -1 then [] else [ExplosionSound])
    {
      saucer := -1;
      for j := 0 to MAX_UFOS
        invariant forall a :: 0 <= a < j ==> !ShipTouchesUfo(old(ship), ufos[a])
        invariant ship == old(ship) && sounds == old(sounds) && ufos[..] == old(ufos[..])
      {
        if ufos[j].isActive && Overlap(ship.position, SPACESHIP_SIZE, ufos[j].position, UFO_SIZE) {
          ship := ship.(isAlive := false);
          var downed := DestroyUfo(ufos[j]);
          ufos[j] := downed;
          sounds := sounds + [ExplosionSound];
          saucer := j;
          return;
        }
      }
    }

    /** One bullet of the CheckCollisions sweep: an active bullet meets the asteroids, the UFOs and the ship in turn. */
    method CollideBullet(rng: Random, i: int)
      requires Valid() && 0 <= i < MAX_BULLETS
      modifies this`ship, asteroids, bullets, ufos, this`score, this`highScore, this`showingHighScore,
               this`asteroidCount, this`sounds, rng
      ensures Valid()
      ensures BulletStep(math, old(Snap()), Snap(), i)
    {
      if bullets[i].isActive {
        ghost var w0 := Snap();
        var rock := BulletAsteroidPass(rng, i);
        ghost var w1 := Snap();
        var saucer := BulletUfoPass(i);
        ghost var w2 := Snap();
        BulletShipPass(i);
        assert AsteroidPassed(math, w0, w1, i, rock) && UfoPassed(w1, w2, i, saucer) && ShipPassed(w2, Snap(), i);
      }
    }

    /** CheckCollisions: every bullet slot in order against asteroids, UFOs and the ship, then the ship itself. */
    method CheckCollisions(rng: Random)
      requires Valid()
      modifies this`ship, asteroids, bullets, ufos, this`score, this`highScore, this`showingHighScore,
               this`asteroidCount, this`sounds, rng
      ensures Valid()
      ensures Collided(math, old(Snap()), Snap())
    {
      ghost var sweep := SweepBullets(rng);
      var rock, saucer := ShipCollisions();
      assert ShipCollided(sweep[MAX_BULLETS], Snap(), rock, saucer);
    }

    /** The bullet loop of CheckCollisions; `sweep` records the worlds between the bullets. */
    method SweepBullets(rng: Random) returns (ghost sweep: seq<World>)
      requires Valid()
      modifies this`ship, asteroids, bullets, ufos, this`score, this`highScore, this`showingHighScore,
               this`asteroidCount, this`sounds, rng
      ensures Valid()
      ensures Swept(math, sweep) && sweep[0] == old(Snap()) && sweep[MAX_BULLETS] == Snap()
    {
      sweep := [Snap()];
      for i := 0 to MAX_BULLETS
        invariant Valid()
        invariant |sweep| == i + 1 && sweep[0] == old(Snap()) && sweep[i] == Snap()
        invariant forall k :: 0 <= k < i ==> BulletStep(math, sweep[k], sweep[k + 1], k)
      {
        CollideBullet(rng, i);
        sweep := sweep + [Snap()];
      }
    }

    /** The ship's own update followed by the edge wrap, which applies to a dead ship too. */
    method MoveShip(dt: real)
      requires Valid()
      modifies this`ship
      ensures Valid()
      ensures ship == Piloted(math, old(ship), dt, screenWidth, screenHeight)
    {
      var moved := UpdateSpaceship(math, ship, dt);
      var p := WrapPosition(moved.position, screenWidth, screenHeight);
      ship := moved.(position := p);
    }

    /** Every live asteroid drifts and turns; free slots stay as they are. */
    method MoveAsteroids(dt: real)
      requires Valid()
      modifies asteroids
      ensures Valid()
      ensures asteroids[..] == DriftAll(old(asteroids[..]), dt, screenWidth, screenHeight)
    {
      for j := 0 to MAX_ASTEROIDS
        invariant asteroidCount == ActiveCount(asteroids[..])
        invariant forall a :: 0 <= a < MAX_ASTEROIDS ==> WellFormed(asteroids[a])
        invariant forall a :: j <= a < MAX_ASTEROIDS ==> asteroids[a] == old(asteroids[a])
        invariant forall a :: 0 <= a < j ==>
          asteroids[a] == if old(asteroids[a]).isActive then Drifted(old(asteroids[a]), dt, screenWidth, screenHeight)
                          else old(asteroids[a])
      {
        var a := UpdateAsteroid(asteroids[j], dt, screenWidth, screenHeight);
        ActiveCountUpdate(asteroids[..], j, a);
        asteroids[j] := a;
      }
      assert asteroids[..] == DriftAll(old(asteroids[..]), dt, screenWidth, screenHeight);
    }

    /** Every live bullet flies and ages; free slots stay as they are. */
    method MoveBullets(dt: real)
      modifies bullets
      ensures bullets[..] == FlyAll(old(bullets[..]), dt, screenWidth, screenHeight)
    {
      for j := 0 to bullets.Length
        invariant forall a :: j <= a < bullets.Length ==> bullets[a] == old(bullets[a])
        invariant forall a :: 0 <= a < j ==>
          bullets[a] == if old(bullets[a]).isActive then Flown(old(bullets[a]), dt, screenWidth, screenHeight)
                        else old(bullets[a])
      {
        var b := UpdateBullet(bullets[j], dt, screenWidth, screenHeight);
        bullets[j] := b;
      }
      assert bullets[..] == FlyAll(old(bullets[..]), dt, screenWidth, screenHeight);
    }

    /**
     * Every UFO slot in order is stepped by UpdateUfo, aiming at the ship;
     * `shots` records the bullet slots before, between and after.
     */
    method MoveUfos(rng: Random, dt: real) returns (ghost shots: seq<seq<Bullet>>)
      requires Valid()
      modifies ufos, bullets, rng
      ensures UfosFlew(math, old(ufos[..]), ufos[..], shots, dt, ship, screenWidth)
      ensures shots[0] == old(bullets[..]) && shots[MAX_UFOS] == bullets[..]
    {
      shots := [bullets[..]];
      for j := 0 to MAX_UFOS
        invariant |shots| == j + 1 && shots[0] == old(bullets[..]) && shots[j] == bullets[..]
        invariant forall a :: 0 <= a < j ==>
          UfoStepped(math, old(ufos[a]), ufos[a], dt, ship, shots[a], shots[a + 1], screenWidth)
        invariant forall a :: j <= a < MAX_UFOS ==> ufos[a] == old(ufos[a])
      {
        var u := UpdateUfo(math, rng, ufos[j], dt, ship, bullets, screenWidth);
        ufos[j] := u;
        shots := shots + [bullets[..]];
      }
    }

    /**
     * The per-entity updates of one tick, in the source's order: the ship
     * with its wrap, then asteroids, bullets and UFOs.
     */
    method MoveEntities(rng: Random, dt: real)
      requires Valid()
      modifies this`ship, asteroids, bullets, ufos, rng
      ensures Valid()
      ensures Moved(math, old(Snap()), Snap(), dt, screenWidth, screenHeight)
    {
      MoveShip(dt);
      MoveAsteroids(dt);
      MoveBullets(dt);
      ghost var shots := MoveUfos(rng, dt);
      assert UfosFlew(math, old(ufos[..]), ufos[..], shots, dt, ship, screenWidth);
    }

    /** The UFO spawn clock: once it passes the level's interval a UFO is launched and the clock restarts. */
    method TickUfoSpawner(rng: Random, dt: real)
      requires Valid()
      modifies this`ufoSpawnTimer, ufos, this`sounds, rng
      ensures Valid()
      ensures SpawnTicked(old(Snap()), Snap(), dt, screenWidth, screenHeight)
    {
      ufoSpawnTimer := ufoSpawnTimer + dt;
      if ufoSpawnTimer > nextUfoSpawn {
        SpawnUfo(rng);
        ufoSpawnTimer := 0.0;
      }
    }

    /** The UFO spawn clock, then the gun cooldown. */
    method RunClocks(rng: Random, dt: real)
      requires Valid()
      modifies this`ufoSpawnTimer, ufos, this`sounds, this`fireDelay, rng
      ensures Valid()
      ensures ClocksRan(old(Snap()), Snap(), dt, screenWidth, screenHeight)
    {
      TickUfoSpawner(rng, dt);
      ghost var w2 := Snap();
      if fireDelay > 0.0 {
        fireDelay := fireDelay - dt;
      }
      assert w2 == Snap().(fireDelay := old(fireDelay));
    }

    /** The next level starts on the cleared field and the level clock restarts. */
    method BeginNextLevel(rng: Random)
      requires Valid() && asteroidCount == 0
      modifies this`level, asteroids, this`asteroidCount, this`nextUfoSpawn, this`ufoSpawnTimer,
               this`nextLevelDelay, rng
      ensures Valid()
      ensures NextLevelBegun(math, old(Snap()), Snap(), screenWidth, screenHeight)
    {
      ghost var w := Snap();
      EnterLevel(rng);
      nextLevelDelay := 0.0;
      ghost var v := Snap();
      assert v == w.(level := v.level, asteroids := v.asteroids, asteroidCount := v.asteroidCount,
                     nextUfoSpawn := v.nextUfoSpawn, ufoSpawnTimer := v.ufoSpawnTimer, nextLevelDelay := 0.0);
    }

    /** The level goes up by one and its asteroids are spawned on the cleared field. */
    method EnterLevel(rng: Random)
      requires Valid() && asteroidCount == 0
      modifies this`level, asteroids, this`asteroidCount, this`nextUfoSpawn, this`ufoSpawnTimer, rng
      ensures Valid()
      ensures LevelStarted(math, Snap(), old(level) + 1, ship.position, screenWidth, screenHeight)
    {
      level := level + 1;
      ActiveCountZero(asteroids[..]);
      ghost var before := asteroids[..];
      StartNewLevel(rng);
      SpawnIntoEmpty(math, before, asteroids[..], LevelAsteroidCount(level), ship.position, screenWidth, screenHeight);
    }

    /** With the field cleared, time accumulates; past NEXT_LEVEL_DELAY the next level starts. */
    method AdvanceLevel(rng: Random, dt: real)
      requires Valid()
      modifies this`nextLevelDelay, this`level, asteroids, this`asteroidCount, this`nextUfoSpawn,
               this`ufoSpawnTimer, rng
      ensures Valid()
      ensures LevelAdvanced(math, old(Snap()), Snap(), dt, screenWidth, screenHeight)
    {
      if asteroidCount == 0 {
        nextLevelDelay := nextLevelDelay + dt;
        if nextLevelDelay > NEXT_LEVEL_DELAY {
          BeginNextLevel(rng);
        }
      }
    }

    /**
     * The death sequence: a fresh death costs one life and starts the respawn
     * countdown; when the countdown runs out the ship respawns at the centre
     * if lives remain, otherwise the game is over.
     */
    method ResolveShipDeath(dt: real)
      requires Valid()
      modifies this`ship, this`respawnDelay, this`phase
      ensures Valid()
      ensures DeathResolved(old(Snap()), Snap(), dt, screenWidth, screenHeight)
    {
      if !ship.isAlive {
        if respawnDelay == 0.0 {
          ship := ship.(lives := ship.lives - 1);
          respawnDelay := RESPAWN_DELAY;
        } else {
          respawnDelay := respawnDelay - dt;
          if respawnDelay <= 0.0 {
            respawnDelay := 0.0;
            if ship.lives > 0 {
              ship := RespawnSpaceship(ship, screenWidth / 2.0, screenHeight / 2.0);
            } else {
              GameOver();
            }
          }
        }
      }
    }

    /** The level clock, then the death sequence. */
    method ConcludeTick(rng: Random, dt: real)
      requires Valid()
      modifies this`nextLevelDelay, this`level, asteroids, this`asteroidCount, this`nextUfoSpawn,
               this`ufoSpawnTimer, this`ship, this`respawnDelay, this`phase, rng
      ensures Valid()
      ensures Concluded(math, old(Snap()), Snap(), dt, screenWidth, screenHeight)
    {
      AdvanceLevel(rng, dt);
      ghost var w2 := Snap();
      ResolveShipDeath(dt);
      assert LevelAdvanced(math, old(Snap()), w2, dt, screenWidth, screenHeight);
    }

    /**
     * The part of a playing tick before the level and death bookkeeping:
     * entities move, the UFO clock and the gun cooldown run, and collisions
     * resolve.
     */
    method StepWorld(rng: Random, dt: real)
      requires Valid()
      modifies this`ship, asteroids, bullets, ufos, this`score, this`highScore, this`showingHighScore,
               this`asteroidCount, this`sounds, this`ufoSpawnTimer, this`fireDelay, rng
      ensures Valid()
      ensures WorldStepped(math, old(Snap()), Snap(), dt, screenWidth, screenHeight)
    {
      MoveEntities(rng, dt);
      ghost var w1 := Snap();
      RunClocks(rng, dt);
      ghost var w2 := Snap();
      CheckCollisions(rng);
      WorldSteppedVia(math, old(Snap()), w1, w2, Snap(), dt, screenWidth, screenHeight);
    }

    /**
     * One tick. Outside PLAYING nothing changes. While playing the world
     * steps, a cleared field leads to the next level, and the death
     * sequence runs.
     */
    method UpdateGame(rng: Random, dt: real)
      requires Valid()
      modifies this, asteroids, bullets, ufos, rng
      ensures Valid()
      ensures Ticked(math, old(Snap()), Snap(), dt, screenWidth, screenHeight)
      ensures old(phase) != Playing ==> unchanged(rng)
      ensures screenWidth == old(screenWidth) && screenHeight == old(screenHeight)
    {
      if phase != Playing {
        return;
      }
      StepWorld(rng, dt);
      ghost var w1 := Snap();
      ConcludeTick(rng, dt);
      assert WorldStepped(math, old(Snap()), w1, dt, screenWidth, screenHeight);
    }
  }
}
