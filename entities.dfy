/**
 * The four entity kinds and their per-entity rules. Every C function that
 * updates a struct passed by address is a method that receives the struct's
 * old value and returns its new one; the game keeps the structs in arrays, so
 * the value semantics of C arrays of structs carry over.
 */
module Entities {
  import opened Geometry
  import opened Utils

  datatype Option<T> = None | Some(value: T)

  datatype AsteroidSize = Large | Medium | Small

  datatype UfoType = LargeUfo | SmallUfo

  datatype Spaceship = Spaceship(
    position: Vec,
    velocity: Vec,
    rotation: real,
    rotationSpeed: real,
    isThrusting: bool,
    isAlive: bool,
    invulnerableTime: real,
    lives: int)

  /** `shape` is the heap-allocated outline: `None` stands for NULL. */
  datatype Asteroid = Asteroid(
    position: Vec,
    velocity: Vec,
    rotation: real,
    rotationSpeed: real,
    size: AsteroidSize,
    isActive: bool,
    radius: real,
    shape: Option<seq<Vec>>,
    shapePointCount: int)

  datatype Bullet = Bullet(
    position: Vec,
    velocity: Vec,
    lifetime: real,
    isActive: bool,
    fromPlayer: bool)

  datatype Ufo = Ufo(
    position: Vec,
    velocity: Vec,
    kind: UfoType,
    isActive: bool,
    shootTimer: real,
    moveTimer: real,
    direction: int)

  const MAX_ASTEROIDS: nat := 28
  const MAX_BULLETS: nat := 32
  const MAX_UFOS: nat := 2
  const MAX_ASTEROID_VERTICES: int := 12
  const MIN_ASTEROID_VERTICES: int := 8

  const SPACESHIP_SIZE: real := 10.0
  const SPACESHIP_THRUST_POWER: real := 250.0
  const SPACESHIP_ROTATION_SPEED: real := 250.0
  const SPACESHIP_MAX_SPEED: real := 400.0
  const SPACESHIP_DRAG: real := 0.99
  /** The squares of SPACESHIP_MAX_SPEED and SPACESHIP_DRAG, for bounds on squared speeds. */
  const SPACESHIP_MAX_SPEED_SQ: real := 160000.0
  const SPACESHIP_DRAG_SQ: real := 0.9801
  const SPACESHIP_INVULNERABLE_TIME: real := 3.0
  const SPACESHIP_LIVES: int := 3

  const BULLET_SPEED: real := 500.0
  const BULLET_LIFETIME: real := 1.2
  const BULLET_RADIUS: real := 2.0

  const ASTEROID_LARGE_RADIUS: real := 40.0
  const ASTEROID_MEDIUM_RADIUS: real := 25.0
  const ASTEROID_SMALL_RADIUS: real := 15.0
  const ASTEROID_SPEED_MIN: real := 20.0
  const ASTEROID_SPEED_MAX: real := 100.0

  const UFO_LARGE_SPEED: real := 100.0
  const UFO_SMALL_SPEED: real := 150.0
  const UFO_SHOOT_INTERVAL: real := 1.5
  const UFO_SIZE: real := 20.0
  const UFO_MOVE_INTERVAL: real := 0.5
  const UFO_DRIFT: real := 50.0

  /** The all-zero structs that calloc and memset leave behind. */
  const ZERO_SHIP: Spaceship := Spaceship(ORIGIN, ORIGIN, 0.0, 0.0, false, false, 0.0, 0)
  const EMPTY_ASTEROID: Asteroid := Asteroid(ORIGIN, ORIGIN, 0.0, 0.0, Large, false, 0.0, None, 0)
  const EMPTY_BULLET: Bullet := Bullet(ORIGIN, ORIGIN, 0.0, false, false)
  const EMPTY_UFO: Ufo := Ufo(ORIGIN, ORIGIN, LargeUfo, false, 0.0, 0.0, 0)

  // ---------------------------------------------------------------- spaceship

  /** Every field InitSpaceship and RespawnSpaceship set, that is all but `lives`. */
  predicate ReadyAt(s: Spaceship, x: real, y: real) {
    && s.position == Vec(x, y)
    && s.velocity == ORIGIN
    && s.rotation == 0.0
    && s.rotationSpeed == 0.0
    && !s.isThrusting
    && s.isAlive
    && s.invulnerableTime == SPACESHIP_INVULNERABLE_TIME
  }

  /** Two ships ready at the same point with the same lives are the same ship. */
  lemma ReadyAtDetermines(a: Spaceship, b: Spaceship, x: real, y: real)
    requires ReadyAt(a, x, y) && ReadyAt(b, x, y) && a.lives == b.lives
    ensures a == b
  {
  }

  method InitSpaceship(x: real, y: real) returns (s: Spaceship)
    ensures ReadyAt(s, x, y) && s.lives == SPACESHIP_LIVES
  {
    s := Spaceship(Vec(x, y), ORIGIN, 0.0, 0.0, false, true, SPACESHIP_INVULNERABLE_TIME, SPACESHIP_LIVES);
  }

  /** Same fields as InitSpaceship, except that the lives are kept. */
  method RespawnSpaceship(ship: Spaceship, x: real, y: real) returns (s: Spaceship)
    ensures ReadyAt(s, x, y) && s.lives == ship.lives
  {
    s := ship;
    s := s.(position := Vec(x, y));
    s := s.(velocity := ORIGIN);
    s := s.(rotation := 0.0);
    s := s.(rotationSpeed := 0.0);
    s := s.(isThrusting := false);
    s := s.(isAlive := true);
    s := s.(invulnerableTime := SPACESHIP_INVULNERABLE_TIME);
  }

  predicate IsSpaceshipInvulnerable(ship: Spaceship) {
    ship.invulnerableTime > 0.0
  }

  /** A countdown that runs only while positive; it may end below zero. */
  function CountDown(t: real, dt: real): real {
    if t > 0.0 then t - dt else t
  }

  /** raymath's Vector2Normalize: divide by the length unless it is zero. */
  function Normalize(m: Math, v: Vec): Vec {
    var len := m.sqrt(LenSq(v));
    if len > 0.0 then Scale(v, 1.0 / len) else v
  }

  /** The speed clamp applied while thrusting. */
  function ClampSpeed(m: Math, v: Vec): Vec {
    if m.sqrt(LenSq(v)) > SPACESHIP_MAX_SPEED then Scale(Normalize(m, v), SPACESHIP_MAX_SPEED) else v
  }

  /** The velocity after thrusting for `dt` along heading `rotation - 90`. */
  function Thrusted(m: Math, v: Vec, rotation: real, dt: real): Vec {
    Add(v, Polar(m, rotation - 90.0, SPACESHIP_THRUST_POWER * dt))
  }

  /** The heading after turning for `dt`. */
  function NextRotation(ship: Spaceship, dt: real): real {
    ship.rotation + ship.rotationSpeed * dt
  }

  /** The velocity before drag: thrusted along the new heading and clamped while thrusting. */
  function PreDragVelocity(m: Math, ship: Spaceship, dt: real): Vec {
    if ship.isThrusting then ClampSpeed(m, Thrusted(m, ship.velocity, NextRotation(ship, dt), dt)) else ship.velocity
  }

  /** The velocity a live ship ends one update with. */
  function NextVelocity(m: Math, ship: Spaceship, dt: real): Vec {
    Scale(PreDragVelocity(m, ship, dt), SPACESHIP_DRAG)
  }

  method UpdateSpaceship(m: Math, ship: Spaceship, dt: real) returns (s: Spaceship)
    ensures !ship.isAlive ==> s == ship
    ensures ship.isAlive ==>
      && s.rotation == NextRotation(ship, dt)
      && s.velocity == NextVelocity(m, ship, dt)
      && s.position == Add(ship.position, Scale(s.velocity, dt))
      && s.invulnerableTime == (if ship.invulnerableTime > 0.0 then ship.invulnerableTime - dt else ship.invulnerableTime)
      && s.rotationSpeed == ship.rotationSpeed && s.isThrusting == ship.isThrusting
    ensures s.isAlive == ship.isAlive && s.lives == ship.lives
    ensures !IsSpaceshipInvulnerable(ship) ==> !IsSpaceshipInvulnerable(s)
    ensures 0.0 <= dt ==> s.invulnerableTime <= ship.invulnerableTime
  {
    s := ship;
    if !ship.isAlive {
      return;
    }
    var rotation := NextRotation(ship, dt);
    var velocity := ship.velocity;
    if ship.isThrusting {
      velocity := Thrusted(m, velocity, rotation, dt);
      ghost var thrusted := velocity;
      var speed := m.sqrt(LenSq(velocity));
      if speed > SPACESHIP_MAX_SPEED {
        velocity := Scale(Normalize(m, velocity), SPACESHIP_MAX_SPEED);
      }
      assert velocity == ClampSpeed(m, thrusted);
    }
    assert velocity == PreDragVelocity(m, ship, dt);
    velocity := Scale(velocity, SPACESHIP_DRAG);
    var position := Add(ship.position, Scale(velocity, dt));
    var invulnerableTime := ship.invulnerableTime;
    if invulnerableTime > 0.0 {
      invulnerableTime := invulnerableTime - dt;
    }
    s := Spaceship(position, velocity, rotation, ship.rotationSpeed, ship.isThrusting, ship.isAlive,
                   invulnerableTime, ship.lives);
  }

  /**
   * The ship after one tick of UpdateSpaceship followed by the screen wrap:
   * a dead ship is only wrapped, a live one turns, takes its new velocity,
   * moves along it and counts its invulnerability down.
   */
  function Piloted(m: Math, ship: Spaceship, dt: real, width: real, height: real): Spaceship {
    if !ship.isAlive then ship.(position := Wrapped(ship.position, width, height))
    else
      var velocity := NextVelocity(m, ship, dt);
      ship.(position := Wrapped(Add(ship.position, Scale(velocity, dt)), width, height),
            velocity := velocity,
            rotation := NextRotation(ship, dt),
            invulnerableTime := CountDown(ship.invulnerableTime, dt))
  }

  /**
   * A tick keeps the ship alive or dead and its lives, leaves it on the
   * screen, and never gives back invulnerability that has run out.
   */
  lemma PilotedFacts(m: Math, ship: Spaceship, dt: real, width: real, height: real)
    ensures Piloted(m, ship, dt, width, height).isAlive == ship.isAlive
    ensures Piloted(m, ship, dt, width, height).lives == ship.lives
    ensures 0.0 <= width && 0.0 <= height ==> InBounds(Piloted(m, ship, dt, width, height).position, width, height)
    ensures !IsSpaceshipInvulnerable(ship) ==> !IsSpaceshipInvulnerable(Piloted(m, ship, dt, width, height))
  {
  }

  /**
   * A ship just placed by InitSpaceship or RespawnSpaceship is invulnerable,
   * and stays so through any tick shorter than the full grace period.
   */
  lemma GraceOnSpawn(m: Math, s: Spaceship, x: real, y: real, dt: real, width: real, height: real)
    requires ReadyAt(s, x, y)
    ensures IsSpaceshipInvulnerable(s)
    ensures dt < SPACESHIP_INVULNERABLE_TIME ==> IsSpaceshipInvulnerable(Piloted(m, s, dt, width, height))
  {
  }

  lemma LenSqNonNeg(v: Vec)
    ensures LenSq(v) >= 0.0
  {
    assert v.x * v.x >= 0.0 && v.y * v.y >= 0.0;
  }

  lemma LenSqScale(v: Vec, k: real)
    ensures LenSq(Scale(v, k)) == k * k * LenSq(v)
  {
    assert (v.x * k) * (v.x * k) == k * k * (v.x * v.x);
    assert (v.y * k) * (v.y * k) == k * k * (v.y * v.y);
  }

  /** With an exact square root, the clamp leaves a speed of at most SPACESHIP_MAX_SPEED. */
  lemma {:induction false} ClampBoundsSpeed(m: Math, v: Vec)
    requires ExactRootAt(m, LenSq(v))
    ensures LenSq(ClampSpeed(m, v)) <= SPACESHIP_MAX_SPEED_SQ
  {
    var len := m.sqrt(LenSq(v));
    if len > SPACESHIP_MAX_SPEED {
      var k := 1.0 / len;
      LenSqScale(v, k);
      assert k * len == 1.0;
      assert k * k * (len * len) == (k * len) * (k * len);
      assert LenSq(Normalize(m, v)) == 1.0;
      LenSqScale(Normalize(m, v), SPACESHIP_MAX_SPEED);
    } else {
      assert 0.0 <= len;
      assert len * len <= SPACESHIP_MAX_SPEED * len <= SPACESHIP_MAX_SPEED_SQ;
    }
  }

  /**
   * Speed stays within SPACESHIP_MAX_SPEED across an update: the clamp bounds
   * a thrusting ship, drag only shrinks a coasting one.
   */
  lemma {:induction false} SpeedStaysBounded(m: Math, ship: Spaceship, dt: real)
    requires !ship.isThrusting ==> LenSq(ship.velocity) <= SPACESHIP_MAX_SPEED_SQ
    requires ship.isThrusting ==> ExactRootAt(m, LenSq(Thrusted(m, ship.velocity, NextRotation(ship, dt), dt)))
    ensures LenSq(NextVelocity(m, ship, dt)) <= SPACESHIP_MAX_SPEED_SQ
  {
    var v := PreDragVelocity(m, ship, dt);
    var before := LenSq(v);
    assert before <= SPACESHIP_MAX_SPEED_SQ by {
      if ship.isThrusting {
        var t := Thrusted(m, ship.velocity, NextRotation(ship, dt), dt);
        ClampBoundsSpeed(m, t);
      }
    }
    assert 0.0 <= before by {
      LenSqNonNeg(v);
    }
    assert LenSq(Scale(v, SPACESHIP_DRAG)) == SPACESHIP_DRAG_SQ * before by {
      LenSqScale(v, SPACESHIP_DRAG);
    }
  }

  /**
   * Drag alone acts on a ship that is not thrusting: its squared speed is
   * scaled by SPACESHIP_DRAG squared, so it never grows.
   */
  lemma {:induction false} DragSlows(m: Math, ship: Spaceship, dt: real)
    requires !ship.isThrusting
    ensures LenSq(NextVelocity(m, ship, dt)) == SPACESHIP_DRAG_SQ * LenSq(ship.velocity)
    ensures LenSq(NextVelocity(m, ship, dt)) <= LenSq(ship.velocity)
  {
    var v := ship.velocity;
    assert PreDragVelocity(m, ship, dt) == v;
    var before := LenSq(v);
    assert 0.0 <= before by {
      LenSqNonNeg(v);
    }
    assert LenSq(Scale(v, SPACESHIP_DRAG)) == SPACESHIP_DRAG_SQ * before by {
      LenSqScale(v, SPACESHIP_DRAG);
    }
  }

  method ThrustSpaceship(ship: Spaceship) returns (s: Spaceship)
    ensures s == ship.(isThrusting := true)
  {
    s := ship.(isThrusting := true);
  }

  method RotateSpaceship(ship: Spaceship, direction: real) returns (s: Spaceship)
    ensures s == ship.(rotationSpeed := direction * SPACESHIP_ROTATION_SPEED)
  {
    s := ship.(rotationSpeed := direction * SPACESHIP_ROTATION_SPEED);
  }

  /** A teleport to a random point of the screen; only position and velocity change. */
  method HyperspaceJump(rng: Random, ship: Spaceship, width: real, height: real) returns (s: Spaceship)
    modifies rng
    ensures s == ship.(position := s.position, velocity := ORIGIN)
    ensures 0.0 <= width && 0.0 <= height ==> InBounds(s.position, width, height)
  {
    var x := rng.RandomFloat(0.0, width);
    var y := rng.RandomFloat(0.0, height);
    s := ship.(position := Vec(x, y));
    s := s.(velocity := ORIGIN);
  }

  // ----------------------------------------------------------------- asteroid

  function Radius(size: AsteroidSize): (r: real)
    ensures 0.0 < r <= ASTEROID_LARGE_RADIUS
    ensures r == ASTEROID_LARGE_RADIUS <==> size == Large
  {
    match size
    case Large => ASTEROID_LARGE_RADIUS
    case Medium => ASTEROID_MEDIUM_RADIUS
    case Small => ASTEROID_SMALL_RADIUS
  }

  /** The size class one step down. */
  function Smaller(size: AsteroidSize): AsteroidSize
    requires size != Small
  {
    if size == Large then Medium else Small
  }

  lemma RadiusShrinks(size: AsteroidSize)
    requires size != Small
    ensures 0.0 < Radius(Smaller(size)) < Radius(size)
  {
  }

  /** A slot owns an outline exactly while active, and an active one has a consistent radius and outline. */
  predicate WellFormed(a: Asteroid) {
    && (a.isActive <==> a.shape.Some?)
    && (a.isActive ==>
          && a.radius == Radius(a.size)
          && MIN_ASTEROID_VERTICES <= a.shapePointCount <= MAX_ASTEROID_VERTICES
          && |a.shape.value| == a.shapePointCount)
  }

  /** Vertex `i` of an `n`-gon outline: evenly spaced angle, radius jittered by 0.8 to 1.2. */
  ghost predicate JitteredVertex(m: Math, radius: real, n: int, i: int, v: Vec)
    requires n > 0
  {
    exists len :: 0.8 * radius <= len <= 1.2 * radius && v == Polar(m, VertexAngle(n, i), len)
  }

  /** The heading of vertex `i` of `n`: evenly spaced around the full turn. */
  function VertexAngle(n: int, i: int): real
    requires n > 0
  {
    360.0 / n as real * i as real
  }

  /** `v` has some heading in [0, 360] and a length in [lo, hi]. */
  ghost predicate SomeHeading(m: Math, v: Vec, lo: real, hi: real) {
    exists deg, len :: 0.0 <= deg <= 360.0 && lo <= len <= hi && v == Polar(m, deg, len)
  }

  lemma JitterBounds(radius: real, jitter: real)
    requires 0.0 <= radius && 0.8 <= jitter <= 1.2
    ensures 0.8 * radius <= radius * jitter <= 1.2 * radius
  {
    assert radius * jitter - 0.8 * radius == radius * (jitter - 0.8);
    assert 1.2 * radius - radius * jitter == radius * (1.2 - jitter);
    assert radius * (jitter - 0.8) >= 0.0;
    assert radius * (1.2 - jitter) >= 0.0;
  }

  method InitAsteroid(m: Math, rng: Random, x: real, y: real, size: AsteroidSize) returns (a: Asteroid)
    modifies rng
    ensures a.isActive && a.position == Vec(x, y) && a.size == size && a.radius == Radius(size)
    ensures WellFormed(a)
    ensures forall i :: 0 <= i < |a.shape.value| ==> JitteredVertex(m, a.radius, a.shapePointCount, i, a.shape.value[i])
    ensures SomeHeading(m, a.velocity, ASTEROID_SPEED_MIN, ASTEROID_SPEED_MAX)
    ensures 0.0 <= a.rotation <= 360.0 && -100.0 <= a.rotationSpeed <= 100.0
  {
    var radius := Radius(size);
    var speed := rng.RandomFloat(ASTEROID_SPEED_MIN, ASTEROID_SPEED_MAX);
    var angle := rng.RandomFloat(0.0, 360.0);
    var velocity := Polar(m, angle, speed);
    var rotation := rng.RandomFloat(0.0, 360.0);
    var rotationSpeed := rng.RandomFloat(-100.0, 100.0);
    var n := rng.RandomInt(MIN_ASTEROID_VERTICES, MAX_ASTEROID_VERTICES);
    var shape := new Vec[n];
    for i := 0 to n
      invariant forall j :: 0 <= j < i ==> JitteredVertex(m, radius, n, j, shape[j])
    {
      var jitter := rng.RandomFloat(0.8, 1.2);
      JitterBounds(radius, jitter);
      shape[i] := Polar(m, VertexAngle(n, i), radius * jitter);
    }
    a := Asteroid(Vec(x, y), velocity, rotation, rotationSpeed, size, true, radius, Some(shape[..]), n);
  }

  /** An active asteroid after `dt`: moved along its velocity, wrapped at the edges, and turned. */
  function Drifted(a: Asteroid, dt: real, width: real, height: real): Asteroid {
    a.(position := Wrapped(Add(a.position, Scale(a.velocity, dt)), width, height),
       rotation := a.rotation + a.rotationSpeed * dt)
  }

  method UpdateAsteroid(a: Asteroid, dt: real, width: real, height: real) returns (b: Asteroid)
    ensures !a.isActive ==> b == a
    ensures a.isActive ==> b == Drifted(a, dt, width, height)
    ensures b.isActive == a.isActive && (WellFormed(a) ==> WellFormed(b))
    ensures a.isActive && 0.0 <= width && 0.0 <= height ==> InBounds(b.position, width, height)
  {
    b := a;
    if !b.isActive {
      return;
    }
    b := b.(position := Vec(b.position.x + b.velocity.x * dt, b.position.y + b.velocity.y * dt));
    b := b.(rotation := b.rotation + b.rotationSpeed * dt);
    var p := WrapPosition(b.position, width, height);
    b := b.(position := p);
  }

  /** A child of `parent`'s split: active, one size smaller, at the parent's position. */
  predicate SplitChild(parent: Asteroid, c: Asteroid)
    requires parent.size != Small
  {
    c.isActive && c.size == Smaller(parent.size) && c.position == parent.position && WellFormed(c)
  }

  /**
   * The velocities of a split's children: one speed in [30, 150], along
   * headings half a turn apart.
   */
  ghost predicate SplitApart(m: Math, c1: Asteroid, c2: Asteroid) {
    exists deg, len :: && 0.0 <= deg <= 360.0
                       && 1.5 * ASTEROID_SPEED_MIN <= len <= 1.5 * ASTEROID_SPEED_MAX
                       && c1.velocity == Polar(m, deg, len)
                       && c2.velocity == Polar(m, deg + 180.0, len)
  }

  /**
   * A small parent leaves both children alone; otherwise both become split
   * children heading half a turn apart at the same speed in [30, 150].
   */
  method SplitAsteroid(m: Math, rng: Random, parent: Asteroid, child1: Asteroid, child2: Asteroid)
    returns (c1: Asteroid, c2: Asteroid)
    modifies rng
    ensures parent.size == Small ==> c1 == child1 && c2 == child2
    ensures parent.size != Small ==> SplitChild(parent, c1) && SplitChild(parent, c2)
    ensures parent.size != Small ==> SplitApart(m, c1, c2)
    ensures parent.size != Small && (forall deg :: HalfTurnLaw(m, deg)) ==> c2.velocity == Neg(c1.velocity)
  {
    c1, c2 := child1, child2;
    if parent.size == Small {
      return;
    }
    var newSize := if parent.size == Large then Medium else Small;
    c1 := InitAsteroid(m, rng, parent.position.x, parent.position.y, newSize);
    c2 := InitAsteroid(m, rng, parent.position.x, parent.position.y, newSize);
    var angle1 := rng.RandomFloat(0.0, 360.0);
    var angle2 := angle1 + 180.0;
    var speed := rng.RandomFloat(ASTEROID_SPEED_MIN * 1.5, ASTEROID_SPEED_MAX * 1.5);
    c1 := c1.(velocity := Polar(m, angle1, speed));
    c2 := c2.(velocity := Polar(m, angle2, speed));
    assert c1.velocity == Polar(m, angle1, speed) && c2.velocity == Polar(m, angle1 + 180.0, speed);
    if forall d :: HalfTurnLaw(m, d) {
      OppositeHeadings(m, angle1, speed);
    }
  }

  /** Deactivates and releases the outline; a second call changes nothing. */
  method DestroyAsteroid(a: Asteroid) returns (b: Asteroid)
    ensures b == a.(isActive := false, shape := None)
    ensures WellFormed(b)
    ensures !a.isActive && a.shape == None ==> b == a
  {
    b := a.(isActive := false);
    if b.shape.Some? {
      b := b.(shape := None);
    }
  }

  // ------------------------------------------------------------------- bullet

  method InitBullet(m: Math, position: Vec, angle: real, fromPlayer: bool) returns (b: Bullet)
    ensures b == Bullet(position, Polar(m, angle - 90.0, BULLET_SPEED), BULLET_LIFETIME, true, fromPlayer)
  {
    b := EMPTY_BULLET.(position := position, lifetime := BULLET_LIFETIME, isActive := true, fromPlayer := fromPlayer);
    b := b.(velocity := Polar(m, angle - 90.0, BULLET_SPEED));
  }

  /** An active bullet after `dt`: moved, wrapped at the edges, aged, and spent once its lifetime is used up. */
  function Flown(b: Bullet, dt: real, width: real, height: real): Bullet {
    b.(position := Wrapped(Add(b.position, Scale(b.velocity, dt)), width, height),
       lifetime := b.lifetime - dt,
       isActive := b.lifetime - dt > 0.0)
  }

  /** Moves and ages an active bullet; it expires once its lifetime is used up. */
  method UpdateBullet(b: Bullet, dt: real, width: real, height: real) returns (c: Bullet)
    ensures !b.isActive ==> c == b
    ensures b.isActive ==> c == Flown(b, dt, width, height)
    ensures c.isActive ==> b.isActive
  {
    c := b;
    if !c.isActive {
      return;
    }
    c := c.(position := Vec(c.position.x + c.velocity.x * dt, c.position.y + c.velocity.y * dt));
    c := c.(lifetime := c.lifetime - dt);
    if c.lifetime <= 0.0 {
      c := c.(isActive := false);
    }
    var p := WrapPosition(c.position, width, height);
    c := c.(position := p);
  }

  method DestroyBullet(b: Bullet) returns (c: Bullet)
    ensures c == b.(isActive := false)
  {
    c := b.(isActive := false);
  }

  /** `k` is the lowest inactive bullet slot. */
  ghost predicate LowestFreeBullet(s: seq<Bullet>, k: int) {
    0 <= k < |s| && !s[k].isActive && forall j :: 0 <= j < k ==> s[j].isActive
  }

  ghost predicate AllBulletsActive(s: seq<Bullet>) {
    forall j :: 0 <= j < |s| ==> s[j].isActive
  }

  /** The slot scan both the player and the UFOs use to fire: the lowest inactive slot, or -1. */
  method FirstFreeBullet(bullets: array<Bullet>) returns (k: int)
    ensures k == -1 <==> AllBulletsActive(bullets[..])
    ensures k != -1 ==> LowestFreeBullet(bullets[..], k)
  {
    k := 0;
    while k < bullets.Length
      invariant 0 <= k <= bullets.Length
      invariant forall j :: 0 <= j < k ==> bullets[j].isActive
    {
      if !bullets[k].isActive {
        return;
      }
      k := k + 1;
    }
    k := -1;
  }

  // ---------------------------------------------------------------------- UFO

  /** The small UFO is the faster one. */
  function UfoSpeed(kind: UfoType): (s: real)
    ensures 0.0 < s
    ensures kind == SmallUfo <==> UFO_LARGE_SPEED < s
  {
    match kind
    case LargeUfo => UFO_LARGE_SPEED
    case SmallUfo => UFO_SMALL_SPEED
  }

  /** Enters at the left edge heading right or at the right edge heading left, in the middle 60% of the height. */
  method InitUfo(rng: Random, kind: UfoType, width: real, height: real) returns (u: Ufo)
    modifies rng
    ensures u.kind == kind && u.isActive && u.shootTimer == 0.0 && u.moveTimer == 0.0
    ensures (u.position.x == 0.0 && u.direction == 1) || (u.position.x == width && u.direction == -1)
    ensures u.velocity == Vec(UfoSpeed(kind) * u.direction as real, 0.0)
    ensures 0.0 <= height ==> height * 0.2 <= u.position.y <= height * 0.8
  {
    u := EMPTY_UFO.(kind := kind, isActive := true, shootTimer := 0.0, moveTimer := 0.0);
    var side := rng.RandomInt(0, 1);
    if side == 0 {
      u := u.(position := u.position.(x := 0.0), direction := 1);
    } else {
      u := u.(position := u.position.(x := width), direction := -1);
    }
    var y := rng.RandomFloat(height * 0.2, height * 0.8);
    u := u.(position := u.position.(y := y));
    var speed := UfoSpeed(kind);
    u := u.(velocity := Vec(speed * u.direction as real, 0.0));
  }

  /** The UFO has left the screen on the side it travels towards. */
  predicate Exited(direction: int, x: real, width: real) {
    (direction > 0 && x > width + UFO_SIZE) || (direction < 0 && x < -UFO_SIZE)
  }

  /**
   * The bullet array after a shot from `from`: unchanged when every slot is
   * taken, otherwise only the lowest free slot changes, to an active enemy or
   * player bullet at `from` with a full lifetime.
   */
  ghost predicate ShotIntoLowestFree(before: seq<Bullet>, after: seq<Bullet>, from: Vec, fromPlayer: bool) {
    && |after| == |before|
    && (AllBulletsActive(before) ==> after == before)
    && (forall k :: LowestFreeBullet(before, k) ==>
          && after == before[k := after[k]]
          && after[k].isActive && after[k].fromPlayer == fromPlayer
          && after[k].position == from && after[k].lifetime == BULLET_LIFETIME)
  }

  /**
   * A bullet velocity of BULLET_SPEED along a heading drawn from [0, 360]:
   * InitBullet turns the drawn heading a quarter turn back, so the
   * direction of flight lies in [-90, 270].
   */
  ghost predicate AnyHeadingShot(m: Math, velocity: Vec) {
    exists dir :: -90.0 <= dir <= 270.0 && velocity == Polar(m, dir, BULLET_SPEED)
  }

  /**
   * One tick of the UFO `u`, which becomes `v` while the bullet array goes
   * from `before` to `after`. An active UFO moves, retires once it has
   * crossed the far edge, and every UFO_SHOOT_INTERVAL fires into the lowest
   * free bullet slot, aimed at the target when the UFO is small and the
   * target alive, at a random heading otherwise. The shot happens even on
   * the tick the UFO retires.
   */
  ghost predicate UfoStepped(m: Math, u: Ufo, v: Ufo, dt: real, target: Spaceship,
                             before: seq<Bullet>, after: seq<Bullet>, width: real) {
    && (!u.isActive ==> v == u && after == before)
    && (u.isActive ==>
          && v.kind == u.kind && v.direction == u.direction && v.velocity.x == u.velocity.x
          && v.position.x == u.position.x + u.velocity.x * dt
          && v.isActive == !Exited(u.direction, v.position.x, width))
    && (u.isActive && u.kind == LargeUfo ==>
          v.position.y == u.position.y && v.velocity.y == u.velocity.y && v.moveTimer == u.moveTimer)
    && (u.isActive && u.kind == SmallUfo ==>
          && (u.moveTimer + dt > UFO_MOVE_INTERVAL ==> v.moveTimer == 0.0 && -UFO_DRIFT <= v.velocity.y <= UFO_DRIFT)
          && (u.moveTimer + dt <= UFO_MOVE_INTERVAL ==> v.moveTimer == u.moveTimer + dt && v.velocity.y == u.velocity.y)
          && v.position.y == u.position.y + v.velocity.y * dt)
    && (u.isActive && u.shootTimer + dt <= UFO_SHOOT_INTERVAL ==>
          v.shootTimer == u.shootTimer + dt && after == before)
    && (u.isActive && u.shootTimer + dt > UFO_SHOOT_INTERVAL ==>
          && v.shootTimer == 0.0
          && ShotIntoLowestFree(before, after, v.position, false)
          && (u.kind == SmallUfo && target.isAlive ==>
                forall k :: LowestFreeBullet(before, k) ==>
                  after[k].velocity == Polar(m, AimAt(m, v.position, target.position) - 90.0, BULLET_SPEED))
          && (!(u.kind == SmallUfo && target.isAlive) ==>
                forall k :: LowestFreeBullet(before, k) ==> AnyHeadingShot(m, after[k].velocity)))
  }

  method UpdateUfo(m: Math, rng: Random, u: Ufo, dt: real, target: Spaceship, bullets: array<Bullet>, width: real)
    returns (v: Ufo)
    modifies rng, bullets
    ensures UfoStepped(m, u, v, dt, target, old(bullets[..]), bullets[..], width)
  {
    v := u;
    if !v.isActive {
      return;
    }
    v := v.(position := v.position.(x := v.position.x + v.velocity.x * dt));
    if v.kind == SmallUfo {
      v := v.(moveTimer := v.moveTimer + dt);
      if v.moveTimer > UFO_MOVE_INTERVAL {
        var vy := rng.RandomFloat(-UFO_DRIFT, UFO_DRIFT);
        v := v.(velocity := v.velocity.(y := vy), moveTimer := 0.0);
      }
      v := v.(position := v.position.(y := v.position.y + v.velocity.y * dt));
    }
    if Exited(v.direction, v.position.x, width) {
      v := v.(isActive := false);
    }
    v := v.(shootTimer := v.shootTimer + dt);
    if v.shootTimer > UFO_SHOOT_INTERVAL {
      v := v.(shootTimer := 0.0);
      ghost var before := bullets[..];
      var k := FirstFreeBullet(bullets);
      if k != -1 {
        var angle;
        if v.kind == SmallUfo && target.isAlive {
          angle := AimAt(m, v.position, target.position);
        } else {
          angle := rng.RandomFloat(0.0, 360.0);
        }
        var b := InitBullet(m, v.position, angle, false);
        assert !(v.kind == SmallUfo && target.isAlive) ==> -90.0 <= angle - 90.0 <= 270.0;
        bullets[k] := b;
        assert bullets[..] == before[k := b];
        LowestFreeBulletUnique(before, k);
      }
    }
  }

  /** The heading, in the game's convention (0 = up), from `from` towards `to`. */
  function AimAt(m: Math, from: Vec, to: Vec): real {
    var d := Sub(to, from);
    m.atan2Deg(d.y, d.x) + 90.0
  }

  /**
   * A bullet fired at heading AimAt(from, to) flies straight at `to`: its
   * velocity is the offset to the target rescaled to BULLET_SPEED, provided
   * atan2 is exact there.
   */
  lemma {:induction false} AimedAtTarget(m: Math, from: Vec, to: Vec)
    requires BearingLaw(m, Sub(to, from))
    ensures Polar(m, AimAt(m, from, to) - 90.0, BULLET_SPEED)
            == Scale(Sub(to, from), BULLET_SPEED / m.sqrt(LenSq(Sub(to, from))))
  {
    var d := Sub(to, from);
    var len := m.sqrt(LenSq(d));
    var deg := m.atan2Deg(d.y, d.x);
    assert AimAt(m, from, to) - 90.0 == deg;
    Rescaled(m.cosDeg(deg), len, d.x, BULLET_SPEED);
    Rescaled(m.sinDeg(deg), len, d.y, BULLET_SPEED);
  }

  /** If c * len == x then c * k == x * (k / len). */
  lemma Rescaled(c: real, len: real, x: real, k: real)
    requires 0.0 < len && c * len == x
    ensures c * k == x * (k / len)
  {
    assert x * (k / len) == c * (len * (k / len));
    assert len * (k / len) == k;
  }

  lemma LowestFreeBulletUnique(s: seq<Bullet>, k: int)
    requires LowestFreeBullet(s, k)
    ensures forall j :: LowestFreeBullet(s, j) ==> j == k
    ensures !AllBulletsActive(s)
  {
  }

  method DestroyUfo(u: Ufo) returns (v: Ufo)
    ensures v == u.(isActive := false)
  {
    v := u.(isActive := false);
  }
}
