/**
 * Keyboard handling: each frame the keys held and the keys pressed since the
 * last frame are turned into changes of the game state, differently in each
 * phase of the game.
 */
module Input {
  import opened Geometry
  import opened Utils
  import opened Entities
  import opened Game

  /**
   * The keyboard as one frame sees it. The movement keys are read as held,
   * the action keys as pressed on this frame.
   */
  datatype Keys = Keys(
    upDown: bool, wDown: bool,
    leftDown: bool, aDown: bool,
    rightDown: bool, dDown: bool,
    spacePressed: bool, hPressed: bool,
    pPressed: bool, escapePressed: bool)
  {
    predicate ThrustHeld() { upDown || wDown }
    predicate LeftHeld() { leftDown || aDown }
    predicate RightHeld() { rightDown || dDown }
    predicate PausePressed() { pPressed || escapePressed }
  }

  /** The turn the held keys ask for, -1 to the left and 1 to the right; right wins when both are held. */
  function TurnDirection(k: Keys): (d: real)
    ensures d == 1.0 <==> k.RightHeld()
    ensures d == -1.0 <==> k.LeftHeld() && !k.RightHeld()
    ensures d == 0.0 <==> !k.LeftHeld() && !k.RightHeld()
  {
    if k.RightHeld() then 1.0 else if k.LeftHeld() then -1.0 else 0.0
  }

  /** The thrust sound starts while thrust is held and stops otherwise. */
  function ThrustCue(k: Keys): Sound {
    if k.ThrustHeld() then ThrustSound else ThrustStopped
  }

  /** Thrust and turn are reset, then set again from the held keys; the thrust sound follows. */
  method Steer(g: GameState, keys: Keys)
    requires g.Valid()
    modifies g`ship, g`sounds
    ensures g.Valid()
    ensures g.ship == old(g.ship).(isThrusting := keys.ThrustHeld(),
                                   rotationSpeed := TurnDirection(keys) * SPACESHIP_ROTATION_SPEED)
    ensures g.sounds == old(g.sounds) + [ThrustCue(keys)]
  {
    var ship := g.ship.(isThrusting := false, rotationSpeed := 0.0);
    if keys.ThrustHeld() {
      ship := ThrustSpaceship(ship);
    }
    g.sounds := g.sounds + [ThrustCue(keys)];
    if keys.LeftHeld() {
      ship := RotateSpaceship(ship, -1.0);
    }
    if keys.RightHeld() {
      ship := RotateSpaceship(ship, 1.0);
    }
    g.ship := ship;
  }

  /** The H key: a hyperspace jump with its sound. */
  method Jump(g: GameState, rng: Random)
    requires g.Valid()
    modifies g`ship, g`sounds, rng
    ensures g.Valid()
    ensures g.ship == old(g.ship).(position := g.ship.position, velocity := ORIGIN)
    ensures InBounds(g.ship.position, g.screenWidth, g.screenHeight)
    ensures g.sounds == old(g.sounds) + [HyperspaceSound]
  {
    var jumped := HyperspaceJump(rng, g.ship, g.screenWidth, g.screenHeight);
    g.ship := jumped;
    g.sounds := g.sounds + [HyperspaceSound];
  }

  /**
   * One frame of flying, from world `w` to world `v`: thrust and turn follow
   * the held keys, space fires when the gun is ready, H jumps through
   * hyperspace (even while the ship is dead) and P or Escape pauses. The
   * sounds are the thrust cue, then the shot, then the jump. Nothing else in
   * the game changes.
   */
  ghost predicate PlayedInput(m: Math, w: World, v: World, keys: Keys, width: real, height: real) {
    var fired := keys.spacePressed && CanFire(w.fireDelay, w.ship, w.bullets);
    && v == w.(ship := v.ship, bullets := v.bullets, fireDelay := v.fireDelay, sounds := v.sounds, phase := v.phase)
    && v.ship == w.ship.(isThrusting := keys.ThrustHeld(),
                         rotationSpeed := TurnDirection(keys) * SPACESHIP_ROTATION_SPEED,
                         position := v.ship.position, velocity := v.ship.velocity)
    && (keys.hPressed ==> v.ship.velocity == ORIGIN && InBounds(v.ship.position, width, height))
    && (!keys.hPressed ==> v.ship.position == w.ship.position && v.ship.velocity == w.ship.velocity)
    && (fired ==> PlayerShot(m, w.bullets, v.bullets, w.ship) && v.fireDelay == FIRE_DELAY)
    && (!fired ==> v.bullets == w.bullets && v.fireDelay == w.fireDelay)
    && v.sounds == w.sounds + [ThrustCue(keys)] + (if fired then [ShootSound] else [])
                            + (if keys.hPressed then [HyperspaceSound] else [])
    && v.phase == if keys.PausePressed() then Paused else Playing
  }

  /** The first half of a flying frame: steering, then the gun. */
  ghost predicate SteeredAndFired(m: Math, w: World, v: World, keys: Keys) {
    var fired := keys.spacePressed && CanFire(w.fireDelay, w.ship, w.bullets);
    && v == w.(ship := w.ship.(isThrusting := keys.ThrustHeld(),
                               rotationSpeed := TurnDirection(keys) * SPACESHIP_ROTATION_SPEED),
               bullets := v.bullets, fireDelay := v.fireDelay, sounds := v.sounds)
    && (fired ==> PlayerShot(m, w.bullets, v.bullets, w.ship) && v.fireDelay == FIRE_DELAY)
    && (!fired ==> v.bullets == w.bullets && v.fireDelay == w.fireDelay)
    && v.sounds == w.sounds + [ThrustCue(keys)] + (if fired then [ShootSound] else [])
  }

  /** The second half of a flying frame: the hyperspace key, then the pause key. */
  ghost predicate JumpedAndPaused(w: World, v: World, keys: Keys, width: real, height: real) {
    && v == w.(ship := w.ship.(position := v.ship.position, velocity := v.ship.velocity),
               sounds := w.sounds + (if keys.hPressed then [HyperspaceSound] else []),
               phase := if keys.PausePressed() then Paused else Playing)
    && (keys.hPressed ==> v.ship.velocity == ORIGIN && InBounds(v.ship.position, width, height))
    && (!keys.hPressed ==> v.ship == w.ship)
  }

  /** The two halves make a whole frame. */
  lemma PlayedInBothHalves(m: Math, w: World, w1: World, v: World, keys: Keys, width: real, height: real)
    requires w.phase == Playing
    requires SteeredAndFired(m, w, w1, keys) && JumpedAndPaused(w1, v, keys, width, height)
    ensures PlayedInput(m, w, v, keys, width, height)
  {
  }

  method SteerAndFire(g: GameState, keys: Keys)
    requires g.Valid()
    modifies g`ship, g.bullets, g`fireDelay, g`sounds
    ensures g.Valid()
    ensures SteeredAndFired(g.math, old(g.Snap()), g.Snap(), keys)
  {
    Steer(g, keys);
    if keys.spacePressed {
      g.FireBullet();
    }
  }

  method JumpAndPause(g: GameState, rng: Random, keys: Keys)
    requires g.Valid() && g.phase == Playing
    modifies g`ship, g`sounds, g`phase, rng
    ensures g.Valid()
    ensures JumpedAndPaused(old(g.Snap()), g.Snap(), keys, g.screenWidth, g.screenHeight)
  {
    if keys.hPressed {
      Jump(g, rng);
    }
    if keys.PausePressed() {
      g.PauseGame();
    }
  }

  /** The PLAYING branch of ProcessInput. */
  method PlayingInput(g: GameState, rng: Random, keys: Keys)
    requires g.Valid() && g.phase == Playing
    modifies g`ship, g.bullets, g`fireDelay, g`sounds, g`phase, rng
    ensures g.Valid()
    ensures PlayedInput(g.math, old(g.Snap()), g.Snap(), keys, g.screenWidth, g.screenHeight)
  {
    SteerAndFire(g, keys);
    ghost var w1 := g.Snap();
    JumpAndPause(g, rng, keys);
    PlayedInBothHalves(g.math, old(g.Snap()), w1, g.Snap(), keys, g.screenWidth, g.screenHeight);
  }

  /** The PAUSED branch of ProcessInput: P or Escape resumes, and nothing else happens. */
  method PausedInput(g: GameState, keys: Keys)
    requires g.Valid() && g.phase == Paused
    modifies g`phase
    ensures g.Valid()
    ensures g.Snap() == old(g.Snap()).(phase := if keys.PausePressed() then Playing else Paused)
  {
    if keys.PausePressed() {
      g.ResumeGame();
    }
  }

  /**
   * ProcessInput. In the menu, space starts a game. While playing, see
   * PlayingInput. While paused, P or Escape resumes and nothing else
   * happens. After the game is over, space clears the high-score banner and
   * starts a new game.
   */
  method ProcessInput(g: GameState, rng: Random, keys: Keys)
    requires g.Valid()
    modifies g, g.asteroids, g.bullets, g.ufos, rng
    ensures g.Valid()
    ensures (old(g.phase) == Menu || old(g.phase) == Phase.GameOver) && keys.spacePressed ==>
      && g.AtFirstLevel() && g.highScore == old(g.highScore) && g.sounds == old(g.sounds)
      && g.showingHighScore == (old(g.phase) == Menu && old(g.showingHighScore))
    ensures (old(g.phase) == Menu || old(g.phase) == Phase.GameOver) && !keys.spacePressed ==>
      unchanged(g) && unchanged(g.asteroids) && unchanged(g.bullets) && unchanged(g.ufos) && unchanged(rng)
    ensures old(g.phase) == Paused ==>
      g.Snap() == old(g.Snap()).(phase := if keys.PausePressed() then Playing else Paused) && unchanged(rng)
    ensures old(g.phase) == Playing ==> PlayedInput(g.math, old(g.Snap()), g.Snap(), keys, g.screenWidth, g.screenHeight)
    ensures g.screenWidth == old(g.screenWidth) && g.screenHeight == old(g.screenHeight)
  {
    match g.phase {
      case Menu =>
        if keys.spacePressed {
          g.StartNewGame(rng);
        }
      case Playing =>
        PlayingInput(g, rng, keys);
      case Paused =>
        PausedInput(g, keys);
      case GameOver =>
        if keys.spacePressed {
          g.showingHighScore := false;
          g.StartNewGame(rng);
        }
    }
  }
}
