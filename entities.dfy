/** The entities of the play field: falling letters, hit particles and the
    player's life counter. Positions, speeds and times are real numbers
    (pixels, pixels per second, seconds). */
module Entities {

  /** Where a new letter appears: 50 px above the top edge. */
  const SpawnY: real := -50.0
  /** How far below the bottom edge a letter may fall before it is lost. */
  const GroundMargin: real := 50.0
  /** Downward acceleration of particles, px/s². */
  const Gravity: real := 300.0

  datatype Letter = Letter(ch: char, x: real, y: real, speed: real, size: real, targeted: bool)

  /** A new falling letter with the given character, column and speed. */
  function NewLetter(ch: char, x: real, speed: real): (l: Letter)
    ensures l.ch == ch && l.x == x && l.speed == speed
    ensures l.y == SpawnY && l.size == 40.0 && !l.targeted
  {
    Letter(ch, x, SpawnY, speed, 40.0, false)
  }

  /** One step of falling: the letter moves down by speed * delta. */
  function Fall(l: Letter, delta: real): Letter {
    l.(y := l.y + l.speed * delta)
  }

  /** A letter is lost once it is strictly more than 50 px below the screen. */
  predicate IsOffScreen(l: Letter, screenHeight: real) {
    l.y > screenHeight + GroundMargin
  }

  /** Falling changes nothing but the height, and moves by speed * delta. */
  lemma FallMovesOnlyY(l: Letter, delta: real)
    ensures Fall(l, delta).ch == l.ch && Fall(l, delta).x == l.x
    ensures Fall(l, delta).speed == l.speed && Fall(l, delta).size == l.size
    ensures Fall(l, delta).targeted == l.targeted
    ensures Fall(l, delta).y - l.y == l.speed * delta
  {
  }

  /** Two steps of falling are one step over the summed time. */
  lemma FallAdditive(l: Letter, a: real, b: real)
    ensures Fall(Fall(l, a), b) == Fall(l, a + b)
  {
    calc {
      Fall(Fall(l, a), b).y;
      l.y + l.speed * a + l.speed * b;
      { assert l.speed * a + l.speed * b == l.speed * (a + b); }
      Fall(l, a + b).y;
    }
  }

  /** A freshly spawned letter is on screen for any non-negative height, and
      a letter that is off screen stays off while it keeps falling. */
  lemma SpawnedOnScreen(ch: char, x: real, speed: real, screenHeight: real)
    requires screenHeight >= 0.0
    ensures !IsOffScreen(NewLetter(ch, x, speed), screenHeight)
  {
  }

  lemma OffScreenStaysOff(l: Letter, delta: real, screenHeight: real)
    requires IsOffScreen(l, screenHeight) && l.speed >= 0.0 && delta >= 0.0
    ensures IsOffScreen(Fall(l, delta), screenHeight)
  {
  }

  // ----------------------------------------------------------- particles

  datatype Particle = Particle(x: real, y: real, vx: real, vy: real, life: real, maxLife: real, size: real)

  /** The random part of a particle: its velocity (from a random angle and
      speed) and its size. */
  datatype Spark = Spark(vx: real, vy: real, size: real)

  /** A particle at (x, y) with one second to live. */
  function NewParticle(x: real, y: real, s: Spark): (p: Particle)
    ensures p.x == x && p.y == y && p.vx == s.vx && p.vy == s.vy && p.size == s.size
    ensures p.life == p.maxLife == 1.0
    ensures !IsDead(p)
  {
    Particle(x, y, s.vx, s.vy, 1.0, 1.0, s.size)
  }

  /** One step: move with the old velocity, then gravity, then ageing. */
  function Step(p: Particle, delta: real): (q: Particle)
    ensures q.x == p.x + p.vx * delta && q.y == p.y + p.vy * delta
    ensures q.vx == p.vx && q.vy == p.vy + Gravity * delta
    ensures q.life == p.life - delta && q.maxLife == p.maxLife && q.size == p.size
  {
    Particle(p.x + p.vx * delta, p.y + p.vy * delta, p.vx, p.vy + Gravity * delta,
             p.life - delta, p.maxLife, p.size)
  }

  predicate IsDead(p: Particle) {
    p.life <= 0.0
  }

  /** Life after a sequence of steps. */
  function Steps(p: Particle, deltas: seq<real>): Particle
    decreases |deltas|
  {
    if deltas == [] then p else Steps(Step(p, deltas[0]), deltas[1..])
  }

  function Sum(deltas: seq<real>): real
    decreases |deltas|
  {
    if deltas == [] then 0.0 else deltas[0] + Sum(deltas[1..])
  }

  /** A particle loses exactly the elapsed time from its life, so a new
      particle is dead exactly once a second has passed. */
  lemma {:induction false} StepsAge(p: Particle, deltas: seq<real>)
    ensures Steps(p, deltas).life == p.life - Sum(deltas)
    ensures Steps(p, deltas).maxLife == p.maxLife
    decreases |deltas|
  {
    if deltas != [] {
      StepsAge(Step(p, deltas[0]), deltas[1..]);
    }
  }

  lemma NewParticleLifetime(x: real, y: real, s: Spark, deltas: seq<real>)
    ensures IsDead(Steps(NewParticle(x, y, s), deltas)) <==> Sum(deltas) >= 1.0
  {
    StepsAge(NewParticle(x, y, s), deltas);
  }

  // -------------------------------------------------------------- player

  datatype Player = Player(x: real, y: real, lives: int, maxLives: int)

  /** A new player at (x, y) with a full set of five lives. */
  function NewPlayer(x: real, y: real): (p: Player)
    ensures p.x == x && p.y == y && p.lives == p.maxLives == 5
  {
    Player(x, y, 5, 5)
  }
}
