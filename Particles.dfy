/** A short-lived visual particle: a dot that drifts sideways at a fixed speed,
    falls under a light gravity and fades out as its remaining life runs down. */
module Particles {

  /** Velocity added to `speedY` on every update. */
  const ParticleGravity: real := 0.1
  /** Remaining life at which a particle is fully opaque. */
  const FadeFrames: real := 60.0

  /** What a particle is made from. */
  datatype ParticleConfig = ParticleConfig(
    x: real, y: real, color: string, size: real, speedX: real, speedY: real, life: real)

  /** The value of a particle's fields at one moment. */
  datatype ParticleState = ParticleState(
    x: real, y: real, color: string, size: real,
    speedX: real, speedY: real, life: real, opacity: real)

  /** One update as a value: the position moves by the velocity it had before
      the step, then gravity is added, life goes down by one and the opacity
      follows the new life. */
  function Step(s: ParticleState): ParticleState
  {
    var life := s.life - 1.0;
    s.(x := s.x + s.speedX, y := s.y + s.speedY, speedY := s.speedY + ParticleGravity,
       life := life, opacity := life / FadeFrames)
  }

  /** `n` updates in a row. */
  function Steps(s: ParticleState, n: nat): ParticleState
  {
    if n == 0 then s else Step(Steps(s, n - 1))
  }

  /** Closed form of `n` updates: the particle drifts `n * speedX` sideways,
      falls `n * speedY + 0.1 * n * (n - 1) / 2`, has lost `n` of its life, and
      (after at least one update) its opacity is its remaining life over 60.
      Colour, size and horizontal speed never change. */
  lemma {:induction false} StepsClosedForm(s: ParticleState, n: nat)
    ensures Steps(s, n).x == s.x + (n as real) * s.speedX
    ensures Steps(s, n).y
         == s.y + (n as real) * s.speedY + ParticleGravity * (n as real) * ((n as real) - 1.0) / 2.0
    ensures Steps(s, n).speedY == s.speedY + (n as real) * ParticleGravity
    ensures Steps(s, n).life == s.life - (n as real)
    ensures n > 0 ==> Steps(s, n).opacity == Steps(s, n).life / FadeFrames
    ensures Steps(s, n).color == s.color && Steps(s, n).size == s.size
    ensures Steps(s, n).speedX == s.speedX
  {
    if n > 0 {
      StepsClosedForm(s, n - 1);
      var k := (n - 1) as real;
      assert (n as real) == k + 1.0;
      var prev := Steps(s, n - 1);
      assert prev.speedY == s.speedY + k * ParticleGravity;
      calc {
        Steps(s, n).y;
        prev.y + prev.speedY;
        s.y + k * s.speedY + ParticleGravity * k * (k - 1.0) / 2.0 + s.speedY + k * ParticleGravity;
        s.y + (k + 1.0) * s.speedY + ParticleGravity * (k + 1.0) * k / 2.0;
      }
    }
  }

  /** A particle made with a whole number `n >= 1` of life reports itself alive
      on exactly its first `n - 1` updates; the `n`-th update reports it dead.
      While alive and made with at most 61 of life, its opacity stays in (0, 1]. */
  lemma Lifetime(s: ParticleState, n: nat, k: nat)
    requires s.life == n as real && 1 <= k
    ensures Steps(s, k).life > 0.0 <==> k < n
    ensures k < n <= 61 ==> 0.0 < Steps(s, k).opacity <= 1.0
  {
    StepsClosedForm(s, k);
  }

  class Particle {
    var x: real
    var y: real
    var color: string
    var size: real
    var speedX: real
    var speedY: real
    var life: real
    var opacity: real

    /** Every field is copied from the configuration; the particle starts fully opaque. */
    constructor (config: ParticleConfig)
      ensures State() == ParticleState(config.x, config.y, config.color, config.size,
                                       config.speedX, config.speedY, config.life, 1.0)
    {
      x := config.x;
      y := config.y;
      color := config.color;
      size := config.size;
      speedX := config.speedX;
      speedY := config.speedY;
      life := config.life;
      opacity := 1.0;
    }

    function State(): ParticleState
      reads this
    {
      ParticleState(x, y, color, size, speedX, speedY, life, opacity)
    }

    /** One frame of the particle: drift and fall by the velocity it had, then
        gravity, one unit of life less, and the opacity follows the remaining
        life. Reports whether the particle is still alive. */
    method Update() returns (alive: bool)
      modifies this
      ensures State() == Step(old(State()))
      ensures x == old(x) + speedX && y == old(y) + old(speedY)
      ensures speedY == old(speedY) + ParticleGravity
      ensures life == old(life) - 1.0 && opacity == life / FadeFrames
      ensures color == old(color) && size == old(size) && speedX == old(speedX)
      ensures alive <==> life > 0.0
    {
      x := x + speedX;
      y := y + speedY;
      speedY := speedY + ParticleGravity;
      life := life - 1.0;
      opacity := life / FadeFrames;
      alive := life > 0.0;
    }
  }
}
