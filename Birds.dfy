/** The player's bird: a mutable box with a vertical velocity, and its per-tick physics. */
module Birds {

  /** The part of the bird that changes from tick to tick. */
  datatype Motion = Motion(y: real, velocity: real)

  /** One physics step: gravity is added to the velocity first, then the
      position moves by the new velocity. */
  function Integrate(m: Motion, gravity: real): Motion
  {
    var v := m.velocity + gravity;
    Motion(m.y + v, v)
  }

  /** `n` physics steps with no jump input in between. */
  function Fall(m: Motion, gravity: real, n: nat): Motion
  {
    if n == 0 then m else Integrate(Fall(m, gravity, n - 1), gravity)
  }

  /** Closed form of free fall: after `n` steps the velocity has grown by `n * g`
      and the position by `n * v0 + g * n * (n + 1) / 2`. */
  lemma {:induction false} FallClosedForm(m: Motion, gravity: real, n: nat)
    ensures Fall(m, gravity, n).velocity == m.velocity + (n as real) * gravity
    ensures Fall(m, gravity, n).y
         == m.y + (n as real) * m.velocity + gravity * (n as real) * ((n as real) + 1.0) / 2.0
  {
    if n > 0 {
      FallClosedForm(m, gravity, n - 1);
      var k := (n - 1) as real;
      assert (n as real) == k + 1.0;
      var prev := Fall(m, gravity, n - 1);
      assert prev.velocity == m.velocity + k * gravity;
      assert prev.y == m.y + k * m.velocity + gravity * k * (k + 1.0) / 2.0;
      calc {
        Fall(m, gravity, n).y;
        prev.y + prev.velocity + gravity;
        m.y + k * m.velocity + gravity * k * (k + 1.0) / 2.0 + m.velocity + k * gravity + gravity;
        m.y + (k + 1.0) * m.velocity + gravity * (k + 1.0) * (k + 2.0) / 2.0;
      }
    }
  }

  /** Ten steps from rest under gravity 0.5 (the medium profile): the velocity
      is 5 and the bird is 27.5 lower, e.g. from y = 320 it reaches y = 347.5. */
  lemma FallFromRestExample(y0: real)
    ensures Fall(Motion(y0, 0.0), 0.5, 10) == Motion(y0 + 27.5, 5.0)
  {
    FallClosedForm(Motion(y0, 0.0), 0.5, 10);
  }

  class Bird {
    /** Horizontal position, width and height are fixed when the bird is made. */
    const x: real
    const width: real
    const height: real
    var y: real
    var velocity: real

    /** A new bird at (x, y): a 34 by 24 box at rest. */
    constructor (x: real, y: real)
      ensures this.x == x && this.y == y
      ensures width == 34.0 && height == 24.0 && velocity == 0.0
    {
      this.x := x;
      this.y := y;
      width := 34.0;
      height := 24.0;
      velocity := 0.0;
    }

    function State(): Motion
      reads this
    {
      Motion(y, velocity)
    }
  }
}
