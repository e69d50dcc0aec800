/** An obstacle: a column of width `width` at horizontal position `x`, open only
    in the gap that starts at `y` and is `gapHeight` tall. */
module Pipes {
  import opened Birds

  /** The value of a pipe's fields at one moment. */
  datatype PipeState = PipeState(x: real, y: real, width: real, gapHeight: real, passed: bool)

  class Pipe {
    var x: real
    /** Gap position and size, and the column width, are fixed when the pipe is made. */
    const y: real
    const width: real
    const gapHeight: real
    /** Set once the bird has flown past this pipe; never cleared. */
    var passed: bool

    constructor (x: real, y: real, width: real, gapHeight: real)
      ensures State() == PipeState(x, y, width, gapHeight, false)
    {
      this.x := x;
      this.y := y;
      this.width := width;
      this.gapHeight := gapHeight;
      passed := false;
    }

    function State(): PipeState
      reads this
    {
      PipeState(x, y, width, gapHeight, passed)
    }

    /** The bird's box overlaps the pipe's column and pokes out of the gap. */
    predicate CollidesWith(bird: Bird)
      reads this, bird
    {
      && bird.x < x + width
      && bird.x + bird.width > x
      && (bird.y < y || bird.y + bird.height > y + gapHeight)
    }
  }

  /** Half-open intervals [lo1, hi1) and [lo2, hi2) share a point. */
  predicate SpansMeet(lo1: real, hi1: real, lo2: real, hi2: real)
  {
    lo1 < hi2 && lo2 < hi1
  }

  /** A bird whose box is beside the pipe's column never collides, whatever its height. */
  lemma NoOverlapNoCollision(p: Pipe, b: Bird)
    requires !SpansMeet(b.x, b.x + b.width, p.x, p.x + p.width)
    ensures !p.CollidesWith(b)
  {
  }

  /** Edges that only touch do not collide. */
  lemma TouchingEdgesDoNotCollide(p: Pipe, b: Bird)
    requires b.x + b.width == p.x || b.x == p.x + p.width
    ensures !p.CollidesWith(b)
  {
  }

  /** A bird inside the gap never collides: both gap bounds are inclusive. */
  lemma InsideGapNoCollision(p: Pipe, b: Bird)
    requires p.y <= b.y && b.y + b.height <= p.y + p.gapHeight
    ensures !p.CollidesWith(b)
  {
  }

  /** A bird over the column that sticks out of the gap above or below always collides. */
  lemma OutsideGapCollides(p: Pipe, b: Bird)
    requires SpansMeet(b.x, b.x + b.width, p.x, p.x + p.width)
    requires b.y < p.y || b.y + b.height > p.y + p.gapHeight
    ensures p.CollidesWith(b)
  {
  }

  /** The pipe blocks [0, y) above the gap and [y + gapHeight, canvasHeight) below it.
      For a bird of positive height that is on the canvas, colliding is the same as
      its box meeting one of these two blocks. */
  lemma CollisionMeetsBlockingSegment(p: Pipe, b: Bird, canvasHeight: real)
    requires b.height > 0.0 && 0.0 <= b.y < canvasHeight
    ensures p.CollidesWith(b)
        <==> SpansMeet(b.x, b.x + b.width, p.x, p.x + p.width)
             && (SpansMeet(b.y, b.y + b.height, 0.0, p.y)
                 || SpansMeet(b.y, b.y + b.height, p.y + p.gapHeight, canvasHeight))
  {
  }
}
