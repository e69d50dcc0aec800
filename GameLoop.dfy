/** The game canvas's simulation state and its per-frame step. Drawing is not
    modelled; the frame scheduler is the caller, who calls Tick once per frame
    while a run is being played. */
module GameLoop {
  import opened Config
  import opened Birds
  import opened Pipes
  import opened PipeStream

  /** The pipe objects hold, position by position, the given values. */
  ghost predicate Mirrors(ps: seq<Pipe>, values: seq<PipeState>)
    reads ps
  {
    |ps| == |values| && forall i :: 0 <= i < |ps| ==> ps[i].State() == values[i]
  }

  /** Some pipe of the list collides with the bird. */
  predicate AnyCollision(ps: seq<Pipe>, bird: Bird)
    reads bird, ps
  {
    exists i | 0 <= i < |ps| :: ps[i].CollidesWith(bird)
  }

  /** The pipes at positions `i` and `j` are different objects. */
  ghost predicate Apart(ps: seq<Pipe>, i: nat, j: nat)
    requires i < |ps| && j < |ps|
  {
    ps[i] != ps[j]
  }

  /** No pipe object appears twice in the list. Stated through Apart, so that
      the pairs are only considered where a proof names them. */
  ghost predicate Distinct(ps: seq<Pipe>)
  {
    forall i, j :: 0 <= i < j < |ps| ==> Apart(ps, i, j)
  }

  class GameCanvas {
    /** The profile of this canvas. */
    const difficulty: Difficulty
    /** Whether a run is being played (the canvas's input from the run controller). */
    var isPlaying: bool
    var bird: Bird
    var pipes: seq<Pipe>
    /** Points of the current run; never negative. */
    var score: nat
    /** Frame counter; it is never reset, not even between runs. */
    var frame: nat
    /** The values the live pipe objects hold, in list order. */
    ghost var stream: seq<PipeState>
    /** Number of pipes spawned since the pipe list was last emptied. */
    ghost var spawned: nat

    ghost predicate Valid()
      reads this, bird, pipes
    {
      && bird.x == BirdStartX && bird.width == 34.0 && bird.height == 24.0
      && Distinct(pipes) && Mirrors(pipes, stream)
      && StreamValid(stream, difficulty)
      // every pipe spawned in this run has either scored once or can still score
      && score + CountUnpassed(stream) == spawned
      && (!isPlaying ==> pipes == [] && score == 0)
    }

    function Profile(): Settings
    {
      SettingsOf(difficulty)
    }

    /** Mounting the canvas: empty pipe list, score and frame 0, a fresh bird at
        its start position. */
    constructor (difficulty: Difficulty, playing: bool)
      ensures Valid() && fresh(bird)
      ensures this.difficulty == difficulty && isPlaying == playing
      ensures bird.x == BirdStartX && bird.State() == Motion(BirdStartY, 0.0)
      ensures pipes == [] && score == 0 && frame == 0
    {
      this.difficulty := difficulty;
      isPlaying := playing;
      bird := new Bird(BirdStartX, BirdStartY);
      pipes := [];
      score := 0;
      frame := 0;
      stream := [];
      spawned := 0;
    }

    /** A click or key press: while playing, the velocity is set to the jump
        force (not added to), so repeated presses do not stack; otherwise
        nothing changes. */
    method HandleInput()
      requires Valid()
      modifies bird
      ensures Valid()
      ensures bird.velocity == if isPlaying then Profile().jumpForce else old(bird.velocity)
      ensures bird.y == old(bird.y) && bird.x == old(bird.x)
    {
      if isPlaying {
        bird.velocity := Profile().jumpForce;
      }
    }

    /** The run controller switches playing on or off. Each switch installs a
        fresh bird at the start position; switching off also empties the pipe
        list and sets the score to 0. The frame counter is left alone. */
    method SetPlaying(playing: bool)
      requires Valid()
      modifies this
      ensures Valid() && isPlaying == playing && frame == old(frame)
      ensures playing == old(isPlaying) ==>
                bird == old(bird) && pipes == old(pipes) && score == old(score)
      ensures playing != old(isPlaying) ==>
                fresh(bird) && bird.x == BirdStartX && bird.State() == Motion(BirdStartY, 0.0)
      ensures playing != old(isPlaying) && !playing ==> pipes == [] && score == 0
      ensures playing != old(isPlaying) && playing ==> pipes == old(pipes) && score == old(score)
    {
      if playing != isPlaying {
        isPlaying := playing;
        bird := new Bird(BirdStartX, BirdStartY);
        if !playing {
          pipes := [];
          score := 0;
          stream := [];
          spawned := 0;
        }
      }
    }

    /** The pass over the pipe list, as one `filter` over the objects in `all`:
        each pipe is moved left by `speed`, is marked passed if the bird (at
        `birdX`) has just passed it, and is kept, in order, if it is still on
        screen. `gained` counts the pipes that became passed. */
    static method MoveAll(all: seq<Pipe>, ghost pre: seq<PipeState>, speed: real, birdX: real)
      returns (kept: seq<Pipe>, gained: nat)
      requires Distinct(all) && Mirrors(all, pre)
      modifies all
      ensures forall j :: 0 <= j < |all| ==> all[j].State() == Moved(pre[j], speed, birdX)
      ensures |kept| == |KeptIndices(pre, speed, birdX)|
      ensures forall k :: 0 <= k < |kept| ==> kept[k] == all[KeptIndices(pre, speed, birdX)[k]]
      ensures gained == Gain(pre, speed, birdX)
      ensures Distinct(kept) && Mirrors(kept, Sweep(pre, speed, birdX))
    {
      kept, gained := [], 0;
      ghost var idx: seq<nat> := [];
      var i: nat := 0;
      while i < |all|
        invariant i <= |all|
        invariant forall j {:trigger all[j].State()} :: 0 <= j < |all| ==>
                    all[j].State() == if j < i then Moved(pre[j], speed, birdX) else pre[j]
        invariant idx == KeptIndices(pre[..i], speed, birdX)
        invariant |kept| == |idx| && forall k {:trigger kept[k]} :: 0 <= k < |kept| ==> kept[k] == all[idx[k]]
        invariant gained == Gain(pre[..i], speed, birdX)
      {
        SweepPrefixStep(pre, i, speed, birdX);
        forall j | 0 <= j < |all| && j != i
          ensures all[j] != all[i]
        {
          if j < i { assert Apart(all, j, i); } else { assert Apart(all, i, j); }
        }
        var p := all[i];
        assert p.State() == pre[i];
        p.x := p.x - speed;
        if p.x + PipeWidth < birdX && !p.passed {
          p.passed := true;
          gained := gained + 1;
        }
        assert p.State() == Moved(pre[i], speed, birdX);
        if p.x > -PipeWidth {
          kept, idx := kept + [p], idx + [i];
        }
        i := i + 1;
      }
      assert pre[..|all|] == pre;
      KeptMirrorSweep(all, kept, pre, speed, birdX);
    }

    /** After the filter pass, the kept pipes are distinct objects and hold
        exactly the values the stream specification gives. */
    static lemma KeptMirrorSweep(all: seq<Pipe>, kept: seq<Pipe>, pre: seq<PipeState>, speed: real, birdX: real)
      requires Distinct(all) && |all| == |pre|
      requires forall j :: 0 <= j < |all| ==> all[j].State() == Moved(pre[j], speed, birdX)
      requires |kept| == |KeptIndices(pre, speed, birdX)|
      requires forall k :: 0 <= k < |kept| ==> kept[k] == all[KeptIndices(pre, speed, birdX)[k]]
      ensures Distinct(kept) && Mirrors(kept, Sweep(pre, speed, birdX))
    {
      SweepOrder(pre, speed, birdX);
      var idx := KeptIndices(pre, speed, birdX);
      forall k, l | 0 <= k < l < |kept|
        ensures Apart(kept, k, l)
      {
        assert Apart(all, idx[k], idx[l]);
      }
    }

    /** The filter pass of the game loop: the pipe list is replaced by the pipes
        kept, and the score goes up by one for each pipe the bird has just passed. */
    method FilterPass(speed: real, birdX: real)
      requires Distinct(pipes) && Mirrors(pipes, stream) && birdX > 0.0
      modifies this`pipes, this`stream, this`score, pipes
      ensures |pipes| == |KeptIndices(old(stream), speed, birdX)|
      ensures forall k :: 0 <= k < |pipes| ==>
                pipes[k] == old(pipes)[KeptIndices(old(stream), speed, birdX)[k]]
      ensures stream == Sweep(old(stream), speed, birdX)
      ensures score == old(score) + Gain(old(stream), speed, birdX)
      ensures score + CountUnpassed(stream) == old(score) + CountUnpassed(old(stream))
      ensures Distinct(pipes) && Mirrors(pipes, stream)
      ensures bird == old(bird) && isPlaying == old(isPlaying) && spawned == old(spawned)
    {
      ghost var pre := stream;
      SweepAccounting(pre, speed, birdX);
      stream := Sweep(pre, speed, birdX);
      // the pipe objects are not the canvas, so moving them leaves its other fields alone
      assert forall j :: 0 <= j < |pipes| ==> pipes[j] as object != this;
      var kept, gained := MoveAll(pipes, pre, speed, birdX);
      pipes := kept;
      score := score + gained;
    }

    /** The spawn step: on every frame that is a multiple of 100 a new pipe is
        appended at the right edge, its gap placed by the random draw `r`. */
    method SpawnPipe(r: real)
      requires Distinct(pipes) && Mirrors(pipes, stream) && 0.0 <= r < 1.0
      modifies this`pipes, this`stream, this`spawned
      ensures stream == Spawn(old(stream), frame, difficulty, r)
      ensures Distinct(pipes) && Mirrors(pipes, stream)
      ensures spawned + CountUnpassed(old(stream)) == old(spawned) + CountUnpassed(stream)
      ensures bird == old(bird) && isPlaying == old(isPlaying) && score == old(score)
      ensures bird.State() == old(bird.State())
      ensures frame % SpawnPeriod != 0 ==> pipes == old(pipes)
      ensures frame % SpawnPeriod == 0 ==>
                && |pipes| == |old(pipes)| + 1 && pipes[..|old(pipes)|] == old(pipes)
                && fresh(pipes[|old(pipes)|])
    {
      SpawnUnpassed(stream, frame, difficulty, r);
      if frame % SpawnPeriod == 0 {
        var p := new Pipe(CanvasWidth, SpawnY(difficulty, r), PipeWidth, Profile().gapHeight);
        forall i, j | 0 <= i < j < |pipes| + 1
          ensures Apart(pipes + [p], i, j)
        {
          if j < |pipes| { assert Apart(pipes, i, j); }
        }
        pipes := pipes + [p];
        stream := stream + [p.State()];
        spawned := spawned + 1;
      }
    }

    /** The pipe half of a frame: spawn, then the filter pass. Every pipe spawned
        in the run stays accounted for: it has scored once or can still score. */
    method AdvancePipes(r: real)
      requires Valid() && isPlaying && 0.0 <= r < 1.0
      modifies this`pipes, this`score, this`stream, this`spawned, pipes
      ensures Valid()
      ensures var pre := Spawn(old(stream), frame, difficulty, r);
              && stream == Sweep(pre, Profile().pipeSpeed, bird.x)
              && score == old(score) + Gain(pre, Profile().pipeSpeed, bird.x)
      ensures bird == old(bird) && bird.State() == old(bird.State())
      ensures isPlaying == old(isPlaying) && frame == old(frame)
    {
      StreamStep(stream, frame, difficulty, r, bird.x);
      SpawnPipe(r);
      FilterPass(Profile().pipeSpeed, bird.x);
    }

    /** One frame of play. The bird falls under gravity; on every 100th frame a
        pipe is appended at the right edge with its gap at height `r`; then one
        pass moves every pipe left, scores the pipes the bird has just passed
        and drops the pipes that have left the screen. The run is over when the
        bird is above the canvas, inside the ground band, or hits a remaining
        pipe; the frame counter only advances when it is not. */
    method Tick(r: real) returns (over: bool)
      requires Valid() && isPlaying && 0.0 <= r < 1.0
      modifies this, bird, pipes
      ensures Valid() && isPlaying && bird == old(bird)
      ensures bird.x == old(bird.x)
      ensures bird.State() == Integrate(old(bird.State()), Profile().gravity)
      ensures var pre := Spawn(old(stream), old(frame), difficulty, r);
              && stream == Sweep(pre, Profile().pipeSpeed, bird.x)
              && score == old(score) + Gain(pre, Profile().pipeSpeed, bird.x)
      ensures over <==> bird.y < 0.0 || bird.y + bird.height > CanvasHeight - GroundHeight
                        || AnyCollision(pipes, bird)
      ensures frame == if over then old(frame) else old(frame) + 1
    {
      bird.velocity := bird.velocity + Profile().gravity;
      bird.y := bird.y + bird.velocity;
      AdvancePipes(r);
      over := bird.y < 0.0 || bird.y + bird.height > CanvasHeight - GroundHeight
              || AnyCollision(pipes, bird);
      if !over {
        frame := frame + 1;
      }
    }
  }
}
