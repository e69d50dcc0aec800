/** The obstacle stream as values: what one pass of the game loop does to the
    list of live pipes. The game loop's tick is proved against these functions. */
module PipeStream {
  import opened Config
  import opened Pipes

  /** One pipe after the loop has handled it: moved left by `speed`, and marked
      passed once its right edge (at x + PipeWidth) is left of the bird. */
  function Moved(p: PipeState, speed: real, birdX: real): PipeState
  {
    var x := p.x - speed;
    p.(x := x, passed := p.passed || x + PipeWidth < birdX)
  }

  /** A pipe stays in the list while any of it may still be on screen. */
  predicate Survives(p: PipeState)
  {
    p.x > -PipeWidth
  }

  /** The filter pass: every pipe moved, the survivors kept in their order. */
  function Sweep(ps: seq<PipeState>, speed: real, birdX: real): seq<PipeState>
  {
    if ps == [] then []
    else
      var q := Moved(ps[|ps| - 1], speed, birdX);
      Sweep(ps[..|ps| - 1], speed, birdX) + (if Survives(q) then [q] else [])
  }

  /** Positions, in the input, of the pipes that the filter pass keeps. */
  function KeptIndices(ps: seq<PipeState>, speed: real, birdX: real): (kept: seq<nat>)
    ensures forall k :: 0 <= k < |kept| ==> kept[k] < |ps|
  {
    if ps == [] then []
    else
      var n := |ps| - 1;
      KeptIndices(ps[..n], speed, birdX) + (if Survives(Moved(ps[n], speed, birdX)) then [n] else [])
  }

  /** Points scored by the filter pass: pipes that become passed in it. */
  function Gain(ps: seq<PipeState>, speed: real, birdX: real): nat
  {
    if ps == [] then 0
    else
      var p := ps[|ps| - 1];
      Gain(ps[..|ps| - 1], speed, birdX) + (if !p.passed && Moved(p, speed, birdX).passed then 1 else 0)
  }

  /** Pipes that have not been passed yet, i.e. that can still score. */
  function CountUnpassed(ps: seq<PipeState>): nat
  {
    if ps == [] then 0
    else CountUnpassed(ps[..|ps| - 1]) + (if ps[|ps| - 1].passed then 0 else 1)
  }

  /** The pipe at position `i` is strictly left of the pipe at position `j`. */
  ghost predicate LeftOf(ps: seq<PipeState>, i: nat, j: nat)
    requires i < |ps| && j < |ps|
  {
    ps[i].x < ps[j].x
  }

  /** Left-to-right screen order. Stated through LeftOf, so that the pairs are
      only considered where a proof names them. */
  ghost predicate Sorted(ps: seq<PipeState>)
  {
    forall i, j :: 0 <= i < j < |ps| ==> LeftOf(ps, i, j)
  }

  /** What every live pipe of a run at difficulty `d` looks like: the run's
      width and gap, a gap inside the margins, on screen or to its left edge,
      and already moved at least once since it was spawned at the right edge. */
  ghost predicate WellFormed(p: PipeState, d: Difficulty)
  {
    && p.width == PipeWidth
    && p.gapHeight == SettingsOf(d).gapHeight
    && 100.0 <= p.y < CanvasHeight - 100.0 - p.gapHeight
    && -PipeWidth < p.x <= CanvasWidth - SettingsOf(d).pipeSpeed
  }

  /** The live pipe list of a run: well formed and in screen order. */
  ghost predicate StreamValid(ps: seq<PipeState>, d: Difficulty)
  {
    Sorted(ps) && forall i :: 0 <= i < |ps| ==> WellFormed(ps[i], d)
  }

  /** The pipe that the spawn step appends. */
  function NewPipe(d: Difficulty, r: real): PipeState
    requires 0.0 <= r < 1.0
  {
    PipeState(CanvasWidth, SpawnY(d, r), PipeWidth, SettingsOf(d).gapHeight, false)
  }

  /** The spawn step: a new pipe is appended on every frame that is a multiple of 100. */
  function Spawn(ps: seq<PipeState>, frame: nat, d: Difficulty, r: real): seq<PipeState>
    requires 0.0 <= r < 1.0
  {
    if frame % SpawnPeriod == 0 then ps + [NewPipe(d, r)] else ps
  }

  /** Extending the input by one pipe extends the kept positions and the points
      by what that one pipe contributes. */
  lemma SweepPrefixStep(ps: seq<PipeState>, i: nat, speed: real, birdX: real)
    requires i < |ps|
    ensures KeptIndices(ps[..i + 1], speed, birdX)
         == KeptIndices(ps[..i], speed, birdX) + (if Survives(Moved(ps[i], speed, birdX)) then [i] else [])
    ensures Gain(ps[..i + 1], speed, birdX)
         == Gain(ps[..i], speed, birdX) + (if !ps[i].passed && Moved(ps[i], speed, birdX).passed then 1 else 0)
  {
    assert ps[..i + 1][..i] == ps[..i];
  }

  /** The filter pass is a stable filter: the kept positions increase, a pipe is
      kept exactly when its moved position is still on screen, and each kept
      pipe is the moved version of the input pipe at its position. */
  lemma {:induction false} SweepOrder(ps: seq<PipeState>, speed: real, birdX: real)
    ensures |Sweep(ps, speed, birdX)| == |KeptIndices(ps, speed, birdX)|
    ensures forall k :: 0 <= k < |KeptIndices(ps, speed, birdX)| ==>
              Sweep(ps, speed, birdX)[k] == Moved(ps[KeptIndices(ps, speed, birdX)[k]], speed, birdX)
    ensures forall k, l :: 0 <= k < l < |KeptIndices(ps, speed, birdX)| ==>
              KeptIndices(ps, speed, birdX)[k] < KeptIndices(ps, speed, birdX)[l]
    ensures forall i :: 0 <= i < |ps| ==>
              (i in KeptIndices(ps, speed, birdX) <==> Survives(Moved(ps[i], speed, birdX)))
  {
    if ps != [] {
      var n := |ps| - 1;
      var init := ps[..n];
      SweepOrder(init, speed, birdX);
      var s0, k0 := Sweep(init, speed, birdX), KeptIndices(init, speed, birdX);
      var q := Moved(ps[n], speed, birdX);
      var s1, k1 := Sweep(ps, speed, birdX), KeptIndices(ps, speed, birdX);
      assert s1 == s0 + (if Survives(q) then [q] else []);
      assert k1 == k0 + (if Survives(q) then [n] else []);
      assert forall k :: 0 <= k < |k0| ==> k0[k] < n && init[k0[k]] == ps[k0[k]];
      forall k | 0 <= k < |k1|
        ensures s1[k] == Moved(ps[k1[k]], speed, birdX)
      {
        if k < |k0| {
          assert s1[k] == s0[k] && k1[k] == k0[k];
        }
      }
      forall i | 0 <= i < |ps|
        ensures i in k1 <==> Survives(Moved(ps[i], speed, birdX))
      {
        if i < n {
          assert init[i] == ps[i];
          assert i in k1 <==> i in k0;
        }
      }
    }
  }

  /** Every pipe the filter pass drops has been passed by then (the bird is right
      of the left screen edge), so the pipes that can still score after the pass
      are exactly those that could before it, minus the points it awarded. */
  lemma {:induction false} SweepAccounting(ps: seq<PipeState>, speed: real, birdX: real)
    requires birdX > 0.0
    ensures CountUnpassed(Sweep(ps, speed, birdX)) + Gain(ps, speed, birdX) == CountUnpassed(ps)
  {
    if ps != [] {
      var n := |ps| - 1;
      SweepAccounting(ps[..n], speed, birdX);
      var rest := Sweep(ps[..n], speed, birdX);
      var q := Moved(ps[n], speed, birdX);
      assert Gain(ps, speed, birdX)
          == Gain(ps[..n], speed, birdX) + (if !ps[n].passed && q.passed then 1 else 0);
      assert CountUnpassed(ps) == CountUnpassed(ps[..n]) + (if ps[n].passed then 0 else 1);
      if Survives(q) {
        assert (rest + [q])[..|rest|] == rest;
        assert CountUnpassed(rest + [q]) == CountUnpassed(rest) + (if q.passed then 0 else 1);
      } else {
        assert q.passed;
        assert Sweep(ps, speed, birdX) == rest;
      }
    }
  }

  /** A pipe that is passed stays passed, and the filter pass never awards more
      points than there are pipes that had not yet been passed. */
  lemma {:induction false} PassedIsPermanent(ps: seq<PipeState>, speed: real, birdX: real)
    requires birdX > 0.0
    ensures Gain(ps, speed, birdX) <= CountUnpassed(ps)
    ensures |Sweep(ps, speed, birdX)| == |KeptIndices(ps, speed, birdX)|
    ensures forall k :: 0 <= k < |KeptIndices(ps, speed, birdX)| && ps[KeptIndices(ps, speed, birdX)[k]].passed ==>
              Sweep(ps, speed, birdX)[k].passed
  {
    SweepAccounting(ps, speed, birdX);
    SweepOrder(ps, speed, birdX);
  }

  /** The spawned pipe is at the right edge with the profile's geometry, its gap
      inside the margins, and not yet passed. */
  lemma SpawnAppends(ps: seq<PipeState>, frame: nat, d: Difficulty, r: real)
    requires 0.0 <= r < 1.0
    ensures Spawn(ps, frame, d, r)[..|ps|] == ps
    ensures |Spawn(ps, frame, d, r)| == |ps| + (if frame % SpawnPeriod == 0 then 1 else 0)
    ensures frame % SpawnPeriod == 0 ==>
              var p := Spawn(ps, frame, d, r)[|ps|];
              && p.x == CanvasWidth && p.width == PipeWidth && !p.passed
              && p.gapHeight == SettingsOf(d).gapHeight
              && 100.0 <= p.y < CanvasHeight - 100.0 - p.gapHeight
  {
  }

  /** A spawned pipe can still score: spawning adds one to the count of
      pipes not yet passed, exactly when it appends. */
  lemma SpawnUnpassed(ps: seq<PipeState>, frame: nat, d: Difficulty, r: real)
    requires 0.0 <= r < 1.0
    ensures CountUnpassed(Spawn(ps, frame, d, r))
         == CountUnpassed(ps) + (if frame % SpawnPeriod == 0 then 1 else 0)
  {
  }

  /** One tick keeps the live list a valid stream: spawning at the right edge
      and moving every pipe by the same amount keep screen order, retiring keeps
      only pipes on screen, and no pipe is left at the right edge. */
  lemma StreamStep(ps: seq<PipeState>, frame: nat, d: Difficulty, r: real, birdX: real)
    requires StreamValid(ps, d) && 0.0 <= r < 1.0
    ensures StreamValid(Sweep(Spawn(ps, frame, d, r), SettingsOf(d).pipeSpeed, birdX), d)
  {
    var speed := SettingsOf(d).pipeSpeed;
    var pre := Spawn(ps, frame, d, r);
    forall i, j | 0 <= i < j < |pre|
      ensures LeftOf(pre, i, j)
    {
      assert pre[i] == ps[i];
      if j < |ps| { assert LeftOf(ps, i, j); }
    }
    assert forall i :: 0 <= i < |pre| ==>
      && pre[i].x <= CanvasWidth && pre[i].width == PipeWidth
      && pre[i].gapHeight == SettingsOf(d).gapHeight
      && 100.0 <= pre[i].y < CanvasHeight - 100.0 - pre[i].gapHeight;
    SweepOrder(pre, speed, birdX);
    var kept := KeptIndices(pre, speed, birdX);
    var post := Sweep(pre, speed, birdX);
    forall k | 0 <= k < |post|
      ensures WellFormed(post[k], d)
    {
      assert kept[k] in kept;
    }
    forall k, l | 0 <= k < l < |post|
      ensures LeftOf(post, k, l)
    {
      assert LeftOf(pre, kept[k], kept[l]);
    }
  }
}
