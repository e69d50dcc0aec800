/** The run controller of the game page: whether a run is being played, whether
    the last run is over, the score shown, the final score of the last run and
    the best final score of the session. */
module UseGame {

  /** The best of the final scores reported so far; 0 before any. */
  function Best(finals: seq<int>): int
  {
    if finals == [] then 0 else Max(Best(finals[..|finals| - 1]), finals[|finals| - 1])
  }

  function Max(a: int, b: int): int
  {
    if a < b then b else a
  }

  /** The best score is at least 0 and at least every reported final score, and
      it is 0 or one of them. */
  lemma {:induction false} BestIsMaximum(finals: seq<int>)
    ensures Best(finals) >= 0
    ensures forall i :: 0 <= i < |finals| ==> finals[i] <= Best(finals)
    ensures Best(finals) == 0 || Best(finals) in finals
  {
    if finals != [] {
      var init := finals[..|finals| - 1];
      BestIsMaximum(init);
      forall i | 0 <= i < |finals|
        ensures finals[i] <= Best(finals)
      {
        if i < |init| { assert finals[i] == init[i]; }
      }
      if Best(init) != 0 && Best(finals) == Best(init) {
        assert Best(init) in init;
      }
    }
  }

  /** Reporting one more final score raises the best score to that score if it
      is higher and leaves it alone otherwise, so the best score never decreases. */
  lemma BestStep(finals: seq<int>, s: int)
    ensures Best(finals + [s]) == Max(Best(finals), s)
    ensures Best(finals) <= Best(finals + [s])
  {
  }

  class GameSession {
    var score: int
    var gameOver: bool
    var isPlaying: bool
    var highScore: int
    var finalScore: int
    /** The final scores of the session's runs, in the order they ended. */
    ghost var finals: seq<int>
    /** The scores sent to the server, in order. */
    ghost var submitted: seq<int>

    ghost predicate Valid()
      reads this
    {
      && !(gameOver && isPlaying)
      && highScore == Best(finals)
    }

    /** A new session: nothing played, every counter 0. */
    constructor ()
      ensures Valid()
      ensures score == 0 && finalScore == 0 && highScore == 0
      ensures !gameOver && !isPlaying
      ensures finals == [] && submitted == []
    {
      score, gameOver, isPlaying, highScore, finalScore := 0, false, false, 0, 0;
      finals, submitted := [], [];
    }

    /** The game canvas reports the end of a run with its score `s`. The run
        stops and is over, the score and final score become `s`, the high score
        becomes the larger of itself and `s`, and the score is submitted exactly
        when a user is signed in. */
    method HandleGameOver(s: int, userPresent: bool)
      requires Valid()
      modifies this
      ensures Valid()
      ensures score == s && finalScore == s && gameOver && !isPlaying
      ensures highScore == Max(old(highScore), s)
      ensures finals == old(finals) + [s]
      ensures submitted == old(submitted) + (if userPresent then [s] else [])
    {
      BestStep(finals, s);
      finalScore := s;
      score := s;
      gameOver := true;
      isPlaying := false;
      highScore := Max(highScore, s);
      finals := finals + [s];
      if userPresent {
        submitted := submitted + [s];
      }
    }

    /** Start a run: scores back to 0, not over, playing. The high score stays. */
    method StartGame()
      requires Valid()
      modifies this
      ensures Valid()
      ensures score == 0 && finalScore == 0 && !gameOver && isPlaying
      ensures highScore == old(highScore) && finals == old(finals) && submitted == old(submitted)
    {
      score := 0;
      finalScore := 0;
      gameOver := false;
      isPlaying := true;
    }

    /** Dismiss the end of a run: scores back to 0, not over, not playing. The
        high score stays. */
    method RestartGame()
      requires Valid()
      modifies this
      ensures Valid()
      ensures score == 0 && finalScore == 0 && !gameOver && !isPlaying
      ensures highScore == old(highScore) && finals == old(finals) && submitted == old(submitted)
    {
      gameOver := false;
      score := 0;
      finalScore := 0;
      isPlaying := false;
    }

    /** The score shown is set directly; nothing else changes. */
    method SetScore(s: int)
      requires Valid()
      modifies this`score
      ensures Valid() && score == s
    {
      score := s;
    }
  }
}
