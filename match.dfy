/**
 * Properties of whole frames and of whole matches: an invariant that every
 * step of the run loop keeps, and what one frame may do to the score.
 */
module Match {
  import opened Wrappers
  import opened Paddles
  import opened Balls
  import opened Engine

  /** The replay placement of a paddle (middle height minus 60) keeps it on the screen. */
  predicate PaddleFits(p: PaddleState, screenHeight: int) {
    0 <= p.speed && 0 <= screenHeight / 2 - 60 && screenHeight / 2 - 60 + p.height <= screenHeight
  }

  /** The geometry that no operation changes: sizes and speeds that fit the screen. */
  predicate Config(s: EngineState) {
    2 * s.ball.radius <= s.screenHeight
    && 0 < s.screenWidth / 2 - s.ball.radius && s.screenWidth / 2 + s.ball.radius < s.screenWidth
    && PaddleFits(s.player, s.screenHeight) && PaddleFits(s.ai, s.screenHeight)
  }

  /** Both paddles lie on the screen. */
  predicate PaddlesInBounds(s: EngineState) {
    s.player.InBounds(s.screenHeight) && s.ai.InBounds(s.screenHeight)
  }

  /** The ball lies between the top and bottom walls. */
  predicate BallBetweenWalls(s: EngineState) {
    0 <= s.ball.y - s.ball.radius && s.ball.y + s.ball.radius <= s.screenHeight
  }

  /** Neither edge of the ball has reached a side of the screen. */
  predicate BallInPlay(s: EngineState) {
    !LeftExit(s.ball) && !RightExit(s.ball, s.screenWidth)
  }

  /**
   * The score never passes the winning score, the match is over exactly when
   * one side has reached it, never both sides reach it, and the winner is
   * that side.
   */
  predicate ScoreValid(s: EngineState) {
    1 <= s.winningScore
    && 0 <= s.playerScore <= s.winningScore && 0 <= s.aiScore <= s.winningScore
    && !(s.playerScore == s.winningScore && s.aiScore == s.winningScore)
    && (s.gameOver <==> s.playerScore == s.winningScore || s.aiScore == s.winningScore)
    && s.winner == (if s.playerScore == s.winningScore then Some(Player)
                    else if s.aiScore == s.winningScore then Some(AI)
                    else None)
  }

  /** The invariant of the engine between frames. */
  predicate Valid(s: EngineState) {
    Config(s) && PaddlesInBounds(s) && s.ball.SpeedInvariant() && BallBetweenWalls(s)
    && ScoreValid(s) && (!s.gameOver ==> BallInPlay(s))
  }

  /** A new engine on a screen at least 120 high and 22 wide starts valid. */
  lemma InitialStateValid(screenWidth: int, screenHeight: int)
    requires screenWidth >= 22 && screenHeight >= 120
    ensures Valid(InitialState(screenWidth, screenHeight))
  {
  }

  /** reset_game with a positive winning score leads to a valid state in play. */
  lemma RestartedValid(s: EngineState, n: int)
    requires Config(s) && n >= 1
    ensures Valid(Restarted(s, n))
    ensures !Restarted(s, n).gameOver
  {
    var r := Restarted(s, n);
    assert r.ball.SpeedInvariant();
    assert Config(r);
  }

  /**
   * Before the score is checked the ball has been bounced back between the
   * walls, has kept its speed, and nothing but the ball has changed.
   */
  lemma BallMovedKeeps(s: EngineState)
    requires Valid(s) && !s.gameOver
    ensures BallMoved(s) == s.(ball := BallMoved(s).ball)
    ensures BallMoved(s).ball.radius == s.ball.radius && BallMoved(s).ball.speed == s.ball.speed
    ensures BallMoved(s).ball.SpeedInvariant()
    ensures BallBetweenWalls(BallMoved(s))
  {
    var advanced := s.ball.Advanced();
    SpeedInvariantPreserved(s.ball, s.screenWidth, s.screenHeight);
    SpeedInvariantPreserved(advanced, s.screenWidth, s.screenHeight);
    var bounced := WallBounced(s.(ball := advanced));
    assert BallBetweenWalls(bounced);
  }

  /**
   * Scoring from a match in play: the score invariant holds again, and if
   * the match goes on the ball is back in play.
   */
  lemma ScoredValid(s: EngineState)
    requires Config(s) && PaddlesInBounds(s) && s.ball.SpeedInvariant() && BallBetweenWalls(s)
    requires ScoreValid(s) && !s.gameOver
    ensures Valid(Scored(s))
    ensures Scored(s).player == s.player && Scored(s).ai == s.ai
  {
    var r := Scored(s);
    if LeftExit(s.ball) || RightExit(s.ball, s.screenWidth) {
      SpeedInvariantPreserved(s.ball, s.screenWidth, s.screenHeight);
      assert ScoreValid(r);
      if !r.gameOver {
        assert r.ball == s.ball.Recentred(s.screenWidth, s.screenHeight);
        assert BallInPlay(r);
      }
    }
  }

  /** update_ai keeps the invariant: only the AI paddle moves, and it stays on the screen. */
  lemma AiUpdatedValid(s: EngineState)
    requires Valid(s)
    ensures Valid(AiUpdated(s))
  {
    MovesPreserveBounds(s.ai, s.screenHeight);
  }

  /** update keeps the invariant. */
  lemma SteppedValid(s: EngineState)
    requires Valid(s)
    ensures Valid(Stepped(s))
  {
    if !s.gameOver {
      var moved := BallMoved(s);
      BallMovedKeeps(s);
      ScoredValid(moved);
      var scored := Scored(moved);
      AiUpdatedValid(scored);
    }
  }

  /**
   * One update from a valid state: frozen once the match is over; otherwise
   * at most one of the two scores rises, and by one.
   */
  lemma SteppedScore(s: EngineState)
    requires Valid(s)
    ensures s.gameOver ==> Stepped(s) == s
    ensures var r := Stepped(s);
            (r.playerScore == s.playerScore && r.aiScore == s.aiScore)
            || (r.playerScore == s.playerScore + 1 && r.aiScore == s.aiScore)
            || (r.playerScore == s.playerScore && r.aiScore == s.aiScore + 1)
  {
    if !s.gameOver {
      var moved := BallMoved(s);
      BallMovedKeeps(s);
    }
  }

  /**
   * The winning point: from AI one short of the winning score in a valid
   * state, a frame whose ball leaves on the left ends the match for the AI
   * and leaves the ball where it left.
   */
  lemma WinningPointFreezesBall(s: EngineState)
    requires Valid(s) && !s.gameOver && s.aiScore + 1 == s.winningScore
    requires LeftExit(BallMoved(s).ball)
    ensures Stepped(s).gameOver && Stepped(s).winner == Some(AI)
    ensures Stepped(s).ball == BallMoved(s).ball
    ensures Stepped(s).aiScore == s.winningScore
  {
    var moved := BallMoved(s);
    BallMovedKeeps(s);
  }

  /** Held keys keep the invariant. */
  lemma InputAppliedValid(s: EngineState, up: bool, down: bool)
    requires Valid(s)
    ensures Valid(InputApplied(s, up, down))
  {
    if !s.gameOver {
      MovesPreserveBounds(s.player, s.screenHeight);
      var raised := if up then s.player.MovedUp() else s.player;
      MovesPreserveBounds(raised, s.screenHeight);
    }
  }

  /** The key presses of one frame, in order. */
  function KeysHandled(s: EngineState, keys: seq<Key>): EngineState
    decreases |keys|
  {
    if keys == [] then s else KeysHandled(ReplayChosen(s, keys[0]), keys[1..])
  }

  /** The key presses of a frame keep the invariant. */
  lemma {:induction false} KeysHandledValid(s: EngineState, keys: seq<Key>)
    requires Valid(s)
    ensures Valid(KeysHandled(s, keys))
    decreases |keys|
  {
    if keys != [] {
      var next := ReplayChosen(s, keys[0]);
      if s.gameOver && ReplayWinningScore(keys[0]).Some? {
        RestartedValid(s, ReplayWinningScore(keys[0]).value);
      }
      KeysHandledValid(next, keys[1..]);
    }
  }

  /** What the run loop gets from its collaborators in one frame. */
  datatype FrameInput = FrameInput(keys: seq<Key>, up: bool, down: bool)

  /** One iteration of the run loop: key presses, held keys, then update. */
  function RunFrame(s: EngineState, input: FrameInput): EngineState {
    Stepped(InputApplied(KeysHandled(s, input.keys), input.up, input.down))
  }

  /** A sequence of frames. */
  function Run(s: EngineState, inputs: seq<FrameInput>): EngineState
    decreases |inputs|
  {
    if inputs == [] then s else Run(RunFrame(s, inputs[0]), inputs[1..])
  }

  /**
   * Whatever the player does, every frame keeps the invariant: both paddles
   * stay on the screen, the ball keeps its speed and stays between the
   * walls, and the score never passes the winning score.
   */
  lemma {:induction false} RunValid(s: EngineState, inputs: seq<FrameInput>)
    requires Valid(s)
    ensures Valid(Run(s, inputs))
    ensures PaddlesInBounds(Run(s, inputs)) && ScoreValid(Run(s, inputs))
    decreases |inputs|
  {
    if inputs != [] {
      var input := inputs[0];
      var keyed := KeysHandled(s, input.keys);
      KeysHandledValid(s, input.keys);
      InputAppliedValid(keyed, input.up, input.down);
      SteppedValid(InputApplied(keyed, input.up, input.down));
      RunValid(RunFrame(s, input), inputs[1..]);
    }
  }

  /** From the start of a game on an 800 by 600 screen, every run stays valid. */
  lemma GameRunValid(inputs: seq<FrameInput>)
    ensures Valid(Run(InitialState(800, 600), inputs))
  {
    InitialStateValid(800, 600);
    RunValid(InitialState(800, 600), inputs);
  }
}
