/**
 * The game engine: one frame of simulation (motion, wall bounce, paddle
 * collisions, scoring, win detection, the AI paddle) and the match reset.
 */
module Engine {
  import opened Wrappers
  import opened Geometry
  import opened Paddles
  import opened Balls

  /** Who won the match. */
  datatype Side = Player | AI

  /** The keys the game reacts to once a match is over. */
  datatype Key = Digit(n: int) | Escape | OtherKey

  /** The whole state of the engine as a value. */
  datatype EngineState = EngineState(
    screenWidth: int, screenHeight: int,
    ball: BallState, player: PaddleState, ai: PaddleState,
    playerScore: int, aiScore: int, winningScore: int,
    gameOver: bool, winner: Option<Side>)

  /** The outcome of a paddle collision test: the ball afterwards, and whether it hit. */
  datatype Collision = Collision(ball: BallState, hit: bool)

  /** The ball's left edge reaches the left side of the screen: the AI scores. */
  predicate LeftExit(b: BallState) {
    b.x - b.radius <= 0
  }

  /** The ball's right edge reaches the right side of the screen: the player scores. */
  predicate RightExit(b: BallState, screenWidth: int) {
    b.x + b.radius >= screenWidth
  }

  /** The ball's centre lies left of the paddle's centre (both doubled to stay integral). */
  predicate LeftOfCentre(b: BallState, p: PaddleState) {
    2 * b.x < 2 * p.x + p.width
  }

  /**
   * check_paddle_collision: on a strict overlap of the ball's square with the
   * paddle, reverse the horizontal velocity and put the ball flush against
   * the side of the paddle its centre was on.
   */
  function PaddleCollision(b: BallState, p: PaddleState): (r: Collision)
    ensures r.hit <==> CollideRect(b.GetRect(), p.GetRect())
    ensures !r.hit ==> r.ball == b
    ensures r.hit ==> r.ball.velocityX == -b.velocityX
    ensures r.hit && LeftOfCentre(b, p) ==> r.ball.x + r.ball.radius == p.x
    ensures r.hit && !LeftOfCentre(b, p) ==> r.ball.x - r.ball.radius == p.x + p.width
    ensures r.hit ==> !CollideRect(r.ball.GetRect(), p.GetRect())
    ensures r.ball == b.(x := r.ball.x, velocityX := r.ball.velocityX)
  {
    if CollideRect(b.GetRect(), p.GetRect()) then
      var flipped := b.(velocityX := -b.velocityX);
      if LeftOfCentre(b, p) then
        Collision(flipped.(x := p.x - b.radius), true)
      else
        Collision(flipped.(x := p.x + p.width + b.radius), true)
    else
      Collision(b, false)
  }

  /**
   * The engine's own check_wall_bounce: one test for either edge, then the
   * snap. It agrees with the ball's check_wall_bounce.
   */
  function WallBounced(s: EngineState): (r: EngineState)
    ensures r == s.(ball := s.ball.WallBounced(s.screenHeight))
  {
    var b := s.ball;
    if b.y - b.radius <= 0 || b.y + b.radius >= s.screenHeight then
      var flipped := b.(velocityY := b.velocityY * -1);
      if flipped.y - flipped.radius <= 0 then
        s.(ball := flipped.(y := flipped.radius))
      else
        s.(ball := flipped.(y := s.screenHeight - flipped.radius))
    else
      s
  }

  /**
   * check_game_over: the player is tested first; a side that has reached the
   * winning score ends the match; otherwise nothing changes.
   */
  function GameOverChecked(s: EngineState): (r: EngineState)
    ensures s.playerScore >= s.winningScore ==> r.gameOver && r.winner == Some(Player)
    ensures s.playerScore < s.winningScore && s.aiScore >= s.winningScore ==>
              r.gameOver && r.winner == Some(AI)
    ensures s.playerScore < s.winningScore && s.aiScore < s.winningScore ==> r == s
    ensures r == s.(gameOver := r.gameOver, winner := r.winner)
  {
    if s.playerScore >= s.winningScore then
      s.(gameOver := true, winner := Some(Player))
    else if s.aiScore >= s.winningScore then
      s.(gameOver := true, winner := Some(AI))
    else
      s
  }

  /**
   * check_score: a left exit is a point for the AI, otherwise a right exit is
   * a point for the player; after a point the match is checked for its end
   * and, only if it goes on, the ball is re-centred.
   */
  function Scored(s: EngineState): (r: EngineState)
    ensures LeftExit(s.ball) ==>
              r.aiScore == s.aiScore + 1 && r.playerScore == s.playerScore
    ensures !LeftExit(s.ball) && RightExit(s.ball, s.screenWidth) ==>
              r.playerScore == s.playerScore + 1 && r.aiScore == s.aiScore
    ensures !LeftExit(s.ball) && !RightExit(s.ball, s.screenWidth) ==> r == s
    ensures LeftExit(s.ball) || RightExit(s.ball, s.screenWidth) ==>
              r.(ball := s.ball) == GameOverChecked(s.(playerScore := r.playerScore, aiScore := r.aiScore))
    ensures LeftExit(s.ball) || RightExit(s.ball, s.screenWidth) ==>
              r.ball == if r.gameOver then s.ball else s.ball.Recentred(s.screenWidth, s.screenHeight)
  {
    var b := s.ball;
    if b.x - b.radius <= 0 then
      var t := GameOverChecked(s.(aiScore := s.aiScore + 1));
      if !t.gameOver then t.(ball := t.ball.Recentred(t.screenWidth, t.screenHeight)) else t
    else if b.x + b.radius >= s.screenWidth then
      var t := GameOverChecked(s.(playerScore := s.playerScore + 1));
      if !t.gameOver then t.(ball := t.ball.Recentred(t.screenWidth, t.screenHeight)) else t
    else
      s
  }

  /**
   * reset_game: scores cleared, match back in play with the new winning
   * score, both paddles at the middle height and the ball served from the
   * centre at (speed, speed).
   */
  function Restarted(s: EngineState, newWinningScore: int): (r: EngineState)
    ensures r.playerScore == 0 && r.aiScore == 0 && !r.gameOver && r.winner == None
    ensures r.winningScore == newWinningScore
    ensures r.player == s.player.(y := s.screenHeight / 2 - 60)
    ensures r.ai == s.ai.(y := s.screenHeight / 2 - 60)
    ensures r.ball.x == s.screenWidth / 2 && r.ball.y == s.screenHeight / 2
    ensures r.ball.velocityX == s.ball.speed && r.ball.velocityY == s.ball.speed
    ensures r.ball.radius == s.ball.radius && r.ball.speed == s.ball.speed
    ensures r.screenWidth == s.screenWidth && r.screenHeight == s.screenHeight
  {
    var centred := s.ball.(x := s.screenWidth / 2, y := s.screenHeight / 2,
                           velocityX := s.ball.speed, velocityY := s.ball.speed);
    s.(playerScore := 0, aiScore := 0, gameOver := false, winner := None,
       winningScore := newWinningScore,
       player := s.player.(y := s.screenHeight / 2 - 60),
       ai := s.ai.(y := s.screenHeight / 2 - 60),
       ball := centred)
  }

  /** The three directions the AI can choose. */
  datatype Direction = Up | Down | Hold

  /**
   * The AI's rule as a decision: towards the ball by a pure sign comparison
   * of the ball's y with the paddle's centre (both doubled), no dead zone.
   */
  function AiDecision(ballY: int, p: PaddleState): (d: Direction)
    ensures d == Down <==> 2 * ballY > 2 * p.y + p.height
    ensures d == Up <==> 2 * ballY < 2 * p.y + p.height
  {
    if 2 * ballY > 2 * p.y + p.height then Down
    else if 2 * ballY < 2 * p.y + p.height then Up
    else Hold
  }

  /** update_ai: the AI paddle carries out the AI's decision; nothing else changes. */
  function AiUpdated(s: EngineState): (r: EngineState)
    ensures AiDecision(s.ball.y, s.ai) == Down ==> r == s.(ai := s.ai.MovedDown(s.screenHeight))
    ensures AiDecision(s.ball.y, s.ai) == Up ==> r == s.(ai := s.ai.MovedUp())
    ensures AiDecision(s.ball.y, s.ai) == Hold ==> r == s
  {
    if 2 * s.ball.y > 2 * s.ai.y + s.ai.height then
      s.(ai := s.ai.MovedDown(s.screenHeight))
    else if 2 * s.ball.y < 2 * s.ai.y + s.ai.height then
      s.(ai := s.ai.MovedUp())
    else
      s
  }

  /** The AI paddle never moves away from the ball. */
  lemma AiMovesTowardBall(s: EngineState)
    requires s.ai.speed >= 0 && s.ai.InBounds(s.screenHeight)
    ensures 2 * s.ball.y > 2 * s.ai.y + s.ai.height ==> s.ai.y <= AiUpdated(s).ai.y
    ensures 2 * s.ball.y < 2 * s.ai.y + s.ai.height ==> AiUpdated(s).ai.y <= s.ai.y
    ensures 2 * s.ball.y == 2 * s.ai.y + s.ai.height ==> AiUpdated(s) == s
  {
  }

  /**
   * The ball's part of a frame before scoring: motion, the wall bounce, then
   * the player's paddle and the AI's paddle.
   */
  function BallMoved(s: EngineState): EngineState {
    var bounced := WallBounced(s.(ball := s.ball.Advanced()));
    var afterPlayer := bounced.(ball := PaddleCollision(bounced.ball, bounced.player).ball);
    afterPlayer.(ball := PaddleCollision(afterPlayer.ball, afterPlayer.ai).ball)
  }

  /**
   * update: nothing while the match is over; otherwise advance the ball,
   * bounce it off the walls, test the player's paddle and then the AI's,
   * check for a point, and move the AI paddle.
   */
  function Stepped(s: EngineState): (r: EngineState)
    ensures s.gameOver ==> r == s
    ensures r.player == s.player && r.winningScore == s.winningScore
    ensures r.screenWidth == s.screenWidth && r.screenHeight == s.screenHeight
  {
    if s.gameOver then s else AiUpdated(Scored(BallMoved(s)))
  }

  /**
   * The held movement keys of one frame, applied only while the match is in
   * play: up first, then down, both when both are held.
   */
  function InputApplied(s: EngineState, up: bool, down: bool): (r: EngineState)
    ensures s.gameOver || (!up && !down) ==> r == s
    ensures r == s.(player := r.player)
    ensures !s.gameOver && up && !down ==> r.player == s.player.MovedUp()
    ensures !s.gameOver && !up && down ==> r.player == s.player.MovedDown(s.screenHeight)
    ensures !s.gameOver && up && down ==> r.player == s.player.MovedUp().MovedDown(s.screenHeight)
  {
    if s.gameOver then s
    else
      var raised := if up then s.player.MovedUp() else s.player;
      s.(player := if down then raised.MovedDown(s.screenHeight) else raised)
  }

  /**
   * The replay keys: 3, 5 and 7 choose a best-of-3, best-of-5 and best-of-7
   * match, that is first to 2, 3 and 4 points.
   */
  function ReplayWinningScore(k: Key): (r: Option<int>)
    ensures r.Some? <==> k.Digit? && (k.n == 3 || k.n == 5 || k.n == 7)
    ensures r.Some? ==> 2 * r.value == k.n + 1
  {
    match k
    case Digit(3) => Some(2)
    case Digit(5) => Some(3)
    case Digit(7) => Some(4)
    case _ => None
  }

  /** A key press in the run loop: once the match is over a replay key restarts it. */
  function ReplayChosen(s: EngineState, k: Key): (r: EngineState)
    ensures !s.gameOver || ReplayWinningScore(k).None? ==> r == s
    ensures s.gameOver && ReplayWinningScore(k).Some? ==>
              r == Restarted(s, ReplayWinningScore(k).value)
  {
    if s.gameOver then
      match ReplayWinningScore(k)
      case Some(n) => Restarted(s, n)
      case None => s
    else
      s
  }

  /** The state a new engine starts in, for a screen of the given size. */
  function InitialState(screenWidth: int, screenHeight: int): EngineState {
    EngineState(screenWidth, screenHeight,
                BallState(screenWidth / 2, screenHeight / 2, 10, 5, 5, 5),
                PaddleState(30, screenHeight / 2 - 60, 10, 120, 6),
                PaddleState(screenWidth - 40, screenHeight / 2 - 60, 10, 120, 5),
                0, 0, 5, false, None)
  }

  /** The engine object: owns one ball and two paddles, and the match state. */
  class GameEngine {
    const screenWidth: int
    const screenHeight: int
    const playerPaddle: Paddle
    const aiPaddle: Paddle
    const ball: Ball
    var playerScore: int
    var aiScore: int
    var winningScore: int
    var gameOver: bool
    var winner: Option<Side>

    /** The two paddles are distinct objects. */
    ghost predicate Valid() {
      playerPaddle != aiPaddle
    }

    /** The current value of the whole engine. */
    function State(): EngineState
      reads this, ball, playerPaddle, aiPaddle
    {
      EngineState(screenWidth, screenHeight, ball.State(), playerPaddle.State(), aiPaddle.State(),
                  playerScore, aiScore, winningScore, gameOver, winner)
    }

    constructor (screenWidth: int, screenHeight: int)
      ensures Valid()
      ensures State() == InitialState(screenWidth, screenHeight)
    {
      this.screenWidth := screenWidth;
      this.screenHeight := screenHeight;
      playerPaddle := new Paddle(30, screenHeight / 2 - 60, 10, 120, 6);
      aiPaddle := new Paddle(screenWidth - 40, screenHeight / 2 - 60, 10, 120, 5);
      ball := new Ball(screenWidth / 2, screenHeight / 2, 10, 5);
      playerScore := 0;
      aiScore := 0;
      winningScore := 5;
      gameOver := false;
      winner := None;
    }

    method CheckPaddleCollision(paddle: Paddle) returns (hit: bool)
      modifies ball
      ensures var c := PaddleCollision(old(ball.State()), paddle.State());
              ball.State() == c.ball && hit == c.hit
      ensures State() == old(State()).(ball := ball.State())
    {
      var ballRect := ball.State().GetRect();
      var paddleRect := paddle.State().GetRect();
      if CollideRect(ballRect, paddleRect) {
        var ballCentreLeft := 2 * ball.x < 2 * paddle.x + paddle.width;
        ball.velocityX := -ball.velocityX;
        if ballCentreLeft {
          ball.x := paddle.x - ball.radius;
        } else {
          ball.x := paddle.x + paddle.width + ball.radius;
        }
        return true;
      }
      return false;
    }

    method CheckWallBounce()
      modifies ball
      ensures State() == WallBounced(old(State()))
    {
      if ball.y - ball.radius <= 0 || ball.y + ball.radius >= screenHeight {
        ball.velocityY := ball.velocityY * -1;
        if ball.y - ball.radius <= 0 {
          ball.y := ball.radius;
        } else {
          ball.y := screenHeight - ball.radius;
        }
      }
    }

    method CheckGameOver()
      modifies this
      ensures State() == GameOverChecked(old(State()))
    {
      if playerScore >= winningScore {
        gameOver := true;
        winner := Some(Player);
      } else if aiScore >= winningScore {
        gameOver := true;
        winner := Some(AI);
      }
    }

    method CheckScore()
      modifies this, ball
      ensures State() == Scored(old(State()))
    {
      if ball.x - ball.radius <= 0 {
        aiScore := aiScore + 1;
        CheckGameOver();
        if !gameOver {
          ball.Reset(screenWidth, screenHeight);
        }
      } else if ball.x + ball.radius >= screenWidth {
        playerScore := playerScore + 1;
        CheckGameOver();
        if !gameOver {
          ball.Reset(screenWidth, screenHeight);
        }
      }
    }

    method ResetGame(newWinningScore: int)
      requires Valid()
      modifies this, ball, playerPaddle, aiPaddle
      ensures State() == Restarted(old(State()), newWinningScore)
    {
      playerScore := 0;
      aiScore := 0;
      gameOver := false;
      winner := None;
      winningScore := newWinningScore;
      playerPaddle.y := screenHeight / 2 - 60;
      aiPaddle.y := screenHeight / 2 - 60;
      ball.x := screenWidth / 2;
      ball.y := screenHeight / 2;
      ball.velocityX := ball.speed;
      ball.velocityY := ball.speed;
    }

    method UpdateAi()
      requires Valid()
      modifies aiPaddle
      ensures State() == AiUpdated(old(State()))
    {
      if 2 * ball.y > 2 * aiPaddle.y + aiPaddle.height {
        aiPaddle.MoveDown(screenHeight);
      } else if 2 * ball.y < 2 * aiPaddle.y + aiPaddle.height {
        aiPaddle.MoveUp();
      }
    }

    method Update()
      requires Valid()
      modifies this, ball, playerPaddle, aiPaddle
      ensures State() == Stepped(old(State()))
    {
      if !gameOver {
        ball.Update();
        CheckWallBounce();
        var hitPlayer := CheckPaddleCollision(playerPaddle);
        var hitAi := CheckPaddleCollision(aiPaddle);
        CheckScore();
        UpdateAi();
      }
    }

    /** The held-key part of the run loop: W moves up, S moves down, only while in play. */
    method ApplyInput(up: bool, down: bool)
      requires Valid()
      modifies playerPaddle
      ensures State() == InputApplied(old(State()), up, down)
    {
      if !gameOver {
        if up {
          playerPaddle.MoveUp();
        }
        if down {
          playerPaddle.MoveDown(screenHeight);
        }
      }
    }

    /** The key-press part of the run loop once the match is over. */
    method HandleReplayKey(k: Key)
      requires Valid()
      modifies this, ball, playerPaddle, aiPaddle
      ensures State() == ReplayChosen(old(State()), k)
    {
      if gameOver {
        match ReplayWinningScore(k)
        case Some(n) => ResetGame(n);
        case None =>
      }
    }
  }
}
