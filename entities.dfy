/** The simulation state: ball, paddles, score, touch tracking and match state,
    one field per module-level variable of the source. */
module Entities {
  import opened Field

  /** A paddle's move intent: -1 up, 0 still, 1 down. */
  type Intent = m: int | -1 <= m <= 1

  /** Which paddle touched the ball last (`null`, 1 or 2 in the source). */
  datatype Touch = NoTouch | TouchedBy(player: PlayerId)

  datatype Option<T> = None | Some(value: T)

  /** The tones the simulation asks the audio side to play, in order. */
  datatype Sound = Bounce | PaddleHit(player: PlayerId) | Score | Reset

  datatype GameState = GameState(
    ballX: real,
    ballY: real,
    ballSpeedX: real,
    ballSpeedY: real,
    player1Y: real,
    player2Y: real,
    player1Move: Intent,
    player2Move: Intent,
    scorePlayer1: nat,
    scorePlayer2: nat,
    lastTouch: Touch,
    playerHitBall: bool,
    isGameRunning: bool,
    keysAreReleased: bool)
  {
    function PaddleY(p: PlayerId): real
    {
      if p == 1 then player1Y else player2Y
    }

    function PaddleMove(p: PlayerId): Intent
    {
      if p == 1 then player1Move else player2Move
    }

    function ScoreOf(p: PlayerId): nat
    {
      if p == 1 then scorePlayer1 else scorePlayer2
    }
  }

  /** A state together with the sounds emitted while reaching it. */
  datatype Step = Step(state: GameState, sounds: seq<Sound>)

  /** The state at load time: paddles centred (player 2 a little lower), ball
      centred moving down and to the right at the serve speed, no score, no
      touch, match not yet started, no key held. */
  function Initial(c: Config): GameState
  {
    GameState(
      c.width / 2.0, c.height / 2.0, c.ballSpeed, c.ballSpeed,
      c.height / 2.0 - c.paddleHeight / 2.0,
      c.height / 2.0 - c.paddleHeight / 2.0 + PLAYER2_OFFSET,
      0, 0, 0, 0, NoTouch, false, false, true)
  }

  /** The invariant every operation keeps:
      - a running match has not been won yet;
      - a pending hit always has a player recorded as its toucher;
      - the horizontal speed is always the serve speed, in one direction or the other. */
  predicate Consistent(c: Config, s: GameState)
  {
    (s.isGameRunning ==> s.scorePlayer1 < c.maxScore && s.scorePlayer2 < c.maxScore) &&
    (s.playerHitBall ==> s.lastTouch != NoTouch) &&
    Abs(s.ballSpeedX) == c.ballSpeed
  }

  /** No score is above the match limit. Kept by every event of a session
      (sessions.dfy), since points are only scored while the match runs. */
  predicate ScoresBounded(c: Config, s: GameState)
  {
    s.scorePlayer1 <= c.maxScore && s.scorePlayer2 <= c.maxScore
  }

  /** A paddle position within one move of the walls: the source moves a
      paddle a full step whenever it is not yet past a wall, so it can end up to
      one step beyond it, never further. */
  predicate PaddleInBand(c: Config, y: real)
  {
    WALL - c.paddleSpeed <= y && y + c.paddleHeight <= c.height - WALL + c.paddleSpeed
  }

  predicate PaddlesInBand(c: Config, s: GameState)
  {
    PaddleInBand(c, s.player1Y) && PaddleInBand(c, s.player2Y)
  }

  /** With the configuration the source derives from a canvas at least 123 px
      high, both paddles start within the band: player 1 is centred, and
      player 2, 50 px below centre, still ends above the bottom wall. */
  lemma StandardStartsInBand(width: real, height: real)
    requires width > 0.0 && height >= 123.0
    ensures PaddlesInBand(Standard(width, height), Initial(Standard(width, height)))
  {
  }

  lemma InitialConsistent(c: Config)
    requires c.Valid()
    ensures Consistent(c, Initial(c)) && ScoresBounded(c, Initial(c))
    ensures !Initial(c).isGameRunning && Initial(c).lastTouch == NoTouch
  {
  }
}
