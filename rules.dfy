/** The rules engine as functions on GameState: one function per operation of
    the source, and one per stage of a ball move. The class in engine.dfy runs
    the same operations in place and is proved to agree with these. */
module Rules {
  import opened Field
  import opened Entities

  // ---------------------------------------------------------------- paddles

  /** One paddle's move for one tick: a full step up if it wants up and is
      below the top wall, a full step down if it wants down and is above the
      bottom wall, otherwise no move. */
  function StepPaddle(c: Config, y: real, move: Intent): (r: real)
    ensures r == y || r == y - c.paddleSpeed || r == y + c.paddleSpeed
    ensures r != y ==> move != 0
    ensures move == -1 && y > WALL ==> r == y - c.paddleSpeed
    ensures move == 1 && y + c.paddleHeight < c.height - WALL ==> r == y + c.paddleSpeed
    ensures r == y - c.paddleSpeed && c.paddleSpeed != 0.0 ==> move == -1 && y > WALL
    ensures r == y + c.paddleSpeed && c.paddleSpeed != 0.0 ==>
              move == 1 && y + c.paddleHeight < c.height - WALL
    ensures c.paddleSpeed >= 0.0 && PaddleInBand(c, y) ==> PaddleInBand(c, r)
  {
    var up := if move == -1 && y > WALL then y - c.paddleSpeed else y;
    if move == 1 && up + c.paddleHeight < c.height - WALL then up + c.paddleSpeed else up
  }

  /** `movePaddles`: both paddles take their step; nothing else changes. */
  function MovePaddles(c: Config, s: GameState): (r: GameState)
    ensures r.(player1Y := s.player1Y, player2Y := s.player2Y) == s
    ensures Consistent(c, s) ==> Consistent(c, r)
    ensures c.paddleSpeed >= 0.0 && PaddlesInBand(c, s) ==> PaddlesInBand(c, r)
  {
    s.(player1Y := StepPaddle(c, s.player1Y, s.player1Move),
       player2Y := StepPaddle(c, s.player2Y, s.player2Move))
  }

  // ------------------------------------------------------ serve and scoring

  function Sign(positive: bool): real
  {
    if positive then 1.0 else -1.0
  }

  /** `resetBall`: a new serve from the centre at the serve speed to the
      right; the vertical speed keeps its magnitude and takes the sign the
      coin chooses; the touch state is cleared. */
  function ResetBall(c: Config, s: GameState, positive: bool): (r: Step)
    ensures r.state.ballX == c.width / 2.0 && r.state.ballY == c.height / 2.0
    ensures r.state.ballSpeedX == c.ballSpeed
    ensures Abs(r.state.ballSpeedY) == Abs(s.ballSpeedY)
    ensures r.state.ballSpeedY > 0.0 ==> positive
    ensures r.state.ballSpeedY < 0.0 ==> !positive
    ensures r.state.lastTouch == NoTouch && !r.state.playerHitBall
    ensures r.state.(ballX := s.ballX, ballY := s.ballY, ballSpeedX := s.ballSpeedX,
                     ballSpeedY := s.ballSpeedY, lastTouch := s.lastTouch,
                     playerHitBall := s.playerHitBall) == s
    ensures r.sounds == [Reset]
    ensures c.ballSpeed > 0.0 && Consistent(c, s) ==> Consistent(c, r.state)
  {
    Step(s.(ballX := c.width / 2.0, ballY := c.height / 2.0,
            ballSpeedX := c.ballSpeed, ballSpeedY := Sign(positive) * Abs(s.ballSpeedY),
            lastTouch := NoTouch, playerHitBall := false),
         [Reset])
  }

  /** The match is over once either score reaches the limit. */
  predicate Won(c: Config, s: GameState)
  {
    s.scorePlayer1 >= c.maxScore || s.scorePlayer2 >= c.maxScore
  }

  /** `awardPoint`: player 1 or 2 gains one point (any other value gains
      nothing); if that decides the match, the match stops and the ball is
      served again, the scores staying as they are. */
  function AwardPoint(c: Config, s: GameState, player: int, positive: bool): (r: Step)
    ensures r.state.scorePlayer1 == s.scorePlayer1 + (if player == 1 then 1 else 0)
    ensures r.state.scorePlayer2 == s.scorePlayer2 + (if player == 2 then 1 else 0)
    ensures r.state.isGameRunning <==> s.isGameRunning && !Won(c, r.state)
    ensures Won(c, r.state) ==> r == Step(ResetBall(c, s, positive).state.(
                                    scorePlayer1 := r.state.scorePlayer1,
                                    scorePlayer2 := r.state.scorePlayer2,
                                    isGameRunning := false), [Score, Reset])
    ensures !Won(c, r.state) ==> r == Step(s.(scorePlayer1 := r.state.scorePlayer1,
                                              scorePlayer2 := r.state.scorePlayer2), [Score])
    ensures c.ballSpeed > 0.0 && Consistent(c, s) ==> Consistent(c, r.state)
  {
    var scored :=
      if player == 1 then s.(scorePlayer1 := s.scorePlayer1 + 1)
      else if player == 2 then s.(scorePlayer2 := s.scorePlayer2 + 1)
      else s;
    if Won(c, scored) then
      var reset := ResetBall(c, scored.(isGameRunning := false), positive);
      Step(reset.state, [Score] + reset.sounds)
    else
      Step(scored, [Score])
  }

  // ---------------------------------------------------------- moving the ball

  /** The ball advances by its velocity. */
  function Advance(s: GameState): GameState
  {
    s.(ballX := s.ballX + s.ballSpeedX, ballY := s.ballY + s.ballSpeedY)
  }

  /** The ball touches or crosses the top or the bottom wall. */
  predicate AtTopOrBottom(c: Config, s: GameState)
  {
    CheckBoundary(s.ballY, BALL_SIZE, WALL, c.height - WALL)
  }

  /** Bounce off the top or the bottom wall. */
  function WallBounce(c: Config, s: GameState): Step
  {
    if AtTopOrBottom(c, s) then Step(s.(ballSpeedY := -s.ballSpeedY), [Bounce])
    else Step(s, [])
  }

  /** The contact condition of paddle p: no hit pending, the ball's left
      edge within the paddle's slot and the two vertical spans overlapping
      (bounds inclusive). */
  predicate Touches(c: Config, s: GameState, p: PlayerId)
  {
    !s.playerHitBall &&
    InSpan(s.ballX, PaddleX(p), PADDLE_WIDTH) &&
    SpansMeet(s.ballY, BALL_SIZE, s.PaddleY(p), c.paddleHeight)
  }

  /** The paddle that registers contact this tick: player 1's test is made
      first and player 2's only when player 1's fails, so at most one paddle
      registers; none does while a hit is pending. */
  function ContactedPaddle(c: Config, s: GameState): (r: Option<PlayerId>)
    ensures r.Some? ==> Touches(c, s, r.value)
    ensures Touches(c, s, 1) ==> r == Some(1)
    ensures r == Some(2) <==> !Touches(c, s, 1) && Touches(c, s, 2)
    ensures r == None <==> !Touches(c, s, 1) && !Touches(c, s, 2)
    ensures s.playerHitBall ==> r == None
  {
    if Touches(c, s, 1) then Some(1)
    else if Touches(c, s, 2) then Some(2)
    else None
  }

  /** A normal paddle hit: the ball turns back, the paddle's motion adds spin,
      and the hit is recorded as pending. */
  function Hit(s: GameState, p: PlayerId): GameState
  {
    s.(ballSpeedX := -s.ballSpeedX,
       ballSpeedY := s.ballSpeedY + (s.PaddleMove(p) as real) * SPIN,
       lastTouch := TouchedBy(p),
       playerHitBall := true)
  }

  /** A double touch by p: the opponent scores and the ball is served again. */
  function Fault(c: Config, s: GameState, p: PlayerId, coinAward: bool, coinReset: bool): Step
  {
    var awarded := AwardPoint(c, s, Opponent(p), coinAward);
    var reset := ResetBall(c, awarded.state, coinReset);
    Step(reset.state, awarded.sounds + reset.sounds)
  }

  /** The ball reaches the right wall. */
  predicate AtRightWall(c: Config, s: GameState)
  {
    s.ballX + BALL_SIZE >= c.width - WALL
  }

  /** Bounce off the right wall; this re-arms the paddles. */
  function RightWall(c: Config, s: GameState): Step
  {
    if AtRightWall(c, s) then Step(s.(ballSpeedX := -s.ballSpeedX, playerHitBall := false), [Bounce])
    else Step(s, [])
  }

  /** The ball has left the field through the open left edge. */
  predicate OutLeft(s: GameState)
  {
    s.ballX < 0.0
  }

  /** Leaving the field on the left scores for the last toucher, if any, and
      always serves again. */
  function LeftEdge(c: Config, s: GameState, coinAward: bool, coinReset: bool): Step
  {
    if OutLeft(s) then
      var awarded :=
        if s.lastTouch.TouchedBy? then AwardPoint(c, s, s.lastTouch.player, coinAward)
        else Step(s, []);
      var reset := ResetBall(c, awarded.state, coinReset);
      Step(reset.state, awarded.sounds + [Score] + reset.sounds)
    else
      Step(s, [])
  }

  /** The part of a ball move after the paddle tests: right wall, then left edge. */
  function Walls(c: Config, s: GameState, coinAward: bool, coinReset: bool): Step
  {
    var right := RightWall(c, s);
    var left := LeftEdge(c, right.state, coinAward, coinReset);
    Step(left.state, right.sounds + left.sounds)
  }

  /** `moveBall`: advance, bounce off top or bottom, test the paddles, then the
      right wall and the left edge. A paddle touched twice in a row by the
      same player is a fault: the opponent scores, the ball is served again and
      the walls are not tested in that tick. `coinAward` is the serve the
      point award draws when it ends the match; `coinReset` is the serve of
      the new round. */
  function MoveBall(c: Config, s: GameState, coinAward: bool, coinReset: bool): Step
  {
    var bounced := WallBounce(c, Advance(s));
    var b := bounced.state;
    match ContactedPaddle(c, b)
    case Some(p) =>
      if b.lastTouch == TouchedBy(p) then
        var fault := Fault(c, b, p, coinAward, coinReset);
        Step(fault.state, bounced.sounds + fault.sounds)
      else
        var rest := Walls(c, Hit(b, p), coinAward, coinReset);
        Step(rest.state, bounced.sounds + [PaddleHit(p)] + rest.sounds)
    case None =>
      var rest := Walls(c, b, coinAward, coinReset);
      Step(rest.state, bounced.sounds + rest.sounds)
  }

  /** The run/stop branch of `gameLoop`: physics runs only while the match runs. */
  function GameLoop(c: Config, s: GameState, coinAward: bool, coinReset: bool): Step
  {
    if !s.isGameRunning then Step(s, [])
    else MoveBall(c, MovePaddles(c, s), coinAward, coinReset)
  }

  // ------------------------------------------------------------------ keys

  /** A key press starts a new match (scores back to 0) when the match is not
      running and no key is held; otherwise w/s and p/l set the intents of
      player 1 and player 2, and some key is now held. */
  function KeyDown(s: GameState, key: string): GameState
  {
    if !s.isGameRunning && s.keysAreReleased then
      s.(scorePlayer1 := 0, scorePlayer2 := 0, isGameRunning := true)
    else
      var m1: Intent := if key == "w" then -1 else if key == "s" then 1 else s.player1Move;
      var m2: Intent := if key == "p" then -1 else if key == "l" then 1 else s.player2Move;
      s.(player1Move := m1, player2Move := m2, keysAreReleased := false)
  }

  /** `Object.values` applied to a number: a number has no own enumerable
      properties, so the result is always empty. */
  function ObjectValues(n: int): seq<int>
  {
    []
  }

  /** A key release stops the player whose key it is (whatever other key of
      that player is held) and recomputes `keysAreReleased` by the source's
      test, which looks for -1 and 1 in `Object.values` of the two intents. */
  function KeyUp(s: GameState, key: string): GameState
  {
    var m1: Intent := if key == "w" || key == "s" then 0 else s.player1Move;
    var m2: Intent := if key == "p" || key == "l" then 0 else s.player2Move;
    var isAnyKeyDown := -1 in ObjectValues(m1) || 1 in ObjectValues(m2);
    s.(player1Move := m1, player2Move := m2, keysAreReleased := !isAnyKeyDown)
  }

  // ---------------------------------------------------------------- colour

  const PLAYER1_COLOR: string := "yellow"
  const PLAYER2_COLOR: string := "magenta"
  const NEUTRAL_COLOR: string := "white"

  /** `getBallColor`: the ball takes the colour of the player who touched it
      last, and is white after a serve. */
  function BallColor(t: Touch): (color: string)
    ensures color == PLAYER1_COLOR <==> t == TouchedBy(1)
    ensures color == PLAYER2_COLOR <==> t == TouchedBy(2)
    ensures color == NEUTRAL_COLOR <==> t == NoTouch
  {
    assert |PLAYER1_COLOR| != |NEUTRAL_COLOR| && |PLAYER2_COLOR| != |NEUTRAL_COLOR|;
    match t
    case TouchedBy(p) => if p == 1 then PLAYER1_COLOR else PLAYER2_COLOR
    case NoTouch => NEUTRAL_COLOR
  }
}
