/** The game as the source runs it: one object holding the module-level
    variables, updated in place by the tick and by the key handlers. Every
    method is proved to leave the object in the state the matching function
    of Rules computes from the old state, and to keep the invariant
    Consistent. Math.random is replaced by bool arguments (true for the
    positive sign), and the tones are returned as Sound tags. */
module Engine {
  import opened Field
  import opened Entities
  import Rules

  class Game {
    const cfg: Config

    var ballX: real
    var ballY: real
    var ballSpeedX: real
    var ballSpeedY: real
    var player1Y: real
    var player2Y: real
    var player1Move: Intent
    var player2Move: Intent
    var scorePlayer1: nat
    var scorePlayer2: nat
    var lastTouch: Touch
    var playerHitBall: bool
    var isGameRunning: bool
    var keysAreReleased: bool

    /** The abstract value of the object. */
    function State(): GameState
      reads this
    {
      GameState(ballX, ballY, ballSpeedX, ballSpeedY, player1Y, player2Y,
                player1Move, player2Move, scorePlayer1, scorePlayer2,
                lastTouch, playerHitBall, isGameRunning, keysAreReleased)
    }

    ghost predicate Valid()
      reads this
    {
      cfg.Valid() && Consistent(cfg, State())
    }

    /** The load-time values of the variables. */
    constructor (c: Config)
      requires c.Valid()
      ensures Valid() && cfg == c && State() == Initial(c)
    {
      cfg := c;
      player1Y := c.height / 2.0 - c.paddleHeight / 2.0;
      player2Y := c.height / 2.0 - c.paddleHeight / 2.0 + PLAYER2_OFFSET;
      ballX := c.width / 2.0;
      ballY := c.height / 2.0;
      ballSpeedX := c.ballSpeed;
      ballSpeedY := c.ballSpeed;
      scorePlayer1 := 0;
      scorePlayer2 := 0;
      lastTouch := NoTouch;
      playerHitBall := false;
      isGameRunning := false;
      player1Move := 0;
      player2Move := 0;
      keysAreReleased := true;
    }

    /** `movePaddles` */
    method MovePaddles()
      requires Valid()
      modifies this
      ensures Valid()
      ensures State() == Rules.MovePaddles(cfg, old(State()))
    {
      if player1Move == -1 && player1Y > WALL { player1Y := player1Y - cfg.paddleSpeed; }
      if player1Move == 1 && player1Y + cfg.paddleHeight < cfg.height - WALL { player1Y := player1Y + cfg.paddleSpeed; }

      if player2Move == -1 && player2Y > WALL { player2Y := player2Y - cfg.paddleSpeed; }
      if player2Move == 1 && player2Y + cfg.paddleHeight < cfg.height - WALL { player2Y := player2Y + cfg.paddleSpeed; }
    }

    /** `resetBall` */
    method ResetBall(positive: bool) returns (sounds: seq<Sound>)
      requires Valid()
      modifies this
      ensures Valid()
      ensures Step(State(), sounds) == Rules.ResetBall(cfg, old(State()), positive)
    {
      ballX := cfg.width / 2.0;
      ballY := cfg.height / 2.0;
      ballSpeedX := cfg.ballSpeed;
      ballSpeedY := (if positive then 1.0 else -1.0) * Abs(ballSpeedY);

      lastTouch := NoTouch;
      playerHitBall := false;

      sounds := [Reset];
    }

    /** `awardPoint` */
    method AwardPoint(player: int, positive: bool) returns (sounds: seq<Sound>)
      requires Valid()
      modifies this
      ensures Valid()
      ensures Step(State(), sounds) == Rules.AwardPoint(cfg, old(State()), player, positive)
    {
      if player == 1 {
        scorePlayer1 := scorePlayer1 + 1;
      } else if player == 2 {
        scorePlayer2 := scorePlayer2 + 1;
      }
      sounds := [Score];

      if scorePlayer1 >= cfg.maxScore || scorePlayer2 >= cfg.maxScore {
        isGameRunning := false;
        var reset := ResetBall(positive);
        sounds := sounds + reset;
      }
    }

    /** `moveBall`, with its early return after a double-touch fault. */
    method MoveBall(coinAward: bool, coinReset: bool) returns (sounds: seq<Sound>)
      requires Valid()
      modifies this
      ensures Valid()
      ensures Step(State(), sounds) == Rules.MoveBall(cfg, old(State()), coinAward, coinReset)
    {
      ghost var s0 := old(State());
      ballX := ballX + ballSpeedX;
      ballY := ballY + ballSpeedY;
      sounds := [];

      if CheckBoundary(ballY, BALL_SIZE, WALL, cfg.height - WALL) {
        ballSpeedY := -ballSpeedY;
        sounds := sounds + [Bounce];
      }
      ghost var bounced := Rules.WallBounce(cfg, Rules.Advance(s0));
      ghost var b := bounced.state;
      assert State() == b && sounds == bounced.sounds;

      if !playerHitBall &&
         ballX >= PLAYER1_X &&
         ballX <= PLAYER1_X + PADDLE_WIDTH &&
         ballY + BALL_SIZE >= player1Y &&
         ballY <= player1Y + cfg.paddleHeight
      {
        assert Rules.ContactedPaddle(cfg, b) == Some(1);
        var fault, hit := PaddleContact(1, coinAward, coinReset);
        sounds := sounds + hit;
        if fault {
          return;
        }
      }

      else if
        !playerHitBall &&
        ballX >= PLAYER2_X &&
        ballX <= PLAYER2_X + PADDLE_WIDTH &&
        ballY + BALL_SIZE >= player2Y &&
        ballY <= player2Y + cfg.paddleHeight
      {
        assert Rules.ContactedPaddle(cfg, b) == Some(2);
        var fault, hit := PaddleContact(2, coinAward, coinReset);
        sounds := sounds + hit;
        if fault {
          return;
        }
      } else {
        assert Rules.ContactedPaddle(cfg, b) == None;
      }

      var walls := Walls(coinAward, coinReset);
      sounds := sounds + walls;
    }

    /** The body of either paddle test of `moveBall`, once paddle p's contact
        condition holds: a fault if p touched the ball last (after which
        `moveBall` returns), otherwise a normal hit. */
    method PaddleContact(p: PlayerId, coinAward: bool, coinReset: bool) returns (fault: bool, sounds: seq<Sound>)
      requires Valid()
      modifies this
      ensures Valid()
      ensures fault <==> old(lastTouch) == TouchedBy(p)
      ensures fault ==> Step(State(), sounds) == Rules.Fault(cfg, old(State()), p, coinAward, coinReset)
      ensures !fault ==> State() == Rules.Hit(old(State()), p) && sounds == [PaddleHit(p)]
    {
      if lastTouch == TouchedBy(p) {
        var awarded := AwardPoint(Opponent(p), coinAward);
        var reset := ResetBall(coinReset);
        return true, awarded + reset;
      }

      ballSpeedX := -ballSpeedX;
      if p == 1 {
        ballSpeedY := ballSpeedY + (player1Move as real) * SPIN;
      } else {
        ballSpeedY := ballSpeedY + (player2Move as real) * SPIN;
      }
      lastTouch := TouchedBy(p);
      playerHitBall := true;
      fault, sounds := false, [PaddleHit(p)];
    }

    /** The end of `moveBall`, reached when no fault was called: the right
        wall bounce, then the left edge. */
    method Walls(coinAward: bool, coinReset: bool) returns (sounds: seq<Sound>)
      requires Valid()
      modifies this
      ensures Valid()
      ensures Step(State(), sounds) == Rules.Walls(cfg, old(State()), coinAward, coinReset)
    {
      sounds := [];
      if ballX + BALL_SIZE >= cfg.width - WALL {
        ballSpeedX := -ballSpeedX;
        playerHitBall := false;
        sounds := sounds + [Bounce];
      }
      ghost var right := Rules.RightWall(cfg, old(State()));
      assert State() == right.state && sounds == right.sounds;

      if ballX < 0.0 {
        var left: seq<Sound> := [];
        if lastTouch == TouchedBy(1) {
          left := AwardPoint(1, coinAward);
        } else if lastTouch == TouchedBy(2) {
          left := AwardPoint(2, coinAward);
        }
        ghost var awarded := Step(State(), left);
        assert awarded == if right.state.lastTouch.TouchedBy?
          then Rules.AwardPoint(cfg, right.state, right.state.lastTouch.player, coinAward)
          else Step(right.state, []);
        left := left + [Score];
        var reset := ResetBall(coinReset);
        left := left + reset;
        assert Step(State(), left) == Rules.LeftEdge(cfg, right.state, coinAward, coinReset);
        sounds := sounds + left;
      }
    }

    /** The run/stop branch of `gameLoop`: one tick. */
    method GameLoop(coinAward: bool, coinReset: bool) returns (sounds: seq<Sound>)
      requires Valid()
      modifies this
      ensures Valid()
      ensures Step(State(), sounds) == Rules.GameLoop(cfg, old(State()), coinAward, coinReset)
    {
      if !isGameRunning {
        sounds := [];
      } else {
        MovePaddles();
        sounds := MoveBall(coinAward, coinReset);
      }
    }

    /** The `keydown` handler. */
    method KeyDown(key: string)
      requires Valid()
      modifies this
      ensures Valid()
      ensures State() == Rules.KeyDown(old(State()), key)
    {
      if !isGameRunning && keysAreReleased {
        scorePlayer1 := 0;
        scorePlayer2 := 0;
        isGameRunning := true;
        return;
      }

      if key == "w" { player1Move := -1; }
      if key == "s" { player1Move := 1; }
      if key == "p" { player2Move := -1; }
      if key == "l" { player2Move := 1; }

      keysAreReleased := false;
    }

    /** The `keyup` handler. */
    method KeyUp(key: string)
      requires Valid()
      modifies this
      ensures Valid()
      ensures State() == Rules.KeyUp(old(State()), key)
      ensures keysAreReleased
    {
      if key == "w" || key == "s" { player1Move := 0; }
      if key == "p" || key == "l" { player2Move := 0; }

      var isAnyKeyDown := -1 in Rules.ObjectValues(player1Move) || 1 in Rules.ObjectValues(player2Move);
      keysAreReleased := !isAnyKeyDown;
    }
  }
}
