/** What the rules promise, stated on the functions of Rules: wall and paddle
    bounces, double-touch faults, scoring at the left edge, serves, the match
    limit and the key handlers. */
module Properties {
  import opened Field
  import opened Entities
  import opened Rules

  /** The ball after advancing and bouncing off the top or bottom wall: the
      state the paddle tests of a ball move look at. */
  function Bounced(c: Config, s: GameState): GameState
  {
    WallBounce(c, Advance(s)).state
  }

  // ---------------------------------------------------------------- paddles

  /** Each paddle's new position depends only on its own position and intent. */
  lemma MovePaddlesIndependent(c: Config, s: GameState, t: GameState)
    ensures s.player1Y == t.player1Y && s.player1Move == t.player1Move ==>
              MovePaddles(c, s).player1Y == MovePaddles(c, t).player1Y
    ensures s.player2Y == t.player2Y && s.player2Move == t.player2Move ==>
              MovePaddles(c, s).player2Y == MovePaddles(c, t).player2Y
  {
  }

  // ---------------------------------------------------------- wall bounce

  /** A bounce off the top or bottom wall negates the vertical speed and
      changes nothing else; away from those walls nothing happens. */
  lemma WallBounceOnlyNegatesVertical(c: Config, s: GameState)
    ensures WallBounce(c, s).state.(ballSpeedY := s.ballSpeedY) == s
    ensures AtTopOrBottom(c, s) ==>
              WallBounce(c, s).state.ballSpeedY == -s.ballSpeedY && WallBounce(c, s).sounds == [Bounce]
    ensures !AtTopOrBottom(c, s) ==> WallBounce(c, s) == Step(s, [])
  {
  }

  // ---------------------------------------------------------------- serves

  /** Serving twice in a row is serving once with the second coin: the first
      serve's only trace, the sign of the vertical speed, is overwritten. */
  lemma ResetBallTwice(c: Config, s: GameState, first: bool, second: bool)
    ensures ResetBall(c, ResetBall(c, s, first).state, second).state == ResetBall(c, s, second).state
  {
  }

  // ----------------------------------------------------------- ball moves

  /** The position and intent of both paddles and the key state agree. */
  predicate SamePaddlesAndKeys(s: GameState, t: GameState)
  {
    t.player1Y == s.player1Y && t.player2Y == s.player2Y &&
    t.player1Move == s.player1Move && t.player2Move == s.player2Move &&
    t.keysAreReleased == s.keysAreReleased
  }

  /** The scores went from s to t by at most one point. */
  predicate AtMostOnePoint(s: GameState, t: GameState)
  {
    t.scorePlayer1 >= s.scorePlayer1 && t.scorePlayer2 >= s.scorePlayer2 &&
    t.scorePlayer1 + t.scorePlayer2 <= s.scorePlayer1 + s.scorePlayer2 + 1
  }

  /** The ball is at the serve: centred, moving right at the serve speed,
      nobody's touch recorded. */
  predicate Served(c: Config, t: GameState)
  {
    t.ballX == c.width / 2.0 && t.ballY == c.height / 2.0 && t.ballSpeedX == c.ballSpeed &&
    t.lastTouch == NoTouch && !t.playerHitBall
  }

  /** No paddle-hit tone among these sounds. */
  predicate NoPaddleHit(sounds: seq<Sound>)
  {
    PaddleHit(1) !in sounds && PaddleHit(2) !in sounds
  }

  lemma AwardPointEffect(c: Config, s: GameState, player: int, coin: bool)
    ensures var r := AwardPoint(c, s, player, coin);
      SamePaddlesAndKeys(s, r.state) && NoPaddleHit(r.sounds) &&
      (player == 1 || player == 2 ==> AtMostOnePoint(s, r.state))
  {
  }

  lemma LeftEdgeEffect(c: Config, s: GameState, coinAward: bool, coinReset: bool)
    ensures var r := LeftEdge(c, s, coinAward, coinReset);
      SamePaddlesAndKeys(s, r.state) && NoPaddleHit(r.sounds) && AtMostOnePoint(s, r.state) &&
      (OutLeft(s) ==>
         Served(c, r.state) &&
         r.state.scorePlayer1 == s.scorePlayer1 + (if s.lastTouch == TouchedBy(1) then 1 else 0) &&
         r.state.scorePlayer2 == s.scorePlayer2 + (if s.lastTouch == TouchedBy(2) then 1 else 0)) &&
      (!OutLeft(s) ==> r == Step(s, [])) &&
      (c.Valid() && Consistent(c, s) ==> Consistent(c, r.state))
  {
    if OutLeft(s) && s.lastTouch.TouchedBy? {
      AwardPointEffect(c, s, s.lastTouch.player, coinAward);
    }
  }

  lemma WallsEffect(c: Config, s: GameState, coinAward: bool, coinReset: bool)
    ensures var r := Walls(c, s, coinAward, coinReset);
      SamePaddlesAndKeys(s, r.state) && NoPaddleHit(r.sounds) && AtMostOnePoint(s, r.state) &&
      (OutLeft(s) ==>
         Served(c, r.state) &&
         r.state.scorePlayer1 == s.scorePlayer1 + (if s.lastTouch == TouchedBy(1) then 1 else 0) &&
         r.state.scorePlayer2 == s.scorePlayer2 + (if s.lastTouch == TouchedBy(2) then 1 else 0)) &&
      (!OutLeft(s) ==> r.state == RightWall(c, s).state) &&
      (c.Valid() && Consistent(c, s) ==> Consistent(c, r.state))
  {
    LeftEdgeEffect(c, RightWall(c, s).state, coinAward, coinReset);
  }

  lemma FaultEffect(c: Config, s: GameState, p: PlayerId, coinAward: bool, coinReset: bool)
    ensures var r := Fault(c, s, p, coinAward, coinReset);
      SamePaddlesAndKeys(s, r.state) && NoPaddleHit(r.sounds) && AtMostOnePoint(s, r.state) &&
      Served(c, r.state) && Abs(r.state.ballSpeedY) == Abs(s.ballSpeedY) &&
      r.state.ScoreOf(Opponent(p)) == s.ScoreOf(Opponent(p)) + 1 && r.state.ScoreOf(p) == s.ScoreOf(p) &&
      (r.state.isGameRunning <==> s.isGameRunning && !Won(c, r.state)) &&
      (c.Valid() && Consistent(c, s) ==> Consistent(c, r.state))
  {
    AwardPointEffect(c, s, Opponent(p), coinAward);
  }

  /** Double-touch fault: the paddle that registers contact is the one that
      touched the ball last. The opponent scores exactly one point, the ball is
      served again from the centre, and the right wall and left edge are not
      looked at (the serve's rightward speed is kept). */
  lemma MoveBallFault(c: Config, s: GameState, coinAward: bool, coinReset: bool, p: PlayerId)
    requires ContactedPaddle(c, Bounced(c, s)) == Some(p)
    requires Bounced(c, s).lastTouch == TouchedBy(p)
    ensures var r := MoveBall(c, s, coinAward, coinReset).state;
      r.ScoreOf(Opponent(p)) == s.ScoreOf(Opponent(p)) + 1 && r.ScoreOf(p) == s.ScoreOf(p) &&
      r.ballX == c.width / 2.0 && r.ballY == c.height / 2.0 &&
      r.ballSpeedX == c.ballSpeed && Abs(r.ballSpeedY) == Abs(Bounced(c, s).ballSpeedY) &&
      r.lastTouch == NoTouch && !r.playerHitBall &&
      (r.isGameRunning <==> s.isGameRunning && !Won(c, r))
  {
    FaultEffect(c, Bounced(c, s), p, coinAward, coinReset);
  }

  /** A normal hit by p: the paddle registers contact and did not touch the
      ball last. On a field wider than 70 the ball, still at the paddle, is
      far from the right wall, so the hit is the last thing that happens: the
      ball turns back, gains the paddle's spin, takes p as its last toucher
      and the hit becomes pending; the score does not change. */
  lemma MoveBallHit(c: Config, s: GameState, coinAward: bool, coinReset: bool, p: PlayerId)
    requires c.width > 70.0
    requires ContactedPaddle(c, Bounced(c, s)) == Some(p)
    requires Bounced(c, s).lastTouch != TouchedBy(p)
    ensures var b := Bounced(c, s);
      var r := MoveBall(c, s, coinAward, coinReset);
      r.state.ballSpeedX == -b.ballSpeedX &&
      r.state.ballSpeedY == b.ballSpeedY + (s.PaddleMove(p) as real) * SPIN &&
      r.state.lastTouch == TouchedBy(p) && r.state.playerHitBall &&
      r.state.(ballSpeedX := b.ballSpeedX, ballSpeedY := b.ballSpeedY,
               lastTouch := b.lastTouch, playerHitBall := b.playerHitBall) == b &&
      r.sounds == WallBounce(c, Advance(s)).sounds + [PaddleHit(p)]
  {
    var b := Bounced(c, s);
    assert InSpan(b.ballX, PaddleX(p), PADDLE_WIDTH);
  }

  /** Right wall: with no paddle contact and the ball still on the field,
      reaching the right wall negates the horizontal speed and re-arms the
      paddles; who touched the ball last is kept. */
  lemma MoveBallRightWall(c: Config, s: GameState, coinAward: bool, coinReset: bool)
    requires ContactedPaddle(c, Bounced(c, s)) == None
    requires AtRightWall(c, Bounced(c, s)) && !OutLeft(Bounced(c, s))
    ensures MoveBall(c, s, coinAward, coinReset).state ==
              Bounced(c, s).(ballSpeedX := -Bounced(c, s).ballSpeedX, playerHitBall := false)
  {
  }

  /** Left edge: with no paddle contact and the ball past the left edge, the
      last toucher scores one point (nobody scores when there is none) and the
      ball is always served again. */
  lemma MoveBallLeftEdge(c: Config, s: GameState, coinAward: bool, coinReset: bool)
    requires ContactedPaddle(c, Bounced(c, s)) == None
    requires OutLeft(Bounced(c, s))
    ensures var r := MoveBall(c, s, coinAward, coinReset).state;
      r.scorePlayer1 == s.scorePlayer1 + (if s.lastTouch == TouchedBy(1) then 1 else 0) &&
      r.scorePlayer2 == s.scorePlayer2 + (if s.lastTouch == TouchedBy(2) then 1 else 0) &&
      r.ballX == c.width / 2.0 && r.ballY == c.height / 2.0 && r.ballSpeedX == c.ballSpeed &&
      r.lastTouch == NoTouch && !r.playerHitBall
  {
    WallsEffect(c, Bounced(c, s), coinAward, coinReset);
  }

  /** A ball move never moves the paddles, changes their intents or the key
      state, and scores at most one point. */
  lemma MoveBallAtMostOnePoint(c: Config, s: GameState, coinAward: bool, coinReset: bool)
    ensures var r := MoveBall(c, s, coinAward, coinReset).state;
      SamePaddlesAndKeys(s, r) && AtMostOnePoint(s, r)
  {
    var b := Bounced(c, s);
    match ContactedPaddle(c, b)
    case Some(p) =>
      if b.lastTouch == TouchedBy(p) {
        FaultEffect(c, b, p, coinAward, coinReset);
      } else {
        WallsEffect(c, Hit(b, p), coinAward, coinReset);
      }
    case None =>
      WallsEffect(c, b, coinAward, coinReset);
  }

  /** The number of paddle-hit tones among these sounds. */
  function HitTones(sounds: seq<Sound>): nat
  {
    multiset(sounds)[PaddleHit(1)] + multiset(sounds)[PaddleHit(2)]
  }

  lemma HitTonesConcat(a: seq<Sound>, b: seq<Sound>)
    ensures HitTones(a + b) == HitTones(a) + HitTones(b)
    ensures NoPaddleHit(a) ==> HitTones(a) == 0
  {
    assert multiset(a + b) == multiset(a) + multiset(b);
  }

  /** At most one paddle registers a hit per ball move. */
  lemma MoveBallOnePaddleHit(c: Config, s: GameState, coinAward: bool, coinReset: bool)
    ensures HitTones(MoveBall(c, s, coinAward, coinReset).sounds) <= 1
  {
    var bounced := WallBounce(c, Advance(s));
    var b := bounced.state;
    var r := MoveBall(c, s, coinAward, coinReset);
    assert NoPaddleHit(bounced.sounds);
    match ContactedPaddle(c, b)
    case Some(p) =>
      if b.lastTouch == TouchedBy(p) {
        var f := Fault(c, b, p, coinAward, coinReset);
        FaultEffect(c, b, p, coinAward, coinReset);
        assert r.sounds == bounced.sounds + f.sounds;
        HitTonesConcat(bounced.sounds, f.sounds);
        HitTonesConcat(f.sounds, []);
      } else {
        var w := Walls(c, Hit(b, p), coinAward, coinReset);
        WallsEffect(c, Hit(b, p), coinAward, coinReset);
        assert r.sounds == bounced.sounds + [PaddleHit(p)] + w.sounds;
        HitTonesConcat(bounced.sounds, [PaddleHit(p)]);
        HitTonesConcat(bounced.sounds + [PaddleHit(p)], w.sounds);
        HitTonesConcat(w.sounds, []);
      }
    case None =>
      var w := Walls(c, b, coinAward, coinReset);
      WallsEffect(c, b, coinAward, coinReset);
      assert r.sounds == bounced.sounds + w.sounds;
      HitTonesConcat(bounced.sounds, w.sounds);
      HitTonesConcat(w.sounds, []);
  }

  /** A paddle that registers a hit is the ball's last toucher at the end of
      the ball move: the ball at a paddle is not past the left edge, so the
      hit is not undone by a serve in the same move. */
  lemma MoveBallHitterRecorded(c: Config, s: GameState, coinAward: bool, coinReset: bool, p: PlayerId)
    requires PaddleHit(p) in MoveBall(c, s, coinAward, coinReset).sounds
    ensures MoveBall(c, s, coinAward, coinReset).state.lastTouch == TouchedBy(p)
  {
    var bounced := WallBounce(c, Advance(s));
    var b := bounced.state;
    var r := MoveBall(c, s, coinAward, coinReset);
    assert NoPaddleHit(bounced.sounds);
    match ContactedPaddle(c, b)
    case Some(q) =>
      if b.lastTouch == TouchedBy(q) {
        FaultEffect(c, b, q, coinAward, coinReset);
        assert false;
      } else {
        var w := Walls(c, Hit(b, q), coinAward, coinReset);
        WallsEffect(c, Hit(b, q), coinAward, coinReset);
        assert r.sounds == bounced.sounds + [PaddleHit(q)] + w.sounds;
        assert p == q;
        assert InSpan(b.ballX, PaddleX(q), PADDLE_WIDTH);
      }
    case None =>
      WallsEffect(c, b, coinAward, coinReset);
      assert false;
  }

  /** Every ball move keeps the invariant Consistent: in particular a move
      that decides the match stops it. */
  lemma MoveBallConsistent(c: Config, s: GameState, coinAward: bool, coinReset: bool)
    requires c.Valid() && Consistent(c, s)
    ensures Consistent(c, MoveBall(c, s, coinAward, coinReset).state)
  {
    var b := Bounced(c, s);
    assert Consistent(c, b);
    match ContactedPaddle(c, b)
    case Some(p) =>
      if b.lastTouch == TouchedBy(p) {
        FaultEffect(c, b, p, coinAward, coinReset);
      } else {
        assert Consistent(c, Hit(b, p));
        WallsEffect(c, Hit(b, p), coinAward, coinReset);
      }
    case None =>
      WallsEffect(c, b, coinAward, coinReset);
  }

  /** Two states that differ at most in the sign of the vertical speed. */
  predicate SameButSign(s: GameState, t: GameState)
  {
    s.(ballSpeedY := 0.0) == t.(ballSpeedY := 0.0) && Abs(s.ballSpeedY) == Abs(t.ballSpeedY)
  }

  /** A serve forgets the sign of the vertical speed it starts from. */
  lemma ResetBallForgetsSign(c: Config, s: GameState, t: GameState, coin: bool)
    requires SameButSign(s, t)
    ensures ResetBall(c, s, coin).state == ResetBall(c, t, coin).state
  {
    assert s.(ballSpeedY := t.ballSpeedY) == t by {
      assert s.(ballSpeedY := 0.0).(ballSpeedY := t.ballSpeedY) == t.(ballSpeedY := 0.0).(ballSpeedY := t.ballSpeedY);
    }
  }

  /** The coin of an award decides at most the sign of the vertical speed. */
  lemma AwardPointCoinOnlySign(c: Config, s: GameState, player: int, a1: bool, a2: bool)
    ensures SameButSign(AwardPoint(c, s, player, a1).state, AwardPoint(c, s, player, a2).state)
  {
  }

  lemma LeftEdgeIgnoresAwardCoin(c: Config, s: GameState, a1: bool, a2: bool, coinReset: bool)
    ensures LeftEdge(c, s, a1, coinReset).state == LeftEdge(c, s, a2, coinReset).state
  {
    if OutLeft(s) && s.lastTouch.TouchedBy? {
      AwardPointCoinOnlySign(c, s, s.lastTouch.player, a1, a2);
      ResetBallForgetsSign(c, AwardPoint(c, s, s.lastTouch.player, a1).state,
                           AwardPoint(c, s, s.lastTouch.player, a2).state, coinReset);
    }
  }

  /** The coin drawn by a match-ending award never shows: the round's own
      serve follows it at once and overwrites it. */
  lemma MoveBallIgnoresAwardCoin(c: Config, s: GameState, a1: bool, a2: bool, coinReset: bool)
    ensures MoveBall(c, s, a1, coinReset).state == MoveBall(c, s, a2, coinReset).state
  {
    var b := Bounced(c, s);
    match ContactedPaddle(c, b)
    case Some(p) =>
      if b.lastTouch == TouchedBy(p) {
        AwardPointCoinOnlySign(c, b, Opponent(p), a1, a2);
        ResetBallForgetsSign(c, AwardPoint(c, b, Opponent(p), a1).state,
                             AwardPoint(c, b, Opponent(p), a2).state, coinReset);
      } else {
        LeftEdgeIgnoresAwardCoin(c, RightWall(c, Hit(b, p)).state, a1, a2, coinReset);
      }
    case None =>
      LeftEdgeIgnoresAwardCoin(c, RightWall(c, b).state, a1, a2, coinReset);
  }

  // ------------------------------------------------------------- the tick

  /** While the match is not running a tick changes nothing and is silent. */
  lemma GameLoopStopped(c: Config, s: GameState, coinAward: bool, coinReset: bool)
    requires !s.isGameRunning
    ensures GameLoop(c, s, coinAward, coinReset) == Step(s, [])
  {
  }

  /** A tick that leaves a score at the limit has stopped the match. */
  lemma GameLoopStopsAtLimit(c: Config, s: GameState, coinAward: bool, coinReset: bool)
    requires c.Valid() && Consistent(c, s)
    ensures var r := GameLoop(c, s, coinAward, coinReset).state;
      Won(c, r) ==> !r.isGameRunning
  {
    if s.isGameRunning {
      MoveBallConsistent(c, MovePaddles(c, s), coinAward, coinReset);
    }
  }

  // ------------------------------------------------------------------ keys

  /** A key press while the match is stopped and no key is held starts a new
      match from 0-0 and applies no movement. */
  lemma KeyDownStarts(s: GameState, key: string)
    requires !s.isGameRunning && s.keysAreReleased
    ensures KeyDown(s, key) == s.(scorePlayer1 := 0, scorePlayer2 := 0, isGameRunning := true)
  {
  }

  /** Any other key press sets the intent its key stands for, leaves other
      intents, the scores and the match state alone, and records a held key. */
  lemma KeyDownMoves(s: GameState, key: string)
    requires s.isGameRunning || !s.keysAreReleased
    ensures var r := KeyDown(s, key);
      !r.keysAreReleased &&
      r.player1Move == (if key == "w" then -1 else if key == "s" then 1 else s.player1Move) &&
      r.player2Move == (if key == "p" then -1 else if key == "l" then 1 else s.player2Move) &&
      r.(player1Move := s.player1Move, player2Move := s.player2Move, keysAreReleased := s.keysAreReleased) == s
  {
  }

  /** A key release stops the player the key belongs to, without looking at
      that player's other key, and always leaves `keysAreReleased` true. */
  lemma KeyUpReleases(s: GameState, key: string)
    ensures var r := KeyUp(s, key);
      r.keysAreReleased &&
      r.player1Move == (if key == "w" || key == "s" then 0 else s.player1Move) &&
      r.player2Move == (if key == "p" || key == "l" then 0 else s.player2Move) &&
      r.(player1Move := s.player1Move, player2Move := s.player2Move, keysAreReleased := s.keysAreReleased) == s
  {
  }

  /** The key handlers keep the invariant: a new match starts from 0-0, which
      is below any positive limit. */
  lemma KeysConsistent(c: Config, s: GameState, key: string)
    requires c.Valid() && Consistent(c, s)
    ensures Consistent(c, KeyDown(s, key)) && Consistent(c, KeyUp(s, key))
  {
  }
}
