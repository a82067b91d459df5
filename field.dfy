/** The playing field of the Pong variant: fixed geometry, the configurable
    parameters, and the pure geometric tests used by the collision rules.
    Coordinates follow the canvas: x grows to the right, y grows downwards. */
module Field {

  /** Thickness of the top, bottom and right walls (the left edge is open). */
  const WALL: real := 10.0
  const PADDLE_WIDTH: real := 10.0
  const BALL_SIZE: real := 10.0
  /** Vertical spin a moving paddle adds to the ball on contact. */
  const SPIN: real := 1.5
  const PLAYER1_X: real := 20.0
  const PLAYER2_X: real := 40.0
  /** Player 2 starts this far below player 1. */
  const PLAYER2_OFFSET: real := 50.0
  const PADDLE_HEIGHT_FACTOR: real := 9.0
  const CM_TO_PIXELS: real := 37.7952755906
  const FRAMES_PER_SECOND: real := 60.0
  const MAX_SCORE: int := 15

  /** A player is 1 or 2, as in the source's numeric `lastTouch`. */
  type PlayerId = p: int | p == 1 || p == 2 witness 1

  function Opponent(p: PlayerId): (q: PlayerId)
    ensures q != p
  {
    3 - p
  }

  /** The fixed horizontal slot of each paddle. */
  function PaddleX(p: PlayerId): real
  {
    if p == 1 then PLAYER1_X else PLAYER2_X
  }

  /** The parameters the source fixes at load time; every one must be positive. */
  datatype Config = Config(
    width: real,
    height: real,
    paddleHeight: real,
    paddleSpeed: real,
    ballSpeed: real,
    maxScore: int)
  {
    predicate Valid()
    {
      width > 0.0 && height > 0.0 && paddleHeight > 0.0 &&
      paddleSpeed > 0.0 && ballSpeed > 0.0 && maxScore > 0
    }
  }

  /** The configuration the source derives from the canvas size: a paddle is
      a ninth of the height, speeds are 9 and 6 cm per second at 60 frames per
      second, and a match is played to 15 points. Real arithmetic is exact here. */
  function Standard(width: real, height: real): (c: Config)
    requires width > 0.0 && height > 0.0
    ensures c.Valid()
    ensures c.width == width && c.height == height
    ensures c.paddleHeight * PADDLE_HEIGHT_FACTOR == height
    ensures c.paddleSpeed * 2.0 == c.ballSpeed * 3.0
    ensures c.maxScore == MAX_SCORE
  {
    Config(width, height, height / PADDLE_HEIGHT_FACTOR,
           9.0 * CM_TO_PIXELS / FRAMES_PER_SECOND,
           6.0 * CM_TO_PIXELS / FRAMES_PER_SECOND,
           MAX_SCORE)
  }

  function Abs(x: real): (r: real)
    ensures r >= 0.0 && (r == x || r == -x)
  {
    if x < 0.0 then -x else x
  }

  /** Wall test of the source: the span [y, y + size] touches or crosses one of
      the two bounds. It is false exactly when every point of the span lies
      strictly between them. */
  function CheckBoundary(y: real, size: real, lowerBound: real, upperBound: real): (r: bool)
    ensures !r <==> lowerBound < y && y + size < upperBound
    ensures size >= 0.0 ==>
      (!r <==> forall t :: InSpan(t, y, size) ==> lowerBound < t < upperBound)
  {
    // the span's two end points witness a touched bound
    assert size >= 0.0 ==> InSpan(y, y, size) && InSpan(y + size, y, size);
    y <= lowerBound || y + size >= upperBound
  }

  /** t lies in the closed span [lo, lo + len]. */
  predicate InSpan(t: real, lo: real, len: real)
  {
    lo <= t <= lo + len
  }

  /** The inclusive overlap test of the source's paddle contact, written on the
      two spans' end points. */
  predicate SpansMeet(a: real, aLen: real, b: real, bLen: real)
  {
    a + aLen >= b && a <= b + bLen
  }

  /** The end-point test agrees with the geometric one: two closed spans of
      non-negative length meet exactly when some point lies in both. */
  lemma SpansMeetIff(a: real, aLen: real, b: real, bLen: real)
    requires aLen >= 0.0 && bLen >= 0.0
    ensures SpansMeet(a, aLen, b, bLen) <==> exists t :: InSpan(t, a, aLen) && InSpan(t, b, bLen)
  {
    if SpansMeet(a, aLen, b, bLen) {
      var t := if a < b then b else a;
      assert InSpan(t, a, aLen) && InSpan(t, b, bLen);
    }
  }
}
