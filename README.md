# Pong rules engine (tvpeli) in Dafny

This project models the rules engine of a two-player Pong variant. Both paddles stand near the open left edge: player 1 at x = 20 and player 2 at x = 40. The ball bounces off the top, bottom and right walls. The players must return the ball in turn.

The engine runs one tick at a time:
- it moves the paddles within the walls;
- it advances the ball;
- it bounces the ball off the top and bottom walls, the paddles and the right wall;
- it calls a fault when the same paddle touches the ball twice in a row, and the opponent scores;
- it gives a point to the last toucher when the ball leaves through the left edge;
- it stops the match when a score reaches the limit.

Key presses start or restart a match and set the paddles' move intents.

Files:
- `field.dfy` (module `Field`): the fixed geometry (walls 10 px, paddle width 10, ball size 10, paddle slots at x = 20 and 40, spin 1.5), the configurable parameters (`Config`: canvas width and height, paddle height, paddle and ball speed, match limit, all positive), the configuration the source derives from the canvas (`Standard`), the wall test `CheckBoundary` and the inclusive span-overlap test.
- `entities.dfy` (module `Entities`): `GameState`, one field per module-level variable of the source. The last toucher `Touch` is `NoTouch` or `TouchedBy(1 | 2)`, and move intents are integers in `[-1, 1]`. Tones are recorded as `Sound` tags. The module also has the load-time state `Initial` and the invariant `Consistent`:
  - a running match has not been won;
  - a pending hit always has a toucher;
  - the horizontal speed is always ± the serve speed.
- `rules.dfy` (module `Rules`): every operation as a function on `GameState`:
  - `movePaddles`, `resetBall`, `awardPoint`, `moveBall`, split into its stages (advance, wall bounce, paddle contact, fault, hit, right wall, left edge);
  - the run/stop branch of `gameLoop`;
  - the `keydown` and `keyup` handlers;
  - `getBallColor`.
- `engine.dfy` (module `Engine`): class `Game`, whose fields are the source's variables and whose methods update them in place, statement by statement as the source does, including the early return of `moveBall` after a fault. Each method is proved to produce the state and sounds that the matching function of `Rules` gives from the old state, and to keep `Consistent`. The two paddle tests of `moveBall` have the same body, which is one method `PaddleContact(p)`. The right-wall and left-edge part is the method `Walls`.
- `properties.dfy` (module `Properties`): lemmas about the rules.
- `sessions.dfy` (module `Sessions`): a session is a sequence of frames, key presses and key releases. Its lemmas are proved by induction over sessions: the invariants hold in every reachable state, paddles stay in their band, and a stopped match stays stopped under frames.

`Math.random` becomes a `bool` argument: true means the positive sign. Each `resetBall` that a tick may run draws its own coin. `moveBall` takes two coins: `coinAward` for the serve that a match-ending `awardPoint` runs, and `coinReset` for the round's own serve.

Some behaviours of the code are easy to misread, and the model keeps them as written:
- A key release clears its player's intent at once, even when that player's other key is still held.
- After any key release `keysAreReleased` is true. The source tests `Object.values(player1Move).includes(-1)`, and for a number `Object.values` is an empty array (`Rules.ObjectValues`).
- A paddle moves a full `paddleSpeed` step whenever it is not yet past a wall, so it can stop up to one step beyond the wall. The band proved is `[10 - paddleSpeed, height - 10 + paddleSpeed]`, not `[10, height - 10]`.
- `lastTouch` survives the right-wall bounce. So when player 1 hits, the ball bounces off the far wall, and player 1 hits again, that second hit is a fault (a point for player 2), not a normal bounce. The players must alternate.
- When the ball leaves on the left, the score tone plays twice when someone touched the ball last: once in `awardPoint` and once in `moveBall`. It plays once when nobody did. A match-ending point serves twice, and the second serve decides the sign (`MoveBallIgnoresAwardCoin`).

## Model

| member | source | states |
|---|---|---|
| Field.CheckBoundary | tvpeli/game.js:155-157 | the wall test is false exactly when both end points of [y, y+size] lie strictly between the two bounds, and, for a span of non-negative size, exactly when every point of the span does |
| Field.Standard | tvpeli/game.js:52-59 | the derived configuration is valid: the paddle is a ninth of the height, the paddle speed is 3/2 of the ball speed, and the limit is 15 |
| Field.SpansMeetIff | tvpeli/game.js:190-191 | the end-point overlap test of the paddle contact holds exactly when some point lies in both closed spans |
| Entities.StandardStartsInBand | tvpeli/game.js:52-68 | with the derived configuration of a canvas at least 123 px high, both paddles start within one step of the walls |
| Entities.InitialConsistent | tvpeli/game.js:62-75 | the load-time state satisfies the invariant and the score bound; the match is not running and nobody has touched the ball |
| Rules.StepPaddle | tvpeli/game.js:146-148 | a paddle moves by exactly 0 or ±paddleSpeed, and never with a zero intent; it moves up iff the intent is -1 and y > 10, and down iff the intent is 1 and y + paddleHeight < height - 10; a paddle within one step of the walls stays there |
| Rules.MovePaddles | tvpeli/game.js:146-152 | only the two paddle positions change; the invariant and the paddle band are kept |
| Rules.ResetBall | tvpeli/game.js:249-259 | the ball is centred at the serve speed; the vertical speed keeps its magnitude and has the coin's sign; the touch state is cleared; nothing else changes; one reset tone; the invariant is kept |
| Rules.AwardPoint | tvpeli/game.js:159-172 | exactly one score rises by one for player 1 or 2, and none for any other value; the match keeps running iff no score has reached the limit; a decided match is served again with its scores kept; otherwise only the score changes; the invariant is kept |
| Rules.ContactedPaddle | tvpeli/game.js:186-214 | the registered paddle satisfies its contact test; player 1 wins when both do; player 2 registers iff only it passes; none registers while a hit is pending |
| Rules.BallColor | tvpeli/game.js:99-103 | the ball is yellow iff player 1 touched it last, magenta iff player 2 did, white iff nobody did |
| Properties.MovePaddlesIndependent | tvpeli/game.js:146-152 | each paddle's new position depends only on its own position and intent |
| Properties.WallBounceOnlyNegatesVertical | tvpeli/game.js:179-183 | touching the top or bottom wall negates only the vertical speed and plays a bounce; otherwise nothing changes |
| Properties.ResetBallTwice | tvpeli/game.js:249-256 | serving twice equals serving once with the second coin (same position, speeds and touch state) |
| Properties.AwardPointEffect | tvpeli/game.js:159-171 | an award leaves paddles, intents and keys alone, plays no paddle tone, and for player 1 or 2 adds at most one point |
| Properties.LeftEdgeEffect | tvpeli/game.js:237-245 | past the left edge the last toucher, if any, scores one point and the ball is served; otherwise nothing happens; the invariant is kept |
| Properties.WallsEffect | tvpeli/game.js:230-245 | the right-wall and left-edge stage scores at most one point, for the last toucher, and serves when the ball is out; otherwise it is only the right-wall bounce |
| Properties.FaultEffect | tvpeli/game.js:193-198 | a fault gives the opponent exactly one point, gives p none, serves the ball keeping the vertical speed's magnitude, and stops the match iff it is decided |
| Properties.MoveBallFault | tvpeli/game.js:186-227 | when the registered paddle touched last, the opponent scores one point, the ball is served from the centre moving right, and the walls are not tested in that tick |
| Properties.MoveBallHit | tvpeli/game.js:200-205 | a normal hit negates the horizontal speed, adds intent × 1.5 to the vertical speed, records the hitter and a pending hit, changes nothing else, and plays the hitter's tone |
| Properties.MoveBallRightWall | tvpeli/game.js:230-234 | reaching the right wall negates the horizontal speed and re-arms the paddles, keeping the last toucher |
| Properties.MoveBallLeftEdge | tvpeli/game.js:237-245 | leaving on the left gives one point to the last toucher, gives none when there was none, and always serves again |
| Properties.MoveBallAtMostOnePoint | tvpeli/game.js:175-246 | a ball move scores at most one point and never moves a paddle, changes an intent or the key state |
| Properties.MoveBallOnePaddleHit | tvpeli/game.js:186-227 | at most one paddle-hit tone per ball move: the else-if lets only one paddle register |
| Properties.MoveBallHitterRecorded | tvpeli/game.js:200-205 | a paddle that registers a hit is the ball's last toucher at the end of the move (the ball colour shows the hitter) |
| Properties.MoveBallConsistent | tvpeli/game.js:175-246 | every ball move keeps the invariant: a move that decides the match stops it |
| Properties.ResetBallForgetsSign | tvpeli/game.js:249-253 | a serve's outcome depends on the vertical speed only through its magnitude |
| Properties.AwardPointCoinOnlySign | tvpeli/game.js:168-170 | an award's random serve affects at most the sign of the vertical speed |
| Properties.LeftEdgeIgnoresAwardCoin | tvpeli/game.js:237-245 | the left-edge outcome does not depend on the serve drawn inside the award |
| Properties.MoveBallIgnoresAwardCoin | tvpeli/game.js:168-170 | the serve drawn by a match-ending award is overwritten by the round's own serve |
| Properties.GameLoopStopped | tvpeli/game.js:288-289 | while the match is not running a tick changes nothing and plays nothing |
| Properties.GameLoopStopsAtLimit | tvpeli/game.js:168-169 | after any tick, a score at the limit means the match is stopped |
| Properties.KeyDownStarts | tvpeli/game.js:305-312 | a press while stopped with no key held zeroes both scores, starts the match and applies no movement |
| Properties.KeyDownMoves | tvpeli/game.js:314-320 | any other press sets the intent of w/s/p/l to -1/1/-1/1, changes nothing else, and records a held key |
| Properties.KeyUpReleases | tvpeli/game.js:323-330 | a release of w or s (p or l) zeroes that player's intent unconditionally; afterwards keysAreReleased is always true |
| Properties.KeysConsistent | tvpeli/game.js:305-330 | both key handlers keep the invariant |
| Engine.Game.constructor | tvpeli/game.js:62-75 | the object starts in the load-time state and is valid |
| Engine.Game.MovePaddles | tvpeli/game.js:146-152 | the in-place update yields Rules.MovePaddles of the old state and keeps the invariant |
| Engine.Game.ResetBall | tvpeli/game.js:249-259 | the in-place update yields Rules.ResetBall of the old state and keeps the invariant |
| Engine.Game.AwardPoint | tvpeli/game.js:159-172 | the in-place update yields Rules.AwardPoint of the old state and keeps the invariant |
| Engine.Game.MoveBall | tvpeli/game.js:175-246 | the in-place update, with its early return, yields Rules.MoveBall of the old state and keeps the invariant |
| Engine.Game.PaddleContact | tvpeli/game.js:193-205 | a fault iff p touched last, with Rules.Fault's outcome; otherwise exactly Rules.Hit and one paddle tone |
| Engine.Game.Walls | tvpeli/game.js:230-245 | the right-wall and left-edge updates yield Rules.Walls of the old state |
| Engine.Game.GameLoop | tvpeli/game.js:288-295 | one tick yields Rules.GameLoop of the old state and keeps the invariant |
| Engine.Game.KeyDown | tvpeli/game.js:305-321 | the handler yields Rules.KeyDown of the old state and keeps the invariant |
| Engine.Game.KeyUp | tvpeli/game.js:323-330 | the handler yields Rules.KeyUp of the old state; keysAreReleased is true afterwards |
| Sessions.ApplyConsistent | tvpeli/game.js:285-330 | one frame or key event keeps the invariant and the score bound |
| Sessions.RunConsistent | tvpeli/game.js:285-330 | every state of a session keeps the invariant and the score bound |
| Sessions.Reachable | tvpeli/game.js:62-75 | from the load-time state, no score ever passes the limit and a running match is never already won |
| Sessions.RunPaddlesInBand | tvpeli/game.js:146-152 | paddles that start within one step of the walls stay there for the whole session |
| Sessions.StandardPaddlesInBand | tvpeli/game.js:52-68 | with the derived configuration of a canvas at least 123 px high, the paddles stay within one step of the walls in every session from the load-time state |
| Sessions.ApplyScores | tvpeli/game.js:159-171 | apart from the press that restarts a match, no event lowers a score or adds more than one point |
| Sessions.FramesNeverLowerScores | tvpeli/game.js:285-298 | over any run of frames the scores never go down |
| Sessions.StoppedFramesIdle | tvpeli/game.js:288-289 | a stopped match stays exactly as it is for any number of frames |
| Sessions.FirstPressStarts | tvpeli/game.js:305-312 | from the load-time state any key press starts a match at 0-0 with both paddles still |

## Left out

- Audio (`playSound` and the four tone helpers, including the timed four-tone reset sequence): each tone is a `Sound` tag in the returned list, and waveform, frequency, volume and timing are not modelled.
- Canvas setup and rendering (`draw`, `drawDigit`, `drawMessage`, the digit patterns): this is output only. `getBallColor` is kept as `Rules.BallColor`.
- Frame scheduling (`requestAnimationFrame`, `performance.now`, `lastFrameTime`, `targetFrameDuration`): one tick is one call of `GameLoop`, or one `Frame` event of a session.
- DOM event wiring: a key event is modelled by its `key` string.
- IEEE-754 arithmetic: positions and speeds are exact reals, including the constants derived from `cmToPixels`, so rounding is not modelled.
- `Math.random`: it is replaced by a `bool` argument per serve, so the uniform distribution is not modelled.
- Properties.MoveBallHit: stated only for fields wider than 70 px. On a narrower field the ball at a paddle would also reach the right wall in the same tick.
- Sessions.RunPaddlesInBand: assumes the paddles start in the band. For the derived configuration `Sessions.StandardPaddlesInBand` discharges this when the canvas is at least 123 px high; on a lower canvas player 2, 50 px below centre, starts past the bottom wall and the band is not proved.
