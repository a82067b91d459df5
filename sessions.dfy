/** A session: the sequence of frames and key events the host delivers,
    applied one after another from any state. The invariants of the game hold
    in every state a session can reach from the load-time state. */
module Sessions {
  import opened Field
  import opened Entities
  import opened Rules
  import Properties

  /** One thing the host delivers: an animation frame (with the two serve
      coins it may draw), a key press or a key release. */
  datatype Event = Frame(coinAward: bool, coinReset: bool) | Press(key: string) | Release(key: string)

  function Apply(c: Config, s: GameState, e: Event): GameState
  {
    match e
    case Frame(coinAward, coinReset) => GameLoop(c, s, coinAward, coinReset).state
    case Press(key) => KeyDown(s, key)
    case Release(key) => KeyUp(s, key)
  }

  function Run(c: Config, s: GameState, events: seq<Event>): GameState
    decreases |events|
  {
    if events == [] then s else Run(c, Apply(c, s, events[0]), events[1..])
  }

  /** The press that starts a new match and resets the scores. */
  predicate Restarts(s: GameState, e: Event)
  {
    e.Press? && !s.isGameRunning && s.keysAreReleased
  }

  lemma ApplyConsistent(c: Config, s: GameState, e: Event)
    requires c.Valid() && Consistent(c, s) && ScoresBounded(c, s)
    ensures Consistent(c, Apply(c, s, e)) && ScoresBounded(c, Apply(c, s, e))
  {
    match e
    case Frame(coinAward, coinReset) =>
      if s.isGameRunning {
        Properties.MoveBallConsistent(c, MovePaddles(c, s), coinAward, coinReset);
        Properties.MoveBallAtMostOnePoint(c, MovePaddles(c, s), coinAward, coinReset);
      }
    case Press(key) => Properties.KeysConsistent(c, s, key);
    case Release(key) => Properties.KeysConsistent(c, s, key);
  }

  /** Every state of a session that starts consistent and within the limit is
      consistent and within the limit. */
  lemma {:induction false} RunConsistent(c: Config, s: GameState, events: seq<Event>)
    requires c.Valid() && Consistent(c, s) && ScoresBounded(c, s)
    ensures Consistent(c, Run(c, s, events)) && ScoresBounded(c, Run(c, s, events))
    decreases |events|
  {
    if events != [] {
      ApplyConsistent(c, s, events[0]);
      RunConsistent(c, Apply(c, s, events[0]), events[1..]);
    }
  }

  /** From the load-time state, whatever the players do: no score ever passes
      the limit, a running match has not been won, a pending hit always has a
      toucher, and the ball always moves sideways at the serve speed. */
  lemma Reachable(c: Config, events: seq<Event>)
    requires c.Valid()
    ensures var s := Run(c, Initial(c), events);
      Consistent(c, s) && ScoresBounded(c, s)
  {
    InitialConsistent(c);
    RunConsistent(c, Initial(c), events);
  }

  /** Paddles that start within one step of the walls stay there for the
      whole session. */
  lemma {:induction false} RunPaddlesInBand(c: Config, s: GameState, events: seq<Event>)
    requires c.Valid() && PaddlesInBand(c, s)
    ensures PaddlesInBand(c, Run(c, s, events))
    decreases |events|
  {
    if events != [] {
      var e := events[0];
      if e.Frame? && s.isGameRunning {
        Properties.MoveBallAtMostOnePoint(c, MovePaddles(c, s), e.coinAward, e.coinReset);
      }
      assert PaddlesInBand(c, Apply(c, s, e));
      RunPaddlesInBand(c, Apply(c, s, e), events[1..]);
    }
  }

  /** For the configuration the source derives from a canvas at least 123 px
      high, the paddles stay within one step of the walls in every session
      started from the load-time state. */
  lemma StandardPaddlesInBand(width: real, height: real, events: seq<Event>)
    requires width > 0.0 && height >= 123.0
    ensures var c := Standard(width, height);
      PaddlesInBand(c, Run(c, Initial(c), events))
  {
    StandardStartsInBand(width, height);
    RunPaddlesInBand(Standard(width, height), Initial(Standard(width, height)), events);
  }

  /** Scores never go down except through the press that starts a new match,
      and an event adds at most one point. */
  lemma ApplyScores(c: Config, s: GameState, e: Event)
    requires !Restarts(s, e)
    ensures Properties.AtMostOnePoint(s, Apply(c, s, e))
  {
    if e.Frame? && s.isGameRunning {
      Properties.MoveBallAtMostOnePoint(c, MovePaddles(c, s), e.coinAward, e.coinReset);
    }
  }

  /** Over a session of frames alone the scores never go down. */
  lemma {:induction false} FramesNeverLowerScores(c: Config, s: GameState, events: seq<Event>)
    requires forall i :: 0 <= i < |events| ==> events[i].Frame?
    ensures Run(c, s, events).scorePlayer1 >= s.scorePlayer1
    ensures Run(c, s, events).scorePlayer2 >= s.scorePlayer2
    decreases |events|
  {
    if events != [] {
      ApplyScores(c, s, events[0]);
      FramesNeverLowerScores(c, Apply(c, s, events[0]), events[1..]);
    }
  }

  /** A stopped match (not yet started, or finished) stays exactly as it is
      for any number of frames: only a key press can start it again. */
  lemma {:induction false} StoppedFramesIdle(c: Config, s: GameState, events: seq<Event>)
    requires !s.isGameRunning
    requires forall i :: 0 <= i < |events| ==> events[i].Frame?
    ensures Run(c, s, events) == s
    decreases |events|
  {
    if events != [] {
      StoppedFramesIdle(c, Apply(c, s, events[0]), events[1..]);
    }
  }

  /** Starting the game: from the load-time state any key press starts a
      match at 0-0 without moving a paddle. */
  lemma FirstPressStarts(c: Config, key: string)
    ensures var s := Apply(c, Initial(c), Press(key));
      s.isGameRunning && s.scorePlayer1 == 0 && s.scorePlayer2 == 0 &&
      s.player1Move == 0 && s.player2Move == 0
  {
  }
}
