/**
  The control logic of client/src/components/game/GameCanvas.tsx: the
  keyboard handlers, the start/pause/reset state machine, the game-over
  rule and the per-frame callback with the sounds it asks for. Drawing,
  JSX and listener registration are not modelled.
*/
module Canvas {
  import opened Physics
  import opened Game

  const WinningScore: int := 10

  predicate IsLeftKey(key: string) { key == "w" || key == "s" }

  predicate IsRightKey(key: string) { key == "ArrowUp" || key == "ArrowDown" }

  /** The keys that move a paddle up, towards y = 0. */
  predicate IsUpKey(key: string) { key == "w" || key == "ArrowUp" }

  /**
    handleKeyDown's update of the game state, once past its guard: `w`/`s`
    steer the left paddle and the arrows the right one, up being -1.
  */
  function KeyDown(s: StateV, key: string): (r: StateV)
    ensures r == s.(leftPaddleMoving := r.leftPaddleMoving, rightPaddleMoving := r.rightPaddleMoving)
    ensures IsLeftKey(key) ==>
      r.leftPaddleMoving == (if IsUpKey(key) then -1 else 1) && r.rightPaddleMoving == s.rightPaddleMoving
    ensures IsRightKey(key) ==>
      r.rightPaddleMoving == (if IsUpKey(key) then -1 else 1) && r.leftPaddleMoving == s.leftPaddleMoving
    ensures !IsLeftKey(key) && !IsRightKey(key) ==> r == s
    ensures ValidState(s) ==> ValidState(r)
  {
    if key == "w" then s.(leftPaddleMoving := -1)
    else if key == "s" then s.(leftPaddleMoving := 1)
    else if key == "ArrowUp" then s.(rightPaddleMoving := -1)
    else if key == "ArrowDown" then s.(rightPaddleMoving := 1)
    else s
  }

  /** handleKeyUp's update: releasing either key of a side stops that side's paddle. */
  function KeyUp(s: StateV, key: string): (r: StateV)
    ensures r == s.(leftPaddleMoving := r.leftPaddleMoving, rightPaddleMoving := r.rightPaddleMoving)
    ensures IsLeftKey(key) ==> r.leftPaddleMoving == 0 && r.rightPaddleMoving == s.rightPaddleMoving
    ensures IsRightKey(key) ==> r.rightPaddleMoving == 0 && r.leftPaddleMoving == s.leftPaddleMoving
    ensures !IsLeftKey(key) && !IsRightKey(key) ==> r == s
    ensures ValidState(s) ==> ValidState(r)
  {
    if key == "w" || key == "s" then s.(leftPaddleMoving := 0)
    else if key == "ArrowUp" || key == "ArrowDown" then s.(rightPaddleMoving := 0)
    else s
  }

  /** Pressing and then releasing a key ends as releasing it alone would. */
  lemma KeyUpAfterKeyDown(s: StateV, key: string)
    ensures KeyUp(KeyDown(s, key), key) == KeyUp(s, key)
  {
  }

  predicate IsGameOver(s: StateV) {
    s.leftScore >= WinningScore || s.rightScore >= WinningScore
  }

  datatype Player = Player1 | Player2

  function Winner(s: StateV): Player {
    if s.leftScore >= WinningScore then Player1 else Player2
  }

  /**
    The tick that ends a game ends it with exactly one side at 10 points,
    and that side is the one named the winner.
  */
  lemma GameOverWinner(s: StateV, dt: real, rand: real)
    requires PositiveHeights(s) && IsRandom(rand)
    requires !IsGameOver(s) && IsGameOver(Tick(s, dt, rand))
    ensures var r := Tick(s, dt, rand);
      && r.scored
      && (r.leftScore == WinningScore) != (r.rightScore == WinningScore)
      && (Winner(r) == Player1 <==> r.leftScore == WinningScore)
      && (Winner(r) == Player2 <==> r.rightScore == WinningScore)
  {
  }

  /**
    The bounce cue as the frame callback means it: the ball's horizontal
    speed has a different magnitude after the tick than before it.
  */
  predicate BounceCue(before: StateV, after: StateV) {
    Abs(after.ball.speedX) != Abs(before.ball.speedX)
  }

  /**
    With the speed taken before the tick, the bounce cue fires on a paddle
    hit of a ball that was moving sideways, and on a point scored by a
    ball whose speed was no longer the serve speed; never on a wall hit or
    a quiet tick.
  */
  lemma BounceCueOnTick(s: StateV, dt: real, rand: real)
    requires PositiveHeights(s) && IsRandom(rand)
    ensures var r := Tick(s, dt, rand);
      BounceCue(s, r) <==>
        || (r.paddleCollision && s.ball.speedX != 0.0)
        || (r.scored && Abs(s.ball.speedX) != InitialBallSpeed)
  {
    var m := Moved(s, dt);
    var r := Tick(s, dt, rand);
    assert m.ball.speedX == s.ball.speedX;
    if r.paddleCollision {
      assert Abs(r.ball.speedX) == Abs(s.ball.speedX) * SpeedIncreaseFactor;
    }
  }

  /**
    A ball just right of the left paddle and moving left hits it within
    10 ms: the hit changes the magnitude of its horizontal speed, so a
    bounce cue is due, yet the frame callback as written never gives one.
  */
  lemma BounceDueOnPaddleHit()
    ensures var s := InitialState(0.0).(ball := BallV(63.0, 200.0, 5.0, -300.0, 0.0));
      var r := Tick(s, 0.01, 0.0);
      r.paddleCollision && r.ball.speedX == 315.0 && BounceCue(s, r)
  {
    var s := InitialState(0.0).(ball := BallV(63.0, 200.0, 5.0, -300.0, 0.0));
    var m := Moved(s, 0.01);
    assert m.ball.x == 60.0 && m.ball.y == 200.0;
    assert CheckCollision(m.ball, m.leftPaddle);
  }

  /** The sounds a frame asks for. */
  datatype Cues = Cues(score: bool, bounce: bool)

  /** The component's state: the game state and the two flags of its `useState` hooks. */
  class GameCanvas {
    var gameState: GameState
    var isPaused: bool
    var gameStarted: bool

    function State(): StateV
      reads this, gameState, gameState.leftPaddle, gameState.rightPaddle, gameState.ball
    {
      gameState.Value()
    }

    ghost predicate Valid()
      reads this, gameState, gameState.leftPaddle, gameState.rightPaddle, gameState.ball
    {
      gameState.Valid() && ValidState(State())
    }

    /** The component as first rendered: a fresh game, paused and not started. */
    constructor (rand: real)
      ensures Valid() && fresh(gameState)
      ensures State() == InitialState(rand)
      ensures isPaused && !gameStarted
    {
      var s := CreateInitialGameState(rand);
      gameState := s;
      isPaused := true;
      gameStarted := false;
    }

    /** `setGameState(prev => ({ ...prev, leftPaddleMoving: v }))` */
    method SetLeftPaddleMoving(v: int)
      modifies this
      ensures fresh(gameState) && isPaused == old(isPaused) && gameStarted == old(gameStarted)
      ensures gameState.leftPaddle == old(gameState.leftPaddle) && gameState.rightPaddle == old(gameState.rightPaddle)
      ensures gameState.ball == old(gameState.ball)
      ensures State() == old(State()).(leftPaddleMoving := v)
    {
      var next := gameState.Spread();
      next.leftPaddleMoving := v;
      gameState := next;
    }

    /** `setGameState(prev => ({ ...prev, rightPaddleMoving: v }))` */
    method SetRightPaddleMoving(v: int)
      modifies this
      ensures fresh(gameState) && isPaused == old(isPaused) && gameStarted == old(gameStarted)
      ensures gameState.leftPaddle == old(gameState.leftPaddle) && gameState.rightPaddle == old(gameState.rightPaddle)
      ensures gameState.ball == old(gameState.ball)
      ensures State() == old(State()).(rightPaddleMoving := v)
    {
      var next := gameState.Spread();
      next.rightPaddleMoving := v;
      gameState := next;
    }

    /** handleKeyDown: ignored unless the game is started and running. */
    method HandleKeyDown(key: string)
      requires Valid()
      modifies this
      ensures Valid()
      ensures isPaused == old(isPaused) && gameStarted == old(gameStarted)
      ensures !gameStarted || isPaused ==> gameState == old(gameState)
      ensures gameStarted && !isPaused ==> State() == KeyDown(old(State()), key)
    {
      if !gameStarted || isPaused {
        return;
      }
      if key == "w" {
        SetLeftPaddleMoving(-1);
      } else if key == "s" {
        SetLeftPaddleMoving(1);
      } else if key == "ArrowUp" {
        SetRightPaddleMoving(-1);
      } else if key == "ArrowDown" {
        SetRightPaddleMoving(1);
      }
    }

    /** handleKeyUp: not guarded by the pause state. */
    method HandleKeyUp(key: string)
      requires Valid()
      modifies this
      ensures Valid()
      ensures isPaused == old(isPaused) && gameStarted == old(gameStarted)
      ensures State() == KeyUp(old(State()), key)
    {
      if key == "w" || key == "s" {
        SetLeftPaddleMoving(0);
      } else if key == "ArrowUp" || key == "ArrowDown" {
        SetRightPaddleMoving(0);
      }
    }

    /** togglePause: flips the pause flag and marks the game started for good. */
    method TogglePause()
      requires Valid()
      modifies this
      ensures Valid()
      ensures isPaused == !old(isPaused) && gameStarted
      ensures gameState == old(gameState)
    {
      if !gameStarted {
        gameStarted := true;
      }
      isPaused := !isPaused;
    }

    /** handleReset: a fresh game, paused and not started. */
    method HandleReset(rand: real)
      modifies this
      ensures Valid() && fresh(gameState)
      ensures State() == InitialState(rand)
      ensures isPaused && !gameStarted
    {
      gameState := CreateInitialGameState(rand);
      isPaused := true;
      gameStarted := false;
    }

    /**
      The game-over check made on every render: a started, running game
      that is over is paused, and the game-over sound is asked for.
    */
    method CheckGameOver() returns (playGameOver: bool)
      requires Valid()
      modifies this
      ensures Valid()
      ensures playGameOver <==> IsGameOver(State()) && old(gameStarted) && !old(isPaused)
      ensures isPaused == (old(isPaused) || playGameOver)
      ensures gameStarted == old(gameStarted) && gameState == old(gameState)
    {
      var isGameOver := gameState.leftScore >= WinningScore || gameState.rightScore >= WinningScore;
      playGameOver := isGameOver && gameStarted && !isPaused;
      if playGameOver {
        isPaused := true;
      }
    }

    /**
      The frame callback with the bounce check comparing against the speed
      the ball had before the tick.
    */
    method Frame(deltaTime: real, rand: real) returns (cues: Cues)
      requires Valid() && IsRandom(rand)
      modifies this, gameState.leftPaddle, gameState.rightPaddle, gameState.ball
      ensures Valid()
      ensures isPaused == old(isPaused) && gameStarted == old(gameStarted)
      ensures !old(gameStarted) || old(isPaused) ==>
        cues == Cues(false, false) && gameState == old(gameState) && State() == old(State())
      ensures old(gameStarted) && !old(isPaused) ==>
        && State() == Tick(old(State()), deltaTime, rand)
        && (cues.score <==> State().scored)
        && (cues.bounce <==> BounceCue(old(State()), State()))
    {
      if !gameStarted || isPaused {
        return Cues(false, false);
      }
      var prevState := gameState;
      var prevSpeed := Abs(prevState.ball.speedX);
      var newState := UpdateGame(prevState, deltaTime, rand);
      var score := newState.leftScore != prevState.leftScore || newState.rightScore != prevState.rightScore;
      var bounce := Abs(newState.ball.speedX) != prevSpeed;
      TickPreservesValid(old(State()), deltaTime, rand);
      gameState := newState;
      cues := Cues(score, bounce);
    }

    /**
      The frame callback as written: `prevState` and `newState` share one
      ball object, so the bounce check compares the ball with itself.
    */
    method FrameAsWritten(deltaTime: real, rand: real) returns (cues: Cues)
      requires Valid() && IsRandom(rand)
      modifies this, gameState.leftPaddle, gameState.rightPaddle, gameState.ball
      ensures Valid()
      ensures isPaused == old(isPaused) && gameStarted == old(gameStarted)
      ensures !old(gameStarted) || old(isPaused) ==>
        cues == Cues(false, false) && gameState == old(gameState) && State() == old(State())
      ensures old(gameStarted) && !old(isPaused) ==>
        State() == Tick(old(State()), deltaTime, rand) && (cues.score <==> State().scored)
      ensures !cues.bounce
    {
      if !gameStarted || isPaused {
        return Cues(false, false);
      }
      var prevState := gameState;
      var newState := UpdateGame(prevState, deltaTime, rand);
      var score := newState.leftScore != prevState.leftScore || newState.rightScore != prevState.rightScore;
      var bounce := Abs(newState.ball.speedX) != Abs(prevState.ball.speedX);
      TickPreservesValid(old(State()), deltaTime, rand);
      gameState := newState;
      cues := Cues(score, bounce);
    }
  }
}
