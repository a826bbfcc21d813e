/**
  The heap side of client/src/lib/game.ts. A game state is an object that
  refers to two paddle objects and a ball object. `updateGame` makes a
  shallow copy of the state, so the new state shares those three objects
  with the caller's old state and changes them in place.
*/
module Game {
  import opened Physics

  class Paddle {
    var x: real
    var y: real
    var width: real
    var height: real
    var speed: real

    constructor (v: PaddleV)
      ensures Value() == v
    {
      x, y, width, height, speed := v.x, v.y, v.width, v.height, v.speed;
    }

    function Value(): PaddleV
      reads this
    {
      PaddleV(x, y, width, height, speed)
    }
  }

  class Ball {
    var x: real
    var y: real
    var radius: real
    var speedX: real
    var speedY: real

    constructor (v: BallV)
      ensures Value() == v
    {
      x, y, radius, speedX, speedY := v.x, v.y, v.radius, v.speedX, v.speedY;
    }

    function Value(): BallV
      reads this
    {
      BallV(x, y, radius, speedX, speedY)
    }
  }

  class GameState {
    var leftPaddle: Paddle
    var rightPaddle: Paddle
    var ball: Ball
    var leftScore: int
    var rightScore: int
    var leftPaddleMoving: int
    var rightPaddleMoving: int
    var wallCollision: bool
    var paddleCollision: bool
    var scored: bool

    /** The two paddles are two objects. */
    ghost predicate Valid()
      reads this
    {
      leftPaddle != rightPaddle
    }

    /**
      A state over the given paddle and ball objects, whose numbers and flags
      are those of `fields` (its paddles and ball are not used).
    */
    constructor (leftPaddle: Paddle, rightPaddle: Paddle, ball: Ball, fields: StateV)
      ensures this.leftPaddle == leftPaddle && this.rightPaddle == rightPaddle && this.ball == ball
      ensures Value() == fields.(leftPaddle := leftPaddle.Value(), rightPaddle := rightPaddle.Value(),
                                 ball := ball.Value())
    {
      this.leftPaddle, this.rightPaddle, this.ball := leftPaddle, rightPaddle, ball;
      leftScore, rightScore := fields.leftScore, fields.rightScore;
      leftPaddleMoving, rightPaddleMoving := fields.leftPaddleMoving, fields.rightPaddleMoving;
      wallCollision, paddleCollision, scored := fields.wallCollision, fields.paddleCollision, fields.scored;
    }

    function Value(): StateV
      reads this, leftPaddle, rightPaddle, ball
    {
      StateV(leftPaddle.Value(), rightPaddle.Value(), ball.Value(),
             leftScore, rightScore, leftPaddleMoving, rightPaddleMoving,
             wallCollision, paddleCollision, scored)
    }

    /** `{ ...state }`: a new state object sharing this one's paddles and ball. */
    method Spread() returns (c: GameState)
      ensures fresh(c)
      ensures c.leftPaddle == leftPaddle && c.rightPaddle == rightPaddle && c.ball == ball
      ensures c.Value() == Value()
    {
      c := new GameState(leftPaddle, rightPaddle, ball, Value());
    }
  }

  /** createInitialGameState: a state built from fresh objects. */
  method CreateInitialGameState(rand: real) returns (s: GameState)
    ensures fresh(s) && fresh(s.leftPaddle) && fresh(s.rightPaddle) && fresh(s.ball)
    ensures s.Valid()
    ensures s.Value() == InitialState(rand)
  {
    var v := InitialState(rand);
    var left := new Paddle(v.leftPaddle);
    var right := new Paddle(v.rightPaddle);
    var ball := new Ball(v.ball);
    s := new GameState(left, right, ball, v);
  }

  /** resetBall: re-serves the given ball object in place. */
  method ResetBall(ball: Ball, goingLeft: bool, rand: real)
    requires IsRandom(rand)
    modifies ball
    ensures ball.Value() == ServeFromCentre(old(ball.Value()), goingLeft, rand)
  {
    ball.x := CanvasWidth / 2.0;
    ball.y := CanvasHeight / 2.0;
    ball.speedX := if goingLeft then -InitialBallSpeed else InitialBallSpeed;
    ball.speedY := (rand - 0.5) * InitialBallSpeed;
  }

  /** Lines 93-101: a paddle with a non-zero direction moves and is clamped to the canvas. */
  method MovePaddleInPlace(paddle: Paddle, moving: int, deltaTime: real)
    modifies paddle
    ensures paddle.Value() == MovePaddle(old(paddle.Value()), moving, deltaTime)
  {
    if moving != 0 {
      paddle.y := paddle.y + (moving as real) * paddle.speed * deltaTime;
      paddle.y := Max(0.0, Min(CanvasHeight - paddle.height, paddle.y));
    }
  }

  /** Lines 109-110: the ball moves by its speed. */
  method AdvanceBallInPlace(ball: Ball, deltaTime: real)
    modifies ball
    ensures ball.Value() == AdvanceBall(old(ball.Value()), deltaTime)
  {
    ball.x := ball.x + ball.speedX * deltaTime;
    ball.y := ball.y + ball.speedY * deltaTime;
  }

  /**
    Lines 121-123 and 129-131: the ball takes the new horizontal speed and a
    vertical speed from where it struck the paddle.
  */
  method BounceOffPaddle(ball: Ball, paddle: Paddle, speedX: real)
    requires paddle.height > 0.0
    modifies ball
    ensures ball.Value() == Deflect(old(ball.Value()), paddle.Value(), speedX)
  {
    ball.speedX := speedX;
    var relativeIntersectY := (paddle.y + paddle.height / 2.0) - ball.y;
    ball.speedY := -(relativeIntersectY / (paddle.height / 2.0)) * Abs(ball.speedX);
  }

  /**
    Lines 112-147: the event checks on the moved state, each ending the
    update when it fires.
  */
  method ApplyEvents(newState: GameState, rand: real)
    requires newState.Valid() && PositiveHeights(newState.Value()) && IsRandom(rand)
    modifies newState, newState.ball
    ensures newState.leftPaddle == old(newState.leftPaddle) && newState.rightPaddle == old(newState.rightPaddle)
    ensures newState.ball == old(newState.ball)
    ensures newState.Value() == Events(old(newState.Value()), rand)
  {
    var ball := newState.ball;
    if ball.y - BallRadius <= 0.0 || ball.y + BallRadius >= CanvasHeight {
      ball.speedY := -ball.speedY;
      newState.wallCollision := true;
      return;
    }

    if CheckCollision(ball.Value(), newState.leftPaddle.Value()) {
      BounceOffPaddle(ball, newState.leftPaddle, Abs(ball.speedX) * SpeedIncreaseFactor);
      newState.paddleCollision := true;
      return;
    }

    if CheckCollision(ball.Value(), newState.rightPaddle.Value()) {
      BounceOffPaddle(ball, newState.rightPaddle, -Abs(ball.speedX) * SpeedIncreaseFactor);
      newState.paddleCollision := true;
      return;
    }

    if ball.x + BallRadius < 0.0 {
      newState.rightScore := newState.rightScore + 1;
      ResetBall(ball, false, rand);
      newState.scored := true;
      return;
    } else if ball.x - BallRadius > CanvasWidth {
      newState.leftScore := newState.leftScore + 1;
      ResetBall(ball, true, rand);
      newState.scored := true;
      return;
    }
  }

  /**
    updateGame: the returned state is a new object whose value is one tick
    of the old one; its paddles and ball are the old state's objects,
    updated in place, so the caller's old state now shows them too while
    keeping its own scores, direction flags and event flags.
  */
  method UpdateGame(state: GameState, deltaTime: real, rand: real) returns (newState: GameState)
    requires state.Valid() && PositiveHeights(state.Value()) && IsRandom(rand)
    modifies state.leftPaddle, state.rightPaddle, state.ball
    ensures fresh(newState) && newState.Valid()
    ensures newState.leftPaddle == state.leftPaddle && newState.rightPaddle == state.rightPaddle
    ensures newState.ball == state.ball
    ensures newState.Value() == Tick(old(state.Value()), deltaTime, rand)
    ensures state.Value() == old(state.Value()).(leftPaddle := newState.leftPaddle.Value(),
                                                 rightPaddle := newState.rightPaddle.Value(),
                                                 ball := newState.ball.Value())
  {
    newState := state.Spread();
    MovePaddleInPlace(newState.leftPaddle, state.leftPaddleMoving, deltaTime);
    MovePaddleInPlace(newState.rightPaddle, state.rightPaddleMoving, deltaTime);
    newState.wallCollision, newState.paddleCollision, newState.scored := false, false, false;
    AdvanceBallInPlace(newState.ball, deltaTime);
    assert newState.Value() == Moved(old(state.Value()), deltaTime);
    ApplyEvents(newState, rand);
  }
}
