/**
  The Pong physics of client/src/lib/game.ts as values: the constants, the
  paddle/ball/state records, the collision test and one tick of the
  simulation (`Tick`), with the properties a tick keeps.

  Numbers are exact reals, not IEEE-754 doubles. `Math.random()` is a
  parameter `rand` with 0 <= rand < 1.
*/
module Physics {

  const CanvasWidth: real := 800.0
  const CanvasHeight: real := 400.0
  const PaddleWidth: real := 10.0
  const DefaultPaddleHeight: real := 60.0
  const BallRadius: real := 5.0
  const PaddleSpeed: real := 300.0
  const InitialBallSpeed: real := 300.0
  const SpeedIncreaseFactor: real := 1.05

  /** The fields of a paddle object at one instant. */
  datatype PaddleV = PaddleV(x: real, y: real, width: real, height: real, speed: real)

  /** The fields of the ball object at one instant. */
  datatype BallV = BallV(x: real, y: real, radius: real, speedX: real, speedY: real)

  /**
    The fields of a game state at one instant. The three event flags are
    optional in the source; an absent flag reads as false.
  */
  datatype StateV = StateV(
    leftPaddle: PaddleV,
    rightPaddle: PaddleV,
    ball: BallV,
    leftScore: int,
    rightScore: int,
    leftPaddleMoving: int,
    rightPaddleMoving: int,
    wallCollision: bool,
    paddleCollision: bool,
    scored: bool)

  /** A frame's inputs: the elapsed time and the value `Math.random()` would give. */
  datatype TickInput = TickInput(dt: real, rand: real)

  function Abs(x: real): real { if x < 0.0 then -x else x }

  function Max(a: real, b: real): real { if a >= b then a else b }

  function Min(a: real, b: real): real { if a <= b then a else b }

  /** The range of `Math.random()`. */
  predicate IsRandom(rand: real) { 0.0 <= rand < 1.0 }

  predicate PositiveHeights(s: StateV) {
    s.leftPaddle.height > 0.0 && s.rightPaddle.height > 0.0
  }

  predicate PaddleInBounds(p: PaddleV) {
    0.0 < p.height <= CanvasHeight && 0.0 <= p.y <= CanvasHeight - p.height
  }

  /** What every state the game creates satisfies, and every tick keeps. */
  predicate ValidState(s: StateV) {
    && PaddleInBounds(s.leftPaddle)
    && PaddleInBounds(s.rightPaddle)
    && -1 <= s.leftPaddleMoving <= 1
    && -1 <= s.rightPaddleMoving <= 1
    && s.leftScore >= 0
    && s.rightScore >= 0
  }

  predicate AtMostOneEvent(s: StateV) {
    && !(s.wallCollision && s.paddleCollision)
    && !(s.wallCollision && s.scored)
    && !(s.paddleCollision && s.scored)
  }

  /** The parts of a state that no tick changes. */
  predicate FixedPartsKept(s: StateV, r: StateV) {
    && r.leftPaddle == s.leftPaddle.(y := r.leftPaddle.y)
    && r.rightPaddle == s.rightPaddle.(y := r.rightPaddle.y)
    && r.ball.radius == s.ball.radius
    && r.leftPaddleMoving == s.leftPaddleMoving
    && r.rightPaddleMoving == s.rightPaddleMoving
  }

  /** createInitialGameState: `rand` stands for the `Math.random()` that picks the serve direction. */
  function InitialState(rand: real): (s: StateV)
    ensures ValidState(s) && AtMostOneEvent(s)
    ensures s.leftPaddle == PaddleV(50.0, 170.0, 10.0, 60.0, 300.0)
    ensures s.rightPaddle == s.leftPaddle.(x := 740.0)
    ensures s.rightPaddle.x + s.rightPaddle.width == CanvasWidth - s.leftPaddle.x
    ensures s.ball.x == 400.0 && s.ball.y == 200.0 && s.ball.radius == 5.0 && s.ball.speedY == 0.0
    ensures Abs(s.ball.speedX) == 300.0 && (s.ball.speedX > 0.0 <==> rand > 0.5)
    ensures s.leftScore == 0 && s.rightScore == 0
    ensures s.leftPaddleMoving == 0 && s.rightPaddleMoving == 0
    ensures !s.wallCollision && !s.paddleCollision && !s.scored
  {
    StateV(
      PaddleV(50.0, CanvasHeight / 2.0 - DefaultPaddleHeight / 2.0, PaddleWidth, DefaultPaddleHeight, PaddleSpeed),
      PaddleV(CanvasWidth - 50.0 - PaddleWidth, CanvasHeight / 2.0 - DefaultPaddleHeight / 2.0,
              PaddleWidth, DefaultPaddleHeight, PaddleSpeed),
      BallV(CanvasWidth / 2.0, CanvasHeight / 2.0, BallRadius,
            InitialBallSpeed * (if rand > 0.5 then 1.0 else -1.0), 0.0),
      0, 0, 0, 0, false, false, false)
  }

  /** checkCollision: the strict overlap test between the ball's bounding square and the paddle. */
  predicate CheckCollision(ball: BallV, paddle: PaddleV) {
    && ball.x - ball.radius < paddle.x + paddle.width
    && ball.x + ball.radius > paddle.x
    && ball.y + ball.radius > paddle.y
    && ball.y - ball.radius < paddle.y + paddle.height
  }

  /** An axis-aligned rectangle given by its edges; y grows downwards. */
  datatype Rect = Rect(left: real, top: real, right: real, bottom: real)

  function BallBox(b: BallV): Rect {
    Rect(b.x - b.radius, b.y - b.radius, b.x + b.radius, b.y + b.radius)
  }

  function PaddleRect(p: PaddleV): Rect {
    Rect(p.x, p.y, p.x + p.width, p.y + p.height)
  }

  /** The point (px, py) lies strictly inside the rectangle. */
  predicate Inside(px: real, py: real, r: Rect) {
    r.left < px < r.right && r.top < py < r.bottom
  }

  /**
    The collision test holds exactly when some point lies strictly inside
    both the ball's bounding square and the paddle's rectangle.
  */
  lemma CheckCollisionIsOverlap(b: BallV, p: PaddleV)
    requires b.radius > 0.0 && p.width > 0.0 && p.height > 0.0
    ensures CheckCollision(b, p) <==>
      exists px, py :: Inside(px, py, BallBox(b)) && Inside(px, py, PaddleRect(p))
  {
    var bb, pr := BallBox(b), PaddleRect(p);
    if CheckCollision(b, p) {
      var px := (Max(bb.left, pr.left) + Min(bb.right, pr.right)) / 2.0;
      var py := (Max(bb.top, pr.top) + Min(bb.bottom, pr.bottom)) / 2.0;
      assert Inside(px, py, bb) && Inside(px, py, pr);
    }
  }

  /** resetBall: re-serve from the centre, towards the given side, with a random vertical speed. */
  function ServeFromCentre(b: BallV, goingLeft: bool, rand: real): (r: BallV)
    requires IsRandom(rand)
    ensures r.x == 400.0 && r.y == 200.0 && r.radius == b.radius
    ensures Abs(r.speedX) == InitialBallSpeed && (r.speedX < 0.0 <==> goingLeft)
    ensures -150.0 <= r.speedY < 150.0
  {
    b.(x := CanvasWidth / 2.0,
       y := CanvasHeight / 2.0,
       speedX := if goingLeft then -InitialBallSpeed else InitialBallSpeed,
       speedY := (rand - 0.5) * InitialBallSpeed)
  }

  /** The paddle after its move for one tick, clamped to the canvas when it moved. */
  function MovePaddle(p: PaddleV, moving: int, dt: real): (r: PaddleV)
    ensures r == p.(y := r.y)
    ensures moving == 0 ==> r == p
    ensures moving != 0 && p.height <= CanvasHeight ==> 0.0 <= r.y <= CanvasHeight - p.height
    ensures moving != 0 && 0.0 <= p.y + (moving as real) * p.speed * dt <= CanvasHeight - p.height ==>
              r.y == p.y + (moving as real) * p.speed * dt
    ensures moving != 0 && p.height <= CanvasHeight && p.y + (moving as real) * p.speed * dt < 0.0 ==>
              r.y == 0.0
    ensures moving != 0 && p.height <= CanvasHeight && p.y + (moving as real) * p.speed * dt > CanvasHeight - p.height ==>
              r.y == CanvasHeight - p.height
  {
    if moving == 0 then p
    else
      var y := p.y + (moving as real) * p.speed * dt;
      p.(y := Max(0.0, Min(CanvasHeight - p.height, y)))
  }

  /** The ball after moving by its speed for `dt`. */
  function AdvanceBall(b: BallV, dt: real): BallV {
    b.(x := b.x + b.speedX * dt, y := b.y + b.speedY * dt)
  }

  /** The wall test on the advanced position; it uses the constant radius, not `ball.radius`. */
  predicate HitsWall(b: BallV) {
    b.y - BallRadius <= 0.0 || b.y + BallRadius >= CanvasHeight
  }

  /** The ball leaves through the left edge (a point for the right player). */
  predicate OutLeft(b: BallV) { b.x + BallRadius < 0.0 }

  /** The ball leaves through the right edge (a point for the left player). */
  predicate OutRight(b: BallV) { b.x - BallRadius > CanvasWidth }

  /**
    A paddle hit: the ball takes the new horizontal speed `speedX` and a
    vertical speed from where it struck the paddle.
  */
  function Deflect(b: BallV, p: PaddleV, speedX: real): BallV
    requires p.height > 0.0
  {
    var relativeIntersectY := (p.y + p.height / 2.0) - b.y;
    b.(speedX := speedX, speedY := -(relativeIntersectY / (p.height / 2.0)) * Abs(speedX))
  }

  /**
    After a paddle hit the ball keeps its place, and its vertical speed is
    its offset from the paddle's centre, in half-heights, times the new
    horizontal speed; so it points down (positive) exactly when the ball
    struck the lower half, and up exactly when it struck the upper half.
  */
  lemma DeflectAim(b: BallV, p: PaddleV, speedX: real)
    requires p.height > 0.0
    ensures var r := Deflect(b, p, speedX);
      && r == b.(speedX := speedX, speedY := r.speedY)
      && r.speedY == (b.y - (p.y + p.height / 2.0)) / (p.height / 2.0) * Abs(speedX)
      && (speedX != 0.0 ==> (r.speedY > 0.0 <==> b.y > p.y + p.height / 2.0))
      && (speedX != 0.0 ==> (r.speedY < 0.0 <==> b.y < p.y + p.height / 2.0))
  {
    DeflectionSign(b.y - (p.y + p.height / 2.0), p.height / 2.0, Abs(speedX));
  }

  lemma DeflectionSign(offset: real, half: real, speed: real)
    requires half > 0.0 && speed >= 0.0
    ensures -((-offset) / half) * speed == offset / half * speed
    ensures speed > 0.0 ==> (offset / half * speed > 0.0 <==> offset > 0.0)
    ensures speed > 0.0 ==> (offset / half * speed < 0.0 <==> offset < 0.0)
  {
    var q := offset / half;
    assert q * half == offset;
    assert -((-offset) / half) == q;
    if speed > 0.0 {
      if offset > 0.0 { assert q > 0.0; assert q * speed > 0.0; }
      if offset < 0.0 { assert q < 0.0; assert q * speed < 0.0; }
      if offset == 0.0 { assert q == 0.0; }
    }
  }

  /** The state after the paddles moved, the flags were cleared and the ball advanced. */
  function Moved(s: StateV, dt: real): StateV {
    s.(leftPaddle := MovePaddle(s.leftPaddle, s.leftPaddleMoving, dt),
       rightPaddle := MovePaddle(s.rightPaddle, s.rightPaddleMoving, dt),
       ball := AdvanceBall(s.ball, dt),
       wallCollision := false,
       paddleCollision := false,
       scored := false)
  }

  /**
    The event checks of a tick, on the moved state, in their fixed order;
    the first one that fires ends the tick: wall, left paddle, right
    paddle, then scoring on either side.
  */
  function Events(m: StateV, rand: real): StateV
    requires PositiveHeights(m) && IsRandom(rand)
  {
    var b := m.ball;
    if HitsWall(b) then
      m.(ball := b.(speedY := -b.speedY), wallCollision := true)
    else if CheckCollision(b, m.leftPaddle) then
      m.(ball := Deflect(b, m.leftPaddle, Abs(b.speedX) * SpeedIncreaseFactor), paddleCollision := true)
    else if CheckCollision(b, m.rightPaddle) then
      m.(ball := Deflect(b, m.rightPaddle, -Abs(b.speedX) * SpeedIncreaseFactor), paddleCollision := true)
    else if OutLeft(b) then
      m.(rightScore := m.rightScore + 1, ball := ServeFromCentre(b, false, rand), scored := true)
    else if OutRight(b) then
      m.(leftScore := m.leftScore + 1, ball := ServeFromCentre(b, true, rand), scored := true)
    else
      m
  }

  /** updateGame: one tick, the moves and then the event checks. */
  function Tick(s: StateV, dt: real, rand: real): (r: StateV)
    requires PositiveHeights(s) && IsRandom(rand)
    ensures AtMostOneEvent(r)
    ensures FixedPartsKept(s, r) && PositiveHeights(r)
    ensures r.leftPaddle == MovePaddle(s.leftPaddle, s.leftPaddleMoving, dt)
    ensures r.rightPaddle == MovePaddle(s.rightPaddle, s.rightPaddleMoving, dt)
    ensures r.leftScore >= s.leftScore && r.rightScore >= s.rightScore
    ensures r.scored <==> r.leftScore + r.rightScore == s.leftScore + s.rightScore + 1
    ensures !r.scored ==> r.leftScore == s.leftScore && r.rightScore == s.rightScore
  {
    Events(Moved(s, dt), rand)
  }

  /** The ticks of a run of frames, one after the other. */
  function Run(s: StateV, frames: seq<TickInput>): StateV
    requires PositiveHeights(s)
    requires forall i :: 0 <= i < |frames| ==> IsRandom(frames[i].rand)
    decreases |frames|
  {
    if frames == [] then s
    else Run(Tick(s, frames[0].dt, frames[0].rand), frames[1..])
  }

  // ---- Properties of one tick ----

  /**
    Which event a tick records: the first of wall, paddle, score whose
    condition holds on the advanced ball and the moved paddles.
  */
  lemma TickEventOrder(s: StateV, dt: real, rand: real)
    requires PositiveHeights(s) && IsRandom(rand)
    ensures var m, r := Moved(s, dt), Tick(s, dt, rand);
      && (r.wallCollision <==> HitsWall(m.ball))
      && (r.paddleCollision <==>
            !HitsWall(m.ball) && (CheckCollision(m.ball, m.leftPaddle) || CheckCollision(m.ball, m.rightPaddle)))
      && (r.scored <==>
            && !HitsWall(m.ball)
            && !CheckCollision(m.ball, m.leftPaddle) && !CheckCollision(m.ball, m.rightPaddle)
            && (OutLeft(m.ball) || OutRight(m.ball)))
  {
  }

  /** A paddle that moves ends inside the canvas; one that does not keeps its place. */
  lemma TickPaddleBounds(s: StateV, dt: real, rand: real)
    requires PositiveHeights(s) && IsRandom(rand)
    requires s.leftPaddle.height <= CanvasHeight && s.rightPaddle.height <= CanvasHeight
    ensures var r := Tick(s, dt, rand);
      && (s.leftPaddleMoving != 0 ==> 0.0 <= r.leftPaddle.y <= CanvasHeight - r.leftPaddle.height)
      && (s.leftPaddleMoving == 0 ==> r.leftPaddle.y == s.leftPaddle.y)
      && (s.rightPaddleMoving != 0 ==> 0.0 <= r.rightPaddle.y <= CanvasHeight - r.rightPaddle.height)
      && (s.rightPaddleMoving == 0 ==> r.rightPaddle.y == s.rightPaddle.y)
  {
  }

  /**
    A wall hit reverses the vertical speed and changes nothing else of the
    ball's speed, and no score changes.
  */
  lemma TickWall(s: StateV, dt: real, rand: real)
    requires PositiveHeights(s) && IsRandom(rand)
    requires HitsWall(AdvanceBall(s.ball, dt))
    ensures var r, b := Tick(s, dt, rand), AdvanceBall(s.ball, dt);
      && r.wallCollision && !r.paddleCollision && !r.scored
      && r.ball == b.(speedY := -s.ball.speedY)
      && Abs(r.ball.speedY) == Abs(s.ball.speedY)
      && r.leftScore == s.leftScore && r.rightScore == s.rightScore
  {
  }

  /**
    A left-paddle hit sends the ball right, 5% faster, with a vertical speed
    proportional to the ball's offset from the paddle's centre.
  */
  lemma TickLeftPaddleHit(s: StateV, dt: real, rand: real)
    requires PositiveHeights(s) && IsRandom(rand)
    requires !HitsWall(AdvanceBall(s.ball, dt))
    requires CheckCollision(AdvanceBall(s.ball, dt), MovePaddle(s.leftPaddle, s.leftPaddleMoving, dt))
    ensures var r, b, p := Tick(s, dt, rand), AdvanceBall(s.ball, dt), MovePaddle(s.leftPaddle, s.leftPaddleMoving, dt);
      && r.paddleCollision && !r.wallCollision && !r.scored
      && r.ball.speedX == 1.05 * Abs(s.ball.speedX)
      && (s.ball.speedX != 0.0 ==> r.ball.speedX > 0.0)
      && r.ball.speedY == (b.y - (p.y + p.height / 2.0)) / (p.height / 2.0) * Abs(r.ball.speedX)
      && r.ball.x == b.x && r.ball.y == b.y
      && r.leftScore == s.leftScore && r.rightScore == s.rightScore
  {
    var b := AdvanceBall(s.ball, dt);
    DeflectAim(b, MovePaddle(s.leftPaddle, s.leftPaddleMoving, dt), Abs(b.speedX) * SpeedIncreaseFactor);
  }

  /** A right-paddle hit (the left one missed) sends the ball left, 5% faster. */
  lemma TickRightPaddleHit(s: StateV, dt: real, rand: real)
    requires PositiveHeights(s) && IsRandom(rand)
    requires !HitsWall(AdvanceBall(s.ball, dt))
    requires !CheckCollision(AdvanceBall(s.ball, dt), MovePaddle(s.leftPaddle, s.leftPaddleMoving, dt))
    requires CheckCollision(AdvanceBall(s.ball, dt), MovePaddle(s.rightPaddle, s.rightPaddleMoving, dt))
    ensures var r, b, p := Tick(s, dt, rand), AdvanceBall(s.ball, dt), MovePaddle(s.rightPaddle, s.rightPaddleMoving, dt);
      && r.paddleCollision && !r.wallCollision && !r.scored
      && r.ball.speedX == -1.05 * Abs(s.ball.speedX)
      && (s.ball.speedX != 0.0 ==> r.ball.speedX < 0.0)
      && r.ball.speedY == (b.y - (p.y + p.height / 2.0)) / (p.height / 2.0) * Abs(r.ball.speedX)
      && r.ball.x == b.x && r.ball.y == b.y
      && r.leftScore == s.leftScore && r.rightScore == s.rightScore
  {
    var b := AdvanceBall(s.ball, dt);
    DeflectAim(b, MovePaddle(s.rightPaddle, s.rightPaddleMoving, dt), -Abs(b.speedX) * SpeedIncreaseFactor);
  }

  /** True when no wall and no paddle event fires on this tick. */
  predicate NoHit(s: StateV, dt: real) {
    var m := Moved(s, dt);
    !HitsWall(m.ball) && !CheckCollision(m.ball, m.leftPaddle) && !CheckCollision(m.ball, m.rightPaddle)
  }

  /**
    A ball leaving on the left scores exactly one point for the right player
    and is served from the centre towards the right.
  */
  lemma TickScoreRight(s: StateV, dt: real, rand: real)
    requires PositiveHeights(s) && IsRandom(rand)
    requires NoHit(s, dt) && OutLeft(AdvanceBall(s.ball, dt))
    ensures var r := Tick(s, dt, rand);
      && r.scored && !r.wallCollision && !r.paddleCollision
      && r.rightScore == s.rightScore + 1 && r.leftScore == s.leftScore
      && r.ball.x == 400.0 && r.ball.y == 200.0 && r.ball.speedX == 300.0
      && -150.0 <= r.ball.speedY < 150.0
  {
  }

  /**
    A ball leaving on the right scores exactly one point for the left player
    and is served from the centre towards the left.
  */
  lemma TickScoreLeft(s: StateV, dt: real, rand: real)
    requires PositiveHeights(s) && IsRandom(rand)
    requires NoHit(s, dt) && OutRight(AdvanceBall(s.ball, dt))
    ensures var r := Tick(s, dt, rand);
      && r.scored && !r.wallCollision && !r.paddleCollision
      && r.leftScore == s.leftScore + 1 && r.rightScore == s.rightScore
      && r.ball.x == 400.0 && r.ball.y == 200.0 && r.ball.speedX == -300.0
      && -150.0 <= r.ball.speedY < 150.0
  {
  }

  /** When nothing fires, the ball has moved by exactly its speed times `dt`. */
  lemma TickQuiet(s: StateV, dt: real, rand: real)
    requires PositiveHeights(s) && IsRandom(rand)
    requires NoHit(s, dt) && !OutLeft(AdvanceBall(s.ball, dt)) && !OutRight(AdvanceBall(s.ball, dt))
    ensures var r := Tick(s, dt, rand);
      && !r.wallCollision && !r.paddleCollision && !r.scored
      && r.ball == s.ball.(x := s.ball.x + s.ball.speedX * dt, y := s.ball.y + s.ball.speedY * dt)
      && r.leftScore == s.leftScore && r.rightScore == s.rightScore
  {
  }

  /** A tick keeps a valid state valid, whatever the elapsed time (negative too). */
  lemma TickPreservesValid(s: StateV, dt: real, rand: real)
    requires ValidState(s) && IsRandom(rand)
    ensures ValidState(Tick(s, dt, rand))
  {
  }

  /**
    Over any run of frames a valid state stays valid, no score goes down,
    and the paddles' x, width, height and speed and the ball's radius stay.
  */
  lemma {:induction false} RunKeepsInvariant(s: StateV, frames: seq<TickInput>)
    requires ValidState(s)
    requires forall i :: 0 <= i < |frames| ==> IsRandom(frames[i].rand)
    ensures var r := Run(s, frames);
      && ValidState(r)
      && r.leftScore >= s.leftScore && r.rightScore >= s.rightScore
      && FixedPartsKept(s, r)
    decreases |frames|
  {
    if frames != [] {
      var next := Tick(s, frames[0].dt, frames[0].rand);
      TickPreservesValid(s, frames[0].dt, frames[0].rand);
      RunKeepsInvariant(next, frames[1..]);
    }
  }

  /** Over a run the two scores together grow by at most one point per frame. */
  lemma {:induction false} RunScoresAtMostOnePerFrame(s: StateV, frames: seq<TickInput>)
    requires PositiveHeights(s)
    requires forall i :: 0 <= i < |frames| ==> IsRandom(frames[i].rand)
    ensures var r := Run(s, frames);
      r.leftScore + r.rightScore <= s.leftScore + s.rightScore + |frames|
    decreases |frames|
  {
    if frames != [] {
      RunScoresAtMostOnePerFrame(Tick(s, frames[0].dt, frames[0].rand), frames[1..]);
    }
  }
}
