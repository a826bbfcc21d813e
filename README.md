# Two-player Pong: physics, controls and sound throttle in Dafny

This project models the core of a browser Pong game:

- **Physics** (`client/src/lib/game.ts`). `physics.dfy` holds the constants, the paddle, ball and
  game-state records as values, and the collision test. It also holds one tick of the simulation
  (`Physics.Tick`), which moves the paddles, clears the event flags, advances the ball and then
  tries the events in a fixed order: wall, left paddle, right paddle, scoring. The first event
  that fires ends the tick. `game.dfy` models the same code on the heap. A game state is an
  object that refers to two paddle objects and a ball object. `updateGame`'s `{ ...state }` is a
  shallow copy, so `Game.UpdateGame` returns a fresh state object that shares those three
  objects with the caller's old state. It changes them in place, and its contract says what the
  old state shows afterwards.
- **Controls** (`client/src/components/game/GameCanvas.tsx`). `canvas.dfy` holds the key-down
  and key-up record updates and the game-over and winner rule. It also holds the component's
  state (`gameState`, `isPaused`, `gameStarted`) as a class. Its methods are the key handlers,
  start/pause, reset, the game-over check made on every render, and the per-frame callback. The
  callback returns the sounds it asks for.
- **Sound throttle** (`client/src/lib/audio.ts`). `audio.dfy` holds class `GameAudio` with its two
  maps, keyed by sound name: the per-sound state records and the time of the last accepted play.
  `play` refuses a call within 50 ms of the last accepted play of the same sound. Otherwise it
  stamps the time and records whether starting the sound threw.

Numbers are exact reals (`real`), so 1.05 is the exact rational 105/100. Scores and direction
flags are integers. Each use of `Math.random()` is a parameter `rand` with 0 ≤ rand < 1. `Date.now()` is a
parameter `now` in milliseconds. Starting the Web Audio source is a parameter that says whether
it started or threw.

`updateGame` returns a new top-level object but shares the paddle and ball objects with the state
it was given and updates them in place; `Game.UpdateGame` states that.

`deltaTime` is not constrained. The clamping properties hold for any elapsed time, negative
included, because the clamp is applied to whatever position the move produces.
`Physics.TickPreservesValid` and `Physics.RunKeepsInvariant` need no `deltaTime >= 0`.

## Model

| member | source | states |
|---|---|---|
| `Physics.InitialState` | client/src/lib/game.ts:41-69 | The initial state: paddles 10×60 at x = 50 and x = 740 (mirror images across the canvas), y = 170, speed 300. The ball is at (400, 200) with radius 5, speedY 0 and speedX ±300, positive exactly when the random draw exceeds 0.5. Scores, direction flags and event flags are zero. The state satisfies the tick invariant. |
| `Physics.CheckCollisionIsOverlap` | client/src/lib/game.ts:80-87 | For a ball of positive radius and a paddle of positive size, the collision test holds if and only if some point lies strictly inside both the ball's bounding square and the paddle's rectangle. |
| `Physics.ServeFromCentre` | client/src/lib/game.ts:73-78 | A re-served ball is at (400, 200) with its radius kept. Its horizontal speed has magnitude 300 and is negative exactly when it is sent left. Its vertical speed lies in [-150, 150). |
| `Physics.MovePaddle` | client/src/lib/game.ts:93-101 | Only the paddle's y can change. A paddle whose flag is 0 stays put. A moving paddle (height ≤ 400) ends in [0, 400 − height]. An unclamped move that lands there is applied exactly. A move past the top stops at y = 0, and a move past the bottom stops at y = 400 − height. |
| `Physics.DeflectAim` | client/src/lib/game.ts:120-134 | After a paddle hit the ball keeps its position and takes the new speedX. Its speedY is (ball.y − paddle centre) / (height/2) · \|speedX\|. For a non-zero speedX, speedY is positive exactly when the ball struck the lower half and negative exactly when it struck the upper half. |
| `Physics.Tick` | client/src/lib/game.ts:89-149 | One tick records at most one event. It changes no paddle x, width, height or speed, no ball radius and no direction flag. Its paddles are the moved paddles. No score decreases. The scores' sum grows by exactly one when the tick scores, and both stay unchanged otherwise. |
| `Physics.TickEventOrder` | client/src/lib/game.ts:104-147 | The recorded event is the first one that fires, in the order wall, then a paddle, then scoring. Each flag is stated as an if-and-only-if over the advanced ball and the moved paddles. |
| `Physics.TickPaddleBounds` | client/src/lib/game.ts:93-101 | After a tick, a paddle with a non-zero flag is inside [0, 400 − height], and a paddle with flag 0 has its old y. |
| `Physics.TickWall` | client/src/lib/game.ts:113-117 | On a wall hit (advanced y − 5 ≤ 0 or y + 5 ≥ 400), speedY is negated, so its magnitude is kept. Everything else about the advanced ball is kept, both scores are kept, and only the wall flag is set. |
| `Physics.TickLeftPaddleHit` | client/src/lib/game.ts:120-126 | A left-paddle hit sets speedX to 1.05·\|speedX\|, which is positive for a moving ball, and applies the off-centre deflection formula. Only the paddle flag is set, and no score changes. |
| `Physics.TickRightPaddleHit` | client/src/lib/game.ts:128-134 | A right-paddle hit, when the left paddle was missed, sets speedX to −1.05·\|speedX\| and applies the deflection formula. Only the paddle flag is set, and no score changes. |
| `Physics.TickScoreRight` | client/src/lib/game.ts:137-141 | When no wall or paddle event fires and x + 5 < 0, rightScore grows by exactly 1 and leftScore is kept. The ball is re-served from (400, 200) with speedX = +300 and speedY in [-150, 150). |
| `Physics.TickScoreLeft` | client/src/lib/game.ts:142-147 | When no wall or paddle event fires and x − 5 > 800, leftScore grows by exactly 1 and rightScore is kept. The ball is re-served from (400, 200) with speedX = −300 and speedY in [-150, 150). |
| `Physics.TickQuiet` | client/src/lib/game.ts:108-149 | When no event fires, no flag is set, the scores are kept, and the ball has moved by exactly speed·deltaTime on each axis with its speeds unchanged. |
| `Physics.TickPreservesValid` | client/src/lib/game.ts:89-101 | A tick keeps the state invariant for any deltaTime. The invariant is: paddles inside the canvas with heights in (0, 400], direction flags in {-1, 0, 1}, non-negative scores. |
| `Physics.RunKeepsInvariant` | client/src/lib/game.ts:89-149 | Over any run of ticks the invariant holds throughout and no score decreases. The paddles' x, width, height and speed, the ball's radius and the direction flags are those of the start. |
| `Physics.RunScoresAtMostOnePerFrame` | client/src/lib/game.ts:136-147 | Over n ticks the two scores together grow by at most n. |
| `Game.GameState.Spread` | client/src/lib/game.ts:90 | `{ ...state }` returns a fresh state object with the same value and the same paddle and ball objects. |
| `Game.CreateInitialGameState` | client/src/lib/game.ts:41-69 | It returns a state built from fresh objects, with two distinct paddles, whose value is `InitialState`. |
| `Game.ResetBall` | client/src/lib/game.ts:73-78 | It updates the given ball object in place to the re-served ball. |
| `Game.MovePaddleInPlace` | client/src/lib/game.ts:93-101 | It updates the paddle object in place to the moved-and-clamped paddle. |
| `Game.AdvanceBallInPlace` | client/src/lib/game.ts:108-110 | It updates the ball object in place by speed·deltaTime. |
| `Game.BounceOffPaddle` | client/src/lib/game.ts:120-134 | It updates the ball object in place to the deflected ball, reading \|speedX\| after it was set, as the source does. |
| `Game.ApplyEvents` | client/src/lib/game.ts:112-147 | The event checks with their early returns change the state object and its ball as the event order prescribes, and keep the paddle and ball objects the state refers to. |
| `Game.UpdateGame` | client/src/lib/game.ts:89-149 | The result is a fresh state object whose value is one `Tick` of the old value. It shares the old state's paddle and ball objects. Afterwards the caller's old state shows the new paddles and ball, with its own scores and flags. |
| `Canvas.KeyDown` | client/src/components/game/GameCanvas.tsx:26-34 | Only the direction flags can change. `w`/`s` set the left flag to −1/+1 and `ArrowUp`/`ArrowDown` set the right flag to −1/+1, leaving the other flag alone. Any other key changes nothing. The state invariant is kept. |
| `Canvas.KeyUp` | client/src/components/game/GameCanvas.tsx:37-43 | Releasing `w` or `s` sets the left flag to 0, and releasing either arrow sets the right flag to 0. Nothing else changes, any other key changes nothing, and the invariant is kept. |
| `Canvas.KeyUpAfterKeyDown` | client/src/components/game/GameCanvas.tsx:26-43 | Pressing and then releasing a key gives the same state as releasing it alone. |
| `Canvas.GameOverWinner` | client/src/components/game/GameCanvas.tsx:200 | The tick that makes the game over (a score ≥ 10) is a scoring tick. It leaves exactly one side at 10, and that side is the winner: "Player 1" exactly when leftScore is 10. |
| `Canvas.BounceCueOnTick` | client/src/components/game/GameCanvas.tsx:119-122 | Measured against the speed before the tick, the bounce cue fires exactly on a paddle hit of a sideways-moving ball, or on a point scored by a ball whose speed was no longer 300. It never fires on a wall hit or a quiet tick. |
| `Canvas.BounceDueOnPaddleHit` | client/src/components/game/GameCanvas.tsx:119-122 | A concrete paddle hit (ball at (63, 200), speedX −300, deltaTime 0.01) changes speedX to 315, so a bounce cue is due. |
| `Canvas.GameCanvas.constructor` | client/src/components/game/GameCanvas.tsx:15-17 | The component starts with an initial game, paused and not started, and its invariant holds. |
| `Canvas.GameCanvas.SetLeftPaddleMoving` | client/src/components/game/GameCanvas.tsx:27-29 | It replaces the game state with a fresh shallow copy that differs only in the left flag. |
| `Canvas.GameCanvas.SetRightPaddleMoving` | client/src/components/game/GameCanvas.tsx:31-33 | It replaces the game state with a fresh shallow copy that differs only in the right flag. |
| `Canvas.GameCanvas.HandleKeyDown` | client/src/components/game/GameCanvas.tsx:19-35 | When the game is not started or is paused, the game state is the same object as before. Otherwise the new value is `KeyDown` of the old one. The pause and start flags are kept. |
| `Canvas.GameCanvas.HandleKeyUp` | client/src/components/game/GameCanvas.tsx:37-43 | It is not gated by pause. The new value is `KeyUp` of the old one, and the pause and start flags are kept. |
| `Canvas.GameCanvas.TogglePause` | client/src/components/game/GameCanvas.tsx:143-148 | `isPaused` is always flipped. `gameStarted` is true afterwards, whatever it was, and the game state is untouched. |
| `Canvas.GameCanvas.HandleReset` | client/src/components/game/GameCanvas.tsx:128-141 | It installs a fresh initial game, with `isPaused` true and `gameStarted` false. |
| `Canvas.GameCanvas.CheckGameOver` | client/src/components/game/GameCanvas.tsx:150-159 | The game-over sound is requested exactly when a score is ≥ 10 while the game is started and unpaused. In that case `isPaused` becomes true, and nothing else changes. |
| `Canvas.GameCanvas.Frame` | client/src/components/game/GameCanvas.tsx:102-126 | When not started, or paused, nothing changes and no sound is requested. Otherwise the game advances by one `Tick`. The score sound is requested exactly when the tick scored, that is when a score differs from before. The bounce sound is requested exactly when \|speedX\| differs from its value before the tick. The invariant is kept. |
| `Canvas.GameCanvas.FrameAsWritten` | client/src/components/game/GameCanvas.tsx:102-126 | The callback as written does nothing and requests no sound when the game is not started or is paused. Otherwise it advances the game by one `Tick` and requests the score sound exactly when the tick scored, as `Frame` does. It never requests the bounce sound. |
| `Audio.InitialRegistry` | client/src/lib/audio.ts:81-92 | After construction the keys are exactly `bounce`, `score` and `gameOver`. Each has loaded = true, error = null, lastPlayAttempt = 0 and lastPlayTime = 0. |
| `Audio.PlayStep` | client/src/lib/audio.ts:102-126 | An unknown key, or a call less than 50 ms after the last accepted play, changes nothing. An accepted play sets lastPlayTime and lastPlayAttempt to `now` and keeps `loaded`. Its error is null when the start succeeded, the thrown `Error`'s message when it threw one, and "Unknown error" when it threw anything else. Every other key's entries are unchanged. |
| `Audio.ThrottleSpacing` | client/src/lib/audio.ts:104-114 | Over any sequence of calls, whatever the clock does, the accepted plays of one sound are at least 50 ms apart. The first is at least 50 ms after the last play recorded before the sequence. Afterwards the sound's recorded last play is the last accepted time, or the old record when no call was accepted. |
| `Audio.GameAudio.constructor` | client/src/lib/audio.ts:75-79 | A new object's maps are the initial registry, with one record object per sound. |
| `Audio.GameAudio.InitializeAudio` | client/src/lib/audio.ts:81-92 | The loop over the keys of `SOUNDS` fills both maps with the initial entries, one fresh record per key. |
| `Audio.GameAudio.GetDiagnostics` | client/src/lib/audio.ts:94-100 | It returns the same key set, with a field-for-field copy of each record. |
| `Audio.GameAudio.Play` | client/src/lib/audio.ts:102-126 | It changes only its own key's record and its `lastPlayTime` entry, and the maps' value is `PlayStep` of the old value. The timestamps are written before the start is attempted. |

## Left out

- Canvas drawing (`draw`), the JSX, the buttons and the registration of the window key listeners: rendering and DOM plumbing.
- The `canvas`/`ctx` null checks in the frame callback: once mounted the canvas exists, so the callback is modelled as if both are present.
- `preventDefault` in the key-down handler: a browser side effect with no state.
- `useGameLoop`: it is not part of this model. `deltaTime` is an unconstrained input.
- React's deferred state setters: each setter takes effect at once in the methods. This matches the source because every handler reads only state from before its own setters.
- Canvas.GameCanvas.constructor: builds a fresh initial game rather than sharing the module-level `initialGameState` object. In the source, that object's paddles and ball are mutated by play. Within one mounting nothing differs. A component mounted again after play without a reset would start from the moved paddles and ball; that is not modelled.
- Canvas.GameCanvas.Frame: returns the requested sounds (`Cues`) rather than calling `playSound`, which is fire-and-forget and whose failures never reach the game. The sound bookkeeping itself is `Audio.GameAudio.Play`.
- Canvas.GameCanvas.CheckGameOver: returns whether the game-over sound is requested. The confetti burst and the dialog markup are left out.
- `GameOverDialog.tsx`, `Home.tsx`, `AudioDiagnostics.tsx`: markup, interval polling and display only.
- `createBeepBuffer` and `createCelebrationBuffer`: floating-point sine synthesis into audio buffers.
- The `AudioContext` singleton and `createBufferSource`/`connect`/`start`: a foreign browser API, reduced to the `StartOutcome` parameter. Creating the context before the `try` (audio.ts:103) could throw; that is not modelled.
- `console.log`/`console.error` output.
- IEEE-754 rounding, NaN and infinities: numbers are exact reals.
- Physics.Tick: requires both paddle heights to be positive, because the deflection divides by half the height. Every state the game creates has height 60. A zero height (an infinite or NaN speed in JavaScript) is not modelled.
- Game.ResetBall: `goingLeft` is always passed explicitly. The default `Math.random() > 0.5` is never used by any caller, so it is not modelled.
- The optional event flags of a freshly created state are `false` rather than absent. Nothing reads them before the first tick sets them.
- `play` is declared `async` but contains no `await`, so it is modelled as one synchronous step. Its key is any string; a key outside `SOUNDS` takes the "no state" path.

## Findings

| source | as written | input that shows it | evidently intended | confidence | as-written member | corrected member |
|---|---|---|---|---|---|---|
| client/src/components/game/GameCanvas.tsx:120 | `Math.abs(newState.ball.speedX) !== Math.abs(prevState.ball.speedX)` compares one object with itself. The shallow copy in `updateGame` makes `newState.ball` and `prevState.ball` the same ball, already updated, so the bounce sound is never requested. | Left paddle at its initial place, ball at (63, 200) with speedX −300 and speedY 0, deltaTime 0.01. The tick hits the paddle and speedX becomes 315 (`Canvas.BounceDueOnPaddleHit`), yet the check yields false. | Request the bounce sound when a tick changes the magnitude of the ball's horizontal speed, as a paddle hit does. That means comparing against the speed taken before the tick. | not executed; high | `Canvas.GameCanvas.FrameAsWritten` | `Canvas.GameCanvas.Frame` |
