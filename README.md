# 3D Snake game rules in Dafny

This project models the game-rule layer of a browser 3D Snake game written in
JavaScript and WebGL. It has four modules:

- **Geometry** (`geometry.dfy`): 3-vectors over exact reals, and the algebra
  behind normalising a horizontal heading to unit length.
- **SnakeModel** (`snake.dfy`): the `Snake` of `snake.js`.
  - Its state is the body (head first), the heading, the growth still owed, the
    step length and the time of the last step.
  - The value specification is `SnakeState` with `Initial`, `Moved`,
    `Redirected` and `Grown`.
  - The class `Snake` keeps the same state in mutable fields. Each of its
    methods is proved to leave exactly the state its specification function
    computes.
  - The counting invariant: segments plus owed segments are preserved by a
    move and raised by one by a grow, so the snake never has fewer than four
    segments.
- **CameraModel** (`camera.dfy`): the `Camera` of `camera.js`.
  - Yaw and pitch angles, with the pitch clamped to [-PI/3, PI/3].
  - The three views (first person, third person, top-down). Each is the
    (eye, center, up) triple given to the look-at matrix builder.
- **Game** (`game.dfy`): the rules in `main.js`.
  - The per-frame step: move, then eat, then the death test.
  - The arena boundary, the food spawn policy, the restart after a death, and
    the keyboard mapping with its 300 ms throttle.
  - The globals are the class `GameState`. `World` is the same state as a
    value, specified by `Started`, `Restarted`, `Updated` and `KeyPressed`.
  - `Play` runs a sequence of frames and key presses. It proves that the
    invariant holds throughout and that the high score never decreases.

Inputs from the platform are parameters:

- The clock (`Date.now()`) is `now`, an integer number of milliseconds.
- Each `Math.random()` pair used by one food spawn is a `Draw`.
- The square root in `setDirection` is a parameter `norm`, with
  `norm >= 0` and `norm * norm` equal to the squared horizontal length.
- `Math.sin` and `Math.cos` are function parameters of the third-person view.
- `Math.PI / 3` is the double `1.0471975511965976`.

**The code has no reversal guard.** `setDirection` (snake.js:44-59) accepts
any heading, so first-person 's' reverses the snake. `Game.BackKeyIsFatal`
proves the consequence: pressing 's' in first person right after a step ends
the game on the next step.

## Model

| member | source | states |
|---|---|---|
| Geometry.NormalizedIsUnit | snake.js:46-56 | dividing a non-zero horizontal (x, z) by its square-root length gives a vector of squared length exactly 1 |
| SnakeModel.Initial | snake.js:2-14 | a new snake has exactly 4 segments, segment i at p - (i, 0, 0); heads +X; owes no growth; speed 0.2; last move time 0; satisfies the invariant |
| SnakeModel.Moved | snake.js:17-41 | less than 200 ms since the last step changes nothing. Otherwise: the new head is old head + direction·speed on all three axes; every kept segment shifts back one place; length +1 and growth owed -1 when growth is owed, else the same length; last move time = now; the invariant is preserved |
| SnakeModel.Redirected | snake.js:44-59 | a zero horizontal input changes nothing. Otherwise only the heading changes: to a flat unit vector that is the input's (x, z) divided by its length; no reversal check; the invariant is preserved |
| SnakeModel.Grown | snake.js:62-64 | body, heading, speed and time unchanged; segments plus owed segments rise by exactly 1; the invariant is preserved |
| SnakeModel.Replay | snake.js:17-64 | any sequence of moves, grows and heading changes keeps at least 4 segments and a flat unit heading |
| SnakeModel.ReplayCountsGrowth | snake.js:32-38 | over any sequence of commands, segments plus owed segments grow by exactly the number of grow calls |
| SnakeModel.SecondTickTooSoon | snake.js:18-21 | after an accepted step, a second move less than 200 ms later changes nothing |
| SnakeModel.MovedKeepsHeight | snake.js:23-28 | if all segments share a height and the heading is flat, a move keeps them at that height |
| SnakeModel.Snake.constructor | snake.js:2-14 | the fields equal `Initial(initialPosition)` |
| SnakeModel.Snake.Move | snake.js:17-41 | the in-place unshift/pop leaves exactly the state `Moved` computes and keeps the invariant |
| SnakeModel.Snake.SetDirection | snake.js:44-59 | leaves exactly the state `Redirected` computes and keeps the invariant |
| SnakeModel.Snake.Grow | snake.js:62-64 | leaves exactly the state `Grown` computes |
| SnakeModel.Snake.CheckSelfCollision | snake.js:67-72 | true iff some segment at index k >= 1 equals the head on all three coordinates; changes nothing |
| SnakeModel.Snake.GetLength | snake.js:75-77 | the number of segments, which is at least 4 |
| CameraModel.Clamp | camera.js:58 | max(lo, min(hi, v)) lies in [lo, hi]; it equals v when v is in range, lo below the range and hi above it |
| CameraModel.Camera.constructor | camera.js:2-5 | both angles start at 0 |
| CameraModel.Camera.UpdateRotation | camera.js:56-59 | yaw grows by exactly deltaX·0.005 with no bound; pitch becomes the clamp of old pitch + deltaY·0.005 to [-PI/3, PI/3], so it always lies in that range |
| CameraModel.Camera.FirstPersonView | camera.js:7-23 | eye is 0.8 above the head; it looks 5·heading ahead on x and z at head height; the heading's y is ignored; the look point is 5 away horizontally when the heading is a flat unit; up is +Y |
| CameraModel.Camera.ThirdPersonView | camera.js:25-39 | looks at the head from 2 above, offset 5·(sin yaw, cos yaw); the eye is 5 away horizontally when sin² + cos² = 1; at yaw 0 the eye is 5 behind on +Z; up is +Y |
| CameraModel.Camera.GodView | camera.js:41-54 | looks straight down from height 20 onto the ground point below the head; the head's height plays no part; up is -Z |
| Game.IsOutOfBounds | main.js:359-366 | out iff x or z lies outside [-9.5, 9.5]; y is never consulted |
| Game.SpawnCoord | main.js:316 | the floor of r·18 - 9, which is in [-9, 8] for r in [0, 1) |
| Game.FoodAt | main.js:313-321 | food sits at height 0.5 on integer x and z; for draws in [0, 1) these are in [-9, 8], so the food is always inside the arena |
| Game.EatTestMatchesDistance | main.js:334-340 | comparing the squared horizontal distance with 0.25 decides the same as comparing its square root with 0.5 |
| Game.Started | main.js:72-74 | start-up: fresh snake at the origin, food from the first draw, score and high score 0, third person, key time 0 |
| Game.Restarted | main.js:368-376 | game over: fresh snake at the origin, score 0, food respawned; high score, camera mode and key time kept; the invariant is preserved |
| Game.Fed | main.js:334-349 | eating (head within 0.5 of the food horizontally) grows the snake once, adds 10 points, raises the high score when beaten and respawns food; otherwise only the moved snake is taken; the body is the moved body either way and the invariant is kept |
| Game.Updated | main.js:329-356 | a frame moves the snake first. Food is eaten iff the moved head is within 0.5 horizontally; eating grows once, adds 10 points, raises the high score when beaten, and respawns food. Death iff the moved head hits the body or leaves the arena, and then the world restarts with the high score of that frame. The high score never decreases |
| Game.Lower | main.js:250 | lower-cases the letters A-Z of the key name, character by character, and keeps its length |
| Game.TurnLeft | main.js:257-259 | the 'a' turn is perpendicular to the old heading, flat, and of the same length |
| Game.TurnRight | main.js:260-262 | the 'd' turn is perpendicular, flat and of the same length; it equals three left turns and is undone by a left turn |
| Game.LeftThenRightRestores | main.js:257-262 | first-person 'a' followed by 'd' gives back the original flat heading |
| Game.FullTurnsRestore | main.js:257-259 | any multiple of four left turns brings a flat heading back to itself |
| Game.ThirdPersonHeading | main.js:270-274 | exactly w, s, a and d have a third-person heading, each a flat unit vector |
| Game.KeyEffect | main.js:248-280 | a key changes at most the snake's heading and the camera mode (body, growth owed, speed and time stay), and keeps the invariant |
| Game.KeyPressed | main.js:244-283 | a key less than 300 ms after the last accepted one changes nothing. Otherwise: the key time becomes now (mapped key or not); 'c' toggles the camera mode; score, high score and food are untouched; only the heading can change, and only for w/s/a/d |
| Game.KeyHeadings | main.js:248-279 | third-person w/s/a/d set -Z, +Z, -X, +X. In first person, 'w' keeps the heading, 's' reverses it, and 'a'/'d' turn it left/right |
| Game.AcceptedMoveSteps | snake.js:23-32 | after an accepted step, the segment behind the head is exactly one step back along the heading |
| Game.ReversalCollides | snake.js:44-59 | a snake that just stepped and is turned around lands its head on its own neck at the next step |
| Game.BackKeyReverses | main.js:254-256 | an accepted first-person 's' sets the heading to the exact negation of the old one |
| Game.ReversedDies | main.js:352-355 | a world whose snake just stepped and was reversed dies at its next step |
| Game.BackKeyIsFatal | main.js:254-256 | in first person, 's' right after a step makes the next step end the game: score 0 and a fresh snake |
| Game.BackKeyDies | main.js:352-355 | after an accepted first-person 's' that follows a step, the next step meets the death condition |
| Game.Step | main.js:323-327 | one frame or one key press keeps the invariant and never lowers the high score |
| Game.Play | main.js:323-327 | any run of frames and key presses keeps the invariant, and the high score never goes down |
| Game.PressesNeverScore | main.js:244-283 | a run of key presses alone leaves score, high score and food unchanged |
| Game.GameState.constructor | main.js:72-74 | the globals after start-up equal `Started(d)` |
| Game.GameState.SpawnFood | main.js:313-321 | moves the food to `FoodAt(d)` and changes nothing else |
| Game.GameState.GameOver | main.js:368-376 | leaves exactly the world `Restarted` computes and keeps the invariant |
| Game.GameState.Update | main.js:329-356 | leaves exactly the world `Updated` computes and keeps the invariant |
| Game.GameState.KeyDown | main.js:244-283 | leaves exactly the world `KeyPressed` computes, writing the first-person turns into the snake's heading directly, and keeps the invariant |

## Left out

- Rendering and DOM are not modelled:
  - `draw`, `drawScene`, `drawSkybox`, `drawFood`, `drawBorder`;
  - shader and skybox setup, `initTexture`, `updateScoreboard`, `alert`;
  - everything in utils.js, WebGL.js and shaders.js.

  None of these changes a rule variable.
- `createGround` (main.js:383-404) is never called, so it is not modelled.
- `foodRotation` and `console.log` only affect display, so they are not modelled.
- `Matrix4` and `setLookAt` belong to an external library. The views stop at the (eye, center, up) triple.
- `requestAnimationFrame` scheduling is not modelled. `Play` takes the frames and key presses as an explicit sequence.
- Mouse-drag steering (main.js:286-311) is not modelled, because it sets the heading to (sin a, 0, cos a) through trigonometry only. main.js never calls `Camera.updateRotation`, so in the running game the yaw stays 0.
- The camera object itself is not part of `GameState`. The views read the camera's yaw, the head position and (first person only) the snake's heading; the rules never read the camera.
- Numbers are exact reals, not IEEE doubles. So exact-equality self-collision, the reversal collision in `Game.ReversalCollides` and the food-distance test hold exactly here. In floating point, rounding can make these differ.
- SnakeModel.Redirected: the square root is passed in as `norm`. The program's test `length > 0` is written as the equivalent squared-length test. A rounded square root whose square is not exactly the input is not modelled.
- Game.EatTestMatchesDistance: the program compares `Math.sqrt(D) < 0.5`. The model's `Eats` compares `D < 0.25`, and this lemma proves the two agree for an exact square root.
- CameraModel.Camera.ThirdPersonView: `Math.sin` and `Math.cos` are parameters. Their identity sin² + cos² = 1 is a hypothesis of the distance clause, not a fact the model proves.
- Game.Lower: only the ASCII letters A-Z are lower-cased. No other character lower-cases to one of the mapped keys w, s, a, d or c, so the key mapping is exact.
- Food may spawn under the snake's body, because the program has no such exclusion. The model keeps that behaviour.
