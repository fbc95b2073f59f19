# Pong simulation core in Dafny

This project models the core of a two-player Pong game:

- **Game logic.** `src/pong.rs` holds two paddles and one ball on a fixed play field. Each frame moves the paddles by their keyboard commands. Then it moves the ball along its heading and bounces it off the top and bottom walls. It checks the ball against each paddle in turn; a hit turns the horizontal heading round and draws a new vertical heading from a band chosen by where the ball struck. Finally it scores a point when the ball has wholly left the field on the left or right and serves a new ball from the centre.
- **Renderer logic.** This is the part of `src/engine.rs` that is not a GPU call:
  - the maps between pixels and clip space;
  - the 12-vertex and 18-index lists for the three rectangles;
  - the per-frame copy of the controller's corners into the vertex list;
  - the keyboard handler that sets the paddles' commands.

The code is in three modules, one per concern:

| file | module | contents |
|---|---|---|
| `projection.dfy` | `Projection` | `screen_space_to_clip_space` and `clip_space_to_screen_space`, with both round trips. |
| `pong.dfy` | `Pong` | The entities as datatypes: `Vec2`, `Player`, `Ball`. Each phase of a frame as a function on a `Game` value (`PaddleStep`, `Advance`, `Deflect`, `Score`, then `Step` for the whole frame). The properties of those functions as lemmas. |
| `pong.dfy` | `Pong` | The class `Controller`. Its fields are updated in place, as in the program. Each of its methods is proved to compute the matching function. |
| `engine.dfy` | `Engine` | The vertex and index lists, the key table, and the class `Engine`. `Engine.Update` is proved to keep the vertex list equal to what the controller holds. |

How the program's non-exact parts are modelled:

- **Floats.** `f32` values are modelled as `real`.
- **Random draws.** Every draw is a parameter: a unit sample `u` in [0, 1) per draw. `Uniform(lo, hi, u) = lo + (hi - lo) * u` stands for `Uniform::new(lo, hi).sample(..)`. A frame consumes one sample per paddle for a possible bounce (`Samples.hits`) and two for a possible serve (`Samples.serve`).
- **Square root.** `f32::sqrt` is passed to `Normalize` as a function parameter `sqrt`. Nothing is assumed about it.

## Model

| member | source | states |
|---|---|---|
| Projection.ScreenToClip | src/engine.rs:19-28 | The projected point always has depth 1. |
| Projection.ScreenToClipRange | src/engine.rs:19-28 | A pixel lies in [0, width] x [0, height] exactly when its projection lies in [-1, 1]^2 (both directions, per axis). |
| Projection.ClipToScreen | src/engine.rs:30-40 | The unprojected point always has depth 1. |
| Projection.ScreenClipRoundTrip | src/engine.rs:19-40 | Unprojecting a projected point gives back its x and y, at depth 1. |
| Projection.ClipScreenRoundTrip | src/engine.rs:19-40 | Projecting an unprojected point gives back its x and y, at depth 1. |
| Pong.Uniform | src/pong.rs:146-147 | Stands for `Uniform::new(lo, hi).sample(..)`: lo + (hi - lo) * u for a unit sample u. Each call site has constant bounds, so the range [lo, hi) follows at the site (see `Pong.BounceY`, `Pong.InitialFacts`). |
| Pong.Normalize | src/pong.rs:20-27 | The result keeps the sign of each component. It stays collinear with the input. It is zero exactly when the input is zero. |
| Pong.RectCorners | src/pong.rs:53-70 | Computes the four projected corners of a rectangle. `Pong.RectCornersOutline` states which corners they are. |
| Pong.PaddleVertices | src/pong.rs:53-70 | `RectCorners` of a 30 x 100 paddle. `Pong.PaddleOutline` states its corners. |
| Pong.BallVertices | src/pong.rs:101-118 | `RectCorners` of a 20 x 20 ball. `Pong.BallOutline` states its corners. |
| Pong.RectCornersOutline | src/pong.rs:53-70 | The four projected corners unproject to the rectangle's corners in emission order: origin, +w, +w+h, +h. Each lies at depth 1. |
| Pong.PaddleOutline | src/pong.rs:53-70 | A paddle whose corner cache is current has, as its corners, the 30 x 100 rectangle at its position. |
| Pong.BallOutline | src/pong.rs:101-118 | A ball whose corner cache is current has, as its corners, the 20 x 20 square at its position. |
| Pong.Player.MovePosition | src/pong.rs:48-51 | The paddle is at the new position with a current corner cache. Its command and points are unchanged. |
| Pong.NewPlayer | src/pong.rs:39-46 | A new paddle is at (x, y) with a current corner cache, no command and 0 points. |
| Pong.Ball.MovePosition | src/pong.rs:96-99 | The ball is at the new position with a current corner cache. Its heading is unchanged. |
| Pong.NewBall | src/pong.rs:88-94 | A new ball is at (x, y) with a current corner cache. Its heading has the signs of the given direction and is collinear with it. |
| Pong.Initial | src/pong.rs:122-152 | Computes the starting state: the paddles at x = 0 and x = width - 30, vertically centred; the ball centred with the heading drawn from [-1, 1) x [-0.1, 0.1). Its properties are stated by `Pong.InitialFacts`. |
| Pong.InitialFacts | src/pong.rs:122-152 | The initial state satisfies the game invariant. Both paddles are vertically centred on their edges, nobody has a point, and no command is set. The ball is at the centre and is moving unless both draws hit zero exactly. Paddles start on the field when it is at least 100 px tall. |
| Pong.PaddleStep | src/pong.rs:235-269 | Up adds 500*dt to y and stops the bottom edge at the field height. Down subtracts 500*dt and stops at 0. None changes nothing. x, command and points are kept, and so is the corner cache's currency. |
| Pong.PaddleStaysOnField | src/pong.rs:244-265 | For every command and every dt >= 0, a paddle inside the field stays inside it. |
| Pong.Advance | src/pong.rs:161-170 | The ball lands at position + 400*dt*heading with a current corner cache. The x heading is kept. The y heading flips exactly when the ball is off the top or bottom. |
| Pong.Hits | src/pong.rs:173-183 | The collision test, with the leading edge chosen by the sign of the x heading. `Pong.HitMeansOverlap` states what it implies. |
| Pong.HitMeansOverlap | src/pong.rs:172-183 | A detected hit means the ball's square and the paddle's rectangle overlap. |
| Pong.BounceY | src/pong.rs:186-196 | The new vertical heading lies in [-0.05, 0.05) for an offset in [25, 55], in [0.3, 1) for an offset above 55 and in [-1, -0.3) for an offset below 25. |
| Pong.Deflect | src/pong.rs:172-198 | Position and corners are kept. Without a hit, nothing changes. On a hit, the x heading takes the sign of minus the old x heading and the y heading takes the sign of the drawn band value; both stay collinear with (-old x, drawn y). |
| Pong.DeflectAll | src/pong.rs:172-199 | Checking the paddles in order never moves the ball or its corners. |
| Pong.DeflectAllKeepsMoving | src/pong.rs:172-199 | The collision checks never stop a moving ball, provided no hit sample is exactly 0.5 (the only sample that can draw a zero vertical heading). |
| Pong.Score | src/pong.rs:201-232 | See the list below the table. |
| Pong.BallStep | src/pong.rs:160-233 | Computes the ball's half of a frame: `Advance`, then `DeflectAll` over the paddles, then `Score`. `Pong.Controller.BallUpdate` is proved to compute it. |
| Pong.Step | src/pong.rs:154-158 | Computes a whole frame: both paddles by `PaddleStep`, then `BallStep`. Its properties are the `Pong.Step...` lemmas below. |
| Pong.StepKeepsValid | src/pong.rs:154-233 | Every frame keeps the game invariant: two paddles pinned to x = 0 and x = width - 30, and every corner cache current. |
| Pong.StepMovesPaddles | src/pong.rs:154-158 | In a frame each paddle moves exactly as its own command says and keeps that command. |
| Pong.StepKeepsPaddlesOnField | src/pong.rs:154-158 | Paddles that start on a field tall enough for them stay on it. |
| Pong.StepLeftOut | src/pong.rs:201-216 | A ball landing wholly left of the field gives the right paddle exactly one point and leaves the left score alone. The new ball is at the centre, heading right or straight. |
| Pong.StepRightOut | src/pong.rs:217-231 | A ball landing wholly right of the field gives the left paddle exactly one point and leaves the right score alone. The new ball is at the centre, heading left. |
| Pong.StepInPlay | src/pong.rs:201-232 | Otherwise no points change, and the ball stays where its move put it. |
| Pong.StepScoresAtMostOne | src/pong.rs:201-232 | A frame never takes a point away and gives at most one point in total. |
| Pong.StepKeepsBallMoving | src/pong.rs:154-233 | A moving ball is still moving after the frame, provided neither hit sample nor the vertical serve sample is exactly 0.5. |
| Pong.RightEdgeIsNotOut | src/pong.rs:217 | A ball landing with its left edge exactly on the right edge does not score; the test is a strict `>`. |
| Pong.Controller.constructor | src/pong.rs:122-152 | The new controller holds the initial state and satisfies the invariant. |
| Pong.Controller.Update | src/pong.rs:154-158 | Both paddles move, then the ball. The new state is `Step` of the old one, and the invariant holds. |
| Pong.Controller.ApplyInput | src/pong.rs:235-269 | The method's two-stage move (the full step, then back inside the field) equals `PaddleStep`. The other paddle is untouched. |
| Pong.Controller.BallUpdate | src/pong.rs:160-233 | The three phases, including the loop over the paddles, compute `BallStep`. |
| Pong.Controller.MoveBall | src/pong.rs:161-170 | The move and the wall bounce compute `Advance`. |
| Pong.Controller.CheckPaddle | src/pong.rs:172-198 | One pass of the collision loop, written as the program writes it, computes `Deflect`. |
| Pong.Controller.ScorePoint | src/pong.rs:201-232 | The scoring branch computes `Score`. |
| Engine.BuildVertices | src/engine.rs:92-117 | The vertex loop yields 12 white vertices. Slot i holds corner i % 4 of paddle 0, paddle 1 or the ball, for i / 4 = 0, 1, 2. |
| Engine.LaidOutOutlines | src/engine.rs:92-117 | In a laid-out list of a valid game, the four slots of each paddle unproject to its 30 x 100 rectangle and those of the ball to its 20 x 20 square, all at depth 1. |
| Engine.QuadTrianglesCover | src/engine.rs:122-129 | The two triangles of a rectangle use exactly its four slots and share the diagonal from corner 0 to corner 2. |
| Engine.PaddingAsWritten | src/engine.rs:131 | The padding as written, `n * 2 % 4` elements, is 0 for an even count and 2 for an odd one. |
| Engine.PaddingAsWrittenMisaligns | src/engine.rs:131 | For every odd count the padding as written leaves the buffer 2 bytes past a multiple of 4 (3 indices: 5 elements, 10 bytes). |
| Engine.Padding | src/engine.rs:131 | The corrected padding makes the index buffer a multiple of 4 bytes with at most one extra index. It agrees with the program for even counts. |
| Engine.AllIndices | src/engine.rs:119-134 | The index list with the padding as written has 18 entries and fills whole 4-byte words. |
| Engine.BuildIndices | src/engine.rs:119-134 | The triangle loop and the padding as written give `AllIndices`: 18 entries, every one below 12, block r the two triangles of rectangle r. |
| Engine.BuildTriangles | src/engine.rs:122-129 | The loop yields the triangles of rectangles 0, 1 and 2 in order, every index below 12. |
| Engine.SlotBitSelectsPlayer | src/engine.rs:219-226 | For slots 0 to 7, bit 2 of the slot number is set exactly for slots 4 to 7, the right paddle's. |
| Engine.SameColumns | src/engine.rs:219-229 | Across a frame every paddle corner keeps its clip-space x and depth, so copying the y coordinate alone is enough. |
| Engine.InputAfter | src/engine.rs:297-330 | A paddle's command after an event. Only a key bound to that paddle changes it: to the key's command on a press, to None on a release. |
| Engine.KeyTable | src/engine.rs:297-330 | W and S press Up and Down on the left paddle, and the arrow keys do so on the right paddle. Releasing any of them clears the command, whatever it was. |
| Engine.UnboundEventsIgnored | src/engine.rs:286-330 | Other keys, key events without a key code and non-keyboard events change no command. |
| Engine.OneEventOnePaddle | src/engine.rs:297-330 | An event changes at most one paddle's command. The left paddle's keys never affect the right paddle, and the right paddle's keys never affect the left. |
| Engine.PressThenRelease | src/engine.rs:297-330 | Press then release leaves the paddle idle. Pressing twice is the same as pressing once. |
| Engine.Engine.constructor | src/engine.rs:90-134 | The controller starts in the initial state. The vertex list is laid out from it, and the index list has 18 entries. |
| Engine.Engine.Update | src/engine.rs:212-235 | The controller advances by `Step`. The vertex list still shows its paddles and ball. |
| Engine.Engine.CopyPaddleRows | src/engine.rs:219-229 | After the loop, slots 0 to 7 hold the current paddle corners. The ball's slots are untouched. |
| Engine.Engine.CopyBall | src/engine.rs:233-235 | After the loop, slots 8 to 11 hold the current ball corners. The paddle slots are untouched. |
| Engine.Engine.Input | src/engine.rs:286-333 | Each paddle's command becomes `InputAfter(event, k, old command)`. Nothing else changes, and the invariant holds. |
| Engine.Engine.SetInput | src/engine.rs:298-329 | Only paddle k's command changes, and the invariant holds. |

What `Pong.Score` states:

- When the ball's right edge is past 0, the right paddle gains exactly one point and keeps its position, corners and command. The left paddle is untouched. The ball is re-served from the centre with x heading >= 0 and current corners.
- Otherwise, when the ball's left edge is past the width, the same holds with the roles swapped and x heading < 0.
- Otherwise the game is unchanged.
- Paddle positions are always kept.

Two behaviours of the code are easy to misremember:

- The right paddle stands at x = width - 30 (src/pong.rs:137).
- A ball whose left edge is exactly at the width does not score, because the test is a strict `>` (src/pong.rs:217, `Pong.RightEdgeIsNotOut`).

The model also keeps the program's sign convention: Up increases y.

## Left out

- The GPU work of `engine.rs` (`new`'s device, pipeline and buffers, `render`, `resize`, `queue.write_buffer`) is not modelled. It only hands the modelled lists to the GPU.
- `window.rs`, `main.rs`, `vertex.rs` and the shader are not part of this model. The event loop becomes calls to `Engine.Update` and `Engine.Input`, and the frame time `dt` becomes a parameter.
- The score announcement (`println!`) is not modelled. It is output only.
- Floating point: rounding, NaN and infinities of `f32` are not modelled; arithmetic is exact over the reals. `is_sign_positive` is modelled as `>= 0.0`, so negative zero counts as leftward only in the program.
- Normalize: unit length of the result is not proved. The square root is an injected function with no assumed properties, so only the signs, collinearity and zero-ness of the heading are stated. The zero vector, which the program turns into NaN, is returned unchanged.
- StepLeftOut: does not state that the served heading has length 1, for the same reason. It states its direction signs instead.
- The random number generator is replaced by injected unit samples. `Uniform` has no contract of its own; each range fact follows at its constant call sites.
- `points` is an unbounded `nat`; the `u32` overflow after 2^32 points is not modelled.
- Indices are unbounded `nat`s rather than `u16`; all of them are below 12.
- `Controller::ball_update` is one method in the program and is split here into `MoveBall`, `CheckPaddle` and `ScorePoint`, called in the program's order from `BallUpdate`.

## Findings

| source | as written | input that shows it | evidently intended | confidence | as-written member | corrected member |
|---|---|---|---|---|---|---|
| src/engine.rs:131 | appends `indices.len() * 2 % 4` zero `u16`s: a remainder in bytes, used as a count of 2-byte elements | any odd count: 3 indices get 2 more, giving 5 elements (10 bytes), which is not a multiple of 4 | append `(len * 2 % 4) / 2` elements, that is one exactly when the count is odd | not executed; latent, since the game's list always has 18 indices and gets no padding | Engine.PaddingAsWrittenMisaligns | Engine.Padding |
