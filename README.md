# Pong game step

A model of the game logic of a two-paddle Pong clone built on a GUI widget
toolkit (`main.py`). It covers the ball, the two paddles with their scores and the arena, which
is the game widget itself, and the five operations that change them:

- `PongBall.move` shifts the ball by its velocity.
- `PongPaddle.bounce_ball` reflects and speeds up the ball when it touches a paddle.
- `PongGame.serve_ball` centres the ball with a fresh velocity.
- `PongGame.update` is one clock tick. It moves the ball, bounces it off player 1 and then
  player 2, bounces it off the top and bottom walls, and then applies the two scoring rules.
- `PongGame.on_touch_move` moves a paddle to follow a touch.

Coordinates and velocities are exact `real`s; the speed-up factor 1.1 is `11.0 / 10.0`.

Layout:

- `geometry.dfy` (module `Geometry`): the toolkit's rectangle geometry. `Box` holds `pos` and
  `size`, with `top`, `right` and `center` derived from them. It also has the overlap test
  `Collides` (the toolkit's `collide_widget`) and the bounce `Offset`.
- `pong.dfy` (module `Pong`): snapshots of the state (`BallView`, `PaddleView`, `GameView`),
  one specification function per step, and the classes `Ball`, `Paddle` and `Game`. The
  classes hold the widgets' properties as mutable fields. Each method is proved to leave
  `View() == Spec(old(View()))`.
- `properties.dfy` (module `PongProperties`): properties across several ticks, touches and
  serves.

The model follows the code's exact thresholds, even where a plainer reading of the rules would
differ:

- The right scoring rule compares the ball's LEFT edge `ball.x` with the arena's `width`. It
  does not use the ball's right edge or `x + width`.
- The touch thirds are measured against `width` alone.
- The wall rule tests `ball.y < y` or `ball.top > top`.
- The second scoring rule sees the ball after the first rule may have re-served it.

One consequence: a serve is only guaranteed not to score again on the next tick when the
arena's left edge lies no further right than about half its width (`ServeDoesNotRescore`). An
arena placed further right re-serves the ball already past `width`, and it scores again at once
(`FarArenaRescores`).

## Model

| member | source | states |
|---|---|---|
| Geometry.Box.Translated | main.py:25 | moving by `v` keeps the size and shifts the centre by exactly `v` |
| Geometry.Box.WithCenter | main.py:60 | assigning `center` keeps the size and puts the centre exactly at the given point |
| Geometry.Box.WithCenterY | main.py:92-94 | assigning `center_y` keeps `x`, width and height and puts the vertical centre at the given height |
| Geometry.CollidesIffCentresClose | main.py:39 | characterises `Collides`, the model of `collide_widget`: for non-negative sizes the overlap test holds iff on each axis the centres are at most the sum of the half-extents apart; the test is symmetric |
| Geometry.OffsetMeaning | main.py:41 | characterises `Offset`, the model of the offset expression: the offset times half the paddle height is the centre difference; it is non-negative iff the ball's centre is not below the paddle's; its magnitude is at most 1 iff the ball's centre lies within the paddle's vertical extent |
| Pong.Moved | main.py:22-25 | the ball's centre shifts by its velocity; velocity and size are unchanged |
| Pong.Bounced | main.py:34-44 | the ball's position and size never change, and without a collision the ball is unchanged |
| Pong.BounceReflects | main.py:39-44 | on a collision the new velocity is `(-1.1 vx, 1.1 vy + offset)`, so the x-speed grows by exactly 1.1 and its sign flips |
| Pong.WallBounced | main.py:74-76 | the vertical velocity is negated when `ball.y < y` or `ball.top > top`, and nothing changes otherwise; the horizontal velocity and all positions are never changed |
| Pong.Served | main.py:55-61 | the ball's centre becomes the arena's centre and its velocity exactly `vel`, whatever they were; size, paddles, scores and arena are unchanged |
| Pong.ScoreForPlayer2 | main.py:79-81 | player 2's score rises by exactly 1 iff `ball.x < x`, and the ball is then served with `(4, 0)`, keeping its size; otherwise nothing changes |
| Pong.ScoreForPlayer1 | main.py:82-84 | player 1's score rises by exactly 1 iff `ball.x > width`, and the ball is then served with `(-4, 0)`, keeping its size; otherwise nothing changes |
| Pong.Stepped | main.py:63-84 | in terms of the state before the tick: each score rises by 1 exactly when that player scores and is otherwise unchanged; without a point the ball moved by its velocity; after a point it is centred with the last rule's serve velocity; arena, paddle rectangles and ball size are unchanged |
| Pong.Touched | main.py:86-94 | a touch left of `width/3` puts player 1's vertical centre at the touch, and one right of `2*width/3` does the same for player 2; a paddle outside its zone is unchanged; scores, ball, arena and the paddles' x and size never change |
| Pong.Ball.constructor | main.py:12-20 | a new ball has velocity `(0, 0)` |
| Pong.Ball.Move | main.py:22-25 | the ball becomes `Moved` of the old ball, and only its position fields change |
| Pong.Paddle.constructor | main.py:28-32 | a new paddle has score 0 |
| Pong.Paddle.BounceBall | main.py:34-44 | the ball becomes `Bounced` of the old ball. Only the ball's two velocity fields may change, so the ball's position and the paddle, including its score, stay the same |
| Pong.Game.constructor | main.py:47-53 | the game holds the given ball and two distinct paddles of positive height |
| Pong.Game.ServeBall | main.py:55-61 | the game becomes `Served` of the old game; the default velocity is `(4, 0)`; only the ball's position and velocity fields change |
| Pong.Game.Update | main.py:63-84 | the game becomes `Stepped` of the old game, through the same five steps in the same order; the paddles stay valid |
| Pong.Game.OnTouchMove | main.py:86-94 | the game becomes `Touched` of the old game; only the paddles' `y` fields may change |
| PongProperties.ScoresNeverDecrease | main.py:78-84 | over any `n` ticks neither score decreases, and each rises by at most `n` |
| PongProperties.TicksKeepGeometry | main.py:63-84 | over any `n` ticks the arena, both paddles' rectangles and the ball's size are unchanged |
| PongProperties.ServeDoesNotRescore | main.py:78-84 | on an arena at least the ball's width plus 8 wide, whose `x` is at most `(width + ball width) / 2 - 4`, the tick after a scoring tick scores for nobody |
| PongProperties.FarArenaRescores | main.py:82-84 | an 800-wide arena at `x = 500` serves the ball already past `width`, so player 1 scores on this tick and again on the next |
| PongProperties.WallReflection | main.py:67-76 | a tick that hits a wall but no paddle and scores nothing moves the ball by its velocity and yields velocity `(vx, -vy)` |
| PongProperties.TouchDeadZone | main.py:91-94 | a touch with `width/3 <= x <= 2*width/3` changes nothing |
| PongProperties.TouchMovesOnePaddle | main.py:91-94 | on an arena of non-negative width a touch in the left third leaves player 2 alone and one in the right third leaves player 1 alone |
| PongProperties.ServeThenTick | main.py:55-68 | on an 800x600 arena the default serve centres the ball at (400, 300), and one tick without collisions moves it to (404, 300) with the scores at 0 |
| PongProperties.RightRuleUsesLeftEdge | main.py:82-84 | a ball whose right edge is already past the right wall, but whose left edge is not, gives no point |

## Left out

- Application start-up (`PongApp.build`, `App.run`, `kivy.require`, main.py:1-2 and 97-111) is
  not modelled. It is framework wiring.
- The 60 Hz `Clock.schedule_interval` is not modelled. `Update` is a plain method, and
  `PongProperties.Ticks` stands for a run of `n` ticks.
- The toolkit's observable properties (`NumericProperty`, `ReferenceListProperty`,
  `ObjectProperty`) and the redraws they trigger are not modelled. They become plain fields.
- Rendering is not modelled.
- The toolkit's `collide_widget` is not part of this model. `Collides` assumes its usual
  closed-rectangle test, where touching edges collide. The properties above that matter hold
  whatever the test does at the boundary.
- A paddle height of zero is not modelled: `BounceBall` and `Update` require it to be above zero. The code divides by half the
  height and would fail on a zero-height paddle that the ball touches. The game's paddles are
  built with positive height.
- Floating-point rounding, and overflow to infinity from the uncapped 1.1 speed-up, are not
  modelled. The arithmetic is exact.
- The touch event's other attributes and the `*args` of `update` are not modelled. Only the
  touch's `x` and `y` are used.
