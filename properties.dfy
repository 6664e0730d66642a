/** Properties of the game step that relate several calls: what a run of
    clock ticks preserves, what a serve guarantees for the next tick, and the
    touch dead zone. */
module PongProperties {
  import opened Geometry
  import opened Pong

  /** The game after `n` clock ticks with no touch in between. */
  function Ticks(g: GameView, n: nat): (r: GameView)
    requires Playable(g)
    decreases n
  {
    if n == 0 then g else Ticks(Stepped(g), n - 1)
  }

  /** Over `n` ticks neither score decreases, and each rises by at most `n`
      (one per tick at most). */
  lemma {:induction false} ScoresNeverDecrease(g: GameView, n: nat)
    requires Playable(g)
    ensures g.player1.score <= Ticks(g, n).player1.score <= g.player1.score + n
    ensures g.player2.score <= Ticks(g, n).player2.score <= g.player2.score + n
    decreases n
  {
    if n > 0 {
      ScoresNeverDecrease(Stepped(g), n - 1);
    }
  }

  /** Ticks never move the paddles, resize the ball or change the arena: only
      a touch moves a paddle. */
  lemma {:induction false} TicksKeepGeometry(g: GameView, n: nat)
    requires Playable(g)
    ensures Ticks(g, n).frame == g.frame
    ensures Ticks(g, n).player1.frame == g.player1.frame
    ensures Ticks(g, n).player2.frame == g.player2.frame
    ensures Ticks(g, n).ball.frame.width == g.ball.frame.width
    ensures Ticks(g, n).ball.frame.height == g.ball.frame.height
    decreases n
  {
    if n > 0 {
      TicksKeepGeometry(Stepped(g), n - 1);
    }
  }

  /** A tick that scores leaves a ball that the next tick does not score
      again, provided the arena is at least the ball's width plus twice the
      serve speed of 4 wide, and its left edge lies no further right than
      about half its width (the root widget sits at 0). The second bound is
      needed because the right scoring rule compares the ball's left edge
      with the arena's width rather than with its right edge. */
  lemma ServeDoesNotRescore(g: GameView)
    requires Playable(g)
    requires g.ball.frame.width <= g.frame.width - 8.0
    requires g.frame.x <= (g.frame.width + g.ball.frame.width) / 2.0 - 4.0
    requires Player1Scores(g) || Player2Scores(g)
    ensures !Player1Scores(Stepped(g)) && !Player2Scores(Stepped(g))
  {
  }

  /** Without that bound a serve can score again at once: an 800-wide arena
      whose left edge is at 500 centres the ball at x = 900 - 25, already
      beyond the width of 800, so player 1 scores on every tick. */
  lemma FarArenaRescores()
    ensures var g := GameView(Box(500.0, 0.0, 800.0, 600.0),
                              BallView(Box(1400.0, 300.0, 50.0, 50.0), Vector(4.0, 0.0)),
                              PaddleView(Box(500.0, 0.0, 25.0, 200.0), 0),
                              PaddleView(Box(1275.0, 0.0, 25.0, 200.0), 0));
            Player1Scores(g) && Player1Scores(Stepped(g))
  {
  }

  /** A tick that hits a wall but neither paddle and scores no point leaves
      the ball moved by its velocity, with the vertical velocity negated and
      the horizontal one kept. */
  lemma WallReflection(g: GameView)
    requires Playable(g)
    requires !Collides(g.player1.frame, Moved(g.ball).frame)
    requires !Collides(g.player2.frame, Moved(g.ball).frame)
    requires OutsideWalls(g.(ball := Moved(g.ball)))
    requires !Player1Scores(g) && !Player2Scores(g)
    ensures Stepped(g).ball ==
            BallView(g.ball.frame.Translated(g.ball.velocity),
                     Vector(g.ball.velocity.x, -g.ball.velocity.y))
  {
  }

  /** A touch in the middle third of the arena's width changes nothing. */
  lemma TouchDeadZone(g: GameView, touchX: real, touchY: real)
    requires g.frame.width / 3.0 <= touchX <= 2.0 * g.frame.width / 3.0
    ensures Touched(g, touchX, touchY) == g
  {
  }

  /** On an arena of non-negative width the outer thirds are disjoint, so a
      touch moves at most one paddle. */
  lemma TouchMovesOnePaddle(g: GameView, touchX: real, touchY: real)
    requires g.frame.width >= 0.0
    ensures touchX < g.frame.width / 3.0 ==> Touched(g, touchX, touchY).player2 == g.player2
    ensures touchX > g.frame.width * 2.0 / 3.0 ==> Touched(g, touchX, touchY).player1 == g.player1
  {
  }

  /** An 800 by 600 arena: the default serve centres the ball at (400, 300),
      and one tick without collisions moves its centre to (404, 300). */
  lemma ServeThenTick()
    ensures var g := GameView(Box(0.0, 0.0, 800.0, 600.0),
                              BallView(Box(10.0, 10.0, 50.0, 50.0), Vector(0.0, 0.0)),
                              PaddleView(Box(0.0, 200.0, 25.0, 200.0), 0),
                              PaddleView(Box(775.0, 200.0, 25.0, 200.0), 0));
            var s := Served(g, ServeRight);
            var t := Stepped(s);
            s.ball.frame.CenterX() == 400.0 && s.ball.frame.CenterY() == 300.0 &&
            t.ball.frame.CenterX() == 404.0 && t.ball.frame.CenterY() == 300.0 &&
            t.ball.velocity == ServeRight && t.player1.score == 0 && t.player2.score == 0
  {
  }

  /** The right scoring rule looks at the ball's left edge: a ball already
      sticking out past the right wall is not yet a point. */
  lemma RightRuleUsesLeftEdge()
    ensures var g := GameView(Box(0.0, 0.0, 800.0, 600.0),
                              BallView(Box(780.0, 300.0, 50.0, 50.0), Vector(0.0, 0.0)),
                              PaddleView(Box(0.0, 200.0, 25.0, 200.0), 0),
                              PaddleView(Box(775.0, 0.0, 25.0, 200.0), 0));
            g.ball.frame.Right() > g.frame.Right() && Stepped(g).player1.score == 0
  {
  }
}
