/** The per-tick step of the Pong game: a ball, two paddles with scores, and
    the arena (the game widget itself). The toolkit's observable properties
    become plain mutable fields of the classes `Ball`, `Paddle` and `Game`; each
    method there is specified by a function on immutable snapshots (`BallView`,
    `PaddleView`, `GameView`) of the state before and after. */
module Pong {
  import opened Geometry

  /** Every paddle hit multiplies both velocity components by 1.1. */
  const SpeedUp: real := 11.0 / 10.0

  /** Serve velocities after player 2 scores (towards the right) and after
      player 1 scores (towards the left); the first is also the default. */
  const ServeRight: Vector := Vector(4.0, 0.0)
  const ServeLeft: Vector := Vector(-4.0, 0.0)

  datatype BallView = BallView(frame: Box, velocity: Vector)
  datatype PaddleView = PaddleView(frame: Box, score: nat)
  datatype GameView = GameView(frame: Box, ball: BallView, player1: PaddleView, player2: PaddleView)

  /** The bounce offset divides by half a paddle's height, so both paddles
      must be taller than zero for a tick to be defined. */
  predicate Playable(g: GameView) {
    g.player1.frame.height > 0.0 && g.player2.frame.height > 0.0
  }

  // ---------------------------------------------------------------------
  // Specification functions, one per step of the game

  /** The ball after one move: shifted by its velocity, which is kept. */
  function Moved(b: BallView): (r: BallView)
    ensures r.velocity == b.velocity
    ensures r.frame.width == b.frame.width && r.frame.height == b.frame.height
    ensures r.frame.CenterX() == b.frame.CenterX() + b.velocity.x
    ensures r.frame.CenterY() == b.frame.CenterY() + b.velocity.y
  {
    b.(frame := b.frame.Translated(b.velocity))
  }

  /** The ball after the paddle tries to bounce it. Only the ball's velocity
      can change, and only when the two rectangles collide: the horizontal
      component is reflected, both are sped up, and the vertical one is
      deflected by the offset from the paddle's centre. */
  function Bounced(paddle: PaddleView, ball: BallView): (r: BallView)
    requires paddle.frame.height > 0.0
    ensures r.frame == ball.frame
    ensures !Collides(paddle.frame, ball.frame) ==> r == ball
  {
    if Collides(paddle.frame, ball.frame) then
      var bounced := Vector(-ball.velocity.x, ball.velocity.y);
      var vel := bounced.Scaled(SpeedUp);
      ball.(velocity := Vector(vel.x, vel.y + Offset(ball.frame, paddle.frame)))
    else
      ball
  }

  /** On a hit the new velocity is `(-1.1 vx, 1.1 vy + offset)`: the
      horizontal speed grows by exactly a tenth and its direction flips. */
  lemma BounceReflects(paddle: PaddleView, ball: BallView)
    requires paddle.frame.height > 0.0
    requires Collides(paddle.frame, ball.frame)
    ensures Bounced(paddle, ball).velocity ==
            Vector(-SpeedUp * ball.velocity.x,
                   SpeedUp * ball.velocity.y + Offset(ball.frame, paddle.frame))
    ensures Abs(Bounced(paddle, ball).velocity.x) == SpeedUp * Abs(ball.velocity.x)
    ensures ball.velocity.x > 0.0 ==> Bounced(paddle, ball).velocity.x < 0.0
    ensures ball.velocity.x < 0.0 ==> Bounced(paddle, ball).velocity.x > 0.0
  {
  }

  /** The ball is below the arena's bottom edge or above its top edge. */
  predicate OutsideWalls(g: GameView) {
    g.ball.frame.y < g.frame.y || g.ball.frame.Top() > g.frame.Top()
  }

  /** The top/bottom wall rule: the vertical velocity is negated exactly when
      the ball is outside the walls; nothing else changes. */
  function WallBounced(g: GameView): (r: GameView)
    ensures r.frame == g.frame && r.player1 == g.player1 && r.player2 == g.player2
    ensures r.ball.frame == g.ball.frame && r.ball.velocity.x == g.ball.velocity.x
    ensures OutsideWalls(g) ==> r.ball.velocity.y == -g.ball.velocity.y
    ensures !OutsideWalls(g) ==> r == g
  {
    if OutsideWalls(g) then
      g.(ball := g.ball.(velocity := Vector(g.ball.velocity.x, -g.ball.velocity.y)))
    else
      g
  }

  /** The game after a serve: the ball's centre is the arena's centre and its
      velocity is `vel`, whatever they were; the ball's size, the paddles,
      the scores and the arena are untouched. */
  function Served(g: GameView, vel: Vector): (r: GameView)
    ensures r.ball.frame.CenterX() == g.frame.CenterX()
    ensures r.ball.frame.CenterY() == g.frame.CenterY()
    ensures r.ball.frame.width == g.ball.frame.width && r.ball.frame.height == g.ball.frame.height
    ensures r.ball.velocity == vel
    ensures r.frame == g.frame && r.player1 == g.player1 && r.player2 == g.player2
  {
    g.(ball := BallView(g.ball.frame.WithCenter(g.frame.CenterX(), g.frame.CenterY()), vel))
  }

  /** The left scoring rule: a ball whose left edge is left of the arena's
      left edge gives player 2 a point and is served to the right. */
  function ScoreForPlayer2(g: GameView): (r: GameView)
    ensures r.frame == g.frame && r.player1 == g.player1
    ensures r.player2.frame == g.player2.frame
    ensures r.player2.score == if g.ball.frame.x < g.frame.x then g.player2.score + 1 else g.player2.score
    ensures g.ball.frame.x < g.frame.x ==> r == Served(r, ServeRight)
    ensures !(g.ball.frame.x < g.frame.x) ==> r == g
    ensures r.ball.frame.width == g.ball.frame.width && r.ball.frame.height == g.ball.frame.height
  {
    if g.ball.frame.x < g.frame.x then
      Served(g.(player2 := g.player2.(score := g.player2.score + 1)), ServeRight)
    else
      g
  }

  /** The right scoring rule: a ball whose LEFT edge is beyond the arena's
      width (not its right edge) gives player 1 a point and is served to the
      left. */
  function ScoreForPlayer1(g: GameView): (r: GameView)
    ensures r.frame == g.frame && r.player2 == g.player2
    ensures r.player1.frame == g.player1.frame
    ensures r.player1.score == if g.ball.frame.x > g.frame.width then g.player1.score + 1 else g.player1.score
    ensures g.ball.frame.x > g.frame.width ==> r == Served(r, ServeLeft)
    ensures !(g.ball.frame.x > g.frame.width) ==> r == g
    ensures r.ball.frame.width == g.ball.frame.width && r.ball.frame.height == g.ball.frame.height
  {
    if g.ball.frame.x > g.frame.width then
      Served(g.(player1 := g.player1.(score := g.player1.score + 1)), ServeLeft)
    else
      g
  }

  /** Where the ball's left edge is once it has moved this tick. */
  function LandingX(g: GameView): real {
    g.ball.frame.x + g.ball.velocity.x
  }

  /** This tick gives player 2 a point. */
  predicate Player2Scores(g: GameView) {
    LandingX(g) < g.frame.x
  }

  /** This tick gives player 1 a point: the check sees the ball where it
      landed, or at the served position if player 2 has just scored. */
  predicate Player1Scores(g: GameView) {
    (if Player2Scores(g) then g.frame.CenterX() - g.ball.frame.width / 2.0 else LandingX(g))
      > g.frame.width
  }

  /** One tick: move, bounce off player 1 then player 2, bounce off the walls,
      then the two scoring rules in turn. Stated on the state before the tick:
      each score rises by one exactly when that player scores, and by nothing
      otherwise; without a point the ball has moved by its velocity, and after
      one it is centred with the serve velocity of the last rule that fired;
      the arena, the paddles' rectangles and the ball's size never change. */
  function Stepped(g: GameView): (r: GameView)
    requires Playable(g)
    ensures Playable(r)
    ensures r.frame == g.frame
    ensures r.player1.frame == g.player1.frame && r.player2.frame == g.player2.frame
    ensures r.ball.frame.width == g.ball.frame.width && r.ball.frame.height == g.ball.frame.height
    ensures r.player2.score == g.player2.score + (if Player2Scores(g) then 1 else 0)
    ensures r.player1.score == g.player1.score + (if Player1Scores(g) then 1 else 0)
    ensures !Player1Scores(g) && !Player2Scores(g) ==>
              r.ball.frame == g.ball.frame.Translated(g.ball.velocity)
    ensures Player1Scores(g) ==> r == Served(r, ServeLeft)
    ensures Player2Scores(g) && !Player1Scores(g) ==> r == Served(r, ServeRight)
  {
    var moved := g.(ball := Moved(g.ball));
    var hit1 := moved.(ball := Bounced(g.player1, moved.ball));
    var hit2 := hit1.(ball := Bounced(g.player2, hit1.ball));
    var walled := WallBounced(hit2);
    var left := ScoreForPlayer2(walled);
    ScoreForPlayer1(left)
  }

  /** A touch moves a paddle's vertical centre to the touch's height: in the
      left third of the arena's width player 1's, in the right third player
      2's. Nothing else changes; the middle third is a dead zone. */
  function Touched(g: GameView, touchX: real, touchY: real): (r: GameView)
    ensures r.frame == g.frame && r.ball == g.ball
    ensures r.player1.score == g.player1.score && r.player2.score == g.player2.score
    ensures r.player1.frame.x == g.player1.frame.x && r.player1.frame.width == g.player1.frame.width
    ensures r.player1.frame.height == g.player1.frame.height
    ensures r.player2.frame.x == g.player2.frame.x && r.player2.frame.width == g.player2.frame.width
    ensures r.player2.frame.height == g.player2.frame.height
    ensures touchX < g.frame.width / 3.0 ==> r.player1.frame.CenterY() == touchY
    ensures !(touchX < g.frame.width / 3.0) ==> r.player1 == g.player1
    ensures touchX > g.frame.width * 2.0 / 3.0 ==> r.player2.frame.CenterY() == touchY
    ensures !(touchX > g.frame.width * 2.0 / 3.0) ==> r.player2 == g.player2
  {
    var p1 := if touchX < g.frame.width / 3.0
              then g.player1.(frame := g.player1.frame.WithCenterY(touchY)) else g.player1;
    var p2 := if touchX > g.frame.width * 2.0 / 3.0
              then g.player2.(frame := g.player2.frame.WithCenterY(touchY)) else g.player2;
    g.(player1 := p1, player2 := p2)
  }

  // ---------------------------------------------------------------------
  // The widgets, with mutable fields

  class Ball {
    var x: real
    var y: real
    var width: real
    var height: real
    var velocityX: real
    var velocityY: real

    /** A ball at rest, as the toolkit creates it. */
    constructor (x: real, y: real, width: real, height: real)
      ensures View() == BallView(Box(x, y, width, height), Vector(0.0, 0.0))
    {
      this.x, this.y, this.width, this.height := x, y, width, height;
      velocityX, velocityY := 0.0, 0.0;
    }

    function Frame(): Box
      reads this
    {
      Box(x, y, width, height)
    }

    function View(): BallView
      reads this
    {
      BallView(Frame(), Vector(velocityX, velocityY))
    }

    /** `pos = velocity + pos`. */
    method Move()
      modifies this`x, this`y
      ensures View() == Moved(old(View()))
    {
      var pos := Vector(velocityX, velocityY).Plus(Vector(x, y));
      x, y := pos.x, pos.y;
    }
  }

  class Paddle {
    var x: real
    var y: real
    var width: real
    var height: real
    var score: nat

    /** A paddle with no points yet. */
    constructor (x: real, y: real, width: real, height: real)
      ensures View() == PaddleView(Box(x, y, width, height), 0)
    {
      this.x, this.y, this.width, this.height := x, y, width, height;
      score := 0;
    }

    function Frame(): Box
      reads this
    {
      Box(x, y, width, height)
    }

    function View(): PaddleView
      reads this
    {
      PaddleView(Frame(), score)
    }

    /** Bounces `ball` back if it touches this paddle. Only the ball's
        velocity may change; the paddle and the ball's position do not. */
    method BounceBall(ball: Ball)
      requires height > 0.0
      modifies ball`velocityX, ball`velocityY
      ensures ball.View() == Bounced(View(), old(ball.View()))
    {
      if Collides(Frame(), ball.Frame()) {
        var vx, vy := ball.velocityX, ball.velocityY;
        var offset := Offset(ball.Frame(), Frame());
        var bounced := Vector(-vx, vy);
        var vel := bounced.Scaled(SpeedUp);
        ball.velocityX, ball.velocityY := vel.x, vel.y + offset;
      }
    }
  }

  class Game {
    var x: real
    var y: real
    var width: real
    var height: real
    const ball: Ball
    const player1: Paddle
    const player2: Paddle

    /** Two distinct paddles, both taller than zero. */
    ghost predicate Valid()
      reads this, ball, player1, player2
    {
      player1 != player2 && Playable(View())
    }

    constructor (x: real, y: real, width: real, height: real,
                 ball: Ball, player1: Paddle, player2: Paddle)
      requires player1 != player2 && player1.height > 0.0 && player2.height > 0.0
      ensures Valid()
      ensures this.ball == ball && this.player1 == player1 && this.player2 == player2
      ensures View() == GameView(Box(x, y, width, height), ball.View(), player1.View(), player2.View())
    {
      this.x, this.y, this.width, this.height := x, y, width, height;
      this.ball, this.player1, this.player2 := ball, player1, player2;
    }

    function Frame(): Box
      reads this
    {
      Box(x, y, width, height)
    }

    function View(): GameView
      reads this, ball, player1, player2
    {
      GameView(Frame(), ball.View(), player1.View(), player2.View())
    }

    /** Centres the ball in the arena with velocity `vel`. */
    method ServeBall(vel: Vector := ServeRight)
      modifies ball`x, ball`y, ball`velocityX, ball`velocityY
      ensures View() == Served(old(View()), vel)
    {
      var c := ball.Frame().WithCenter(Frame().CenterX(), Frame().CenterY());
      ball.x, ball.y := c.x, c.y;
      ball.velocityX, ball.velocityY := vel.x, vel.y;
    }

    /** One clock tick. */
    method Update()
      requires Valid()
      modifies ball, player1, player2
      ensures Valid()
      ensures View() == Stepped(old(View()))
    {
      ghost var g := View();
      ball.Move();
      ghost var moved := g.(ball := Moved(g.ball));
      assert View() == moved;
      player1.BounceBall(ball);
      ghost var hit1 := moved.(ball := Bounced(g.player1, moved.ball));
      assert View() == hit1;
      player2.BounceBall(ball);
      ghost var hit2 := hit1.(ball := Bounced(g.player2, hit1.ball));
      assert View() == hit2;
      if ball.y < y || ball.Frame().Top() > Frame().Top() {
        ball.velocityY := ball.velocityY * -1.0;
      }
      ghost var walled := WallBounced(hit2);
      assert View() == walled;
      if ball.x < x {
        player2.score := player2.score + 1;
        ServeBall(vel := ServeRight);
      }
      ghost var left := ScoreForPlayer2(walled);
      assert View() == left;
      if ball.x > width {
        player1.score := player1.score + 1;
        ServeBall(vel := ServeLeft);
      }
    }

    /** Moves a paddle to follow a touch at `(touchX, touchY)`. */
    method OnTouchMove(touchX: real, touchY: real)
      requires Valid()
      modifies player1`y, player2`y
      ensures Valid()
      ensures View() == Touched(old(View()), touchX, touchY)
    {
      if touchX < width / 3.0 {
        player1.y := player1.Frame().WithCenterY(touchY).y;
      }
      if touchX > width * 2.0 / 3.0 {
        player2.y := player2.Frame().WithCenterY(touchY).y;
      }
    }
  }
}
