/** The simulation core of the game (`pong.rs`): two paddles, one ball and a
    fixed play field, advanced once per frame by `Controller.Update`.

    Positions, speeds and directions are `f32` in the program and `real`
    here. The random draws of the program are injected as unit samples
    u in [0, 1), and a draw from `Uniform::new(lo, hi)` becomes
    `Uniform(lo, hi, u)`. The square root used to normalise a heading is
    injected as a function `sqrt` (see `Normalize`). */
module Pong {
  import opened Projection

  const PaddleWidth: real := 30.0
  const PaddleHeight: real := 100.0
  const PaddleSpeed: real := 500.0
  const BallSize: real := 20.0
  const BallSpeed: real := 400.0

  function Min(a: real, b: real): real { if a <= b then a else b }
  function Max(a: real, b: real): real { if a >= b then a else b }

  // ---------------------------------------------------------------------
  // Vectors, normalisation and sampling
  // ---------------------------------------------------------------------

  /** A position in pixels, or a travel heading. */
  datatype Vec2 = Vec2(x: real, y: real)

  const Zero := Vec2(0.0, 0.0)

  predicate SameSign(a: real, b: real) {
    (a < 0.0 <==> b < 0.0) && (a == 0.0 <==> b == 0.0)
  }

  /** Dividing by a positive number keeps the sign. */
  lemma DivSign(a: real, n: real)
    requires n > 0.0
    ensures SameSign(a / n, a)
  {
    var q := a / n;
    assert q * n == a;
    if q < 0.0 { assert q * n < 0.0; }
    if q > 0.0 { assert q * n > 0.0; }
  }

  /** `Vector2D::normalize`: both components divided by the Euclidean norm.
      The reals of the model have no square root, so `sqrt` stands for the
      `f32::sqrt` the program calls and nothing is assumed about it; where
      it gives no positive norm (the zero vector, NaN in the program) the
      vector is left as it is. What the model keeps is the heading's
      signs, component by component. */
  function Normalize(v: Vec2, sqrt: real -> real): (u: Vec2)
    ensures SameSign(u.x, v.x) && SameSign(u.y, v.y)
    ensures u.x * v.y == u.y * v.x
    ensures u == Zero <==> v == Zero
  {
    var n := sqrt(v.x * v.x + v.y * v.y);
    if n > 0.0 then
      DivSign(v.x, n);
      DivSign(v.y, n);
      Vec2(v.x / n, v.y / n)
    else v
  }

  /** A sample in [0, 1), the unit draw every random value is made from. */
  predicate UnitSample(u: real) { 0.0 <= u < 1.0 }

  /** A draw from `Uniform::new(lo, hi)`: the unit sample scaled onto the
      half-open range [lo, hi). Every call site has constant bounds, so
      each range fact follows from the body by linear arithmetic. */
  function Uniform(lo: real, hi: real, u: real): real
    requires lo < hi && UnitSample(u)
  {
    lo + (hi - lo) * u
  }

  // ---------------------------------------------------------------------
  // Entities
  // ---------------------------------------------------------------------

  /** The per-paddle command set by the keyboard handler. */
  datatype Input = Up | Down | None

  /** The four renderable corners of a rectangle (`[[f32; 3]; 4]`). */
  type Quad = s: seq<Point3> | |s| == 4
    witness [Point3(0.0, 0.0, 0.0), Point3(0.0, 0.0, 0.0), Point3(0.0, 0.0, 0.0), Point3(0.0, 0.0, 0.0)]

  /** The pixel corners of the w-by-h rectangle at `to`, in the order the
      program emits them: origin, +x, +x+y, +y (depth 1, as unprojected). */
  function Outline(to: Vec2, w: real, h: real): seq<Point3> {
    [Point3(to.x, to.y, 1.0), Point3(to.x + w, to.y, 1.0),
     Point3(to.x + w, to.y + h, 1.0), Point3(to.x, to.y + h, 1.0)]
  }

  /** `move_vertices`: the rectangle's corners projected into clip space. */
  function RectCorners(to: Vec2, w: real, h: real, size: Size): Quad
    requires Positive(size)
  {
    [ScreenToClip(Point3(to.x, to.y, 0.0), size), ScreenToClip(Point3(to.x + w, to.y, 0.0), size),
     ScreenToClip(Point3(to.x + w, to.y + h, 0.0), size), ScreenToClip(Point3(to.x, to.y + h, 0.0), size)]
  }

  /** The projected corners are the rectangle's: unprojected, each is the
      matching pixel corner, and each lies at depth 1. */
  lemma RectCornersOutline(to: Vec2, w: real, h: real, size: Size)
    requires Positive(size)
    ensures forall i | 0 <= i < 4 ::
      ClipToScreen(RectCorners(to, w, h, size)[i], size) == Outline(to, w, h)[i]
      && RectCorners(to, w, h, size)[i].z == 1.0
  {
    ScreenClipRoundTrip(Point3(to.x, to.y, 0.0), size);
    ScreenClipRoundTrip(Point3(to.x + w, to.y, 0.0), size);
    ScreenClipRoundTrip(Point3(to.x + w, to.y + h, 0.0), size);
    ScreenClipRoundTrip(Point3(to.x, to.y + h, 0.0), size);
  }

  /** `Player::move_vertices`: a 30 x 100 paddle. */
  function PaddleVertices(to: Vec2, size: Size): Quad
    requires Positive(size)
  {
    RectCorners(to, PaddleWidth, PaddleHeight, size)
  }

  /** `Ball::move_vertices`: a 20 x 20 ball. */
  function BallVertices(to: Vec2, size: Size): Quad
    requires Positive(size)
  {
    RectCorners(to, BallSize, BallSize, size)
  }

  /** A paddle: its top-left corner, cached corners, command and score. */
  datatype Player = Player(position: Vec2, vertices: Quad, input: Input, points: nat)
  {
    /** The cached corners are those of the current position. */
    predicate Consistent(size: Size) {
      Positive(size) && vertices == PaddleVertices(position, size)
    }

    /** `Player::move_position`: moves the paddle and recomputes its corners. */
    function MovePosition(x: real, y: real, size: Size): (p: Player)
      requires Positive(size)
      ensures p.position == Vec2(x, y) && p.Consistent(size)
      ensures p.input == input && p.points == points
    {
      this.(position := Vec2(x, y), vertices := PaddleVertices(Vec2(x, y), size))
    }
  }

  /** `Player::new`: a paddle at (x, y) with no command and no points. */
  function NewPlayer(x: real, y: real, size: Size): (p: Player)
    requires Positive(size)
    ensures p.position == Vec2(x, y) && p.Consistent(size)
    ensures p.input == None && p.points == 0
  {
    Player(Vec2(x, y), PaddleVertices(Vec2(x, y), size), None, 0)
  }

  /** The ball: its top-left corner, cached corners and heading. */
  datatype Ball = Ball(position: Vec2, vertices: Quad, direction: Vec2)
  {
    predicate Consistent(size: Size) {
      Positive(size) && vertices == BallVertices(position, size)
    }

    /** `Ball::move_position`: moves the ball and recomputes its corners. */
    function MovePosition(x: real, y: real, size: Size): (b: Ball)
      requires Positive(size)
      ensures b.position == Vec2(x, y) && b.Consistent(size)
      ensures b.direction == direction
    {
      this.(position := Vec2(x, y), vertices := BallVertices(Vec2(x, y), size))
    }
  }

  /** `Ball::new`: a ball at (x, y) heading along `direction`, normalised. */
  function NewBall(x: real, y: real, direction: Vec2, size: Size, sqrt: real -> real): (b: Ball)
    requires Positive(size)
    ensures b.position == Vec2(x, y) && b.Consistent(size)
    ensures SameSign(b.direction.x, direction.x) && SameSign(b.direction.y, direction.y)
    ensures b.direction.x * direction.y == b.direction.y * direction.x
  {
    Ball(Vec2(x, y), BallVertices(Vec2(x, y), size), Normalize(direction, sqrt))
  }

  /** The cached corners of a consistent paddle outline its 30 x 100
      rectangle at its position. */
  lemma PaddleOutline(p: Player, size: Size)
    requires p.Consistent(size)
    ensures forall i | 0 <= i < 4 ::
      ClipToScreen(p.vertices[i], size) == Outline(p.position, PaddleWidth, PaddleHeight)[i]
      && p.vertices[i].z == 1.0
  {
    RectCornersOutline(p.position, PaddleWidth, PaddleHeight, size);
  }

  /** The cached corners of a consistent ball outline its 20 x 20 square. */
  lemma BallOutline(b: Ball, size: Size)
    requires b.Consistent(size)
    ensures forall i | 0 <= i < 4 ::
      ClipToScreen(b.vertices[i], size) == Outline(b.position, BallSize, BallSize)[i]
      && b.vertices[i].z == 1.0
  {
    RectCornersOutline(b.position, BallSize, BallSize, size);
  }

  /** The whole game state: the paddles (index 0 left, 1 right) and the ball. */
  datatype Game = Game(players: seq<Player>, ball: Ball)

  /** What holds of every reachable state: two paddles pinned to their
      edges, and every cached corner list up to date. */
  predicate ValidGame(g: Game, size: Size) {
    && Positive(size)
    && |g.players| == 2
    && g.players[0].position.x == 0.0
    && g.players[1].position.x == size.width as real - PaddleWidth
    && g.players[0].Consistent(size)
    && g.players[1].Consistent(size)
    && g.ball.Consistent(size)
  }

  /** The random samples one frame consumes: one per paddle for a bounce,
      and two for the heading of a ball served after a point. */
  datatype Samples = Samples(hits: seq<real>, serve: Vec2)

  predicate ValidSamples(s: Samples) {
    |s.hits| == 2 && UnitSample(s.hits[0]) && UnitSample(s.hits[1])
    && UnitSample(s.serve.x) && UnitSample(s.serve.y)
  }

  // ---------------------------------------------------------------------
  // The rules of one frame, as functions of the state
  // ---------------------------------------------------------------------

  /** `Controller::new`: paddles vertically centred on the two edges, the
      ball centred with a heading drawn from [-1, 1) x [-0.1, 0.1). */
  function Initial(size: Size, serve: Vec2, sqrt: real -> real): Game
    requires Positive(size) && UnitSample(serve.x) && UnitSample(serve.y)
  {
    var w, h := size.width as real, size.height as real;
    Game([NewPlayer(0.0, h / 2.0 - PaddleHeight / 2.0, size),
          NewPlayer(w - PaddleWidth, h / 2.0 - PaddleHeight / 2.0, size)],
         NewBall(w / 2.0 - BallSize / 2.0, h / 2.0 - BallSize / 2.0,
                 Vec2(Uniform(-1.0, 1.0, serve.x), Uniform(-0.1, 0.1, serve.y)), size, sqrt))
  }

  /** One paddle's move for its command over `dt` seconds: Up adds
      `PaddleSpeed * dt` to y and stops the bottom edge at the field height;
      Down subtracts it and stops at 0. */
  function PaddleStep(p: Player, dt: real, size: Size): (q: Player)
    requires Positive(size)
    ensures p.Consistent(size) ==> q.Consistent(size)
    ensures q.position.x == p.position.x && q.input == p.input && q.points == p.points
    ensures p.input == Up ==>
      var y := p.position.y + PaddleSpeed * dt;
      q.position.y == if y + PaddleHeight > size.height as real then size.height as real - PaddleHeight else y
    ensures p.input == Down ==>
      var y := p.position.y - PaddleSpeed * dt;
      q.position.y == if y < 0.0 then 0.0 else y
    ensures p.input == None ==> q == p
  {
    var h := size.height as real;
    match p.input
    case Up => p.MovePosition(p.position.x, Min(p.position.y + PaddleSpeed * dt, h - PaddleHeight), size)
    case Down => p.MovePosition(p.position.x, Max(p.position.y - PaddleSpeed * dt, 0.0), size)
    case None => p
  }

  /** A paddle inside the field stays inside it, for every command and
      every non-negative time step, provided the field fits a paddle. */
  lemma PaddleStaysOnField(p: Player, dt: real, size: Size)
    requires Positive(size) && size.height as real >= PaddleHeight && dt >= 0.0
    requires 0.0 <= p.position.y <= size.height as real - PaddleHeight
    ensures 0.0 <= PaddleStep(p, dt, size).position.y <= size.height as real - PaddleHeight
  {
  }

  /** Whether a ball whose top edge is at y is (partly) off the field. */
  predicate OffField(y: real, size: Size) {
    y + BallSize > size.height as real || y < 0.0
  }

  /** Where the ball's top-left corner lands after `dt` seconds at
      `BallSpeed` along its heading. */
  function Landing(b: Ball, dt: real): Vec2 {
    Vec2(b.position.x + BallSpeed * dt * b.direction.x, b.position.y + BallSpeed * dt * b.direction.y)
  }

  /** The ball's move over `dt` seconds at `BallSpeed` along its heading,
      followed by the bounce off the top or bottom wall. */
  function Advance(b: Ball, dt: real, size: Size): (r: Ball)
    requires Positive(size)
    ensures r.Consistent(size)
    ensures r.position == Landing(b, dt)
    ensures r.direction.x == b.direction.x
    ensures OffField(r.position.y, size) ==> r.direction.y == -b.direction.y
    ensures !OffField(r.position.y, size) ==> r.direction.y == b.direction.y
  {
    var moved := b.MovePosition(Landing(b, dt).x, Landing(b, dt).y, size);
    if OffField(moved.position.y, size) then moved.(direction := Vec2(b.direction.x, -b.direction.y)) else moved
  }

  /** The collision test against one paddle. The leading edge of the ball
      is checked: its right edge when it heads right (x >= 0). */
  predicate Hits(b: Ball, p: Player) {
    var anchorCorrection := if b.direction.x >= 0.0 then BallSize else 0.0;
    && b.position.x + anchorCorrection >= p.position.x
    && b.position.x <= p.position.x + PaddleWidth
    && b.position.y >= p.position.y - BallSize
    && b.position.y <= p.position.y + PaddleHeight
  }

  /** A hit means the ball's square and the paddle's rectangle overlap. */
  lemma HitMeansOverlap(b: Ball, p: Player)
    requires Hits(b, p)
    ensures b.position.x + BallSize >= p.position.x && b.position.x <= p.position.x + PaddleWidth
    ensures b.position.y + BallSize >= p.position.y && b.position.y <= p.position.y + PaddleHeight
  {
  }

  /** The vertical heading, before normalisation, after a paddle hit whose
      top-left corner lies `offset` pixels along +y from the paddle's: nearly
      flat for an offset in [25, 55], towards +y (the way Up moves a paddle)
      above 55, and towards -y below 25. */
  function BounceY(offset: real, u: real): (y: real)
    requires UnitSample(u)
    ensures 25.0 <= offset <= 55.0 ==> -0.05 <= y < 0.05
    ensures offset > 55.0 ==> 0.3 <= y < 1.0
    ensures offset < 25.0 ==> -1.0 <= y < -0.3
  {
    if 25.0 <= offset <= 55.0 then Uniform(-0.05, 0.05, u)
    else if offset > 55.0 then Uniform(0.3, 1.0, u)
    else Uniform(-1.0, -0.3, u)
  }

  /** The ball after the collision check against one paddle: on a hit the
      horizontal heading turns back and a new vertical one is drawn. */
  function Deflect(b: Ball, p: Player, u: real, sqrt: real -> real): (r: Ball)
    requires UnitSample(u)
    ensures r.position == b.position && r.vertices == b.vertices
    ensures !Hits(b, p) ==> r == b
    ensures Hits(b, p) ==>
      var y := BounceY(b.position.y - p.position.y, u);
      && SameSign(r.direction.x, -b.direction.x)
      && SameSign(r.direction.y, y)
      && r.direction.x * y == r.direction.y * -b.direction.x
      && (r.direction == Zero <==> b.direction.x == 0.0 && y == 0.0)
  {
    if Hits(b, p) then
      b.(direction := Normalize(Vec2(-b.direction.x, BounceY(b.position.y - p.position.y, u)), sqrt))
    else b
  }

  predicate UnitSamples(us: seq<real>) {
    forall i | 0 <= i < |us| :: UnitSample(us[i])
  }

  /** The collision checks against the paddles `ps`, in order, each with
      its own sample. */
  function DeflectAll(b: Ball, ps: seq<Player>, us: seq<real>, sqrt: real -> real): (r: Ball)
    requires |ps| == |us| && UnitSamples(us)
    ensures r.position == b.position && r.vertices == b.vertices
    decreases |ps|
  {
    if |ps| == 0 then b
    else
      var n := |ps| - 1;
      Deflect(DeflectAll(b, ps[..n], us[..n], sqrt), ps[n], us[n], sqrt)
  }

  /** The top-left corner that centres the ball in the field. */
  function Centre(size: Size): Vec2 {
    Vec2(size.width as real / 2.0 - BallSize / 2.0, size.height as real / 2.0 - BallSize / 2.0)
  }

  /** Scoring: a ball wholly past the left edge gives the right paddle a
      point and is served again from the centre heading right; a ball
      wholly past the right edge does the same for the left paddle,
      served heading left. */
  function Score(g: Game, size: Size, serve: Vec2, sqrt: real -> real): (r: Game)
    requires |g.players| == 2 && Positive(size)
    requires UnitSample(serve.x) && UnitSample(serve.y)
    ensures |r.players| == 2
    ensures g.ball.position.x + BallSize < 0.0 ==>
      && r.players[1] == g.players[1].(points := g.players[1].points + 1)
      && r.players[0] == g.players[0]
      && r.ball.position == Centre(size) && r.ball.direction.x >= 0.0
      && r.ball.Consistent(size)
    ensures g.ball.position.x + BallSize >= 0.0 && g.ball.position.x > size.width as real ==>
      && r.players[0] == g.players[0].(points := g.players[0].points + 1)
      && r.players[1] == g.players[1]
      && r.ball.position == Centre(size) && r.ball.direction.x < 0.0
      && r.ball.Consistent(size)
    ensures g.ball.position.x + BallSize >= 0.0 && g.ball.position.x <= size.width as real ==> r == g
    ensures forall k | 0 <= k < 2 :: r.players[k].position == g.players[k].position
  {
    var c := Centre(size);
    if g.ball.position.x + BallSize < 0.0 then
      Game(g.players[1 := g.players[1].(points := g.players[1].points + 1)],
           NewBall(c.x, c.y, Vec2(Uniform(0.0, 1.0, serve.x), Uniform(-0.1, 0.1, serve.y)), size, sqrt))
    else if g.ball.position.x > size.width as real then
      Game(g.players[0 := g.players[0].(points := g.players[0].points + 1)],
           NewBall(c.x, c.y, Vec2(Uniform(-1.0, 0.0, serve.x), Uniform(-0.1, 0.1, serve.y)), size, sqrt))
    else g
  }

  /** `Controller::ball_update` as a function of the state. */
  function BallStep(g: Game, size: Size, dt: real, s: Samples, sqrt: real -> real): Game
    requires |g.players| == 2 && Positive(size) && ValidSamples(s)
  {
    var b := DeflectAll(Advance(g.ball, dt, size), g.players, s.hits, sqrt);
    Score(Game(g.players, b), size, s.serve, sqrt)
  }

  /** `Controller::update` as a function of the state: both paddles move,
      then the ball. */
  function Step(g: Game, size: Size, dt: real, s: Samples, sqrt: real -> real): Game
    requires |g.players| == 2 && Positive(size) && ValidSamples(s)
  {
    var ps := [PaddleStep(g.players[0], dt, size), PaddleStep(g.players[1], dt, size)];
    BallStep(Game(ps, g.ball), size, dt, s, sqrt)
  }

  // ---------------------------------------------------------------------
  // Properties of the rules
  // ---------------------------------------------------------------------

  /** The initial state is valid: paddles pinned to the edges and
      vertically centred, the ball centred, nobody has a point, and the
      ball moves unless both draws land exactly on zero. */
  lemma InitialFacts(size: Size, serve: Vec2, sqrt: real -> real)
    requires Positive(size) && UnitSample(serve.x) && UnitSample(serve.y)
    ensures var g := Initial(size, serve, sqrt);
      && ValidGame(g, size)
      && g.players[0].position.y + PaddleHeight / 2.0 == size.height as real / 2.0
      && g.players[1].position.y == g.players[0].position.y
      && g.players[0].points == 0 && g.players[1].points == 0
      && g.players[0].input == None && g.players[1].input == None
      && g.ball.position == Centre(size)
      && (serve.x != 0.5 || serve.y != 0.5 ==> g.ball.direction != Zero)
      && (size.height as real >= PaddleHeight ==>
            0.0 <= g.players[0].position.y <= size.height as real - PaddleHeight)
  {
    var g := Initial(size, serve, sqrt);
    var d := Vec2(Uniform(-1.0, 1.0, serve.x), Uniform(-0.1, 0.1, serve.y));
    assert serve.x != 0.5 ==> d.x != 0.0;
    assert serve.y != 0.5 ==> d.y != 0.0;
  }

  /** Every frame keeps the state valid. */
  lemma StepKeepsValid(g: Game, size: Size, dt: real, s: Samples, sqrt: real -> real)
    requires ValidGame(g, size) && ValidSamples(s)
    ensures ValidGame(Step(g, size, dt, s, sqrt), size)
  {
    var ps := [PaddleStep(g.players[0], dt, size), PaddleStep(g.players[1], dt, size)];
    var b := DeflectAll(Advance(g.ball, dt, size), ps, s.hits, sqrt);
    assert b.Consistent(size);
  }

  /** Paddles move by their own commands only, and keep their inputs. */
  lemma StepMovesPaddles(g: Game, size: Size, dt: real, s: Samples, sqrt: real -> real, k: nat)
    requires |g.players| == 2 && Positive(size) && ValidSamples(s) && k < 2
    ensures var r := Step(g, size, dt, s, sqrt);
      && |r.players| == 2
      && r.players[k].position == PaddleStep(g.players[k], dt, size).position
      && r.players[k].input == g.players[k].input
  {
  }

  /** Paddles that start on a field tall enough for them stay on it. */
  lemma StepKeepsPaddlesOnField(g: Game, size: Size, dt: real, s: Samples, sqrt: real -> real)
    requires |g.players| == 2 && Positive(size) && ValidSamples(s)
    requires size.height as real >= PaddleHeight && dt >= 0.0
    requires forall k | 0 <= k < 2 :: 0.0 <= g.players[k].position.y <= size.height as real - PaddleHeight
    ensures var r := Step(g, size, dt, s, sqrt);
      |r.players| == 2 &&
      forall k | 0 <= k < 2 :: 0.0 <= r.players[k].position.y <= size.height as real - PaddleHeight
  {
    PaddleStaysOnField(g.players[0], dt, size);
    PaddleStaysOnField(g.players[1], dt, size);
  }

  /** The frame seen as its last phase: scoring applied to the paddles
      after their moves and the ball after its move and collision checks. */
  lemma StepUnfold(g: Game, size: Size, dt: real, s: Samples, sqrt: real -> real)
    requires |g.players| == 2 && Positive(size) && ValidSamples(s)
    ensures var ps := [PaddleStep(g.players[0], dt, size), PaddleStep(g.players[1], dt, size)];
      Step(g, size, dt, s, sqrt) == Score(Game(ps, DeflectAll(Advance(g.ball, dt, size), ps, s.hits, sqrt)), size, s.serve, sqrt)
  {
  }

  /** A ball that lands wholly left of the field gives the right paddle
      exactly one point, leaves the left paddle's score alone, and is
      served again from the centre heading right (or straight up/down). */
  lemma StepLeftOut(g: Game, size: Size, dt: real, s: Samples, sqrt: real -> real)
    requires |g.players| == 2 && Positive(size) && ValidSamples(s)
    requires Landing(g.ball, dt).x + BallSize < 0.0
    ensures var r := Step(g, size, dt, s, sqrt);
      && |r.players| == 2
      && r.players[1].points == g.players[1].points + 1
      && r.players[0].points == g.players[0].points
      && r.ball.position == Centre(size)
      && r.ball.direction.x >= 0.0
  {
    var ps := [PaddleStep(g.players[0], dt, size), PaddleStep(g.players[1], dt, size)];
    var a := Advance(g.ball, dt, size);
    var b := DeflectAll(a, ps, s.hits, sqrt);
    StepUnfold(g, size, dt, s, sqrt);
    assert b.position == a.position;
  }

  /** A ball that lands wholly right of the field (and not wholly left of
      it) gives the left paddle exactly one point and is served again
      from the centre heading left. */
  lemma StepRightOut(g: Game, size: Size, dt: real, s: Samples, sqrt: real -> real)
    requires |g.players| == 2 && Positive(size) && ValidSamples(s)
    requires var x := Landing(g.ball, dt).x;
      x + BallSize >= 0.0 && x > size.width as real
    ensures var r := Step(g, size, dt, s, sqrt);
      && |r.players| == 2
      && r.players[0].points == g.players[0].points + 1
      && r.players[1].points == g.players[1].points
      && r.ball.position == Centre(size)
      && r.ball.direction.x < 0.0
  {
    var ps := [PaddleStep(g.players[0], dt, size), PaddleStep(g.players[1], dt, size)];
    var a := Advance(g.ball, dt, size);
    var b := DeflectAll(a, ps, s.hits, sqrt);
    StepUnfold(g, size, dt, s, sqrt);
    assert b.position == a.position;
  }

  /** Otherwise nobody scores and the ball stays where its move put it. */
  lemma StepInPlay(g: Game, size: Size, dt: real, s: Samples, sqrt: real -> real)
    requires |g.players| == 2 && Positive(size) && ValidSamples(s)
    requires var x := Landing(g.ball, dt).x;
      x + BallSize >= 0.0 && x <= size.width as real
    ensures var r := Step(g, size, dt, s, sqrt);
      && |r.players| == 2
      && r.players[0].points == g.players[0].points
      && r.players[1].points == g.players[1].points
      && r.ball.position == Landing(g.ball, dt)
  {
    var ps := [PaddleStep(g.players[0], dt, size), PaddleStep(g.players[1], dt, size)];
    var a := Advance(g.ball, dt, size);
    var b := DeflectAll(a, ps, s.hits, sqrt);
    StepUnfold(g, size, dt, s, sqrt);
    assert b.position == a.position;
  }

  /** A frame gives at most one point in total, and never takes one away. */
  lemma StepScoresAtMostOne(g: Game, size: Size, dt: real, s: Samples, sqrt: real -> real)
    requires |g.players| == 2 && Positive(size) && ValidSamples(s)
    ensures var r := Step(g, size, dt, s, sqrt);
      && |r.players| == 2
      && r.players[0].points >= g.players[0].points
      && r.players[1].points >= g.players[1].points
      && r.players[0].points + r.players[1].points <= g.players[0].points + g.players[1].points + 1
  {
    var ps := [PaddleStep(g.players[0], dt, size), PaddleStep(g.players[1], dt, size)];
    var a := Advance(g.ball, dt, size);
    var b := DeflectAll(a, ps, s.hits, sqrt);
    StepUnfold(g, size, dt, s, sqrt);
    assert b.position == a.position;
  }

  /** The collision checks never stop a moving ball, unless a draw for a
      flat return lands exactly on zero. */
  lemma {:induction false} DeflectAllKeepsMoving(b: Ball, ps: seq<Player>, us: seq<real>, sqrt: real -> real)
    requires |ps| == |us| && UnitSamples(us)
    requires forall i | 0 <= i < |us| :: us[i] != 0.5
    requires b.direction != Zero
    ensures DeflectAll(b, ps, us, sqrt).direction != Zero
    decreases |ps|
  {
    if |ps| > 0 {
      var n := |ps| - 1;
      var prev := DeflectAll(b, ps[..n], us[..n], sqrt);
      DeflectAllKeepsMoving(b, ps[..n], us[..n], sqrt);
      var y := BounceY(prev.position.y - ps[n].position.y, us[n]);
      assert y != 0.0;
    }
  }

  /** The ball keeps moving from frame to frame, unless a draw lands
      exactly on a zero heading component (NaN in the program). */
  lemma StepKeepsBallMoving(g: Game, size: Size, dt: real, s: Samples, sqrt: real -> real)
    requires |g.players| == 2 && Positive(size) && ValidSamples(s)
    requires g.ball.direction != Zero
    requires s.hits[0] != 0.5 && s.hits[1] != 0.5 && s.serve.y != 0.5
    ensures Step(g, size, dt, s, sqrt).ball.direction != Zero
  {
    var ps := [PaddleStep(g.players[0], dt, size), PaddleStep(g.players[1], dt, size)];
    var a := Advance(g.ball, dt, size);
    assert a.direction != Zero;
    DeflectAllKeepsMoving(a, ps, s.hits, sqrt);
    assert Uniform(-0.1, 0.1, s.serve.y) != 0.0;
  }

  /** A ball whose left edge lands exactly on the right edge of the field
      has not left it: nobody scores (the test is a strict `>`). */
  lemma RightEdgeIsNotOut(g: Game, size: Size, dt: real, s: Samples, sqrt: real -> real)
    requires |g.players| == 2 && Positive(size) && ValidSamples(s)
    requires Landing(g.ball, dt).x == size.width as real
    ensures var r := Step(g, size, dt, s, sqrt);
      |r.players| == 2 && r.players[0].points == g.players[0].points
  {
    StepInPlay(g, size, dt, s, sqrt);
  }

  // ---------------------------------------------------------------------
  // The controller
  // ---------------------------------------------------------------------

  /** `Controller`: owns the field size, the two paddles and the ball, and
      is advanced once per rendered frame. */
  class Controller {
    const size: Size
    const players: array<Player>
    var ball: Ball

    ghost function State(): Game
      reads this, players
    {
      Game(players[..], ball)
    }

    ghost predicate Valid()
      reads this, players
    {
      players.Length == 2 && ValidGame(State(), size)
    }

    /** `Controller::new`, with the two draws for the first heading. */
    constructor (size: Size, serve: Vec2, sqrt: real -> real)
      requires Positive(size) && UnitSample(serve.x) && UnitSample(serve.y)
      ensures Valid() && fresh(players)
      ensures this.size == size && State() == Initial(size, serve, sqrt)
    {
      var w, h := size.width as real, size.height as real;
      this.size := size;
      players := new Player[2] [NewPlayer(0.0, h / 2.0 - PaddleHeight / 2.0, size),
                                NewPlayer(w - PaddleWidth, h / 2.0 - PaddleHeight / 2.0, size)];
      ball := NewBall(w / 2.0 - BallSize / 2.0, h / 2.0 - BallSize / 2.0,
                      Vec2(Uniform(-1.0, 1.0, serve.x), Uniform(-0.1, 0.1, serve.y)), size, sqrt);
      new;
      InitialFacts(size, serve, sqrt);
    }

    /** `Controller::update`: both paddles, then the ball. */
    method Update(dt: real, s: Samples, sqrt: real -> real)
      requires Valid() && ValidSamples(s)
      modifies this, players
      ensures Valid()
      ensures State() == Step(old(State()), size, dt, s, sqrt)
    {
      ghost var g := State();
      ApplyInput(0, dt);
      ApplyInput(1, dt);
      assert players[..] == [PaddleStep(g.players[0], dt, size), PaddleStep(g.players[1], dt, size)];
      BallUpdate(dt, s, sqrt);
      StepKeepsValid(g, size, dt, s, sqrt);
    }

    /** `Controller::input`: moves paddle `player` by its command, first by
      the full step and then back inside the field if it overshot. */
    method ApplyInput(player: nat, dt: real)
      requires players.Length == 2 && Positive(size) && player < 2
      modifies players
      ensures players[..] == old(players[..])[player := PaddleStep(old(players[player]), dt, size)]
    {
      var h := size.height as real;
      match players[player].input
      case Up =>
        players[player] := players[player].MovePosition(
          players[player].position.x, players[player].position.y + PaddleSpeed * dt, size);
        if players[player].position.y + PaddleHeight > h {
          players[player] := players[player].MovePosition(players[player].position.x, h - PaddleHeight, size);
        }
      case Down =>
        players[player] := players[player].MovePosition(
          players[player].position.x, players[player].position.y - PaddleSpeed * dt, size);
        if players[player].position.y < 0.0 {
          players[player] := players[player].MovePosition(players[player].position.x, 0.0, size);
        }
      case None =>
    }

    /** `Controller::ball_update`: the move and wall bounce, the collision
      check against each paddle in turn, then scoring. */
    method BallUpdate(dt: real, s: Samples, sqrt: real -> real)
      requires players.Length == 2 && Positive(size) && ValidSamples(s)
      modifies this, players
      ensures State() == BallStep(old(State()), size, dt, s, sqrt)
    {
      MoveBall(dt);
      ghost var advanced := ball;

      for i := 0 to players.Length
        invariant players[..] == old(players[..])
        invariant ball == DeflectAll(advanced, players[..i], s.hits[..i], sqrt)
      {
        CheckPaddle(players[i], s.hits[i], sqrt);
        assert players[..i + 1][..i] == players[..i];
        assert s.hits[..i + 1][..i] == s.hits[..i];
      }
      assert players[..] == players[..2] && s.hits == s.hits[..2];

      ScorePoint(s.serve, sqrt);
    }

    /** The first phase of `ball_update`: move along the heading, then turn
      the vertical heading round if the ball is off the top or bottom. */
    method MoveBall(dt: real)
      requires Positive(size)
      modifies this
      ensures ball == Advance(old(ball), dt, size)
    {
      ball := ball.MovePosition(ball.position.x + BallSpeed * dt * ball.direction.x,
                                ball.position.y + BallSpeed * dt * ball.direction.y, size);
      if OffField(ball.position.y, size) {
        ball := ball.(direction := ball.direction.(y := ball.direction.y * -1.0));
      }
    }

    /** One pass of the collision loop of `ball_update`: on a hit, the
      horizontal heading turns round and a vertical one is drawn from the
      band the hit offset falls in, then the heading is normalised. */
    method CheckPaddle(player: Player, u: real, sqrt: real -> real)
      requires UnitSample(u)
      modifies this
      ensures ball == Deflect(old(ball), player, u, sqrt)
    {
      var anchorCorrection := if ball.direction.x >= 0.0 then BallSize else 0.0;
      if ball.position.x + anchorCorrection >= player.position.x
        && ball.position.x <= player.position.x + PaddleWidth
        && ball.position.y >= player.position.y - BallSize
        && ball.position.y <= player.position.y + PaddleHeight
      {
        ball := ball.(direction := ball.direction.(x := ball.direction.x * -1.0));
        var bounceDirection := ball.position.y - player.position.y;
        if 25.0 <= bounceDirection <= 55.0 {
          ball := ball.(direction := ball.direction.(y := Uniform(-0.05, 0.05, u)));
        } else if bounceDirection > 55.0 {
          ball := ball.(direction := ball.direction.(y := Uniform(0.3, 1.0, u)));
        } else {
          ball := ball.(direction := ball.direction.(y := Uniform(-1.0, -0.3, u)));
        }
        ball := ball.(direction := Normalize(ball.direction, sqrt));
      }
    }

    /** The last phase of `ball_update`: a ball wholly past the left edge
      scores for the right paddle, one wholly past the right edge for the
      left paddle; either way a new ball is served from the centre. */
    method ScorePoint(serve: Vec2, sqrt: real -> real)
      requires players.Length == 2 && Positive(size) && UnitSample(serve.x) && UnitSample(serve.y)
      modifies this, players
      ensures State() == Score(old(State()), size, serve, sqrt)
    {
      var w, h := size.width as real, size.height as real;
      if ball.position.x + BallSize < 0.0 {
        ball := NewBall(w / 2.0 - BallSize / 2.0, h / 2.0 - BallSize / 2.0,
                        Vec2(Uniform(0.0, 1.0, serve.x), Uniform(-0.1, 0.1, serve.y)), size, sqrt);
        players[1] := players[1].(points := players[1].points + 1);
      } else if ball.position.x > w {
        ball := NewBall(w / 2.0 - BallSize / 2.0, h / 2.0 - BallSize / 2.0,
                        Vec2(Uniform(-1.0, 0.0, serve.x), Uniform(-0.1, 0.1, serve.y)), size, sqrt);
        players[0] := players[0].(points := players[0].points + 1);
      }
    }
  }
}
