/** The part of the renderer (`engine.rs`) that is not a GPU call: the
    vertex and index lists built for the two paddles and the ball, the
    per-frame copy of the controller's geometry into the vertex list, and
    the keyboard handler that sets the paddles' commands. */
module Engine {
  import opened Projection
  import opened Pong

  /** A vertex handed to the GPU: a clip-space position and an RGB colour. */
  datatype Vertex = Vertex(position: Point3, color: Point3)

  const White := Point3(1.0, 1.0, 1.0)

  /** Rectangles drawn: the two paddles, then the ball. */
  const Rectangles: nat := 3

  // ---------------------------------------------------------------------
  // Vertex layout
  // ---------------------------------------------------------------------

  /** Slot i of the vertex list holds corner i % 4 of rectangle i / 4,
      where rectangles 0 and 1 are the paddles and 2 is the ball. */
  function SlotCorner(ps: seq<Player>, b: Ball, i: nat): Point3
    requires |ps| == 2 && i < 4 * Rectangles
  {
    var r := i / 4;
    if r < 2 then ps[r].vertices[i % 4] else b.vertices[i % 4]
  }

  /** The vertex list shows the paddles `ps` and the ball `b`, in white. */
  ghost predicate LaidOut(vs: seq<Vertex>, ps: seq<Player>, b: Ball) {
    && |ps| == 2
    && |vs| == 4 * Rectangles
    && forall i | 0 <= i < |vs| :: vs[i] == Vertex(SlotCorner(ps, b, i), White)
  }

  /** The vertex loop of `Engine::new`: twelve white vertices, slot i taken
      from `players[0]`, `players[1]` or the ball by the range i falls in. */
  method BuildVertices(ps: seq<Player>, b: Ball) returns (vs: seq<Vertex>)
    requires |ps| == 2
    ensures LaidOut(vs, ps, b)
  {
    vs := [];
    for i := 0 to 12
      invariant |vs| == i
      invariant forall k | 0 <= k < i :: vs[k] == Vertex(SlotCorner(ps, b, k), White)
    {
      var index := if i <= 3 then 0 else if i <= 7 then 1 else 2;
      if index == 0 || index == 1 {
        vs := vs + [Vertex(ps[index].vertices[i % 4], White)];
      } else {
        vs := vs + [Vertex(b.vertices[i % 4], White)];
      }
    }
  }

  /** A laid-out vertex list draws what the game holds: unprojected, the
      four slots of each paddle are the corners of its 30 x 100 rectangle
      and those of the ball the corners of its 20 x 20 square, all at
      depth 1. */
  lemma LaidOutOutlines(vs: seq<Vertex>, g: Game, size: Size)
    requires ValidGame(g, size) && LaidOut(vs, g.players, g.ball)
    ensures forall r, c | 0 <= r < 2 && 0 <= c < 4 ::
      && ClipToScreen(vs[4 * r + c].position, size) == Outline(g.players[r].position, PaddleWidth, PaddleHeight)[c]
      && vs[4 * r + c].position.z == 1.0
    ensures forall c | 0 <= c < 4 ::
      && ClipToScreen(vs[8 + c].position, size) == Outline(g.ball.position, BallSize, BallSize)[c]
      && vs[8 + c].position.z == 1.0
  {
    forall r, c | 0 <= r < 2 && 0 <= c < 4
      ensures ClipToScreen(vs[4 * r + c].position, size) == Outline(g.players[r].position, PaddleWidth, PaddleHeight)[c]
      ensures vs[4 * r + c].position.z == 1.0
    {
      assert (4 * r + c) / 4 == r && (4 * r + c) % 4 == c;
      assert vs[4 * r + c].position == g.players[r].vertices[c];
      PaddleOutline(g.players[r], size);
    }
    forall c | 0 <= c < 4
      ensures ClipToScreen(vs[8 + c].position, size) == Outline(g.ball.position, BallSize, BallSize)[c]
      ensures vs[8 + c].position.z == 1.0
    {
      assert (8 + c) / 4 == 2 && (8 + c) % 4 == c;
      assert vs[8 + c].position == g.ball.vertices[c];
      BallOutline(g.ball, size);
    }
  }

  /** The slot test of `Engine::update`, `i & (1 << 2) != 0`, picks
      `players[1]` for exactly the slots 4 to 7 of the first eight. */
  lemma SlotBitSelectsPlayer(i: nat)
    requires i < 8
    ensures ((i as bv8) & (1 << 2) != 0) <==> i / 4 == 1
  {
    if i < 4 {
      assert i == 0 || i == 1 || i == 2 || i == 3;
    } else {
      assert i == 4 || i == 5 || i == 6 || i == 7;
    }
  }

  // ---------------------------------------------------------------------
  // Index list
  // ---------------------------------------------------------------------

  /** The two counter-clockwise triangles of rectangle r: corners 0, 1, 2
      and 0, 2, 3 of its four slots. */
  function QuadTriangles(r: nat): seq<nat> {
    [r * 4, r * 4 + 1, r * 4 + 2, r * 4, r * 4 + 2, r * 4 + 3]
  }

  /** The two triangles of a rectangle use its four slots and no other,
      and share the diagonal from corner 0 to corner 2. */
  lemma QuadTrianglesCover(r: nat)
    ensures (set k | k in QuadTriangles(r)) == {4 * r, 4 * r + 1, 4 * r + 2, 4 * r + 3}
    ensures QuadTriangles(r)[0] == QuadTriangles(r)[3] && QuadTriangles(r)[2] == QuadTriangles(r)[4]
  {
    var q := QuadTriangles(r);
    assert q[0] == 4 * r && q[1] == 4 * r + 1 && q[2] == 4 * r + 2 && q[5] == 4 * r + 3;
  }

  /** The padding the program appends to an index list of n `u16`s:
      `n * 2 % 4` zeros. n * 2 is the list's size in bytes, and the
      remainder is in bytes too, but it is appended as that many 2-byte
      elements: none for an even count, two for an odd one. */
  function PaddingAsWritten(n: nat): (p: nat)
    ensures n % 2 == 0 ==> p == 0
    ensures n % 2 == 1 ==> p == 2
  {
    assert n * 2 == 4 * (n / 2) + 2 * (n % 2);
    n * 2 % 4
  }

  /** For every odd-length list the padding as written leaves the buffer
      two bytes short of a multiple of 4 (3 indices: 5 elements, 10 bytes). */
  lemma PaddingAsWrittenMisaligns(n: nat)
    requires n % 2 == 1
    ensures (n + PaddingAsWritten(n)) * 2 % 4 == 2
  {
    var m := n / 2;
    assert n == 2 * m + 1;
    assert (n + 2) * 2 == 4 * (m + 1) + 2;
  }

  /** The padding that makes the index buffer a whole number of 4-byte
      words: the byte remainder `n * 2 % 4` converted to 2-byte elements,
      that is one extra `u16` exactly when the count is odd. */
  function Padding(n: nat): (p: nat)
    ensures (n + p) * 2 % 4 == 0
    ensures p < 2
    ensures n % 2 == 0 ==> p == PaddingAsWritten(n)
  {
    var m := n / 2;
    if n % 2 == 0 then
      assert n * 2 == 4 * m;
      0
    else
      assert (n + 1) * 2 == 4 * (m + 1);
      1
  }

  /** The whole index list: the triangles of every rectangle in order,
      and the padding as the program computes it, which is none for these
      18 indices and so agrees with the corrected `Padding`. */
  function AllIndices(): (r: seq<nat>)
    ensures |r| == 18 && |r| * 2 % 4 == 0
  {
    var body := QuadTriangles(0) + QuadTriangles(1) + QuadTriangles(2);
    body + seq(PaddingAsWritten(|body|), _ => 0)
  }

  /** The index list of `Engine::new`: the triangle loop, then the
      padding as the program computes it (none here: 18 indices are 36
      bytes). */
  method BuildIndices() returns (indices: seq<nat>)
    ensures indices == AllIndices()
    ensures |indices| == 18
    ensures forall k | 0 <= k < |indices| :: indices[k] < 4 * Rectangles
    ensures forall r | 0 <= r < Rectangles :: indices[6 * r .. 6 * r + 6] == QuadTriangles(r)
  {
    indices := BuildTriangles();
    var padding := PaddingAsWritten(|indices|);
    assert padding == 0;
    assert indices + seq(padding, _ => 0) == indices;
    indices := indices + seq(padding, _ => 0);
  }

  /** The loop of the index list: six indices per rectangle, the two
      triangles of its four slots. */
  method BuildTriangles() returns (indices: seq<nat>)
    ensures indices == QuadTriangles(0) + QuadTriangles(1) + QuadTriangles(2)
    ensures forall k | 0 <= k < |indices| :: indices[k] < 4 * Rectangles
    ensures forall r | 0 <= r < Rectangles :: indices[6 * r .. 6 * r + 6] == QuadTriangles(r)
  {
    indices := [];
    for i := 0 to Rectangles
      invariant |indices| == 6 * i
      invariant forall r | 0 <= r < i :: indices[6 * r .. 6 * r + 6] == QuadTriangles(r)
      invariant forall k | 0 <= k < |indices| :: indices[k] < 4 * i
    {
      ghost var before := indices;
      indices := indices + [i * 4];
      indices := indices + [i * 4 + 1];
      indices := indices + [i * 4 + 2];
      indices := indices + [i * 4];
      indices := indices + [i * 4 + 2];
      indices := indices + [i * 4 + 3];
      assert indices == before + QuadTriangles(i);
      forall r | 0 <= r < i + 1
        ensures indices[6 * r .. 6 * r + 6] == QuadTriangles(r)
      {
        if r < i {
          assert indices[6 * r .. 6 * r + 6] == before[6 * r .. 6 * r + 6];
        }
      }
    }
    assert indices == indices[0..6] + indices[6..12] + indices[12..18];
  }

  // ---------------------------------------------------------------------
  // Keyboard input
  // ---------------------------------------------------------------------

  datatype Option<T> = Nothing | Some(value: T)

  /** The keys the game reacts to, and every other key. */
  datatype VirtualKey = W | S | ArrowUp | ArrowDown | OtherKey(code: nat)

  datatype ElementState = Pressed | Released

  /** A window event: a key event, whose key code may be unknown, or any
      other event. */
  datatype WindowEvent = KeyboardInput(key: Option<VirtualKey>, state: ElementState) | OtherEvent

  /** The key table: W and S drive the left paddle (0), the arrow keys
      the right one (1); a press selects the command, a release clears it. */
  function Binding(key: VirtualKey): Option<(nat, Input)> {
    match key
    case W => Some((0, Up))
    case S => Some((0, Down))
    case ArrowUp => Some((1, Up))
    case ArrowDown => Some((1, Down))
    case OtherKey(_) => Nothing
  }

  /** The command of paddle k after event e, when it was `current`. Only
      a key bound to paddle k can change it, to the key's command on a
      press and to None on a release. */
  function InputAfter(e: WindowEvent, k: nat, current: Input): (r: Input)
    ensures r != current ==>
      && e.KeyboardInput? && e.key.Some? && Binding(e.key.value).Some?
      && Binding(e.key.value).value.0 == k
      && r == (if e.state == Pressed then Binding(e.key.value).value.1 else None)
  {
    match e
    case KeyboardInput(Some(key), state) =>
      (match Binding(key)
       case Some((player, command)) =>
         if player == k then (if state == Pressed then command else None) else current
       case Nothing => current)
    case _ => current
  }

  /** Pressing W, S, Up or Down sets the matching paddle's command, and
      releasing the key clears it, whatever the command was. */
  lemma KeyTable(current: Input)
    ensures InputAfter(KeyboardInput(Some(W), Pressed), 0, current) == Up
    ensures InputAfter(KeyboardInput(Some(S), Pressed), 0, current) == Down
    ensures InputAfter(KeyboardInput(Some(ArrowUp), Pressed), 1, current) == Up
    ensures InputAfter(KeyboardInput(Some(ArrowDown), Pressed), 1, current) == Down
    ensures forall key | key in {W, S} :: InputAfter(KeyboardInput(Some(key), Released), 0, current) == None
    ensures forall key | key in {ArrowUp, ArrowDown} :: InputAfter(KeyboardInput(Some(key), Released), 1, current) == None
  {
  }

  /** Unbound keys, events without a key code and non-keyboard events
      leave every command as it is. */
  lemma UnboundEventsIgnored(e: WindowEvent, k: nat, current: Input)
    requires !e.KeyboardInput? || e.key.Nothing? || e.key.value.OtherKey?
    ensures InputAfter(e, k, current) == current
  {
  }

  /** A key event changes the command of at most one paddle: the left
      paddle's keys never touch the right one, and the other way round. */
  lemma OneEventOnePaddle(e: WindowEvent, current0: Input, current1: Input)
    ensures InputAfter(e, 0, current0) == current0 || InputAfter(e, 1, current1) == current1
    ensures e.KeyboardInput? && e.key.Some? && e.key.value in {W, S} ==> InputAfter(e, 1, current1) == current1
    ensures e.KeyboardInput? && e.key.Some? && e.key.value in {ArrowUp, ArrowDown} ==> InputAfter(e, 0, current0) == current0
  {
  }

  /** Releasing a key after pressing it leaves the paddle idle, and
      pressing the same key twice is the same as pressing it once. */
  lemma PressThenRelease(key: VirtualKey, k: nat, current: Input)
    requires Binding(key).Some? && Binding(key).value.0 == k
    ensures InputAfter(KeyboardInput(Some(key), Released), k, InputAfter(KeyboardInput(Some(key), Pressed), k, current)) == None
    ensures var pressed := InputAfter(KeyboardInput(Some(key), Pressed), k, current);
      InputAfter(KeyboardInput(Some(key), Pressed), k, pressed) == pressed
  {
  }

  // ---------------------------------------------------------------------
  // The engine
  // ---------------------------------------------------------------------

  /** `Engine`, without its GPU handles: the controller, the vertex list
      mirrored to the vertex buffer, and the index list. */
  class Engine {
    const controller: Controller
    var vertices: seq<Vertex>
    const indices: seq<nat>
    const numIndices: nat

    ghost predicate Valid()
      reads this, controller, controller.players
    {
      && controller.Valid()
      && LaidOut(vertices, controller.players[..], controller.ball)
      && indices == AllIndices()
      && numIndices == |indices|
    }

    /** `Engine::new`: the controller, then the vertex and index lists. */
    constructor (size: Size, serve: Vec2, sqrt: real -> real)
      requires Positive(size) && UnitSample(serve.x) && UnitSample(serve.y)
      ensures Valid() && fresh(controller) && fresh(controller.players)
      ensures controller.State() == Initial(size, serve, sqrt)
      ensures numIndices == 18
    {
      var c := new Controller(size, serve, sqrt);
      var vs := BuildVertices(c.players[..], c.ball);
      var idx := BuildIndices();
      controller := c;
      vertices := vs;
      indices := idx;
      numIndices := |idx|;
    }

    /** `Engine::update`: advances the controller by one frame, then copies
      only the y coordinate of the paddles' corners (their x and depth
      never change) and the whole corners of the ball. */
    method Update(dt: real, s: Samples, sqrt: real -> real)
      requires Valid() && ValidSamples(s)
      modifies this, controller, controller.players
      ensures Valid()
      ensures controller.State() == Step(old(controller.State()), controller.size, dt, s, sqrt)
    {
      ghost var g := controller.State();
      controller.Update(dt, s, sqrt);
      ghost var r := controller.State();
      SameColumns(g, r, controller.size);
      CopyPaddleRows(controller.players[..], controller.ball);
      CopyBall(controller.players[..], controller.ball);
    }

    /** The first copy loop of `Engine::update`: for the eight paddle slots,
      the y coordinate of the matching corner of `players[1]` when bit 2 of
      the slot number is set, of `players[0]` otherwise. */
    method CopyPaddleRows(ps: seq<Player>, b: Ball)
      requires |ps| == 2 && |vertices| == 12
      requires forall k | 0 <= k < 8 ::
        && vertices[k].color == White
        && vertices[k].position.x == SlotCorner(ps, b, k).x
        && vertices[k].position.z == SlotCorner(ps, b, k).z
      modifies this
      ensures |vertices| == 12
      ensures forall k | 0 <= k < 8 :: vertices[k] == Vertex(SlotCorner(ps, b, k), White)
      ensures forall k | 8 <= k < 12 :: vertices[k] == old(vertices[k])
    {
      for i := 0 to 8
        invariant |vertices| == 12
        invariant forall k | 0 <= k < 8 ::
          && vertices[k].color == White
          && vertices[k].position.x == SlotCorner(ps, b, k).x
          && vertices[k].position.z == SlotCorner(ps, b, k).z
        invariant forall k | 0 <= k < i :: vertices[k].position.y == SlotCorner(ps, b, k).y
        invariant forall k | 8 <= k < 12 :: vertices[k] == old(vertices[k])
      {
        var player := if (i as bv8) & (1 << 2) != 0 then 1 else 0;
        SlotBitSelectsPlayer(i);
        vertices := vertices[i := vertices[i].(position := vertices[i].position.(
          y := ps[player].vertices[i % 4].y))];
      }
    }

    /** The second copy loop of `Engine::update`: the four ball slots take
      the ball's corners whole. */
    method CopyBall(ps: seq<Player>, b: Ball)
      requires |ps| == 2 && |vertices| == 12
      requires forall k | 8 <= k < 12 :: vertices[k].color == White
      modifies this
      ensures |vertices| == 12
      ensures forall k | 8 <= k < 12 :: vertices[k] == Vertex(SlotCorner(ps, b, k), White)
      ensures forall k | 0 <= k < 8 :: vertices[k] == old(vertices[k])
    {
      for i := 8 to 12
        invariant |vertices| == 12
        invariant forall k | 8 <= k < i :: vertices[k] == Vertex(SlotCorner(ps, b, k), White)
        invariant forall k | i <= k < 12 :: vertices[k].color == White
        invariant forall k | 0 <= k < 8 :: vertices[k] == old(vertices[k])
      {
        vertices := vertices[i := vertices[i].(position := b.vertices[i % 4])];
      }
    }

    /** `Engine::input`: a key event sets or clears one paddle's command;
      nothing else about the game changes. */
    method Input(e: WindowEvent)
      requires Valid()
      modifies controller.players
      ensures Valid()
      ensures forall k | 0 <= k < 2 ::
        controller.players[k] == old(controller.players[k]).(input := InputAfter(e, k, old(controller.players[k].input)))
    {
      if e.KeyboardInput? && e.key.Some? {
        var key, state := e.key.value, e.state;
        match key
        case W =>
          match state {
            case Pressed => SetInput(0, Up);
            case Released => SetInput(0, None);
          }
        case S =>
          match state {
            case Pressed => SetInput(0, Down);
            case Released => SetInput(0, None);
          }
        case ArrowUp =>
          match state {
            case Pressed => SetInput(1, Up);
            case Released => SetInput(1, None);
          }
        case ArrowDown =>
          match state {
            case Pressed => SetInput(1, Down);
            case Released => SetInput(1, None);
          }
        case OtherKey(_) =>
      }
    }

    /** `self.controller.players[k].input = command`. */
    method SetInput(k: nat, command: Input)
      requires Valid() && k < 2
      modifies controller.players
      ensures Valid()
      ensures controller.players[..] == old(controller.players[..])[k := old(controller.players[k]).(input := command)]
    {
      controller.players[k] := controller.players[k].(input := command);
      assert controller.players[..][k].Consistent(controller.size);
    }
  }

  /** One frame moves the paddles only vertically: every paddle corner
      keeps its clip-space x and depth, which is why `Engine::update` copies
      the y coordinate alone. */
  lemma SameColumns(g: Game, r: Game, size: Size)
    requires ValidGame(g, size) && ValidGame(r, size)
    ensures forall k | 0 <= k < 8 ::
      && SlotCorner(r.players, r.ball, k).x == SlotCorner(g.players, g.ball, k).x
      && SlotCorner(r.players, r.ball, k).z == SlotCorner(g.players, g.ball, k).z
  {
    forall k | 0 <= k < 8
      ensures SlotCorner(r.players, r.ball, k).x == SlotCorner(g.players, g.ball, k).x
      ensures SlotCorner(r.players, r.ball, k).z == SlotCorner(g.players, g.ball, k).z
    {
      var p, q := g.players[k / 4], r.players[k / 4];
      assert p.position.x == q.position.x;
      assert p.vertices == RectCorners(p.position, PaddleWidth, PaddleHeight, size);
      assert q.vertices == RectCorners(q.position, PaddleWidth, PaddleHeight, size);
    }
  }
}
