/** The affine maps between play-field pixels and normalised device
    coordinates that the game hands to its renderer (`Engine`'s
    `screen_space_to_clip_space` and `clip_space_to_screen_space`). */
module Projection {

  /** A physical window size in pixels (two `u32`s in the program). */
  datatype Size = Size(width: nat, height: nat)

  /** The maps divide by both dimensions: callers keep them positive. */
  predicate Positive(size: Size) {
    size.width > 0 && size.height > 0
  }

  /** A three-component vertex position (`[f32; 3]`). */
  datatype Point3 = Point3(x: real, y: real, z: real)

  /** Pixel space to clip space: [0, width] x [0, height] onto [-1, 1]^2,
      with the depth fixed at 1. */
  function ScreenToClip(p: Point3, size: Size): (c: Point3)
    requires Positive(size)
    ensures c.z == 1.0
  {
    var w, h := size.width as real, size.height as real;
    Point3(2.0 * (p.x / w) - 1.0, 2.0 * (p.y / h) - 1.0, 1.0)
  }

  /** A pixel lies inside the window exactly when its projection lies
      inside the clip square [-1, 1]^2. */
  lemma ScreenToClipRange(p: Point3, size: Size)
    requires Positive(size)
    ensures var c := ScreenToClip(p, size);
      && (0.0 <= p.x <= size.width as real <==> -1.0 <= c.x <= 1.0)
      && (0.0 <= p.y <= size.height as real <==> -1.0 <= c.y <= 1.0)
  {
    ScaleFacts(p.x, size.width as real);
    ScaleFacts(p.y, size.height as real);
  }

  /** Clip space back to pixel space, depth again fixed at 1. */
  function ClipToScreen(c: Point3, size: Size): (p: Point3)
    requires Positive(size)
    ensures p.z == 1.0
  {
    Point3((c.x + 1.0) / 2.0 * size.width as real, (c.y + 1.0) / 2.0 * size.height as real, 1.0)
  }

  /** Division by a positive extent: it undoes multiplication, keeps order,
      and maps [0, w] onto [0, 1]. */
  lemma ScaleFacts(v: real, w: real)
    requires w > 0.0
    ensures (v / w) * w == v
    ensures 0.0 <= v <= w <==> 0.0 <= v / w <= 1.0
  {
    var q := v / w;
    assert q * w == v;
    if 0.0 <= v <= w {
      assert 0.0 <= q;
      assert q <= 1.0;
    }
    if 0.0 <= q <= 1.0 {
      assert 0.0 <= q * w;
      assert q * w <= 1.0 * w;
    }
  }

  /** Unprojecting a projected pixel gives back its x and y. */
  lemma ScreenClipRoundTrip(p: Point3, size: Size)
    requires Positive(size)
    ensures ClipToScreen(ScreenToClip(p, size), size) == Point3(p.x, p.y, 1.0)
  {
    ScaleFacts(p.x, size.width as real);
    ScaleFacts(p.y, size.height as real);
  }

  /** Projecting an unprojected clip-space point gives back its x and y. */
  lemma ClipScreenRoundTrip(c: Point3, size: Size)
    requires Positive(size)
    ensures ScreenToClip(ClipToScreen(c, size), size) == Point3(c.x, c.y, 1.0)
  {
    var w, h := size.width as real, size.height as real;
    var a, b := (c.x + 1.0) / 2.0, (c.y + 1.0) / 2.0;
    assert ClipToScreen(c, size) == Point3(a * w, b * h, 1.0);
    DivCancel(a, w);
    DivCancel(b, h);
  }

  lemma DivCancel(a: real, w: real)
    requires w > 0.0
    ensures (a * w) / w == a
  {
  }
}
