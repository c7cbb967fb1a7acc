/** The arithmetic behind the viewer's image transform: JavaScript's truncating remainder (used for
  * rotation), the zoom clamp, the CSS transform list the viewer writes after every change, and the pan
  * correction of zooming about a fixed screen point. */
module Transform {

  /** A point or offset in CSS pixels. */
  datatype Point = Point(x: real, y: real)

  function Add(p: Point, q: Point): Point { Point(p.x + q.x, p.y + q.y) }

  function Abs(x: real): real { if x < 0.0 then -x else x }

  function Min(a: real, b: real): real { if a <= b then a else b }

  function Max(a: real, b: real): real { if a >= b then a else b }

  /** The bounding rectangle the browser reports for the main image. */
  datatype Rect = Rect(left: real, top: real, width: real, height: real) {
    function Center(): Point { Point(width / 2.0 + left, height / 2.0 + top) }
  }

  /** The quotient JavaScript's `Math.trunc(a / n)` gives: rounded toward zero. */
  function JsQuot(a: int, n: int): int
    requires n > 0
  {
    if a >= 0 then a / n else -((-a) / n)
  }

  /** JavaScript's `a % n` on integers: it truncates toward zero, so the remainder takes the
    * sign of the dividend (unlike Dafny's Euclidean `%`). */
  function JsRem(a: int, n: int): (r: int)
    requires n > 0
    ensures -n < r < n
    ensures a >= 0 ==> r >= 0
    ensures a <= 0 ==> r <= 0
    ensures a == n * JsQuot(a, n) + r
  {
    if a >= 0 then a % n else -((-a) % n)
  }

  /** The properties above pin the truncated remainder down: no other value has them. */
  lemma JsRemUnique(a: int, n: int, q: int, r: int)
    requires n > 0 && -n < r < n
    requires a >= 0 ==> r >= 0
    requires a <= 0 ==> r <= 0
    requires a == n * q + r
    ensures r == JsRem(a, n)
  {
    var s := JsRem(a, n);
    var k := JsQuot(a, n) - q;
    assert r - s == n * k;
    SmallMultipleIsZero(k, n);
  }

  lemma SmallMultipleIsZero(k: int, n: int)
    requires n > 0 && -n < n * k < n
    ensures k == 0
  {
  }

  /** A rotation taken through JsRem still points the same way: its angle modulo 360 is kept. */
  lemma JsRemSameAngle(a: int)
    ensures JsRem(a, 360) % 360 == a % 360
  {
  }

  const MinZoom: real := 0.5
  const MaxZoom: real := 3.0

  /** Math.max(0.5, Math.min(3, z)): the bounds of wheel, button and keyboard zoom. */
  function ClampZoom(z: real): (r: real)
    ensures MinZoom <= r <= MaxZoom
    ensures MinZoom <= z <= MaxZoom ==> r == z
    ensures z < MinZoom ==> r == MinZoom
    ensures z > MaxZoom ==> r == MaxZoom
  {
    Max(MinZoom, Min(MaxZoom, z))
  }

  /** One function of a CSS transform list. */
  datatype TransformOp = Rotate(degrees: int) | Scale(factor: real) | Translate(dx: real, dy: real)

  /** The list the viewer writes to the image after every change: rotate, then scale, then translate. */
  function ViewTransform(rotation: int, zoom: real, tx: real, ty: real): seq<TransformOp>
  {
    [Rotate(rotation), Scale(zoom), Translate(tx, ty)]
  }

  /** CSS rotate(θ) on screen axes (y pointing down), for θ a whole number of quarter turns. */
  function RotateQuarter(degrees: int, p: Point): Point
    requires degrees % 90 == 0
  {
    var k := (degrees % 360) / 90;
    if k == 0 then p
    else if k == 1 then Point(-p.y, p.x)
    else if k == 2 then Point(-p.x, -p.y)
    else Point(p.y, -p.x)
  }

  /** Every rotation in the list is a whole number of quarter turns. */
  predicate QuarterTurnsOnly(ops: seq<TransformOp>)
    decreases |ops|
  {
    ops == [] || ((ops[0].Rotate? ==> ops[0].degrees % 90 == 0) && QuarterTurnsOnly(ops[1..]))
  }

  function ScalePoint(s: real, p: Point): Point { Point(s * p.x, s * p.y) }

  function ApplyOp(op: TransformOp, p: Point): Point
    requires op.Rotate? ==> op.degrees % 90 == 0
  {
    match op
    case Rotate(d) => RotateQuarter(d, p)
    case Scale(s) => ScalePoint(s, p)
    case Translate(dx, dy) => Point(p.x + dx, p.y + dy)
  }

  /** Where a transform list puts the image-local point p, as an offset from the transform origin:
    * the rightmost function acts on the point first. */
  function Place(ops: seq<TransformOp>, p: Point): Point
    requires QuarterTurnsOnly(ops)
    decreases |ops|
  {
    if ops == [] then p else ApplyOp(ops[0], Place(ops[1..], p))
  }

  /** Rotate → scale → translate means the pan is added in image units, before scaling, and the
    * rotation acts last, on the scaled and panned point. */
  lemma PlaceView(r: int, s: real, tx: real, ty: real, p: Point)
    requires r % 90 == 0
    ensures QuarterTurnsOnly(ViewTransform(r, s, tx, ty))
    ensures Place(ViewTransform(r, s, tx, ty), p) == RotateQuarter(r, ScalePoint(s, Point(p.x + tx, p.y + ty)))
  {
    var ops := ViewTransform(r, s, tx, ty);
    var last := [Translate(tx, ty)];
    var tail := [Scale(s), Translate(tx, ty)];
    assert last[1..] == [] && tail[1..] == last && ops[1..] == tail;
    assert QuarterTurnsOnly(last) && QuarterTurnsOnly(tail) && QuarterTurnsOnly(ops);
    assert Place(last, p) == Point(p.x + tx, p.y + ty);
    assert Place(tail, p) == ScalePoint(s, Point(p.x + tx, p.y + ty));
  }

  lemma RotateQuarterAdds(r: int, p: Point, q: Point)
    requires r % 90 == 0
    ensures RotateQuarter(r, Add(p, q)) == Add(RotateQuarter(r, p), RotateQuarter(r, q))
  {
  }

  /** Adding (dx, dy) / zoom to the pan moves every image point on screen by the pointer's
    * movement (dx, dy) turned by the image's rotation: by exactly (dx, dy) when the image is
    * unrotated, and at right angles to it after one quarter turn. */
  lemma {:induction false} PanStepMovesImage(r: int, s: real, tx: real, ty: real, dx: real, dy: real, p: Point)
    requires r % 90 == 0 && s > 0.0
    ensures QuarterTurnsOnly(ViewTransform(r, s, tx, ty))
    ensures QuarterTurnsOnly(ViewTransform(r, s, tx + dx / s, ty + dy / s))
    ensures Place(ViewTransform(r, s, tx + dx / s, ty + dy / s), p)
         == Add(Place(ViewTransform(r, s, tx, ty), p), RotateQuarter(r, Point(dx, dy)))
  {
    PlaceView(r, s, tx, ty, p);
    PlaceView(r, s, tx + dx / s, ty + dy / s, p);
    var panned := Point(p.x + tx, p.y + ty);
    assert Point(p.x + (tx + dx / s), p.y + (ty + dy / s)) == Add(panned, Point(dx / s, dy / s));
    ScaleUndoesDivision(s, panned, dx, dy);
    RotateQuarterAdds(r, ScalePoint(s, panned), Point(dx, dy));
  }

  lemma ScaleUndoesDivision(s: real, q: Point, dx: real, dy: real)
    requires s != 0.0
    ensures ScalePoint(s, Add(q, Point(dx / s, dy / s))) == Add(ScalePoint(s, q), Point(dx, dy))
  {
  }

  /** The pan correction of anchored zoom in closed form: the anchor's distance from the centre
    * times the change of the reciprocal zoom. */
  function AnchorShift(anchor: real, center: real, from: real, to: real): real
    requires from != 0.0 && to != 0.0
  {
    (anchor - center) * (1.0 / to - 1.0 / from)
  }

  /** The viewer computes the correction in two steps (the anchor mapped back to the unzoomed image,
    * then forward at the new zoom); the result is AnchorShift. */
  lemma AnchorCompensation(anchor: real, center: real, from: real, to: real)
    requires from != 0.0 && to != 0.0
    ensures var before := (anchor - center) / from + center;
            var after := (before - center) * to + center;
            (anchor - after) / to == AnchorShift(anchor, center, from, to)
  {
  }

  /** Anchored zoom keeps the image point under the anchor where it was: if p sits at screen point c
    * (origin o plus its placed offset) at zoom `from`, it still sits at c at zoom `to` once the pan
    * has been corrected by AnchorShift. Shown for an image turned a whole number of times. */
  lemma {:induction false} AnchoredZoomKeepsPoint(r: int, from: real, to: real, tx: real, ty: real, o: Point, c: Point, p: Point)
    requires r % 360 == 0 && from > 0.0 && to > 0.0
    requires QuarterTurnsOnly(ViewTransform(r, from, tx, ty))
    requires Add(o, Place(ViewTransform(r, from, tx, ty), p)) == c
    ensures QuarterTurnsOnly(ViewTransform(r, to, tx + AnchorShift(c.x, o.x, from, to), ty + AnchorShift(c.y, o.y, from, to)))
    ensures Add(o, Place(ViewTransform(r, to, tx + AnchorShift(c.x, o.x, from, to), ty + AnchorShift(c.y, o.y, from, to)), p)) == c
  {
    var tx' := tx + AnchorShift(c.x, o.x, from, to);
    var ty' := ty + AnchorShift(c.y, o.y, from, to);
    PlaceView(r, from, tx, ty, p);
    PlaceView(r, to, tx', ty', p);
    var before := ScalePoint(from, Point(p.x + tx, p.y + ty));
    var after := ScalePoint(to, Point(p.x + tx', p.y + ty'));
    assert RotateQuarter(r, before) == before && RotateQuarter(r, after) == after;
    assert o.x + before.x == c.x && o.y + before.y == c.y;
    AnchorAxis(o.x, c.x, from, to, p.x, tx);
    AnchorAxis(o.y, c.y, from, to, p.y, ty);
  }

  /** On a panned image the correction misses by pan·(to − from). The bounding rectangle the browser
    * reports is the transformed box, so its centre sits at origin + from·pan rather than at the
    * transform origin. Measured from that centre, the image point under the anchor c ends at
    * c + pan·(to − from) instead of c (shown for an unrotated image). */
  lemma {:induction false} AnchoredZoomDriftsWhenPanned(from: real, to: real, tx: real, ty: real, o: Point, c: Point, p: Point)
    requires from > 0.0 && to > 0.0
    requires QuarterTurnsOnly(ViewTransform(0, from, tx, ty))
    requires Add(o, Place(ViewTransform(0, from, tx, ty), p)) == c
    ensures QuarterTurnsOnly(ViewTransform(0, to, tx + AnchorShift(c.x, o.x + from * tx, from, to),
                                                  ty + AnchorShift(c.y, o.y + from * ty, from, to)))
    ensures Add(o, Place(ViewTransform(0, to, tx + AnchorShift(c.x, o.x + from * tx, from, to),
                                              ty + AnchorShift(c.y, o.y + from * ty, from, to)), p))
         == Point(c.x + tx * (to - from), c.y + ty * (to - from))
  {
    var tx' := tx + AnchorShift(c.x, o.x + from * tx, from, to);
    var ty' := ty + AnchorShift(c.y, o.y + from * ty, from, to);
    PlaceView(0, from, tx, ty, p);
    PlaceView(0, to, tx', ty', p);
    var before := ScalePoint(from, Point(p.x + tx, p.y + ty));
    assert o.x + before.x == c.x && o.y + before.y == c.y;
    DriftAxis(o.x, c.x, from, to, p.x, tx);
    DriftAxis(o.y, c.y, from, to, p.y, ty);
  }

  lemma DriftAxis(o: real, c: real, from: real, to: real, p: real, t: real)
    requires from > 0.0 && to > 0.0
    requires o + ScalePoint(from, Point(p + t, 0.0)).x == c
    ensures o + ScalePoint(to, Point(p + (t + AnchorShift(c, o + from * t, from, to)), 0.0)).x == c + t * (to - from)
  {
    var a := c - o;
    assert p + t == a / from;
    calc {
      to * (p + (t + AnchorShift(c, o + from * t, from, to)));
      to * (a / from + (a - from * t) * (1.0 / to - 1.0 / from));
      to * (a / from) + (a - from * t) * (1.0 - to / from);
      a + t * (to - from);
    }
  }

  /** On an image turned a quarter turn the correction, added in unrotated axes, moves the wrong
    * way. Take an unpanned image at rotation 90 and the image point p that sits `a` pixels right of
    * the origin o. After zooming from `from` to `to` about that point, p sits at
    * o + (a·to/from, a·(1 − to/from)), which is not the anchor o + (a, 0) unless a is 0 or the zoom
    * did not change. From 1 to 2 with a = 100 it lands at (200, −100) instead of (100, 0). */
  lemma AnchoredZoomDriftsWhenRotated(from: real, to: real, a: real, o: Point)
    requires from > 0.0 && to > 0.0
    ensures QuarterTurnsOnly(ViewTransform(90, from, 0.0, 0.0))
    ensures Add(o, Place(ViewTransform(90, from, 0.0, 0.0), Point(0.0, -a / from))) == Point(o.x + a, o.y)
    ensures QuarterTurnsOnly(ViewTransform(90, to, AnchorShift(o.x + a, o.x, from, to), AnchorShift(o.y, o.y, from, to)))
    ensures Add(o, Place(ViewTransform(90, to, AnchorShift(o.x + a, o.x, from, to), AnchorShift(o.y, o.y, from, to)),
                         Point(0.0, -a / from)))
         == Point(o.x + a * to / from, o.y + a * (1.0 - to / from))
    ensures a != 0.0 && to != from ==> a * (1.0 - to / from) != 0.0
  {
    var p := Point(0.0, -a / from);
    RotatedBefore(from, a);
    var sx := AnchorShift(o.x + a, o.x, from, to);
    var sy := AnchorShift(o.y, o.y, from, to);
    assert sx == a * (1.0 / to - 1.0 / from) && sy == 0.0;
    RotatedAfter(from, to, a);
    if a != 0.0 && to != from {
      QuotientIsNotOne(to, from);
      NonzeroProduct(a, 1.0 - to / from);
    }
  }

  lemma RotatedBefore(from: real, a: real)
    requires from > 0.0
    ensures QuarterTurnsOnly(ViewTransform(90, from, 0.0, 0.0))
    ensures Place(ViewTransform(90, from, 0.0, 0.0), Point(0.0, -a / from)) == Point(a, 0.0)
  {
    var p := Point(0.0, -a / from);
    PlaceView(90, from, 0.0, 0.0, p);
    QuarterTurnScaled(from, Point(p.x + 0.0, p.y + 0.0));
    RotatedAnchorX(a, from, from);
  }

  lemma RotatedAfter(from: real, to: real, a: real)
    requires from > 0.0 && to > 0.0
    ensures QuarterTurnsOnly(ViewTransform(90, to, a * (1.0 / to - 1.0 / from), 0.0))
    ensures Place(ViewTransform(90, to, a * (1.0 / to - 1.0 / from), 0.0), Point(0.0, -a / from))
         == Point(a * to / from, a * (1.0 - to / from))
  {
    var p := Point(0.0, -a / from);
    var sx := a * (1.0 / to - 1.0 / from);
    PlaceView(90, to, sx, 0.0, p);
    QuarterTurnScaled(to, Point(p.x + sx, p.y + 0.0));
    RotatedAnchorX(a, from, to);
    RotatedAnchorY(a, from, to);
  }

  lemma QuarterTurnScaled(s: real, q: Point)
    ensures RotateQuarter(90, ScalePoint(s, q)) == Point(-(s * q.y), s * q.x)
  {
  }

  lemma RotatedAnchorX(a: real, from: real, to: real)
    requires from > 0.0
    ensures -(to * (-a / from + 0.0)) == a * to / from
  {
  }

  lemma RotatedAnchorY(a: real, from: real, to: real)
    requires from > 0.0 && to > 0.0
    ensures to * (0.0 + (a * (1.0 / to - 1.0 / from))) == a * (1.0 - to / from)
  {
    calc {
      to * (a * (1.0 / to - 1.0 / from));
      a * (to * (1.0 / to) - to * (1.0 / from));
      a * (1.0 - to / from);
    }
  }

  lemma QuotientIsNotOne(to: real, from: real)
    requires from > 0.0 && to != from
    ensures to / from != 1.0
  {
    assert (to / from) * from == to;
  }

  lemma NonzeroProduct(x: real, y: real)
    requires x != 0.0 && y != 0.0
    ensures x * y != 0.0
  {
  }

  lemma AnchorAxis(o: real, c: real, from: real, to: real, p: real, t: real)
    requires from > 0.0 && to > 0.0
    requires o + ScalePoint(from, Point(p + t, 0.0)).x == c
    ensures o + ScalePoint(to, Point(p + (t + AnchorShift(c, o, from, to)), 0.0)).x == c
  {
  }
}
