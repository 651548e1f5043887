/**
 * mlgame/gamedev/physics.py: contact tests between rects, segment
 * intersection by integer cross products, and the two bounce rules.
 * Vector2 coordinates are integers here, since every caller passes rect
 * corners.
 */
module Physics {
  import opened Wrappers
  import opened Exceptions
  import opened Geometry

  // ---- contact between rects ----

  /** `collide_or_contact`: the closed x-intervals and the closed y-intervals both overlap. */
  predicate CollideOrContact(a: Rect, b: Rect) {
    a.left <= b.Right() && a.Right() >= b.left && a.top <= b.Bottom() && a.Bottom() >= b.top
  }

  /** Touching counts: for rects of non-negative size, the test holds iff the two closed rects share a point. */
  lemma CollideOrContactSharesPoint(a: Rect, b: Rect)
    requires a.width >= 0 && a.height >= 0 && b.width >= 0 && b.height >= 0
    ensures CollideOrContact(a, b) <==> exists p :: a.ClosedContains(p) && b.ClosedContains(p)
    ensures CollideOrContact(a, b) == CollideOrContact(b, a)
  {
    if CollideOrContact(a, b) {
      var p := Point(if a.left < b.left then b.left else a.left, if a.top < b.top then b.top else a.top);
      assert a.ClosedContains(p) && b.ClosedContains(p);
    }
  }

  /** `rect_break_or_contact_box`: some edge of the rect is at or beyond the matching box edge. */
  predicate RectBreakOrContactBox(r: Rect, box: Rect) {
    r.left <= box.left || r.Right() >= box.Right() || r.top <= box.top || r.Bottom() >= box.Bottom()
  }

  // ---- segments ----

  /** A line segment given by its two end points, the `(Vector2, Vector2)` tuples of the source. */
  datatype Segment = Segment(p: Point, q: Point)

  function Cross(ux: int, uy: int, wx: int, wy: int): int { ux * wy - uy * wx }

  predicate SharesEndpoint(a: Segment, b: Segment) {
    a.p == b.p || a.q == b.p || a.p == b.q || a.q == b.q
  }

  /** The determinant `v0.x * v1.y - v0.y * v1.x` of the two direction vectors. */
  function Det(a: Segment, b: Segment): int {
    Cross(a.q.x - a.p.x, a.q.y - a.p.y, b.q.x - b.p.x, b.q.y - b.p.y)
  }

  function SDet(a: Segment, b: Segment): int {
    Cross(b.q.x - b.p.x, b.q.y - b.p.y, a.p.x - b.p.x, a.p.y - b.p.y)
  }

  function TDet(a: Segment, b: Segment): int {
    Cross(a.q.x - a.p.x, a.q.y - a.p.y, a.p.x - b.p.x, a.p.y - b.p.y)
  }

  /** `line_intersect` */
  predicate LineIntersect(a: Segment, b: Segment) {
    if SharesEndpoint(a, b) then true
    else
      var det := Det(a, b);
      if det == 0 then false
      else
        var s := SDet(a, b);
        var t := TDet(a, b);
        (det > 0 && 0 <= s <= det && 0 <= t <= det) || (det < 0 && det <= s <= 0 && det <= t <= 0)
  }

  /**
   * Reference meaning of a point on a segment, kept in integers: the point
   * (X/d, Y/d) equals p + (k/d)(q - p) with 0 <= k/d <= 1.
   */
  predicate OnSegment(g: Segment, X: int, Y: int, d: int, k: int) {
    d > 0 && 0 <= k <= d && X == d * g.p.x + k * (g.q.x - g.p.x) && Y == d * g.p.y + k * (g.q.y - g.p.y)
  }

  /** The two segments have a common point. */
  ghost predicate SegmentsMeet(a: Segment, b: Segment) {
    exists X, Y, d, s, t :: OnSegment(a, X, Y, d, s) && OnSegment(b, X, Y, d, t)
  }

  /**
   * Cramer's rule in integers, for segments (p, q) and (r, w): the point
   * p + (s_det/det)(q - p) equals r + (t_det/det)(w - r), scaled by det.
   */
  lemma CramerPoint(px: int, py: int, qx: int, qy: int, rx: int, ry: int, wx: int, wy: int)
    ensures var v0x, v0y, v1x, v1y, dux, duy := qx - px, qy - py, wx - rx, wy - ry, px - rx, py - ry;
      var det := v0x * v1y - v0y * v1x;
      var sd := v1x * duy - v1y * dux;
      var td := v0x * duy - v0y * dux;
      det * px + sd * v0x == det * rx + td * v1x && det * py + sd * v0y == det * ry + td * v1y
  {
    var v0x, v0y, v1x, v1y, dux, duy := qx - px, qy - py, wx - rx, wy - ry, px - rx, py - ry;
    var det := v0x * v1y - v0y * v1x;
    CramerAxis(v0x, v0y, v1x, v1y, dux, duy);
    CramerAxis(v0y, v0x, v1y, v1x, duy, dux);
    Distribute(det, px, rx);
    Distribute(det, py, ry);
  }

  /** One coordinate of Cramer's rule: det * du + s_det * v0 - t_det * v1 vanishes. */
  lemma CramerAxis(v0x: int, v0y: int, v1x: int, v1y: int, dux: int, duy: int)
    ensures (v0x * v1y - v0y * v1x) * dux + (v1x * duy - v1y * dux) * v0x - (v0x * duy - v0y * dux) * v1x == 0
  {
    var det := v0x * v1y - v0y * v1x;
    var sd := v1x * duy - v1y * dux;
    var td := v0x * duy - v0y * dux;
    assert det * dux == v0x * v1y * dux - v0y * v1x * dux;
    assert sd * v0x == v1x * duy * v0x - v1y * dux * v0x;
    assert td * v1x == v0x * duy * v1x - v0y * dux * v1x;
  }

  /** From 0 <= k <= d and k * e == d * ke with d, e positive: 0 <= ke <= e. */
  lemma BoundFromScaled(k: int, d: int, e: int, ke: int)
    requires d > 0 && e > 0 && 0 <= k <= d && k * e == d * ke
    ensures 0 <= ke <= e
  {
    ScaleBound(k, d, e);
    assert 0 * d <= ke * d && ke * d <= e * d;
    CancelPositive(0, ke, d);
    CancelPositive(ke, e, d);
  }

  lemma NegateBoth(k: int, det: int, d: int, kd: int)
    requires k * det == d * kd
    ensures k * (-det) == d * (-kd)
  {
  }

  lemma Distribute(k: int, a: int, b: int)
    ensures k * a - k * b == k * (a - b)
  {
  }

  /** Whenever `line_intersect` answers true, the two segments do have a common point. */
  lemma LineIntersectSound(a: Segment, b: Segment)
    requires LineIntersect(a, b)
    ensures SegmentsMeet(a, b)
  {
    if a.p == b.p {
      assert OnSegment(a, a.p.x, a.p.y, 1, 0) && OnSegment(b, a.p.x, a.p.y, 1, 0);
    } else if a.q == b.p {
      assert OnSegment(a, a.q.x, a.q.y, 1, 1) && OnSegment(b, a.q.x, a.q.y, 1, 0);
    } else if a.p == b.q {
      assert OnSegment(a, a.p.x, a.p.y, 1, 0) && OnSegment(b, a.p.x, a.p.y, 1, 1);
    } else if a.q == b.q {
      assert OnSegment(a, a.q.x, a.q.y, 1, 1) && OnSegment(b, a.q.x, a.q.y, 1, 1);
    } else {
      CramerPoint(a.p.x, a.p.y, a.q.x, a.q.y, b.p.x, b.p.y, b.q.x, b.q.y);
      var det, s, t := Det(a, b), SDet(a, b), TDet(a, b);
      var X, Y := det * a.p.x + s * (a.q.x - a.p.x), det * a.p.y + s * (a.q.y - a.p.y);
      assert X == det * b.p.x + t * (b.q.x - b.p.x) && Y == det * b.p.y + t * (b.q.y - b.p.y);
      if det > 0 {
        assert OnSegment(a, X, Y, det, s) && OnSegment(b, X, Y, det, t);
      } else {
        NegateScaled(X, Y, det, s, a);
        NegateScaled(X, Y, det, t, b);
        assert OnSegment(a, -X, -Y, -det, -s) && OnSegment(b, -X, -Y, -det, -t);
      }
    }
  }

  lemma NegateScaled(X: int, Y: int, d: int, k: int, g: Segment)
    requires X == d * g.p.x + k * (g.q.x - g.p.x) && Y == d * g.p.y + k * (g.q.y - g.p.y)
    ensures -X == (-d) * g.p.x + (-k) * (g.q.x - g.p.x) && -Y == (-d) * g.p.y + (-k) * (g.q.y - g.p.y)
  {
  }

  /** Dividing an inequality by a positive factor. */
  lemma CancelPositive(x: int, y: int, d: int)
    requires d > 0 && x * d <= y * d
    ensures x <= y
  {
  }

  lemma ScaleBound(k: int, d: int, det: int)
    requires 0 <= k <= d && det > 0
    ensures 0 <= k * det <= d * det
  {
    assert (d - k) * det >= 0;
    assert d * det - k * det == (d - k) * det;
  }

  /** If d * du + s * v0 - t * v1 is the zero vector, then s * det == d * s_det and t * det == d * t_det. */
  lemma SolutionUnique(d: int, s: int, t: int, v0x: int, v0y: int, v1x: int, v1y: int, dux: int, duy: int)
    requires d * dux + s * v0x - t * v1x == 0 && d * duy + s * v0y - t * v1y == 0
    ensures s * (v0x * v1y - v0y * v1x) == d * (v1x * duy - v1y * dux)
    ensures t * (v0x * v1y - v0y * v1x) == d * (v0x * duy - v0y * dux)
  {
    var e1, e2 := d * dux + s * v0x - t * v1x, d * duy + s * v0y - t * v1y;
    assert e1 * v1y - e2 * v1x == 0;
    assert e1 * v1y == d * dux * v1y + s * v0x * v1y - t * v1x * v1y;
    assert e2 * v1x == d * duy * v1x + s * v0y * v1x - t * v1y * v1x;
    assert v0x * e2 - v0y * e1 == 0;
    assert v0x * e2 == v0x * d * duy + v0x * s * v0y - v0x * t * v1y;
    assert v0y * e1 == v0y * d * dux + v0y * s * v0x - v0y * t * v1x;
  }

  /** A common point pins the solution: s * det == d * s_det and t * det == d * t_det. */
  lemma MeetingFixesParameters(a: Segment, b: Segment, X: int, Y: int, d: int, s: int, t: int)
    requires OnSegment(a, X, Y, d, s) && OnSegment(b, X, Y, d, t)
    ensures s * Det(a, b) == d * SDet(a, b)
    ensures t * Det(a, b) == d * TDet(a, b)
  {
    var dux, duy := a.p.x - b.p.x, a.p.y - b.p.y;
    var v0x, v0y, v1x, v1y := a.q.x - a.p.x, a.q.y - a.p.y, b.q.x - b.p.x, b.q.y - b.p.y;
    Distribute(d, a.p.x, b.p.x);
    Distribute(d, a.p.y, b.p.y);
    assert d * dux + s * v0x - t * v1x == 0 && d * duy + s * v0y - t * v1y == 0;
    SolutionUnique(d, s, t, v0x, v0y, v1x, v1y, dux, duy);
    assert Det(a, b) == v0x * v1y - v0y * v1x;
    assert SDet(a, b) == v1x * duy - v1y * dux && TDet(a, b) == v0x * duy - v0y * dux;
  }

  /**
   * For segments that share no end point, `line_intersect` is exactly
   * "not parallel and meeting": parallel segments are reported apart even
   * when they overlap.
   */
  lemma LineIntersectIff(a: Segment, b: Segment)
    requires !SharesEndpoint(a, b)
    ensures LineIntersect(a, b) <==> Det(a, b) != 0 && SegmentsMeet(a, b)
  {
    if LineIntersect(a, b) {
      LineIntersectSound(a, b);
    }
    if Det(a, b) != 0 && SegmentsMeet(a, b) {
      var X, Y, d, s, t :| OnSegment(a, X, Y, d, s) && OnSegment(b, X, Y, d, t);
      MeetingFixesParameters(a, b, X, Y, d, s, t);
      var det, sd, td := Det(a, b), SDet(a, b), TDet(a, b);
      if det > 0 {
        BoundFromScaled(s, d, det, sd);
        BoundFromScaled(t, d, det, td);
      } else {
        NegateBoth(s, det, d, sd);
        NegateBoth(t, det, d, td);
        BoundFromScaled(s, d, -det, -sd);
        BoundFromScaled(t, d, -det, -td);
      }
    }
  }

  /** These two collinear segments overlap on [1, 2] x {0} ... */
  lemma CollinearOverlapMeets()
    ensures SegmentsMeet(Segment(Point(0, 0), Point(2, 0)), Segment(Point(1, 0), Point(3, 0)))
  {
    var a, b := Segment(Point(0, 0), Point(2, 0)), Segment(Point(1, 0), Point(3, 0));
    assert OnSegment(a, 2, 0, 2, 1);
    assert OnSegment(b, 2, 0, 2, 0);
  }

  /** ... yet `line_intersect` reports them apart, because their determinant is 0. */
  lemma CollinearOverlapMissed()
    ensures !LineIntersect(Segment(Point(0, 0), Point(2, 0)), Segment(Point(1, 0), Point(3, 0)))
  {
    var a, b := Segment(Point(0, 0), Point(2, 0)), Segment(Point(1, 0), Point(3, 0));
    assert !SharesEndpoint(a, b);
    assert Det(a, b) == 0;
  }

  lemma SegmentsMeetSymmetric(a: Segment, b: Segment)
    ensures SegmentsMeet(a, b) == SegmentsMeet(b, a)
  {
    if SegmentsMeet(a, b) {
      var X, Y, d, s, t :| OnSegment(a, X, Y, d, s) && OnSegment(b, X, Y, d, t);
      assert OnSegment(b, X, Y, d, t) && OnSegment(a, X, Y, d, s);
    }
    if SegmentsMeet(b, a) {
      var X, Y, d, s, t :| OnSegment(b, X, Y, d, s) && OnSegment(a, X, Y, d, t);
      assert OnSegment(a, X, Y, d, t) && OnSegment(b, X, Y, d, s);
    }
  }

  /** The order of the two segments does not matter. */
  lemma LineIntersectSymmetric(a: Segment, b: Segment)
    ensures LineIntersect(a, b) == LineIntersect(b, a)
  {
    if !SharesEndpoint(a, b) {
      LineIntersectIff(a, b);
      LineIntersectIff(b, a);
      SegmentsMeetSymmetric(a, b);
      assert Det(b, a) == -Det(a, b);
    }
  }

  // ---- rect against segment ----

  function TopEdge(r: Rect): Segment { Segment(r.TopLeft(), r.TopRight()) }
  function BottomEdge(r: Rect): Segment { Segment(r.BottomLeft(), r.BottomRight()) }
  function LeftEdge(r: Rect): Segment { Segment(r.TopLeft(), r.BottomLeft()) }
  function RightEdge(r: Rect): Segment { Segment(r.TopRight(), r.BottomRight()) }

  /** `rect_collideline`: an end point inside the closed rect, or an intersection with one of its four edges. */
  predicate RectCollideLine(r: Rect, l: Segment) {
    r.Inflated().CollidePoint(l.p) || r.Inflated().CollidePoint(l.q) ||
    LineIntersect(TopEdge(r), l) || LineIntersect(BottomEdge(r), l) ||
    LineIntersect(LeftEdge(r), l) || LineIntersect(RightEdge(r), l)
  }

  /** The closed rect contains the point (X/d, Y/d). */
  predicate ScaledInRect(r: Rect, X: int, Y: int, d: int) {
    d * r.left <= X <= d * r.Right() && d * r.top <= Y <= d * r.Bottom()
  }

  lemma ScaleWithin(k: int, d: int, w: int)
    requires 0 <= k <= d && w >= 0
    ensures 0 <= k * w <= d * w
  {
    assert (d - k) * w >= 0;
    assert d * w - k * w == (d - k) * w;
  }

  lemma EdgePointInRect(r: Rect, e: Segment, X: int, Y: int, d: int, k: int)
    requires r.width >= 0 && r.height >= 0
    requires e == TopEdge(r) || e == BottomEdge(r) || e == LeftEdge(r) || e == RightEdge(r)
    requires OnSegment(e, X, Y, d, k)
    ensures ScaledInRect(r, X, Y, d)
  {
    ScaleWithin(k, d, r.width);
    ScaleWithin(k, d, r.height);
    assert d * r.Right() == d * r.left + d * r.width;
    assert d * r.Bottom() == d * r.top + d * r.height;
    assert 0 <= d * r.left - d * r.left + d * r.width;
  }

  /** Whenever `rect_collideline` answers true, the segment has a point in the closed rect. */
  lemma RectCollideLineSound(r: Rect, l: Segment)
    requires r.width >= 0 && r.height >= 0
    requires RectCollideLine(r, l)
    ensures exists X, Y, d, k :: OnSegment(l, X, Y, d, k) && ScaledInRect(r, X, Y, d)
  {
    if r.Inflated().CollidePoint(l.p) {
      assert OnSegment(l, l.p.x, l.p.y, 1, 0) && ScaledInRect(r, l.p.x, l.p.y, 1);
    } else if r.Inflated().CollidePoint(l.q) {
      assert OnSegment(l, l.q.x, l.q.y, 1, 1) && ScaledInRect(r, l.q.x, l.q.y, 1);
    } else {
      var e := if LineIntersect(TopEdge(r), l) then TopEdge(r)
        else if LineIntersect(BottomEdge(r), l) then BottomEdge(r)
        else if LineIntersect(LeftEdge(r), l) then LeftEdge(r)
        else RightEdge(r);
      LineIntersectSound(e, l);
      var X, Y, d, s, t :| OnSegment(e, X, Y, d, s) && OnSegment(l, X, Y, d, t);
      EdgePointInRect(r, e, X, Y, d, s);
    }
  }

  // ---- moving contact ----

  /** The paths of the four corners of a moving rect from its last position to its current one. */
  function Routines(rect: Rect, lastPos: Rect): seq<Segment> {
    [Segment(lastPos.TopLeft(), rect.TopLeft()), Segment(lastPos.TopRight(), rect.TopRight()),
     Segment(lastPos.BottomLeft(), rect.BottomLeft()), Segment(lastPos.BottomRight(), rect.BottomRight())]
  }

  /** A corner path counts when it did not start on the target and it reaches the target. */
  predicate RoutineHits(target: Rect, g: Segment) {
    !target.Inflated().CollidePoint(g.p) && RectCollideLine(target, g)
  }

  /** `moving_collide_or_contact` */
  predicate MovingCollideOrContact(rect: Rect, lastPos: Rect, target: Rect) {
    var rs := Routines(rect, lastPos);
    RoutineHits(target, rs[0]) || RoutineHits(target, rs[1]) || RoutineHits(target, rs[2]) || RoutineHits(target, rs[3])
  }

  /** A reported moving contact has a corner that started outside the closed target and whose path reaches it. */
  lemma MovingContactSound(rect: Rect, lastPos: Rect, target: Rect)
    requires target.width >= 0 && target.height >= 0
    requires MovingCollideOrContact(rect, lastPos, target)
    ensures exists i :: (0 <= i < 4 && !target.ClosedContains(Routines(rect, lastPos)[i].p) &&
      (exists X, Y, d, k :: OnSegment(Routines(rect, lastPos)[i], X, Y, d, k) && ScaledInRect(target, X, Y, d)))
  {
    var rs := Routines(rect, lastPos);
    var i := if RoutineHits(target, rs[0]) then 0 else if RoutineHits(target, rs[1]) then 1
      else if RoutineHits(target, rs[2]) then 2 else 3;
    RectCollideLineSound(target, rs[i]);
  }

  // ---- bouncing ----

  /** A rect with its speed, the pair `bounce_off` and `bounce_in_box` return. */
  datatype Motion = Motion(rect: Rect, speed: Vec)

  /**
   * One axis of `bounce_off_ip`: the surface distance, and the position to
   * move to on that axis, which the fallback branch leaves unassigned.
   */
  datatype AxisContact = AxisContact(surface: int, extract: Option<int>)

  function AxisContactOf(nearDiff: int, farDiff: int, nearPos: int, farPos: int, speedDiff: int): (c: AxisContact)
    ensures speedDiff != 0 && c.extract.None? ==> (c.surface as real) / (speedDiff as real) < 0.0
  {
    if nearDiff < 0 && farDiff < 0 then AxisContact(nearDiff, Some(nearPos))
    else if nearDiff > 0 && farDiff > 0 then AxisContact(farDiff, Some(farPos))
    else AxisContact(if speedDiff > 0 then -1 else 1, None)
  }

  function YContact(b: Rect, s: Vec, hit: Rect, hs: Vec): AxisContact {
    var dy := s.y - hs.y;
    AxisContactOf(hit.Bottom() - b.top + dy, hit.top - b.Bottom() + dy, hit.Bottom(), hit.top - b.height, dy)
  }

  function XContact(b: Rect, s: Vec, hit: Rect, hs: Vec): AxisContact {
    var dx := s.x - hs.x;
    AxisContactOf(hit.Right() - b.left + dx, hit.left - b.Right() + dx, hit.Right(), hit.left - b.width, dx)
  }

  function HitTime(c: AxisContact, speedDiff: int): real
    requires speedDiff != 0
  {
    (c.surface as real) / (speedDiff as real)
  }

  /** Which axes `bounce_off_ip` flips: (x, y). */
  function BounceFlips(b: Rect, s: Vec, hit: Rect, hs: Vec): (f: (bool, bool))
    requires s.x != hs.x && s.y != hs.y
    ensures f.0 ==> XContact(b, s, hit, hs).extract.Some?
    ensures f.1 ==> YContact(b, s, hit, hs).extract.Some?
  {
    var ty := HitTime(YContact(b, s, hit, hs), s.y - hs.y);
    var tx := HitTime(XContact(b, s, hit, hs), s.x - hs.x);
    (tx >= 0.0 && ty <= tx, ty >= 0.0 && ty >= tx)
  }

  /**
   * `bounce_off`: the bounce of `bounce_off_ip` applied to copies. Each
   * speed component is kept or negated, the rect moves only on a flipped
   * axis, and then it lands flush against a face of the hit rect. A zero
   * relative speed on either axis raises ZeroDivisionError.
   */
  function BounceOff(b: Rect, s: Vec, hit: Rect, hs: Vec): (r: Result<Motion, PyException>)
    ensures r.Failure? <==> s.x == hs.x || s.y == hs.y
    ensures r.Failure? ==> r.error == ZeroDivisionError
    ensures r.Success? ==> r.value.rect.width == b.width && r.value.rect.height == b.height
    ensures r.Success? ==> r.value.speed.x == s.x || r.value.speed.x == -s.x
    ensures r.Success? ==> r.value.speed.y == s.y || r.value.speed.y == -s.y
    ensures r.Success? && r.value.rect.left != b.left ==>
      r.value.speed.x == -s.x && (r.value.rect.left == hit.Right() || r.value.rect.Right() == hit.left)
    ensures r.Success? && r.value.rect.top != b.top ==>
      r.value.speed.y == -s.y && (r.value.rect.top == hit.Bottom() || r.value.rect.Bottom() == hit.top)
  {
    if s.y == hs.y || s.x == hs.x then Failure(ZeroDivisionError)
    else
      var f := BounceFlips(b, s, hit, hs);
      var r1 := if f.1 then b.WithTop(YContact(b, s, hit, hs).extract.value) else b;
      var r2 := if f.0 then r1.WithLeft(XContact(b, s, hit, hs).extract.value) else r1;
      Success(Motion(r2, Vec(if f.0 then -s.x else s.x, if f.1 then -s.y else s.y)))
  }

  /**
   * A rect that was fully above the hit rect one frame ago, moving down
   * relative to it, and that overlapped it horizontally then, bounces
   * upward: its y speed is negated, its x speed is kept, and its bottom is
   * put on the hit rect's top.
   */
  lemma BounceOffFromAbove(b: Rect, s: Vec, hit: Rect, hs: Vec)
    requires hit.height >= 0 && s.x != hs.x
    requires s.y - hs.y > 0
    requires hit.top - b.Bottom() + (s.y - hs.y) > 0
    requires !(hit.Right() - b.left + (s.x - hs.x) < 0 && hit.left - b.Right() + (s.x - hs.x) < 0)
    requires !(hit.Right() - b.left + (s.x - hs.x) > 0 && hit.left - b.Right() + (s.x - hs.x) > 0)
    requires b.height >= 0
    ensures BounceOff(b, s, hit, hs) == Success(Motion(b.WithBottom(hit.top), Vec(s.x, -s.y)))
  {
    var dy := s.y - hs.y;
    var cy := YContact(b, s, hit, hs);
    assert cy == AxisContact(hit.top - b.Bottom() + dy, Some(hit.top - b.height));
    var ty := HitTime(cy, dy);
    assert ty > 0.0;
    var cx := XContact(b, s, hit, hs);
    assert cx.extract.None?;
    var f := BounceFlips(b, s, hit, hs);
    assert !f.0 && f.1;
  }

  /** `bounce_off_ip`: the rect object and the speed list end as `bounce_off` computes, or stay as they were when it raises. */
  method BounceOffIp(b: RectRef, speed: array<int>, hit: Rect, hs: Vec) returns (o: Outcome<PyException>)
    requires speed.Length == 2
    modifies b, speed
    ensures match BounceOff(old(b.rect), Vec(old(speed[0]), old(speed[1])), hit, hs)
      case Failure(e) => o == Fail(e) && b.rect == old(b.rect) && speed[..] == old(speed[..])
      case Success(m) => o == Pass && b.rect == m.rect && speed[..] == [m.speed.x, m.speed.y]
  {
    var diffX := speed[0] - hs.x;
    var diffY := speed[1] - hs.y;
    if diffY == 0 || diffX == 0 {
      return Fail(ZeroDivisionError);
    }
    var cy := YContact(b.rect, Vec(speed[0], speed[1]), hit, hs);
    var cx := XContact(b.rect, Vec(speed[0], speed[1]), hit, hs);
    var timeY := HitTime(cy, diffY);
    var timeX := HitTime(cx, diffX);
    if timeY >= 0.0 && timeY >= timeX {
      speed[1] := -speed[1];
      b.rect := b.rect.WithTop(cy.extract.value);
    }
    if timeX >= 0.0 && timeY <= timeX {
      speed[0] := -speed[0];
      b.rect := b.rect.WithLeft(cx.extract.value);
    }
    o := Pass;
  }

  /**
   * `bounce_in_box`: `bounce_in_box_ip` applied to copies. On each axis the
   * rect is clamped to the first box edge it reaches or crosses (left before
   * right, top before bottom) and that speed component is negated once; an
   * axis that needs no clamp keeps its position and speed.
   */
  function BounceInBox(b: Rect, s: Vec, box: Rect): (m: Motion)
    ensures m.rect.width == b.width && m.rect.height == b.height
    ensures b.left <= box.left ==> m.rect.left == box.left && m.speed.x == -s.x
    ensures box.left < b.left && box.Right() <= b.Right() ==> m.rect.Right() == box.Right() && m.speed.x == -s.x
    ensures box.left < b.left && b.Right() < box.Right() ==> m.rect.left == b.left && m.speed.x == s.x
    ensures b.top <= box.top ==> m.rect.top == box.top && m.speed.y == -s.y
    ensures box.top < b.top && box.Bottom() <= b.Bottom() ==> m.rect.Bottom() == box.Bottom() && m.speed.y == -s.y
    ensures box.top < b.top && b.Bottom() < box.Bottom() ==> m.rect.top == b.top && m.speed.y == s.y
  {
    var rx := if b.left <= box.left then b.WithLeft(box.left)
      else if b.Right() >= box.Right() then b.WithRight(box.Right()) else b;
    var sx := if b.left <= box.left || b.Right() >= box.Right() then -s.x else s.x;
    var ry := if rx.top <= box.top then rx.WithTop(box.top)
      else if rx.Bottom() >= box.Bottom() then rx.WithBottom(box.Bottom()) else rx;
    var sy := if rx.top <= box.top || rx.Bottom() >= box.Bottom() then -s.y else s.y;
    Motion(ry, Vec(sx, sy))
  }

  /** A rect no larger than the box ends inside the closed box after `bounce_in_box`. */
  lemma BounceInBoxStaysInside(b: Rect, s: Vec, box: Rect)
    requires 0 <= b.width <= box.width && 0 <= b.height <= box.height
    ensures var m := BounceInBox(b, s, box);
      box.left <= m.rect.left && m.rect.Right() <= box.Right() &&
      box.top <= m.rect.top && m.rect.Bottom() <= box.Bottom()
  {
  }

  /** When `rect_break_or_contact_box` is false, `bounce_in_box` changes nothing. */
  lemma BounceInBoxNeedsContact(b: Rect, s: Vec, box: Rect)
    ensures !RectBreakOrContactBox(b, box) ==> BounceInBox(b, s, box) == Motion(b, s)
    ensures BounceInBox(b, s, box) != Motion(b, s) ==> RectBreakOrContactBox(b, box)
  {
  }

  /** `bounce_in_box_ip`: the rect object and the speed list end as `bounce_in_box` computes. */
  method BounceInBoxIp(b: RectRef, speed: array<int>, box: Rect)
    requires speed.Length == 2
    modifies b, speed
    ensures b.rect == BounceInBox(old(b.rect), Vec(old(speed[0]), old(speed[1])), box).rect
    ensures speed[..] == [BounceInBox(old(b.rect), Vec(old(speed[0]), old(speed[1])), box).speed.x,
                          BounceInBox(old(b.rect), Vec(old(speed[0]), old(speed[1])), box).speed.y]
  {
    if b.rect.left <= box.left {
      b.rect := b.rect.WithLeft(box.left);
      speed[0] := -speed[0];
    } else if b.rect.Right() >= box.Right() {
      b.rect := b.rect.WithRight(box.Right());
      speed[0] := -speed[0];
    }
    if b.rect.top <= box.top {
      b.rect := b.rect.WithTop(box.top);
      speed[1] := -speed[1];
    } else if b.rect.Bottom() >= box.Bottom() {
      b.rect := b.rect.WithBottom(box.Bottom());
      speed[1] := -speed[1];
    }
  }
}
