/**
 * essential/physics.py: the older physics helpers. Its `bounce_off_ip`
 * decides each axis from the signs of two integer differences, without the
 * hit-time division of the newer version, and its `bounce_in_box` reports
 * whether it clamped anything.
 */
module EssentialPhysics {
  import opened Wrappers
  import opened Geometry
  import Physics

  /** `collide_or_tangent`: closed-interval overlap on both axes. */
  predicate CollideOrTangent(a: Rect, b: Rect) {
    a.left <= b.Right() && a.Right() >= b.left && a.top <= b.Bottom() && a.Bottom() >= b.top
  }

  /** The older test and the newer `collide_or_contact` agree on every pair of rects. */
  lemma TangentIsContact(a: Rect, b: Rect)
    ensures CollideOrTangent(a, b) == Physics.CollideOrContact(a, b)
  {
  }

  /**
   * The result of the older `bounce_off_ip`. On each axis: when the
   * bouncing rect was entirely past the far face of the hit rect one frame
   * ago it is put against that face and the component is negated; when it
   * was entirely before the near face it is put against the near face and
   * the component is negated; otherwise that axis is untouched.
   */
  function BounceOff(b: Rect, s: Vec, hit: Rect, hs: Vec): (m: Physics.Motion)
    ensures m.rect.width == b.width && m.rect.height == b.height
    ensures m.speed.x == s.x || m.speed.x == -s.x
    ensures m.speed.y == s.y || m.speed.y == -s.y
    ensures m.rect.top != b.top ==> m.speed.y == -s.y && (m.rect.top == hit.Bottom() || m.rect.Bottom() == hit.top)
    ensures m.rect.left != b.left ==> m.speed.x == -s.x && (m.rect.left == hit.Right() || m.rect.Right() == hit.left)
  {
    var dx, dy := s.x - hs.x, s.y - hs.y;
    var diffTB, diffBT := b.top - hit.Bottom() - dy, b.Bottom() - hit.top - dy;
    var diffLR, diffRL := b.left - hit.Right() - dx, b.Right() - hit.left - dx;
    var ry := if diffTB > 0 && diffBT > 0 then b.WithTop(hit.Bottom())
      else if diffTB < 0 && diffBT < 0 then b.WithBottom(hit.top) else b;
    var sy := if (diffTB > 0 && diffBT > 0) || (diffTB < 0 && diffBT < 0) then -s.y else s.y;
    var rx := if diffLR > 0 && diffRL > 0 then ry.WithLeft(hit.Right())
      else if diffLR < 0 && diffRL < 0 then ry.WithRight(hit.left) else ry;
    var sx := if (diffLR > 0 && diffRL > 0) || (diffLR < 0 && diffRL < 0) then -s.x else s.x;
    Physics.Motion(rx, Vec(sx, sy))
  }

  /**
   * Where the newer `bounce_off` succeeds in its "coming from above"
   * case, the older rule gives the same rect and speed.
   */
  lemma BounceOffAgreesFromAbove(b: Rect, s: Vec, hit: Rect, hs: Vec)
    requires hit.height >= 0 && b.height >= 0 && s.x != hs.x
    requires s.y - hs.y > 0
    requires hit.top - b.Bottom() + (s.y - hs.y) > 0
    requires !(hit.Right() - b.left + (s.x - hs.x) < 0 && hit.left - b.Right() + (s.x - hs.x) < 0)
    requires !(hit.Right() - b.left + (s.x - hs.x) > 0 && hit.left - b.Right() + (s.x - hs.x) > 0)
    ensures Physics.BounceOff(b, s, hit, hs) == Success(BounceOff(b, s, hit, hs))
  {
    Physics.BounceOffFromAbove(b, s, hit, hs);
  }

  /** `bounce_off_ip`: updates the rect object and the speed list in place as `BounceOff` computes; it never raises. */
  method BounceOffIp(b: RectRef, speed: array<int>, hit: Rect, hs: Vec)
    requires speed.Length == 2
    modifies b, speed
    ensures b.rect == BounceOff(old(b.rect), Vec(old(speed[0]), old(speed[1])), hit, hs).rect
    ensures speed[..] == [BounceOff(old(b.rect), Vec(old(speed[0]), old(speed[1])), hit, hs).speed.x,
                          BounceOff(old(b.rect), Vec(old(speed[0]), old(speed[1])), hit, hs).speed.y]
  {
    var diffX := speed[0] - hs.x;
    var diffY := speed[1] - hs.y;
    var diffTB := b.rect.top - hit.Bottom() - diffY;
    var diffBT := b.rect.Bottom() - hit.top - diffY;
    var diffLR := b.rect.left - hit.Right() - diffX;
    var diffRL := b.rect.Right() - hit.left - diffX;
    if diffTB > 0 && diffBT > 0 {
      b.rect := b.rect.WithTop(hit.Bottom());
      speed[1] := -speed[1];
    } else if diffTB < 0 && diffBT < 0 {
      b.rect := b.rect.WithBottom(hit.top);
      speed[1] := -speed[1];
    }
    if diffLR > 0 && diffRL > 0 {
      b.rect := b.rect.WithLeft(hit.Right());
      speed[0] := -speed[0];
    } else if diffLR < 0 && diffRL < 0 {
      b.rect := b.rect.WithRight(hit.left);
      speed[0] := -speed[0];
    }
  }

  /**
   * `bounce_in_box`: clamps and negates exactly as the newer
   * `bounce_in_box_ip`, and returns True iff at least one clamp happened,
   * which is iff `rect_break_or_contact_box` held before the call.
   */
  method BounceInBox(b: RectRef, speed: array<int>, box: Rect) returns (hit: bool)
    requires speed.Length == 2
    modifies b, speed
    ensures hit == Physics.RectBreakOrContactBox(old(b.rect), box)
    ensures b.rect == Physics.BounceInBox(old(b.rect), Vec(old(speed[0]), old(speed[1])), box).rect
    ensures speed[..] == [Physics.BounceInBox(old(b.rect), Vec(old(speed[0]), old(speed[1])), box).speed.x,
                          Physics.BounceInBox(old(b.rect), Vec(old(speed[0]), old(speed[1])), box).speed.y]
  {
    hit := false;
    if b.rect.left <= box.left {
      b.rect := b.rect.WithLeft(box.left);
      speed[0] := -speed[0];
      hit := true;
    } else if b.rect.Right() >= box.Right() {
      b.rect := b.rect.WithRight(box.Right());
      speed[0] := -speed[0];
      hit := true;
    }
    if b.rect.top <= box.top {
      b.rect := b.rect.WithTop(box.top);
      speed[1] := -speed[1];
      hit := true;
    } else if b.rect.Bottom() >= box.Bottom() {
      b.rect := b.rect.WithBottom(box.Bottom());
      speed[1] := -speed[1];
      hit := true;
    }
  }
}
