/**
 * games/arkanoid/game/gameobject.py: the bricks, the platform and the ball
 * of the arkanoid game, on integer coordinates.
 *
 * Bricks are values here: a brick group is the sequence of its bricks in
 * the order the group holds them, and hitting a hard brick yields the brick
 * with one hit point less.
 */
module ArkanoidGameObject {
  import opened Wrappers
  import opened Exceptions
  import opened Geometry
  import opened Physics

  /** A brick: its rect, whether it is a `HardBrick`, and a hard brick's hit points (unused for a plain brick). */
  datatype Brick = Brick(rect: Rect, hard: bool, hp: int)

  /** `Brick(init_pos)` / `HardBrick(init_pos)`: a 25 x 10 brick; a hard one starts with 2 hit points. */
  function NewBrick(pos: Point, hard: bool): (b: Brick)
    ensures b.rect == Rect(pos.x, pos.y, 25, 10) && b.hard == hard
    ensures hard ==> b.hp == 2
  {
    Brick(Rect(pos.x, pos.y, 25, 10), hard, if hard then 2 else 0)
  }

  /** `HardBrick.reset`: back to 2 hit points; a plain brick has nothing to reset. */
  function ResetBrick(b: Brick): (r: Brick)
    ensures r.rect == b.rect && r.hard == b.hard
    ensures b.hard ==> r.hp == 2
  {
    if b.hard then b.(hp := 2) else b
  }

  datatype PlatformAction = SERVE_TO_LEFT | SERVE_TO_RIGHT | MOVE_LEFT | MOVE_RIGHT | NONE

  /** The members are created with `auto()`, so each one's value is its own name. */
  function ActionValue(a: PlatformAction): string {
    match a
    case SERVE_TO_LEFT => "SERVE_TO_LEFT"
    case SERVE_TO_RIGHT => "SERVE_TO_RIGHT"
    case MOVE_LEFT => "MOVE_LEFT"
    case MOVE_RIGHT => "MOVE_RIGHT"
    case NONE => "NONE"
  }

  /** `PlatformAction(value)`: the member with that value; any other string raises ValueError (None here). */
  function ActionOf(value: string): (r: Option<PlatformAction>)
    ensures r.Some? ==> ActionValue(r.value) == value
  {
    if value == "SERVE_TO_LEFT" then Some(SERVE_TO_LEFT)
    else if value == "SERVE_TO_RIGHT" then Some(SERVE_TO_RIGHT)
    else if value == "MOVE_LEFT" then Some(MOVE_LEFT)
    else if value == "MOVE_RIGHT" then Some(MOVE_RIGHT)
    else if value == "NONE" then Some(NONE)
    else None
  }

  /** Every member is found again from its value. */
  lemma ActionValueRoundTrip(a: PlatformAction)
    ensures ActionOf(ActionValue(a)) == Some(a)
  {
  }

  /**
   * The x speed `Platform.move` sets: -5 to the left and +5 to the right,
   * each only when the platform is not at that wall yet, 0 otherwise.
   */
  function PlatformShift(r: Rect, area: Rect, action: PlatformAction): (dx: int)
    ensures dx == -5 <==> action == MOVE_LEFT && r.left > area.left
    ensures dx == 5 <==> action == MOVE_RIGHT && r.Right() < area.Right()
    ensures dx == 0 || dx == 5 || dx == -5
  {
    if action == MOVE_LEFT && r.left > area.left then -5
    else if action == MOVE_RIGHT && r.Right() < area.Right() then 5
    else 0
  }

  /** `Platform`: a 40 x 5 rect moving sideways in the play area. */
  class Platform {
    const initPos: Point
    const area: Rect
    var rect: Rect
    var speed: Vec

    /** The platform keeps its size and never moves vertically. */
    ghost predicate Valid()
      reads this
    {
      speed.y == 0 && rect.width == 40 && rect.height == 5
    }

    constructor(pos: Point, playArea: Rect)
      ensures Valid() && initPos == pos && area == playArea
      ensures rect == Rect(pos.x, pos.y, 40, 5) && speed == Vec(0, 0)
    {
      initPos, area := pos, playArea;
      rect := Rect(pos.x, pos.y, 40, 5);
      speed := Vec(0, 0);
    }

    /** `reset`: back to the initial position. */
    method Reset()
      requires Valid()
      modifies this
      ensures Valid() && rect == Rect(initPos.x, initPos.y, 40, 5) && speed == old(speed)
    {
      rect := rect.WithTopLeft(initPos);
    }

    /** `move`: the x speed is set by the action and the platform moves by the speed; y never changes. */
    method Move(action: PlatformAction)
      requires Valid()
      modifies this
      ensures Valid() && speed == Vec(PlatformShift(old(rect), area, action), 0)
      ensures rect == old(rect).MovedBy(speed) && rect.top == old(rect).top
    {
      if action == MOVE_LEFT && rect.left > area.left {
        speed := speed.(x := -5);
      } else if action == MOVE_RIGHT && rect.Right() < area.Right() {
        speed := speed.(x := 5);
      } else {
        speed := speed.(x := 0);
      }
      rect := rect.MovedBy(speed);
    }
  }

  /**
   * `_slice_ball`: the ball's new x speed after a bounce off the platform.
   * A still platform keeps the ball's direction at speed 7; a platform
   * moving the ball's way speeds it up to 10 in that direction; a platform
   * moving the other way sends it back at speed 7.
   */
  function SliceBall(ballX: int, platformX: int): (r: int)
    ensures r == 7 || r == -7 || r == 10 || r == -10
    ensures r == 10 || r == -10 <==> ballX * platformX > 0
    ensures platformX == 0 ==> (r > 0 <==> ballX > 0)
    ensures ballX * platformX > 0 ==> (r > 0 <==> ballX > 0)
    ensures platformX != 0 && ballX * platformX <= 0 ==> (r > 0 <==> ballX <= 0)
  {
    if platformX == 0 then (if ballX > 0 then 7 else -7)
    else if ballX * platformX > 0 then (if ballX > 0 then 10 else -10)
    else (if ballX > 0 then -7 else 7)
  }

  /** `_platform_additional_check`: below the platform's top, a bottom corner's path crosses the platform. */
  predicate PlatformAdditionalCheck(rect: Rect, lastPos: Rect, platform: Rect) {
    rect.Bottom() > platform.top
    && (RectCollideLine(platform, Segment(lastPos.BottomLeft(), rect.BottomLeft()))
        || RectCollideLine(platform, Segment(lastPos.BottomRight(), rect.BottomRight())))
  }

  /** The ball after bouncing off the platform, sliced when slicing is on and the ball now goes up. */
  function PlatformBounce(rect: Rect, speed: Vec, platform: Rect, platformSpeed: Vec, slide: bool): (r: Result<Motion, PyException>)
    ensures r.Success? ==> r.value.rect.width == rect.width && r.value.rect.height == rect.height
    ensures r.Success? && (!slide || r.value.speed.y >= 0) ==> r == BounceOff(rect, speed, platform, platformSpeed)
    ensures r.Success? && slide && r.value.speed.y < 0 ==> r.value.speed.x == SliceBall(speed.x, platformSpeed.x)
    ensures r.Failure? <==> BounceOff(rect, speed, platform, platformSpeed).Failure?
  {
    match BounceOff(rect, speed, platform, platformSpeed)
    case Failure(e) => Failure(e)
    case Success(m) =>
      if slide && m.speed.y < 0 then Success(Motion(m.rect, Vec(SliceBall(speed.x, platformSpeed.x), m.speed.y)))
      else Success(m)
  }

  /** The wall check at the end of `check_bouncing`: `bounce_in_box_ip` when the ball reaches a wall. */
  function InBox(m: Motion, area: Rect): (r: Motion)
    ensures r == BounceInBox(m.rect, m.speed, area)
  {
    BounceInBoxNeedsContact(m.rect, m.speed, area);
    if RectBreakOrContactBox(m.rect, area) then BounceInBox(m.rect, m.speed, area) else m
  }

  /** The ball touches the platform, or crossed it during the last move. */
  predicate PlatformContact(rect: Rect, lastPos: Rect, platform: Rect) {
    CollideOrContact(rect, platform) || PlatformAdditionalCheck(rect, lastPos, platform)
  }

  /**
   * What `check_bouncing` does to the ball: on platform contact the
   * bounce (with slicing), then the walls; a failed bounce raises.
   */
  function BouncingOf(ball: Motion, lastPos: Rect, platform: Rect, platformSpeed: Vec, slide: bool, area: Rect): (r: Result<Motion, PyException>)
    ensures r.Failure? <==> PlatformContact(ball.rect, lastPos, platform) && BounceOff(ball.rect, ball.speed, platform, platformSpeed).Failure?
    ensures !PlatformContact(ball.rect, lastPos, platform) ==> r == Success(BounceInBox(ball.rect, ball.speed, area))
    ensures r.Success? ==> r.value.rect.width == ball.rect.width && r.value.rect.height == ball.rect.height
  {
    if PlatformContact(ball.rect, lastPos, platform) then
      match PlatformBounce(ball.rect, ball.speed, platform, platformSpeed, slide)
      case Failure(e) => Failure(e)
      case Success(m) => Success(InBox(m, area))
    else
      Success(InBox(ball, area))
  }

  /** A ball no larger than the area ends `check_bouncing` inside it. */
  lemma BouncingStaysInside(ball: Motion, lastPos: Rect, platform: Rect, platformSpeed: Vec, slide: bool, area: Rect)
    requires 0 <= ball.rect.width <= area.width && 0 <= ball.rect.height <= area.height
    ensures var r := BouncingOf(ball, lastPos, platform, platformSpeed, slide, area);
      r.Success? ==>
        area.left <= r.value.rect.left && r.value.rect.Right() <= area.Right()
        && area.top <= r.value.rect.top && r.value.rect.Bottom() <= area.Bottom()
  {
    var r := BouncingOf(ball, lastPos, platform, platformSpeed, slide, area);
    if PlatformContact(ball.rect, lastPos, platform) {
      var b := PlatformBounce(ball.rect, ball.speed, platform, platformSpeed, slide);
      if b.Success? {
        BounceInBoxStaysInside(b.value.rect, b.value.speed, area);
      }
    } else {
      BounceInBoxStaysInside(ball.rect, ball.speed, area);
    }
  }

  /** The body of `check_bouncing` on values: the bounce off the platform when touching it, then the walls. */
  method ComputeBouncing(ball: Motion, lastPos: Rect, platform: Rect, platformSpeed: Vec, slide: bool, area: Rect)
    returns (r: Result<Motion, PyException>)
    ensures r == BouncingOf(ball, lastPos, platform, platformSpeed, slide, area)
  {
    var rect, speed := ball.rect, ball.speed;
    if CollideOrContact(rect, platform) || PlatformAdditionalCheck(rect, lastPos, platform) {
      var bounced := PlatformBounce(rect, speed, platform, platformSpeed, slide);
      if bounced.Failure? {
        return Failure(bounced.error);
      }
      rect, speed := bounced.value.rect, bounced.value.speed;
    }
    if RectBreakOrContactBox(rect, area) {
      var m := BounceInBox(rect, speed, area);
      rect, speed := m.rect, m.speed;
    }
    BounceInBoxNeedsContact(rect, speed, area);
    r := Success(Motion(rect, speed));
  }

  /** The bricks the ball touches, in group order: `spritecollide` with `collide_or_contact`. */
  function Hits(ball: Rect, group: seq<Brick>): (hit: seq<Brick>)
    ensures |hit| <= |group|
    ensures forall b :: b in hit ==> b in group && CollideOrContact(ball, b.rect)
  {
    if group == [] then []
    else (if CollideOrContact(ball, group[0].rect) then [group[0]] else []) + Hits(ball, group[1..])
  }

  /** Every brick the ball touches is among the hits. */
  lemma {:induction false} HitsComplete(ball: Rect, group: seq<Brick>, b: Brick)
    requires b in group && CollideOrContact(ball, b.rect)
    ensures b in Hits(ball, group)
  {
    if group[0] != b {
      HitsComplete(ball, group[1..], b);
    }
  }

  /** The bricks the ball does not touch, in group order: what `spritecollide` leaves in the group. */
  function Misses(ball: Rect, group: seq<Brick>): (rest: seq<Brick>)
    ensures |rest| + |Hits(ball, group)| == |group|
    ensures Hits(ball, group) == [] ==> rest == group
    ensures forall b :: b in rest ==> b in group && !CollideOrContact(ball, b.rect)
  {
    if group == [] then []
    else (if CollideOrContact(ball, group[0].rect) then [] else [group[0]]) + Misses(ball, group[1..])
  }

  /** The rect to bounce off: the union of two hit bricks in one row or column, otherwise the first hit brick. */
  function BounceTarget(hit: seq<Brick>): Rect
    requires hit != []
  {
    if |hit| == 2 && (hit[0].rect.top == hit[1].rect.top || hit[0].rect.left == hit[1].rect.left)
    then hit[0].rect.Union(hit[1].rect)
    else hit[0].rect
  }

  /** The hit hard bricks that a hit leaves with hit points: each with one hit point less, in order. */
  function Survivors(hit: seq<Brick>): (s: seq<Brick>)
    ensures |s| <= |hit|
    ensures forall b :: b in s ==> b.hard && b.hp != 0
  {
    if hit == [] then []
    else
      var b := hit[|hit| - 1];
      Survivors(hit[..|hit| - 1]) + (if b.hard && b.hp - 1 != 0 then [b.(hp := b.hp - 1)] else [])
  }

  /** What `check_hit_brick` does to the ball and the group: the bounce, the bricks left and the count destroyed. */
  datatype BrickHit = BrickHit(bounce: Result<Motion, PyException>, remaining: seq<Brick>, destroyed: int)

  /**
   * The touched bricks leave the group and the ball bounces off them. At x
   * speed 7 every touched hard brick takes a hit, and one with hit points
   * left goes back to the end of the group and is not counted.
   */
  function BrickHitOf(ball: Rect, speed: Vec, group: seq<Brick>): BrickHit {
    var hit := Hits(ball, group);
    if hit == [] then BrickHit(Success(Motion(ball, speed)), group, 0)
    else
      var bounce := BounceOff(ball, speed, BounceTarget(hit), Vec(0, 0));
      if bounce.Success? && (bounce.value.speed.x == 7 || bounce.value.speed.x == -7)
      then BrickHit(bounce, Misses(ball, group) + Survivors(hit), |hit| - |Survivors(hit)|)
      else BrickHit(bounce, Misses(ball, group), |hit|)
  }

  /** No brick is lost or made up: the bricks left and the bricks destroyed add up to the group. */
  lemma BrickHitConserves(ball: Rect, speed: Vec, group: seq<Brick>)
    ensures var h := BrickHitOf(ball, speed, group);
      0 <= h.destroyed <= |group| && |h.remaining| + h.destroyed == |group|
  {
  }

  /** A brick that stays in the group was either not touched or is a hard brick that survived its hit. */
  lemma BrickHitRemaining(ball: Rect, speed: Vec, group: seq<Brick>)
    ensures forall b :: b in BrickHitOf(ball, speed, group).remaining ==>
      (b in group && !CollideOrContact(ball, b.rect)) || (b.hard && b.hp != 0)
  {
    var hit := Hits(ball, group);
    var h := BrickHitOf(ball, speed, group);
    if hit == [] {
      forall b | b in group
        ensures !CollideOrContact(ball, b.rect)
      {
        if CollideOrContact(ball, b.rect) {
          HitsComplete(ball, group, b);
        }
      }
    }
    if hit != [] && h.bounce.Success? && (h.bounce.value.speed.x == 7 || h.bounce.value.speed.x == -7) {
      assert h.remaining == Misses(ball, group) + Survivors(hit);
      forall b | b in h.remaining
        ensures b in Misses(ball, group) || b in Survivors(hit)
      {
      }
    }
  }

  /** The loop over the touched bricks at x speed 7: survivors go back to the group, the count drops for each. */
  method KeepSurvivors(hit: seq<Brick>, missed: seq<Brick>) returns (remaining: seq<Brick>, destroyed: int)
    ensures remaining == missed + Survivors(hit) && destroyed == |hit| - |Survivors(hit)|
  {
    remaining, destroyed := missed, |hit|;
    for i := 0 to |hit|
      invariant remaining == missed + Survivors(hit[..i])
      invariant destroyed == |hit| - |Survivors(hit[..i])|
    {
      assert hit[..i + 1][..i] == hit[..i];
      var brick := hit[i];
      if brick.hard && brick.hp - 1 != 0 {
        remaining := remaining + [brick.(hp := brick.hp - 1)];
        destroyed := destroyed - 1;
      }
    }
    assert hit[..|hit|] == hit;
  }

  /** The bounce off the touched bricks keeps the ball's size. */
  lemma BrickHitKeepsSize(ball: Rect, speed: Vec, group: seq<Brick>)
    ensures var h := BrickHitOf(ball, speed, group);
      h.bounce.Success? ==> h.bounce.value.rect.width == ball.width && h.bounce.value.rect.height == ball.height
  {
  }

  /** The touched bricks leave the group, the ball bounces off them and, at x speed 7, the hard ones take a hit. */
  method ComputeBrickHit(ball: Rect, speed: Vec, group: seq<Brick>) returns (h: BrickHit)
    ensures h == BrickHitOf(ball, speed, group)
  {
    var hit := Hits(ball, group);
    var remaining := Misses(ball, group);
    var destroyed := |hit|;
    if hit == [] {
      return BrickHit(Success(Motion(ball, speed)), remaining, destroyed);
    }
    var bounced := BounceOff(ball, speed, BounceTarget(hit), Vec(0, 0));
    if bounced.Success? && (bounced.value.speed.x == 7 || bounced.value.speed.x == -7) {
      remaining, destroyed := KeepSurvivors(hit, remaining);
    }
    h := BrickHit(bounced, remaining, destroyed);
  }

  /** `Ball`: a 5 x 5 rect with its speed, its position one frame ago and its count of platform hits. */
  class Ball {
    const initPos: Point
    const area: Rect
    const slideEnabled: bool
    var rect: Rect
    var speed: Vec
    var lastPos: Rect
    var hitPlatformTimes: int

    /** The ball keeps its size, the play area can hold it, and the hit count is a count. */
    ghost predicate Valid()
      reads this
    {
      rect.width == 5 && rect.height == 5 && lastPos.width == 5 && lastPos.height == 5
      && area.width >= 5 && area.height >= 5 && hitPlatformTimes >= 0
    }

    constructor(pos: Point, playArea: Rect, slide: bool)
      requires playArea.width >= 5 && playArea.height >= 5
      ensures Valid() && initPos == pos && area == playArea && slideEnabled == slide
      ensures rect == Rect(pos.x, pos.y, 5, 5) && lastPos == rect && speed == Vec(0, 0) && hitPlatformTimes == 0
    {
      initPos, area, slideEnabled := pos, playArea, slide;
      rect := Rect(pos.x, pos.y, 5, 5);
      lastPos := rect;
      speed := Vec(0, 0);
      hitPlatformTimes := 0;
    }

    /** `reset`: the initial position, speed [0, 0] and no platform hits. */
    method Reset()
      requires Valid()
      modifies this
      ensures Valid() && rect == Rect(initPos.x, initPos.y, 5, 5) && speed == Vec(0, 0) && hitPlatformTimes == 0
      ensures lastPos == old(lastPos)
    {
      hitPlatformTimes := 0;
      rect := rect.WithTopLeft(initPos);
      speed := Vec(0, 0);
    }

    /** `stick_on_platform`: the ball is centred horizontally on the given x. */
    method StickOnPlatform(platformCenterX: int)
      requires Valid()
      modifies this
      ensures Valid() && rect == old(rect).WithCenterX(platformCenterX)
      ensures speed == old(speed) && lastPos == old(lastPos) && hitPlatformTimes == old(hitPlatformTimes)
    {
      rect := rect.WithCenterX(platformCenterX);
    }

    /** `serve`: up and to the left or right at speed 7; any other action leaves the speed. */
    method Serve(action: PlatformAction)
      requires Valid()
      modifies this
      ensures Valid() && rect == old(rect) && lastPos == old(lastPos) && hitPlatformTimes == old(hitPlatformTimes)
      ensures action == SERVE_TO_LEFT ==> speed == Vec(-7, -7)
      ensures action == SERVE_TO_RIGHT ==> speed == Vec(7, -7)
      ensures action != SERVE_TO_LEFT && action != SERVE_TO_RIGHT ==> speed == old(speed)
    {
      if action == SERVE_TO_LEFT {
        speed := Vec(-7, -7);
      } else if action == SERVE_TO_RIGHT {
        speed := Vec(7, -7);
      }
    }

    /** `move`: the previous position is remembered, then the ball moves by exactly its speed. */
    method Move()
      requires Valid()
      modifies this
      ensures Valid() && lastPos == old(rect) && rect == old(rect).MovedBy(speed)
      ensures speed == old(speed) && hitPlatformTimes == old(hitPlatformTimes)
    {
      lastPos := lastPos.WithTopLeft(rect.TopLeft());
      rect := rect.MovedBy(speed);
    }

    /**
     * `check_bouncing`: touching the platform (or passing its corner) counts
     * a hit and bounces the ball off it, sliced when slicing is on and the
     * ball goes up again; then the walls bounce it back into the play area.
     * A bounce that divides by a zero relative speed raises.
     */
    method CheckBouncing(platform: Platform) returns (o: Outcome<PyException>)
      requires Valid()
      modifies this
      ensures Valid() && lastPos == old(lastPos)
      ensures hitPlatformTimes == old(hitPlatformTimes) + (if PlatformContact(old(rect), old(lastPos), platform.rect) then 1 else 0)
      ensures match BouncingOf(Motion(old(rect), old(speed)), old(lastPos), platform.rect, platform.speed, slideEnabled, area)
        case Failure(e) => o == Fail(e) && rect == old(rect) && speed == old(speed)
        case Success(m) => o == Pass && Motion(rect, speed) == m
      ensures o.Pass? ==>
        area.left <= rect.left && rect.Right() <= area.Right() && area.top <= rect.top && rect.Bottom() <= area.Bottom()
    {
      var contact := CollideOrContact(rect, platform.rect) || PlatformAdditionalCheck(rect, lastPos, platform.rect);
      var r := ComputeBouncing(Motion(rect, speed), lastPos, platform.rect, platform.speed, slideEnabled, area);
      BouncingStaysInside(Motion(rect, speed), lastPos, platform.rect, platform.speed, slideEnabled, area);
      if contact {
        hitPlatformTimes := hitPlatformTimes + 1;
      }
      if r.Failure? {
        return Fail(r.error);
      }
      rect, speed := r.value.rect, r.value.speed;
      o := Pass;
    }

    /** `check_hit_brick`: the group and the ball change as `BrickHitOf` says; a failed bounce raises with the touched bricks already gone. */
    method CheckHitBrick(group: seq<Brick>) returns (remaining: seq<Brick>, destroyed: int, o: Outcome<PyException>)
      requires Valid()
      modifies this
      ensures Valid() && lastPos == old(lastPos) && hitPlatformTimes == old(hitPlatformTimes)
      ensures remaining == BrickHitOf(old(rect), old(speed), group).remaining
      ensures BrickHitOf(old(rect), old(speed), group).bounce.Failure? ==>
        o == Fail(BrickHitOf(old(rect), old(speed), group).bounce.error) && rect == old(rect) && speed == old(speed)
      ensures BrickHitOf(old(rect), old(speed), group).bounce.Success? ==>
        o == Pass && destroyed == BrickHitOf(old(rect), old(speed), group).destroyed
        && Motion(rect, speed) == BrickHitOf(old(rect), old(speed), group).bounce.value
    {
      var h := ComputeBrickHit(rect, speed, group);
      BrickHitKeepsSize(rect, speed, group);
      remaining, destroyed := h.remaining, h.destroyed;
      if h.bounce.Failure? {
        return remaining, destroyed, Fail(h.bounce.error);
      }
      rect, speed := h.bounce.value.rect, h.bounce.value.speed;
      o := Pass;
    }
  }
}
