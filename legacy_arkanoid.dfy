/**
 * The older arkanoid game (arkanoid/game/gameobject.py and
 * arkanoid/game/gamecore.py): a ball, a platform and single-hit bricks in
 * a 200 x 500 area. The ball bounces off the face of a brick or the
 * platform it touches while moving towards it, and off a wall it has
 * reached or passed; a brick it touches is removed. The game is passed
 * when no brick is left and over when the ball is at or below the
 * platform's bottom.
 *
 * `collide_or_tangent` of this game is the same test as the one in
 * essential/physics.py, and is used from there. Drawing is left out.
 */
module LegacyArkanoid {
  import opened Wrappers
  import opened Exceptions
  import opened PyText
  import opened Geometry
  import opened EssentialPhysics
  import Core = ArkanoidGameCore

  /** The size of the play area. */
  const DISPLAY_AREA := Rect(0, 0, 200, 500)
  const BALL_INIT_POS := Point(100, 100)
  const PLATFORM_INIT_POS := Point(75, 400)

  /** A brick: 25 x 10 at its position. */
  function BrickAt(x: int, y: int): (r: Rect)
    ensures r.TopLeft() == Point(x, y) && r.width == 25 && r.height == 10
  {
    Rect(x, y, 25, 10)
  }

  // ---- the platform ----

  /** How far `Platform.move` shifts the platform on x for an action string. */
  function PlatformShift(r: Rect, area: Rect, action: string): (dx: int)
    ensures dx == -5 <==> action == "LEFT" && r.left > area.left
    ensures dx == 5 <==> action == "RIGHT" && r.Right() < area.Right()
    ensures dx == 0 <==> !(action == "LEFT" && r.left > area.left)
                         && !(action == "RIGHT" && r.Right() < area.Right())
  {
    if action == "LEFT" && r.left > area.left then -5
    else if action == "RIGHT" && r.Right() < area.Right() then 5
    else 0
  }

  /** A platform that starts inside the area, on the 5-pixel grid the area's left starts, stays inside it. */
  lemma PlatformShiftStaysInside(r: Rect, area: Rect, action: string)
    requires area.left <= r.left && r.Right() <= area.Right()
    requires (r.left - area.left) % 5 == 0 && (area.Right() - r.Right()) % 5 == 0
    ensures var m := r.MovedBy(Vec(PlatformShift(r, area, action), 0));
      area.left <= m.left && m.Right() <= area.Right()
      && (m.left - area.left) % 5 == 0 && (area.Right() - m.Right()) % 5 == 0
  {
  }

  class Platform {
    const initPos: Rect
    const area: Rect
    var rect: Rect

    predicate Valid()
      reads this
    {
      rect.width == 50 && rect.height == 5
    }

    constructor(pos: Point, area: Rect)
      ensures initPos == Rect(pos.x, pos.y, 50, 5) && this.area == area
      ensures rect == initPos && Valid()
    {
      initPos := Rect(pos.x, pos.y, 50, 5);
      this.area := area;
      rect := Rect(pos.x, pos.y, 50, 5);
    }

    method Reset()
      requires initPos.width == 50 && initPos.height == 5
      modifies this
      ensures rect == initPos && Valid()
    {
      rect := initPos;
    }

    /** `move`: one step of 5 to the left or right while the area allows it; any other action keeps the platform. */
    method Move(action: string)
      requires Valid()
      modifies this
      ensures rect == old(rect).MovedBy(Vec(PlatformShift(old(rect), area, action), 0))
      ensures Valid()
    {
      if action == "LEFT" && rect.left > area.left {
        rect := rect.MovedBy(Vec(-5, 0));
      } else if action == "RIGHT" && rect.Right() < area.Right() {
        rect := rect.MovedBy(Vec(5, 0));
      }
    }
  }

  // ---- the ball ----

  /** The ball is at `target`'s bottom face moving up, or at its top face moving down. */
  predicate AtFaceY(b: Rect, s: Vec, target: Rect) {
    (b.top == target.Bottom() && s.y < 0) || (b.Bottom() == target.top && s.y > 0)
  }

  /** The ball is at `target`'s left face moving right, or at its right face moving left. */
  predicate AtFaceX(b: Rect, s: Vec, target: Rect) {
    (b.Right() == target.left && s.x > 0) || (b.left == target.Right() && s.x < 0)
  }

  /**
   * `Ball._bounce`: the speed after bouncing off `target`. On each axis a
   * ball at a face of the target and moving into it turns back; any other
   * component is kept.
   */
  function FaceBounce(b: Rect, s: Vec, target: Rect): (v: Vec)
    ensures AtFaceY(b, s, target) ==> v.y == -s.y
    ensures !AtFaceY(b, s, target) ==> v.y == s.y
    ensures AtFaceX(b, s, target) ==> v.x == -s.x
    ensures !AtFaceX(b, s, target) ==> v.x == s.x
  {
    Vec(if AtFaceX(b, s, target) then -s.x else s.x,
        if AtFaceY(b, s, target) then -s.y else s.y)
  }

  /** After a face bounce the ball no longer moves into any face it is at, and its speeds keep their sizes. */
  lemma FaceBounceLeavesFace(b: Rect, s: Vec, target: Rect)
    requires b.width > 0 && b.height > 0 && target.width > 0 && target.height > 0
    ensures var v := FaceBounce(b, s, target);
      !AtFaceX(b, v, target) && !AtFaceY(b, v, target)
      && (v.x == s.x || v.x == -s.x) && (v.y == s.y || v.y == -s.y)
  {
  }

  /** The ball has reached or passed the left or right wall. */
  predicate AtWallX(b: Rect, area: Rect) {
    b.left <= area.left || b.Right() >= area.Right()
  }

  /** The ball has reached or passed the top or bottom wall. */
  predicate AtWallY(b: Rect, area: Rect) {
    b.top <= area.top || b.Bottom() >= area.Bottom()
  }

  /**
   * `_check_wall_bouncing`: the speed after the walls. A component is
   * negated whenever the ball is at or beyond a wall on that axis, whichever
   * way it moves; the ball itself is not moved.
   */
  function WallBounce(b: Rect, s: Vec, area: Rect): (v: Vec)
    ensures AtWallX(b, area) ==> v.x == -s.x
    ensures !AtWallX(b, area) ==> v.x == s.x
    ensures AtWallY(b, area) ==> v.y == -s.y
    ensures !AtWallY(b, area) ==> v.y == s.y
  {
    Vec(if AtWallX(b, area) then -s.x else s.x,
        if AtWallY(b, area) then -s.y else s.y)
  }

  /**
   * The wall test does not look at the direction: a ball past the left wall
   * that already moves right is turned back towards the wall.
   */
  lemma WallBounceIgnoresDirection(b: Rect, s: Vec, area: Rect)
    requires b.left < area.left && b.Right() < area.Right() && s.x > 0
    ensures WallBounce(b, s, area).x < 0
  {
  }

  /** Bouncing twice at the same place gives the speed back. */
  lemma WallBounceTwice(b: Rect, s: Vec, area: Rect)
    ensures WallBounce(b, WallBounce(b, s, area), area) == s
  {
  }

  /** `_check_platform_bouncing` then `_check_wall_bouncing`. */
  function BouncingSpeed(b: Rect, s: Vec, platform: Rect, area: Rect): Vec {
    WallBounce(b, if CollideOrTangent(b, platform) then FaceBounce(b, s, platform) else s, area)
  }

  /** A ball clear of the platform and of every wall keeps its speed. */
  lemma BouncingSpeedInOpenSpace(b: Rect, s: Vec, platform: Rect, area: Rect)
    requires !CollideOrTangent(b, platform) && !AtWallX(b, area) && !AtWallY(b, area)
    ensures BouncingSpeed(b, s, platform, area) == s
  {
  }

  /** A ball at the platform's top face falling down rises after bouncing, when it is clear of the top and bottom walls. */
  lemma BouncingOffPlatformTop(b: Rect, s: Vec, platform: Rect, area: Rect)
    requires b.Bottom() == platform.top && b.left <= platform.Right() && b.Right() >= platform.left
    requires b.height >= 0 && platform.height >= 0 && s.y > 0
    requires !AtWallY(b, area)
    ensures BouncingSpeed(b, s, platform, area).y == -s.y
  {
  }

  // ---- bricks the ball touches ----

  /** The bricks the ball touches, in group order (`spritecollide`). */
  function Hits(ball: Rect, group: seq<Rect>): (hit: seq<Rect>)
    ensures forall b :: b in hit ==> b in group && CollideOrTangent(ball, b)
  {
    if group == [] then []
    else (if CollideOrTangent(ball, group[0]) then [group[0]] else []) + Hits(ball, group[1..])
  }

  /** The bricks the ball does not touch, in group order: what stays in the group. */
  function Misses(ball: Rect, group: seq<Rect>): (rest: seq<Rect>)
    ensures forall b :: b in rest ==> b in group && !CollideOrTangent(ball, b)
  {
    if group == [] then []
    else (if CollideOrTangent(ball, group[0]) then [] else [group[0]]) + Misses(ball, group[1..])
  }

  /** The hit and the kept bricks together are the group: no brick is lost or doubled. */
  lemma {:induction false} HitsMissesPartition(ball: Rect, group: seq<Rect>)
    ensures multiset(Hits(ball, group)) + multiset(Misses(ball, group)) == multiset(group)
  {
    if group != [] {
      HitsMissesPartition(ball, group[1..]);
      assert group == [group[0]] + group[1..];
    }
  }

  /** Every touched brick of the group is hit. */
  lemma {:induction false} HitsComplete(ball: Rect, group: seq<Rect>, b: Rect)
    requires b in group && CollideOrTangent(ball, b)
    ensures b in Hits(ball, group)
  {
    if group[0] != b {
      HitsComplete(ball, group[1..], b);
    }
  }

  /** The first hit brick, the one the ball bounces off, is the first touched brick in group order. */
  lemma {:induction false} FirstHitIsFirstTouched(ball: Rect, group: seq<Rect>)
    requires Hits(ball, group) != []
    ensures exists i ::
      && 0 <= i < |group| && group[i] == Hits(ball, group)[0]
      && CollideOrTangent(ball, group[i])
      && forall j :: 0 <= j < i ==> !CollideOrTangent(ball, group[j])
  {
    if !CollideOrTangent(ball, group[0]) {
      FirstHitIsFirstTouched(ball, group[1..]);
      var i :| 0 <= i < |group[1..]| && group[1..][i] == Hits(ball, group[1..])[0]
        && CollideOrTangent(ball, group[1..][i])
        && forall j :: 0 <= j < i ==> !CollideOrTangent(ball, group[1..][j]);
      assert group[i + 1] == Hits(ball, group)[0];
      forall j | 0 <= j < i + 1
        ensures !CollideOrTangent(ball, group[j])
      {
        if j > 0 {
          assert group[j] == group[1..][j - 1];
        }
      }
    } else {
      assert group[0] == Hits(ball, group)[0];
    }
  }

  /** `check_hit_brick`: the speed after bouncing off the first hit brick, if any. */
  function HitBrickSpeed(ball: Rect, s: Vec, group: seq<Rect>): Vec {
    var hit := Hits(ball, group);
    if |hit| > 0 then FaceBounce(ball, s, hit[0]) else s
  }

  /** A ball that touches no brick keeps its speed and the whole group. */
  lemma NoHitKeepsAll(ball: Rect, s: Vec, group: seq<Rect>)
    requires forall i :: 0 <= i < |group| ==> !CollideOrTangent(ball, group[i])
    ensures HitBrickSpeed(ball, s, group) == s && Misses(ball, group) == group
  {
    NoHitKeepsAllSeq(ball, group);
  }

  lemma {:induction false} NoHitKeepsAllSeq(ball: Rect, group: seq<Rect>)
    requires forall i :: 0 <= i < |group| ==> !CollideOrTangent(ball, group[i])
    ensures Hits(ball, group) == [] && Misses(ball, group) == group
  {
    if group != [] {
      assert forall i :: 0 <= i < |group[1..]| ==> group[1..][i] == group[i + 1];
      NoHitKeepsAllSeq(ball, group[1..]);
    }
  }

  class Ball {
    const initPos: Rect
    const area: Rect
    var rect: Rect
    var speed: Vec

    predicate Valid()
      reads this
    {
      rect.width == 5 && rect.height == 5
    }

    constructor(pos: Point, area: Rect)
      ensures initPos == Rect(pos.x, pos.y, 5, 5) && this.area == area
      ensures rect == initPos && speed == Vec(5, 5) && Valid()
    {
      initPos := Rect(pos.x, pos.y, 5, 5);
      this.area := area;
      rect := Rect(pos.x, pos.y, 5, 5);
      speed := Vec(5, 5);
    }

    method Reset()
      requires initPos.width == 5 && initPos.height == 5
      modifies this
      ensures rect == initPos && speed == Vec(5, 5) && Valid()
    {
      rect := initPos;
      speed := Vec(5, 5);
    }

    method Move()
      requires Valid()
      modifies this
      ensures rect == old(rect).MovedBy(old(speed)) && speed == old(speed) && Valid()
    {
      rect := rect.MovedBy(speed);
    }

    /**
     * `check_hit_brick`: the bricks the ball touches leave the group, the
     * ball bounces off the first of them, and their number is returned.
     */
    method CheckHitBrick(group: seq<Rect>) returns (remaining: seq<Rect>, count: int)
      modifies this
      ensures remaining == Misses(old(rect), group) && count == |Hits(old(rect), group)|
      ensures speed == HitBrickSpeed(old(rect), old(speed), group) && rect == old(rect)
    {
      var hit := Hits(rect, group);
      remaining := Misses(rect, group);
      if |hit| > 0 {
        speed := FaceBounce(rect, speed, hit[0]);
      }
      count := |hit|;
    }

    /** `check_bouncing`: platform then walls; the ball is alive until its top reaches the platform's bottom. */
    method CheckBouncing(platform: Platform) returns (alive: bool)
      modifies this
      ensures speed == BouncingSpeed(old(rect), old(speed), platform.rect, area) && rect == old(rect)
      ensures alive <==> rect.top < platform.rect.Bottom()
    {
      if CollideOrTangent(rect, platform.rect) {
        speed := FaceBounce(rect, speed, platform.rect);
      }
      speed := WallBounce(rect, speed, area);
      alive := !(rect.top >= platform.rect.Bottom());
    }
  }

  // ---- the level file ----

  /**
   * `get_coordinate`: the line split at single spaces and its first two
   * fields converted with `int()` left to right; a missing second field
   * raises IndexError once the first is read. Further fields are ignored.
   */
  function Coordinate(line: string): Result<(int, int), PyException> {
    var f := Split(line, ' ');
    match Core.IntOf(f[0])
    case Failure(e) => Failure(e)
    case Success(x) =>
      if |f| < 2 then Failure(IndexError)
      else match Core.IntOf(f[1])
      case Failure(e) => Failure(e)
      case Success(y) => Success((x, y))
  }

  /** The line a level file holds for a position: two decimal numbers and a space. */
  function PositionLine(x: int, y: int): string {
    Join([' '], [DecimalString(x), DecimalString(y)])
  }

  /** Reading the line written for (x, y) gives (x, y) back. */
  lemma CoordinateOfPositionLine(x: int, y: int)
    ensures Coordinate(PositionLine(x, y)) == Success((x, y))
  {
    Core.NoSpaceInDecimal(x);
    Core.NoSpaceInDecimal(y);
    JoinSplit([DecimalString(x), DecimalString(y)], ' ');
    ParseDecimalString(x);
    ParseDecimalString(y);
  }

  /** A line of one number raises IndexError once the number is read. */
  lemma CoordinateOneField(n: int)
    ensures Coordinate(DecimalString(n)) == Failure(IndexError)
  {
    Core.NoSpaceInDecimal(n);
    assert Split(DecimalString(n), ' ') == [DecimalString(n)];
    ParseDecimalString(n);
  }

  /** An empty line raises ValueError for `int('')`. */
  lemma CoordinateEmpty()
    ensures Coordinate("") == Failure(ValueError("invalid literal for int() with base 10: ''"))
  {
    assert Split("", ' ') == [""];
    assert StripLeft("") == "" && StripRight("") == "";
    assert ParseInt("") == None;
    assert "invalid literal for int() with base 10: '" + "" + "'" == "invalid literal for int() with base 10: ''";
  }

  /** The bricks at the offset plus each position, in order. */
  function PlaceBricks(offset: Point, positions: seq<(int, int)>): (bricks: seq<Rect>)
    ensures |bricks| == |positions|
    ensures forall i :: 0 <= i < |positions| ==>
      bricks[i] == BrickAt(positions[i].0 + offset.x, positions[i].1 + offset.y)
  {
    seq(|positions|, i requires 0 <= i < |positions| =>
      BrickAt(positions[i].0 + offset.x, positions[i].1 + offset.y))
  }

  /**
   * `_create_bricks`: the first line (an empty file gives "") is the
   * offset, every further line a brick; the first line that cannot be read
   * raises its error.
   */
  function LevelBricks(lines: seq<string>): Result<seq<Rect>, PyException> {
    match Coordinate(Core.FirstLine(lines))
    case Failure(e) => Failure(e)
    case Success(o) =>
      PlaceLines(Coordinate, Point(o.0, o.1), Core.LaterLines(lines))
  }

  /** The lines written for brick positions, in order. */
  function PositionLines(positions: seq<(int, int)>): (lines: seq<string>)
    ensures |lines| == |positions|
    ensures forall i :: 0 <= i < |positions| ==> lines[i] == PositionLine(positions[i].0, positions[i].1)
  {
    seq(|positions|, i requires 0 <= i < |positions| => PositionLine(positions[i].0, positions[i].1))
  }

  /** A level file written from an offset and brick positions reads back as those bricks, each moved by the offset. */
  lemma LevelBricksOfLines(ox: int, oy: int, positions: seq<(int, int)>)
    ensures LevelBricks([PositionLine(ox, oy)] + PositionLines(positions))
      == Success(PlaceBricks(Point(ox, oy), positions))
  {
    var lines := [PositionLine(ox, oy)] + PositionLines(positions);
    CoordinateOfPositionLine(ox, oy);
    assert Core.LaterLines(lines) == PositionLines(positions);
    var rs := Core.MapResults(Coordinate, PositionLines(positions));
    forall i | 0 <= i < |positions|
      ensures rs[i] == Success(positions[i])
    {
      CoordinateOfPositionLine(positions[i].0, positions[i].1);
    }
    var r := Core.AllOrFirstError(rs);
    assert r.Success?;
    assert r.value == positions;
  }

  /** An empty level file raises ValueError for `int('')`. */
  lemma EmptyLevelFails()
    ensures LevelBricks([]) == Failure(ValueError("invalid literal for int() with base 10: ''"))
  {
    CoordinateEmpty();
  }

  lemma PlaceBricksSnoc(offset: Point, positions: seq<(int, int)>, p: (int, int))
    ensures PlaceBricks(offset, positions + [p]) == PlaceBricks(offset, positions) + [BrickAt(p.0 + offset.x, p.1 + offset.y)]
  {
    var a := PlaceBricks(offset, positions + [p]);
    var b := PlaceBricks(offset, positions) + [BrickAt(p.0 + offset.x, p.1 + offset.y)];
    assert |a| == |b|;
    forall i | 0 <= i < |a|
      ensures a[i] == b[i]
    {
      if i < |positions| {
        assert (positions + [p])[i] == positions[i];
      }
    }
  }

  /** The bricks of the lines after the first, each read by `read` and placed at the offset, or the first failing line's error. */
  function PlaceLines<A>(read: A -> Result<(int, int), PyException>, offset: Point, rest: seq<A>): Result<seq<Rect>, PyException> {
    match Core.AllOrFirstError(Core.MapResults(read, rest))
    case Failure(e) => Failure(e)
    case Success(positions) => Success(PlaceBricks(offset, positions))
  }

  /** `_create_bricks`: the offset line, then the brick lines. */
  method CreateBricks(lines: seq<string>) returns (r: Result<seq<Rect>, PyException>)
    ensures r == LevelBricks(lines)
  {
    var first := Coordinate(Core.FirstLine(lines));
    if first.Failure? {
      return Failure(first.error);
    }
    r := ReadBrickLines(Coordinate, Point(first.value.0, first.value.1), Core.LaterLines(lines));
  }

  /**
   * The loop of `_create_bricks`, each line read by `read`
   * (`get_coordinate`): one brick appended to the container per line, until
   * a line fails.
   */
  method ReadBrickLines<A>(read: A -> Result<(int, int), PyException>, offset: Point, rest: seq<A>)
    returns (r: Result<seq<Rect>, PyException>)
    ensures r == PlaceLines(read, offset, rest)
  {
    var container := [];
    ghost var positions := [];
    for i := 0 to |rest|
      invariant Core.AllOrFirstError(Core.MapResults(read, rest[..i])) == Success(positions)
      invariant container == PlaceBricks(offset, positions)
    {
      var c := read(rest[i]);
      if c.Failure? {
        Core.FirstErrorIn(read, rest, i);
        return Failure(c.error);
      }
      Core.ReadStep(read, rest, i, positions);
      PlaceBricksSnoc(offset, positions, c.value);
      positions := positions + [c.value];
      container := container + [BrickAt(c.value.0 + offset.x, c.value.1 + offset.y)];
    }
    assert rest[..|rest|] == rest;
    r := Success(container);
  }

  // ---- the scene ----

  /** The status after a frame: passed when no brick is left, else alive or over as `check_bouncing` said. */
  function StatusAfter(group: seq<Rect>, alive: bool): (s: Core.GameStatus)
    ensures s == Core.GAME_PASS <==> group == []
    ensures s == Core.GAME_ALIVE <==> group != [] && alive
    ensures s == Core.GAME_OVER <==> group != [] && !alive
  {
    if group == [] then Core.GAME_PASS
    else if alive then Core.GAME_ALIVE
    else Core.GAME_OVER
  }

  /** `fill_scene_info_obj`: the frame, the status string, and the top-left points of the ball, the platform and each remaining brick. */
  datatype SceneInfo = SceneInfo(frame: int, status: string, ball: Point, platform: Point, bricks: seq<Point>)

  /** The top-left points of bricks, in group order. */
  function Pivots(group: seq<Rect>): (ps: seq<Point>)
    ensures |ps| == |group| && forall i :: 0 <= i < |group| ==> ps[i] == group[i].TopLeft()
  {
    seq(|group|, i requires 0 <= i < |group| => group[i].TopLeft())
  }

  class Scene {
    /** `_brick_container`: every brick the level created. */
    const container: seq<Rect>
    /** `_group_brick`: the bricks still in play. */
    var group: seq<Rect>
    var frameCount: int
    var status: Core.GameStatus
    const ball: Ball
    const platform: Platform

    predicate Valid()
      reads this, ball, platform
    {
      ball.Valid() && platform.Valid()
      && ball.initPos == Rect(BALL_INIT_POS.x, BALL_INIT_POS.y, 5, 5)
      && platform.initPos == Rect(PLATFORM_INIT_POS.x, PLATFORM_INIT_POS.y, 50, 5)
      && ball.area == DISPLAY_AREA && platform.area == DISPLAY_AREA
    }

    /** The scene of a level's bricks; the objects start where they were created, without a reset. */
    constructor(bricks: seq<Rect>)
      ensures Valid() && fresh(ball) && fresh(platform)
      ensures container == bricks && group == bricks
      ensures frameCount == 0 && status == Core.GAME_ALIVE
      ensures ball.rect == ball.initPos && ball.speed == Vec(5, 5) && platform.rect == platform.initPos
    {
      container := bricks;
      group := bricks;
      frameCount := 0;
      status := Core.GAME_ALIVE;
      ball := new Ball(BALL_INIT_POS, DISPLAY_AREA);
      platform := new Platform(PLATFORM_INIT_POS, DISPLAY_AREA);
    }

    /** `reset`: frame 0, alive, the objects back at their start, and every brick of the level back in play. */
    method Reset()
      requires Valid()
      modifies this, ball, platform
      ensures Valid()
      ensures frameCount == 0 && status == Core.GAME_ALIVE && group == container
      ensures ball.rect == ball.initPos && ball.speed == Vec(5, 5) && platform.rect == platform.initPos
    {
      frameCount := 0;
      status := Core.GAME_ALIVE;
      ball.Reset();
      platform.Reset();
      group := container;
    }

    /** The first half of `update`: count the frame, move the ball, then the platform. */
    method Advance(action: string)
      requires Valid()
      modifies this, ball, platform
      ensures Valid()
      ensures frameCount == old(frameCount) + 1 && group == old(group) && status == old(status)
      ensures ball.rect == old(ball.rect).MovedBy(old(ball.speed)) && ball.speed == old(ball.speed)
      ensures platform.rect == old(platform.rect).MovedBy(Vec(PlatformShift(old(platform.rect), DISPLAY_AREA, action), 0))
    {
      frameCount := frameCount + 1;
      ball.Move();
      platform.Move(action);
    }

    /** The second half of `update`: bricks, then bouncing, then the status. */
    method Judge() returns (s: Core.GameStatus)
      requires Valid()
      modifies this, ball
      ensures Valid() && frameCount == old(frameCount) && platform.rect == old(platform.rect)
      ensures group == Misses(old(ball.rect), old(group)) && ball.rect == old(ball.rect)
      ensures ball.speed == BouncingSpeed(ball.rect, HitBrickSpeed(ball.rect, old(ball.speed), old(group)), platform.rect, DISPLAY_AREA)
      ensures s == status == StatusAfter(group, ball.rect.top < platform.rect.Bottom())
    {
      var remaining, _ := ball.CheckHitBrick(group);
      group := remaining;
      var alive := ball.CheckBouncing(platform);
      status := StatusAfter(group, alive);
      s := status;
    }

    /** `update`: one frame for a move action; returns the new status. */
    method Update(action: string) returns (s: Core.GameStatus)
      requires Valid()
      modifies this, ball, platform
      ensures Valid() && frameCount == old(frameCount) + 1
      ensures ball.rect == old(ball.rect).MovedBy(old(ball.speed))
      ensures platform.rect == old(platform.rect).MovedBy(Vec(PlatformShift(old(platform.rect), DISPLAY_AREA, action), 0))
      ensures group == Misses(ball.rect, old(group))
      ensures ball.speed == BouncingSpeed(ball.rect, HitBrickSpeed(ball.rect, old(ball.speed), old(group)), platform.rect, DISPLAY_AREA)
      ensures s == status == StatusAfter(group, ball.rect.top < platform.rect.Bottom())
    {
      Advance(action);
      s := Judge();
    }

    /** `fill_scene_info_obj`. */
    function SceneInfoNow(): (info: SceneInfo)
      reads this, ball, platform
      ensures info.frame == frameCount && info.status == Core.StatusValue(status)
      ensures info.ball == ball.rect.TopLeft() && info.platform == platform.rect.TopLeft()
      ensures |info.bricks| == |group| && forall i :: 0 <= i < |group| ==> info.bricks[i] == group[i].TopLeft()
    {
      SceneInfo(frameCount, Core.StatusValue(status), ball.rect.TopLeft(), platform.rect.TopLeft(), Pivots(group))
    }
  }

  /** A frame never adds a brick: the group after it is part of the group before. */
  lemma UpdateOnlyRemoves(ball: Rect, group: seq<Rect>)
    ensures |Misses(ball, group)| <= |group|
    ensures multiset(Misses(ball, group)) <= multiset(group)
  {
    HitsMissesPartition(ball, group);
  }

  /** `Scene(level, …)`: the bricks of the level's lines, or the error reading them raised. */
  method NewScene(lines: seq<string>) returns (r: Result<Scene, PyException>)
    ensures r.Failure? <==> LevelBricks(lines).Failure?
    ensures r.Failure? ==> r.error == LevelBricks(lines).error
    ensures r.Success? ==>
      && r.value.Valid() && fresh(r.value)
      && r.value.container == r.value.group == LevelBricks(lines).value
      && r.value.frameCount == 0 && r.value.status == Core.GAME_ALIVE
  {
    var bricks := CreateBricks(lines);
    if bricks.Failure? {
      return Failure(bricks.error);
    }
    var scene := new Scene(bricks.value);
    r := Success(scene);
  }
}
