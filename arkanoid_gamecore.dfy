/**
 * games/arkanoid/game/gamecore.py: the arkanoid scene. It reads the brick
 * layout of a level from the lines of the level file, keeps the frame
 * count, the game status, the ball, the platform and the brick group, and
 * advances them one frame at a time.
 */
module ArkanoidGameCore {
  import opened Wrappers
  import opened Exceptions
  import opened PyText
  import opened Geometry
  import opened Physics
  import opened ArkanoidGameObject

  datatype Difficulty = EASY | NORMAL

  datatype GameStatus = GAME_ALIVE | GAME_OVER | GAME_PASS

  /** The string value of a status. */
  function StatusValue(s: GameStatus): string {
    match s
    case GAME_ALIVE => "GAME_ALIVE"
    case GAME_OVER => "GAME_OVER"
    case GAME_PASS => "GAME_PASS"
  }

  /** `Scene.area_rect`. */
  const AREA := Rect(0, 0, 200, 500)
  /** Where the platform starts. */
  const PLATFORM_INIT := Point(75, 400)

  // ---- level files ----

  /** The values of a sequence of results in order, or the error of the first failed one. */
  function AllOrFirstError<T>(rs: seq<Result<T, PyException>>): (r: Result<seq<T>, PyException>)
    ensures r.Success? <==> forall i :: 0 <= i < |rs| ==> rs[i].Success?
    ensures r.Success? ==>
      |r.value| == |rs| && forall i :: 0 <= i < |rs| ==> rs[i] == Success(r.value[i])
    ensures r.Failure? ==>
      exists i :: 0 <= i < |rs| && rs[i] == Failure(r.error) && forall j :: 0 <= j < i ==> rs[j].Success?
  {
    if rs == [] then Success([])
    else
      var last := |rs| - 1;
      assert forall i :: 0 <= i < last ==> rs[..last][i] == rs[i];
      match AllOrFirstError(rs[..last])
      case Failure(e) => Failure(e)
      case Success(vs) =>
        match rs[last]
        case Failure(e) => Failure(e)
        case Success(v) => Success(vs + [v])
  }

  /** One more result: its value is appended, unless an earlier one or it failed. */
  lemma AllOrFirstErrorSnoc<T>(rs: seq<Result<T, PyException>>, x: Result<T, PyException>)
    ensures AllOrFirstError(rs + [x]) ==
      match AllOrFirstError(rs)
      case Failure(e) => Failure(e)
      case Success(vs) => (match x case Failure(e) => Failure(e) case Success(v) => Success(vs + [v]))
  {
    assert (rs + [x])[..|rs|] == rs;
  }

  /** The first failed result decides the error. */
  lemma FirstErrorAt<T>(rs: seq<Result<T, PyException>>, i: int)
    requires 0 <= i < |rs| && rs[i].Failure?
    requires forall j :: 0 <= j < i ==> rs[j].Success?
    ensures AllOrFirstError(rs) == Failure(rs[i].error)
  {
  }

  /** `int(s)`: the value of a decimal literal, or ValueError naming the literal. */
  function IntOf(s: string): Result<int, PyException> {
    match ParseInt(s)
    case Some(n) => Success(n)
    case None => Failure(ValueError("invalid literal for int() with base 10: '" + s + "'"))
  }

  /**
   * `get_coordinate_and_type(line)`: the line split at single spaces, and
   * its first three fields converted with `int()` left to right; a missing
   * second or third field raises IndexError when it is reached.
   */
  function Coordinates(line: string): Result<(int, int, int), PyException> {
    var f := Split(line, ' ');
    match IntOf(f[0])
    case Failure(e) => Failure(e)
    case Success(x) =>
      if |f| < 2 then Failure(IndexError)
      else match IntOf(f[1])
      case Failure(e) => Failure(e)
      case Success(y) =>
        if |f| < 3 then Failure(IndexError)
        else match IntOf(f[2])
        case Failure(e) => Failure(e)
        case Success(t) => Success((x, y, t))
  }

  /** The line a level file holds for a brick (or the offset): three decimal numbers and single spaces. */
  function LevelLine(x: int, y: int, t: int): string {
    Join([' '], [DecimalString(x), DecimalString(y), DecimalString(t)])
  }

  lemma NoSpaceInDecimal(n: int)
    ensures ' ' !in DecimalString(n)
  {
    var d := Digits(if n < 0 then -n else n);
    assert forall i :: 0 <= i < |d| ==> d[i] != ' ';
    if n < 0 {
      assert DecimalString(n) == "-" + d;
      assert forall i :: 0 <= i < |DecimalString(n)| ==> DecimalString(n)[i] != ' ';
    }
  }

  /** Reading the line written for (x, y, t) gives (x, y, t) back. */
  lemma CoordinatesOfLevelLine(x: int, y: int, t: int)
    ensures Coordinates(LevelLine(x, y, t)) == Success((x, y, t))
  {
    var parts := [DecimalString(x), DecimalString(y), DecimalString(t)];
    NoSpaceInDecimal(x);
    NoSpaceInDecimal(y);
    NoSpaceInDecimal(t);
    JoinSplit(parts, ' ');
    ParseDecimalString(x);
    ParseDecimalString(y);
    ParseDecimalString(t);
  }

  /** A line with fewer than three fields raises: IndexError when its fields are numbers, ValueError otherwise. */
  lemma CoordinatesShortLine(line: string)
    requires |Split(line, ' ')| < 3
    ensures Coordinates(line).Failure?
    ensures var f := Split(line, ' ');
      (forall i :: 0 <= i < |f| ==> ParseInt(f[i]).Some?) ==> Coordinates(line) == Failure(IndexError)
  {
  }

  /** `f` applied to each element, in order. */
  function MapResults<A, T>(f: A -> Result<T, PyException>, xs: seq<A>): (rs: seq<Result<T, PyException>>)
    ensures |rs| == |xs| && forall i :: 0 <= i < |xs| ==> rs[i] == f(xs[i])
  {
    seq(|xs|, i requires 0 <= i < |xs| => f(xs[i]))
  }

  /** One more element whose result is a value appends that value. */
  lemma ReadStep<A, T>(f: A -> Result<T, PyException>, xs: seq<A>, i: int, read: seq<T>)
    requires 0 <= i < |xs| && f(xs[i]).Success?
    requires AllOrFirstError(MapResults(f, xs[..i])) == Success(read)
    ensures AllOrFirstError(MapResults(f, xs[..i + 1])) == Success(read + [f(xs[i]).value])
  {
    assert MapResults(f, xs[..i + 1]) == MapResults(f, xs[..i]) + [f(xs[i])];
    AllOrFirstErrorSnoc(MapResults(f, xs[..i]), f(xs[i]));
  }

  /** An element that fails, after elements that all succeeded, makes the whole fail with its error. */
  lemma FirstErrorIn<A, T>(f: A -> Result<T, PyException>, xs: seq<A>, i: int)
    requires 0 <= i < |xs| && f(xs[i]).Failure?
    requires AllOrFirstError(MapResults(f, xs[..i])).Success?
    ensures AllOrFirstError(MapResults(f, xs)) == Failure(f(xs[i]).error)
  {
    var rs := MapResults(f, xs);
    assert forall j :: 0 <= j < i ==> MapResults(f, xs[..i])[j] == rs[j];
    FirstErrorAt(rs, i);
  }

  /** The bricks placed at the offset plus each triple's coordinates, hard exactly where the type is not 0. */
  function Place(offset: Point, triples: seq<(int, int, int)>): (bricks: seq<Brick>)
    ensures |bricks| == |triples|
    ensures forall i :: 0 <= i < |triples| ==>
      bricks[i] == NewBrick(Point(triples[i].0 + offset.x, triples[i].1 + offset.y), triples[i].2 != 0)
  {
    seq(|triples|, i requires 0 <= i < |triples| =>
      NewBrick(Point(triples[i].0 + offset.x, triples[i].1 + offset.y), triples[i].2 != 0))
  }

  lemma PlaceSnoc(offset: Point, triples: seq<(int, int, int)>, t: (int, int, int))
    ensures Place(offset, triples + [t]) == Place(offset, triples) + [NewBrick(Point(t.0 + offset.x, t.1 + offset.y), t.2 != 0)]
  {
    var a := Place(offset, triples + [t]);
    var b := Place(offset, triples) + [NewBrick(Point(t.0 + offset.x, t.1 + offset.y), t.2 != 0)];
    assert |a| == |b|;
    forall i | 0 <= i < |a|
      ensures a[i] == b[i]
    {
      if i < |triples| {
        assert (triples + [t])[i] == triples[i];
      }
    }
  }

  /** The name of a level's file. */
  function LevelFileName(level: int): string {
    "level_data/" + DecimalString(level) + ".dat"
  }

  /** The line `readline` gives first: an empty file gives "". */
  function FirstLine(lines: seq<string>): string {
    if lines == [] then "" else lines[0]
  }

  /** The lines the `for` loop visits after the first. */
  function LaterLines(lines: seq<string>): seq<string> {
    if lines == [] then [] else lines[1..]
  }

  /**
   * `_create_bricks`: the first line gives the offset (its third field is
   * read and ignored); every further line one brick; the first line that
   * cannot be read raises its error.
   */
  function ParseLevel(lines: seq<string>): Result<seq<Brick>, PyException> {
    match Coordinates(FirstLine(lines))
    case Failure(e) => Failure(e)
    case Success(o) =>
      PlaceLines(Coordinates, Point(o.0, o.1), LaterLines(lines))
  }

  /** The bricks of the lines after the first, each read by `read` and placed at the offset, or the first line's error. */
  function PlaceLines<A>(read: A -> Result<(int, int, int), PyException>, offset: Point, rest: seq<A>): Result<seq<Brick>, PyException> {
    match AllOrFirstError(MapResults(read, rest))
    case Failure(e) => Failure(e)
    case Success(triples) => Success(Place(offset, triples))
  }

  /** An empty line has one empty field, and `int('')` raises ValueError. */
  lemma CoordinatesOfEmptyLine()
    ensures Coordinates("") == Failure(ValueError("invalid literal for int() with base 10: ''"))
  {
    assert Split("", ' ') == [""];
    assert StripLeft("") == "" && StripRight("") == "";
    assert ParseInt("") == None;
    assert IntOf("") == Failure(ValueError("invalid literal for int() with base 10: '" + "" + "'"));
    assert "invalid literal for int() with base 10: '" + "" + "'" == "invalid literal for int() with base 10: ''";
  }

  /** An empty level file raises ValueError: `int('')`. */
  lemma EmptyLevelFails()
    ensures ParseLevel([]) == Failure(ValueError("invalid literal for int() with base 10: ''"))
  {
    CoordinatesOfEmptyLine();
    assert FirstLine([]) == "";
  }

  /** Every hard brick a level creates has 2 hit points. */
  lemma LevelBricksStartFull(lines: seq<string>)
    requires ParseLevel(lines).Success?
    ensures forall b :: b in ParseLevel(lines).value && b.hard ==> b.hp == 2
  {
  }

  /** The lines written for brick triples, in order. */
  function BrickLines(triples: seq<(int, int, int)>): (lines: seq<string>)
    ensures |lines| == |triples|
    ensures forall i :: 0 <= i < |triples| ==> lines[i] == LevelLine(triples[i].0, triples[i].1, triples[i].2)
  {
    seq(|triples|, i requires 0 <= i < |triples| => LevelLine(triples[i].0, triples[i].1, triples[i].2))
  }

  /** A level file written from an offset line and brick triples reads back as those bricks, in order. */
  lemma ParseLevelOfLines(ox: int, oy: int, triples: seq<(int, int, int)>)
    ensures ParseLevel([LevelLine(ox, oy, 0)] + BrickLines(triples)) == Success(Place(Point(ox, oy), triples))
  {
    var lines := [LevelLine(ox, oy, 0)] + BrickLines(triples);
    CoordinatesOfLevelLine(ox, oy, 0);
    assert LaterLines(lines) == BrickLines(triples);
    var rs := MapResults(Coordinates, BrickLines(triples));
    forall i | 0 <= i < |triples|
      ensures rs[i] == Success(triples[i])
    {
      CoordinatesOfLevelLine(triples[i].0, triples[i].1, triples[i].2);
    }
    var r := AllOrFirstError(rs);
    assert r.Success?;
    assert r.value == triples;
  }

  /** The reading loop of `_create_bricks`: the offset line, then one brick per line until a line fails. */
  method ReadLevel(lines: seq<string>) returns (r: Result<seq<Brick>, PyException>)
    ensures r == ParseLevel(lines)
  {
    var first := Coordinates(FirstLine(lines));
    if first.Failure? {
      return Failure(first.error);
    }
    r := ReadBricks(Coordinates, Point(first.value.0, first.value.1), LaterLines(lines));
  }

  /**
   * The loop of `_create_bricks` over the brick lines, each line read by
   * `read` (`get_coordinate_and_type`): one brick per line, until a line
   * fails.
   */
  method ReadBricks<A>(read: A -> Result<(int, int, int), PyException>, offset: Point, rest: seq<A>)
    returns (r: Result<seq<Brick>, PyException>)
    ensures r == PlaceLines(read, offset, rest)
  {
    var container := [];
    ghost var triples := [];
    for i := 0 to |rest|
      invariant AllOrFirstError(MapResults(read, rest[..i])) == Success(triples)
      invariant container == Place(offset, triples)
    {
      var c := read(rest[i]);
      if c.Failure? {
        FirstErrorIn(read, rest, i);
        return Failure(c.error);
      }
      ReadStep(read, rest, i, triples);
      PlaceSnoc(offset, triples, c.value);
      triples := triples + [c.value];
      container := container + [NewBrick(Point(c.value.0 + offset.x, c.value.1 + offset.y), c.value.2 != 0)];
    }
    assert rest[..|rest|] == rest;
    r := Success(container);
  }

  // ---- the scene ----

  /** Every hard brick in a group has one or two hit points left. */
  predicate HitPointsInRange(group: seq<Brick>) {
    forall b :: b in group && b.hard ==> b.hp == 1 || b.hp == 2
  }

  /** A hit hard brick with hit points left has one left. */
  lemma {:induction false} SurvivorsHaveOneHp(hit: seq<Brick>)
    requires HitPointsInRange(hit)
    ensures forall b :: b in Survivors(hit) ==> b.hp == 1
    decreases |hit|
  {
    if hit != [] {
      var init := hit[..|hit| - 1];
      assert forall b :: b in init ==> b in hit;
      SurvivorsHaveOneHp(init);
    }
  }

  /** Hitting bricks keeps every hard brick of the group at one or two hit points. */
  lemma BrickHitKeepsHitPoints(ball: Rect, speed: Vec, group: seq<Brick>)
    requires HitPointsInRange(group)
    ensures HitPointsInRange(BrickHitOf(ball, speed, group).remaining)
  {
    var hit := Hits(ball, group);
    assert HitPointsInRange(hit);
    SurvivorsHaveOneHp(hit);
  }

  /** The status after a frame: passed when no brick is left, over when the ball is at or below the platform's bottom. */
  function StatusOf(group: seq<Brick>, ball: Rect, platform: Rect): (s: GameStatus)
    ensures s == GAME_PASS <==> group == []
    ensures s == GAME_OVER <==> group != [] && ball.top >= platform.Bottom()
    ensures s == GAME_ALIVE <==> group != [] && ball.top < platform.Bottom()
  {
    if group == [] then GAME_PASS
    else if ball.top >= platform.Bottom() then GAME_OVER
    else GAME_ALIVE
  }

  /** A hard brick that was never hit: `get_scene_info` lists it among the hard bricks. */
  predicate FullHp(b: Brick) {
    b.hard && b.hp == 2
  }

  /** The positions of the never-hit hard bricks, in group order. */
  function HardPositions(group: seq<Brick>): seq<Point> {
    if group == [] then []
    else
      var b := group[|group| - 1];
      HardPositions(group[..|group| - 1]) + (if FullHp(b) then [b.rect.TopLeft()] else [])
  }

  /** The positions of all other bricks, in group order. */
  function PlainPositions(group: seq<Brick>): seq<Point> {
    if group == [] then []
    else
      var b := group[|group| - 1];
      PlainPositions(group[..|group| - 1]) + (if FullHp(b) then [] else [b.rect.TopLeft()])
  }

  /** Every brick of the group is listed exactly once: among the hard bricks when it was never hit, else among the bricks. */
  lemma {:induction false} PositionsPartition(group: seq<Brick>)
    ensures |HardPositions(group)| + |PlainPositions(group)| == |group|
    ensures forall b :: b in group && FullHp(b) ==> b.rect.TopLeft() in HardPositions(group)
    ensures forall b :: b in group && !FullHp(b) ==> b.rect.TopLeft() in PlainPositions(group)
    decreases |group|
  {
    if group != [] {
      var init := group[..|group| - 1];
      PositionsPartition(init);
      assert group == init + [group[|group| - 1]];
    }
  }

  /**
   * The ball's part of `update`: it moves by its speed, bounces off the
   * bricks it touches, then off the platform (remembering where it was
   * before the move) and the walls. Either bounce fails on a zero relative
   * speed, and a failed brick bounce leaves no platform bounce to make.
   */
  function FrameBall(ball: Motion, group: seq<Brick>, platform: Rect, platformSpeed: Vec, slide: bool): (r: Result<Motion, PyException>)
    ensures r.Failure? ==> r.error == ZeroDivisionError
    ensures r.Success? ==> r.value.rect.width == ball.rect.width && r.value.rect.height == ball.rect.height
    ensures r.Success? && 0 <= ball.rect.width <= AREA.width && 0 <= ball.rect.height <= AREA.height ==>
      0 <= r.value.rect.left && r.value.rect.Right() <= AREA.Right()
      && 0 <= r.value.rect.top && r.value.rect.Bottom() <= AREA.Bottom()
  {
    var moved := ball.rect.MovedBy(ball.speed);
    match BrickHitOf(moved, ball.speed, group).bounce
    case Failure(e) => Failure(e)
    case Success(m) =>
      var b := BouncingOf(m, ball.rect, platform, platformSpeed, slide, AREA);
      if 0 <= m.rect.width <= AREA.width && 0 <= m.rect.height <= AREA.height then
        BouncingStaysInside(m, ball.rect, platform, platformSpeed, slide, AREA);
        b
      else b
  }

  /** The frame counts a platform hit: the brick bounce went through and the ball then touches or crossed the platform. */
  predicate FrameHitsPlatform(ball: Motion, group: seq<Brick>, platform: Rect) {
    var h := BrickHitOf(ball.rect.MovedBy(ball.speed), ball.speed, group);
    h.bounce.Success? && PlatformContact(h.bounce.value.rect, ball.rect, platform)
  }

  /**
   * The status `update(action)` returns, from the state before it: the
   * platform moves by its shift, the ball as `FrameBall` says against the
   * moved platform, and the status is judged on the bricks left.
   */
  function FrameStatus(ball: Motion, group: seq<Brick>, platform: Rect, slide: bool, action: PlatformAction): (r: Result<GameStatus, PyException>)
    ensures r.Failure? ==> r.error == ZeroDivisionError
    ensures r.Success? ==> (r.value == GAME_PASS <==> BrickHitOf(ball.rect.MovedBy(ball.speed), ball.speed, group).remaining == [])
  {
    var shift := Vec(PlatformShift(platform, AREA, action), 0);
    var moved := platform.MovedBy(shift);
    match FrameBall(ball, group, moved, shift, slide)
    case Failure(e) => Failure(e)
    case Success(m) => Success(StatusOf(BrickHitOf(ball.rect.MovedBy(ball.speed), ball.speed, group).remaining, m.rect, moved))
  }

  /** `FrameStatus` once the platform has moved: the status of `FrameBall` against the moved platform. */
  lemma FrameStatusOf(ball: Motion, group: seq<Brick>, platform: Rect, slide: bool, action: PlatformAction, moved: Rect, shift: Vec)
    requires shift == Vec(PlatformShift(platform, AREA, action), 0) && moved == platform.MovedBy(shift)
    ensures FrameStatus(ball, group, platform, slide, action)
      == match FrameBall(ball, group, moved, shift, slide)
         case Failure(e) => Failure(e)
         case Success(m) => Success(StatusOf(BrickHitOf(ball.rect.MovedBy(ball.speed), ball.speed, group).remaining, m.rect, moved))
  {
  }

  /** A ball that touches neither a brick nor the platform and stays clear of the walls just moves by its speed. */
  lemma FrameBallInOpenSpace(ball: Motion, group: seq<Brick>, platform: Rect, platformSpeed: Vec, slide: bool)
    requires Hits(ball.rect.MovedBy(ball.speed), group) == []
    requires !PlatformContact(ball.rect.MovedBy(ball.speed), ball.rect, platform)
    requires !RectBreakOrContactBox(ball.rect.MovedBy(ball.speed), AREA)
    ensures FrameBall(ball, group, platform, platformSpeed, slide) == Success(Motion(ball.rect.MovedBy(ball.speed), ball.speed))
    ensures !FrameHitsPlatform(ball, group, platform)
  {
    var moved := Motion(ball.rect.MovedBy(ball.speed), ball.speed);
    BounceInBoxNeedsContact(moved.rect, moved.speed, AREA);
  }

  /** What `get_scene_info` reports. */
  datatype SceneInfo = SceneInfo(
    frame: int, status: string, ball: Point, platform: Point,
    bricks: seq<Point>, hardBricks: seq<Point>)

  /** `Scene`: the level's bricks, the frame count, the status, the ball, the platform and the bricks still in play. */
  class Scene {
    const difficulty: Difficulty
    const level: int
    /** `_brick_container`: every brick of the level, as created. */
    const container: seq<Brick>
    const ball: Ball
    const platform: Platform
    var frameCount: int
    var status: GameStatus
    /** `_group_brick`: the bricks still in play, in group order. */
    var group: seq<Brick>

    /** The ball and the platform live in the scene's area, the level's hard bricks start with 2 hit points, and those in play keep 1 or 2. */
    ghost predicate Valid()
      reads this, ball, platform
    {
      ball.Valid() && platform.Valid() && ball.area == AREA && platform.area == AREA
      && platform.initPos == PLATFORM_INIT && frameCount >= 0
      && (forall b :: b in container && b.hard ==> b.hp == 2)
      && HitPointsInRange(group)
    }

    /** `Scene(difficulty, level)` once the level's bricks are read: frame 0, alive, every brick in play. */
    constructor(diff: Difficulty, lvl: int, bricks: seq<Brick>, ballInitPos: Point)
      requires forall b :: b in bricks && b.hard ==> b.hp == 2
      ensures Valid() && difficulty == diff && level == lvl && container == bricks && group == bricks
      ensures frameCount == 0 && status == GAME_ALIVE
      ensures fresh(ball) && ball.initPos == ballInitPos && ball.rect == Rect(ballInitPos.x, ballInitPos.y, 5, 5)
      ensures ball.speed == Vec(0, 0) && ball.hitPlatformTimes == 0 && ball.slideEnabled == (diff != EASY)
      ensures fresh(platform) && platform.initPos == PLATFORM_INIT && platform.rect == Rect(75, 400, 40, 5)
    {
      difficulty, level := diff, lvl;
      frameCount, status := 0, GAME_ALIVE;
      ball := new Ball(ballInitPos, AREA, diff != EASY);
      platform := new Platform(PLATFORM_INIT, AREA);
      container, group := bricks, bricks;
    }

    /** `reset`: frame 0, alive, ball and platform back at their start, every brick back in play with full hit points. */
    method Reset()
      requires Valid()
      modifies this, ball, platform
      ensures Valid() && frameCount == 0 && status == GAME_ALIVE && group == container
      ensures forall b :: b in group && b.hard ==> b.hp == 2
      ensures forall b :: b in group ==> ResetBrick(b) == b
      ensures ball.rect == Rect(ball.initPos.x, ball.initPos.y, 5, 5) && ball.speed == Vec(0, 0) && ball.hitPlatformTimes == 0
      ensures platform.rect == Rect(PLATFORM_INIT.x, PLATFORM_INIT.y, 40, 5)
    {
      frameCount := 0;
      status := GAME_ALIVE;
      ball.Reset();
      platform.Reset();
      // Bricks are values here: `container` keeps every brick as it was
      // built, hard bricks at full hit points, so refilling the group with
      // it is also the `reset()` of every hard brick.
      group := container;
    }

    /**
     * `update(move_action)`: one frame. The ball and the platform move, the
     * ball breaks the bricks it touches and bounces off them, the platform
     * and the walls; then the status is decided. A bounce that divides by a
     * zero relative speed raises ZeroDivisionError.
     */
    method Update(action: PlatformAction) returns (r: Result<GameStatus, PyException>)
      requires Valid()
      modifies this, ball, platform
      ensures Valid() && frameCount == old(frameCount) + 1
      ensures platform.speed == Vec(PlatformShift(old(platform.rect), AREA, action), 0)
        && platform.rect == old(platform.rect).MovedBy(platform.speed)
      ensures ball.lastPos == old(ball.rect)
      ensures group == BrickHitOf(old(ball.rect).MovedBy(old(ball.speed)), old(ball.speed), old(group)).remaining
      ensures var f := FrameBall(Motion(old(ball.rect), old(ball.speed)), old(group), platform.rect, platform.speed, ball.slideEnabled);
        (r.Failure? <==> f.Failure?) && (f.Success? ==> Motion(ball.rect, ball.speed) == f.value)
      ensures ball.hitPlatformTimes == old(ball.hitPlatformTimes)
        + if FrameHitsPlatform(Motion(old(ball.rect), old(ball.speed)), old(group), platform.rect) then 1 else 0
      ensures r.Success? ==> status == r.value && r.value == StatusOf(group, ball.rect, platform.rect)
      ensures r.Failure? ==> r.error == ZeroDivisionError && status == old(status)
      ensures r == FrameStatus(Motion(old(ball.rect), old(ball.speed)), old(group), old(platform.rect), ball.slideEnabled, action)
    {
      ghost var m0, g0, p0 := Motion(ball.rect, ball.speed), group, platform.rect;
      frameCount := frameCount + 1;
      ball.Move();
      platform.Move(action);
      FrameStatusOf(m0, g0, p0, ball.slideEnabled, action, platform.rect, platform.speed);
      var remaining, destroyed, o := ball.CheckHitBrick(group);
      BrickHitKeepsHitPoints(m0.rect.MovedBy(m0.speed), m0.speed, group);
      group := remaining;
      if o.Fail? {
        return Failure(o.error);
      }
      o := ball.CheckBouncing(platform);
      if o.Fail? {
        return Failure(o.error);
      }
      status := StatusOf(group, ball.rect, platform.rect);
      r := Success(status);
    }

    /** `get_scene_info`: the frame, the status, the positions, and the bricks split into never-hit hard bricks and the rest. */
    method GetSceneInfo() returns (info: SceneInfo)
      ensures info == SceneInfo(frameCount, StatusValue(status), ball.rect.TopLeft(), platform.rect.TopLeft(),
        PlainPositions(group), HardPositions(group))
    {
      var bricks, hardBricks := [], [];
      for i := 0 to |group|
        invariant bricks == PlainPositions(group[..i]) && hardBricks == HardPositions(group[..i])
      {
        assert group[..i + 1][..i] == group[..i];
        var brick := group[i];
        if brick.hard && brick.hp == 2 {
          hardBricks := hardBricks + [brick.rect.TopLeft()];
        } else {
          bricks := bricks + [brick.rect.TopLeft()];
        }
      }
      assert group[..|group|] == group;
      info := SceneInfo(frameCount, StatusValue(status), ball.rect.TopLeft(), platform.rect.TopLeft(), bricks, hardBricks);
    }
  }

  /**
   * `Scene(difficulty, level)`: a missing level file raises
   * FileNotFoundError and a line that cannot be read raises its error;
   * otherwise the scene starts with every brick of the level in play. The
   * ball's start position is a parameter.
   */
  method NewScene(difficulty: Difficulty, level: int, levelFile: Option<seq<string>>, ballInitPos: Point)
    returns (r: Result<Scene, PyException>)
    ensures levelFile.None? ==> r == Failure(FileNotFoundError(LevelFileName(level)))
    ensures levelFile.Some? && ParseLevel(levelFile.value).Failure? ==> r == Failure(ParseLevel(levelFile.value).error)
    ensures levelFile.Some? && ParseLevel(levelFile.value).Success? ==>
      r.Success? && fresh(r.value) && r.value.Valid()
      && r.value.container == r.value.group == ParseLevel(levelFile.value).value
      && r.value.frameCount == 0 && r.value.status == GAME_ALIVE
      && r.value.ball.initPos == ballInitPos && r.value.ball.slideEnabled == (difficulty != EASY)
      && r.value.platform.initPos == PLATFORM_INIT
  {
    if levelFile.None? {
      return Failure(FileNotFoundError(LevelFileName(level)));
    }
    var bricks := ReadLevel(levelFile.value);
    if bricks.Failure? {
      return Failure(bricks.error);
    }
    LevelBricksStartFull(levelFile.value);
    var scene := new Scene(difficulty, level, bricks.value, ballInitPos);
    r := Success(scene);
  }
}
