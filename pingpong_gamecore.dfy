/**
 * games/pingpong/game/gameobject.py and games/pingpong/game/gamecore.py:
 * the two platforms and the ball of the ping-pong game, and the scene that
 * moves them every frame and judges who won the round, on integer
 * coordinates.
 *
 * The ball's `check_bouncing` calls physics helpers that the framework's
 * physics module does not define; `Scene.Update` takes its effect as a
 * parameter: a function from the ball's and the two platforms' motions to
 * the ball's new position and speed.
 */
module PingPongGameCore {
  import opened Wrappers
  import opened Geometry
  import opened Physics

  datatype PlatformAction = MOVE_LEFT | MOVE_RIGHT | NONE

  /** The member values: MOVE_LEFT is "LEFT", MOVE_RIGHT is "RIGHT", NONE is "NONE". */
  function ActionValue(a: PlatformAction): string {
    match a
    case MOVE_LEFT => "LEFT"
    case MOVE_RIGHT => "RIGHT"
    case NONE => "NONE"
  }

  /** The member names, the keys of `PlatformAction.__members__`. */
  function ActionName(a: PlatformAction): string {
    match a
    case MOVE_LEFT => "MOVE_LEFT"
    case MOVE_RIGHT => "MOVE_RIGHT"
    case NONE => "NONE"
  }

  /** `PlatformAction(s)`: the member whose value is `s`, if any. */
  function ActionByValue(s: string): (r: Option<PlatformAction>)
    ensures r.Some? ==> ActionValue(r.value) == s
    ensures forall a :: ActionValue(a) == s ==> r == Some(a)
  {
    if s == "LEFT" then Some(MOVE_LEFT)
    else if s == "RIGHT" then Some(MOVE_RIGHT)
    else if s == "NONE" then Some(NONE)
    else None
  }

  /** `PlatformAction[s]`: the member whose name is `s`, if any; `s in PlatformAction.__members__` iff there is one. */
  function ActionByName(s: string): (r: Option<PlatformAction>)
    ensures r.Some? ==> ActionName(r.value) == s
    ensures forall a :: ActionName(a) == s ==> r == Some(a)
  {
    if s == "MOVE_LEFT" then Some(MOVE_LEFT)
    else if s == "MOVE_RIGHT" then Some(MOVE_RIGHT)
    else if s == "NONE" then Some(NONE)
    else None
  }

  function Abs(v: int): int { if v < 0 then -v else v }

  // ---- the platform ----

  /**
   * The x speed `Platform.move` sets: -5 to the left and +5 to the right,
   * each only while the platform has not reached that wall, 0 otherwise.
   */
  function PlatformShift(r: Rect, area: Rect, action: PlatformAction): (dx: int)
    ensures dx == -5 <==> action == MOVE_LEFT && r.left > area.left
    ensures dx == 5 <==> action == MOVE_RIGHT && r.Right() < area.Right()
    ensures dx == 0 || dx == 5 || dx == -5
  {
    if action == MOVE_LEFT && r.left > area.left then -5
    else if action == MOVE_RIGHT && r.Right() < area.Right() then 5
    else 0
  }

  /** The platform is inside the play area, at a multiple of the shift speed from both walls. */
  predicate OnGrid(r: Rect, area: Rect) {
    area.left <= r.left && r.Right() <= area.Right()
    && (r.left - area.left) % 5 == 0 && (area.Right() - r.Right()) % 5 == 0
  }

  /** A platform that starts on the grid never leaves the play area, whatever the actions. */
  lemma ShiftKeepsOnGrid(r: Rect, area: Rect, action: PlatformAction)
    requires OnGrid(r, area)
    ensures OnGrid(r.MovedBy(Vec(PlatformShift(r, area, action), 0)), area)
  {
    var dx := PlatformShift(r, area, action);
    if dx == -5 {
      assert (r.left - 5 - area.left) % 5 == 0;
      assert (area.Right() - (r.Right() - 5)) % 5 == 0;
    } else if dx == 5 {
      assert (r.left + 5 - area.left) % 5 == 0;
      assert (area.Right() - (r.Right() + 5)) % 5 == 0;
    }
  }

  /** `Platform`: a 40 x 30 rect moving sideways in the play area. */
  class Platform {
    const initPos: Point
    const area: Rect
    var rect: Rect
    var speed: Vec

    /** The platform keeps its size and never moves vertically. */
    ghost predicate Valid()
      reads this
    {
      speed.y == 0 && rect.width == 40 && rect.height == 30
    }

    constructor(pos: Point, playArea: Rect)
      ensures Valid() && initPos == pos && area == playArea
      ensures rect == Rect(pos.x, pos.y, 40, 30) && speed == Vec(0, 0)
    {
      initPos, area := pos, playArea;
      rect := Rect(pos.x, pos.y, 40, 30);
      speed := Vec(0, 0);
    }

    /** `reset`: back to the initial rect; the speed is kept. */
    method Reset()
      requires Valid()
      modifies this
      ensures Valid() && rect == Rect(initPos.x, initPos.y, 40, 30) && speed == old(speed)
    {
      rect := Rect(initPos.x, initPos.y, 40, 30);
    }

    /** `move`: the x speed is set by the action and the platform moves by the speed; y never changes. */
    method Move(action: PlatformAction)
      requires Valid()
      modifies this
      ensures Valid() && speed == Vec(PlatformShift(old(rect), area, action), 0)
      ensures rect == old(rect).MovedBy(speed) && rect.top == old(rect).top
    {
      if action == MOVE_LEFT && rect.left > area.left {
        speed := speed.(x := -5);
      } else if action == MOVE_RIGHT && rect.Right() < area.Right() {
        speed := speed.(x := 5);
      } else {
        speed := speed.(x := 0);
      }
      rect := rect.MovedBy(speed);
    }
  }

  // ---- the ball ----

  /** `int(500 * 0.8 - 5)` and `int(500 * 0.2)`: the serve heights in the 500-pixel-high play area. */
  const SERVE_TOP_1P := 395
  const SERVE_TOP_2P := 100

  /** Where `Ball.reset` puts the ball and how fast it sends it, by the side that serves. */
  function ServeMotion(from1P: bool): (m: Motion)
    ensures m.rect.width == 5 && m.rect.height == 5
    ensures Abs(m.speed.x) == 7 && Abs(m.speed.y) == 7
    ensures from1P <==> m.speed.y < 0
  {
    if from1P then Motion(Rect(120, SERVE_TOP_1P, 5, 5), Vec(-7, -7))
    else Motion(Rect(75, SERVE_TOP_2P, 5, 5), Vec(7, 7))
  }

  /** The sides of `n` successive serves, the first from 1P when `first` holds. */
  function ServeSides(first: bool, n: nat): (sides: seq<bool>)
    ensures |sides| == n
    decreases n
  {
    if n == 0 then [] else [first] + ServeSides(!first, n - 1)
  }

  /** Each reset flips the side: the k-th serve comes from the first side exactly when k is even. */
  lemma {:induction false} ServeSidesAlternate(first: bool, n: nat)
    ensures forall k :: 0 <= k < n ==> ServeSides(first, n)[k] == (first == (k % 2 == 0))
    decreases n
  {
    if n > 0 {
      ServeSidesAlternate(!first, n - 1);
      forall k | 0 <= k < n
        ensures ServeSides(first, n)[k] == (first == (k % 2 == 0))
      {
        if k > 0 {
          assert ServeSides(first, n)[k] == ServeSides(!first, n - 1)[k - 1];
        }
      }
    }
  }

  /** One step of `speed_up` on a component: away from zero by one. */
  function StepAway(v: int): (w: int)
    ensures Abs(w) == Abs(v) + 1
    ensures v > 0 ==> w > 0
    ensures v < 0 ==> w < 0
  {
    v + (if v > 0 then 1 else -1)
  }

  /** `speed_up`: each component one faster, in its own direction. */
  function SpeedUp(s: Vec): (t: Vec)
    ensures Abs(t.x) == Abs(s.x) + 1 && Abs(t.y) == Abs(s.y) + 1
  {
    Vec(StepAway(s.x), StepAway(s.y))
  }

  /** After `k` speed-ups the serve speed 7 has become 7 + k on each axis, in the serve's direction. */
  function SpedUp(s: Vec, k: nat): (t: Vec)
    ensures Abs(t.x) == Abs(s.x) + k && Abs(t.y) == Abs(s.y) + k
  {
    if k == 0 then s else SpeedUp(SpedUp(s, k - 1))
  }

  /** Speeding up keeps the ball's direction on both axes. */
  lemma {:induction false} SpedUpKeepsDirection(s: Vec, k: nat)
    requires s.x != 0 && s.y != 0
    ensures (SpedUp(s, k).x > 0 <==> s.x > 0) && (SpedUp(s, k).y > 0 <==> s.y > 0)
  {
    if k > 0 {
      SpedUpKeepsDirection(s, k - 1);
    }
  }

  /** `Ball`: a 5 x 5 rect that serves from alternate sides. */
  class Ball {
    const area: Rect
    var rect: Rect
    var speed: Vec
    var serveFrom1P: bool
    /** `_last_pos`: the top-left corner before the last move. */
    var lastPos: Point

    ghost predicate Valid()
      reads this
    {
      rect.width == 5 && rect.height == 5
    }

    constructor(playArea: Rect)
      ensures Valid() && area == playArea
      ensures rect == Rect(0, 0, 5, 5) && speed == Vec(7, 7) && serveFrom1P && lastPos == Point(0, 0)
    {
      area := playArea;
      rect := Rect(0, 0, 5, 5);
      speed := Vec(7, 7);
      serveFrom1P := true;
      lastPos := Point(0, 0);
    }

    /** `reset`: serve from the current side, then switch sides for the next serve. */
    method Reset()
      requires Valid()
      modifies this
      ensures Valid() && Motion(rect, speed) == ServeMotion(old(serveFrom1P))
      ensures serveFrom1P == !old(serveFrom1P) && lastPos == old(lastPos)
    {
      if serveFrom1P {
        rect := Rect(120, SERVE_TOP_1P, 5, 5);
        speed := Vec(-7, -7);
      } else {
        rect := Rect(75, SERVE_TOP_2P, 5, 5);
        speed := Vec(7, 7);
      }
      serveFrom1P := !serveFrom1P;
    }

    /** `move`: the previous position is remembered, then the ball moves by exactly its speed. */
    method Move()
      requires Valid()
      modifies this
      ensures Valid() && lastPos == old(rect).TopLeft() && rect == old(rect).MovedBy(speed)
      ensures speed == old(speed) && serveFrom1P == old(serveFrom1P)
    {
      lastPos := rect.TopLeft();
      rect := rect.MovedBy(speed);
    }

    /** `speed_up`: one faster on each axis. */
    method SpeedUpBall()
      requires Valid()
      modifies this
      ensures Valid() && speed == SpeedUp(old(speed))
      ensures rect == old(rect) && lastPos == old(lastPos) && serveFrom1P == old(serveFrom1P)
    {
      speed := Vec(speed.x + (if speed.x > 0 then 1 else -1), speed.y + (if speed.y > 0 then 1 else -1));
    }
  }

  // ---- the scene ----

  datatype GameStatus = GAME_1P_WIN | GAME_2P_WIN | GAME_ALIVE

  function StatusValue(s: GameStatus): string {
    match s
    case GAME_1P_WIN => "GAME_1P_WIN"
    case GAME_2P_WIN => "GAME_2P_WIN"
    case GAME_ALIVE => "GAME_ALIVE"
  }

  /** `display_area_size`: the 200 x 500 play area. */
  const DISPLAY_AREA := Rect(0, 0, 200, 500)
  /** 1P plays at the bottom, 80 pixels above the bottom edge; 2P at the top. */
  const PLATFORM_1P_POS := Point(80, 420)
  const PLATFORM_2P_POS := Point(80, 50)

  /**
   * The status `update` reports: 2P wins once the ball is entirely below
   * 1P's platform, 1P wins once it is entirely above 2P's, and the round
   * goes on otherwise.
   */
  function StatusOf(ball: Rect, p1: Rect, p2: Rect): (s: GameStatus)
    ensures s == GAME_2P_WIN <==> ball.top > p1.Bottom()
    ensures s == GAME_1P_WIN <==> ball.top <= p1.Bottom() && ball.Bottom() < p2.top
    ensures s == GAME_ALIVE <==> ball.top <= p1.Bottom() && p2.top <= ball.Bottom()
  {
    if ball.top > p1.Bottom() then GAME_2P_WIN
    else if ball.Bottom() < p2.top then GAME_1P_WIN
    else GAME_ALIVE
  }

  /** A ball between the two platforms' outer edges keeps the round going. */
  lemma BallBetweenPlatformsAlive(ball: Rect, p1: Rect, p2: Rect)
    requires p2.top <= ball.top && ball.Bottom() <= p1.Bottom() && ball.height >= 0
    ensures StatusOf(ball, p1, p2) == GAME_ALIVE
  {
  }

  /** What `fill_scene_info_obj` writes: the frame, the status value, the top-left corners and the ball's x speed. */
  datatype SceneInfo = SceneInfo(frame: int, status: string, ball: Point, ballSpeed: int, platform1P: Point, platform2P: Point)

  /** The speed up happens on the frames that are multiples of 200. */
  predicate SpeedUpFrame(frame: int) {
    frame % 200 == 0
  }

  /** `Scene`: the frame counter, the status, the ball and the two platforms. */
  class Scene {
    var frameCount: int
    var status: GameStatus
    const ball: Ball
    const platform1P: Platform
    const platform2P: Platform

    ghost predicate Valid()
      reads this, ball, platform1P, platform2P
    {
      ball.Valid() && platform1P.Valid() && platform2P.Valid() && platform1P != platform2P
      && frameCount >= 0
      && ball.area == DISPLAY_AREA && platform1P.area == DISPLAY_AREA && platform2P.area == DISPLAY_AREA
      && platform1P.initPos == PLATFORM_1P_POS && platform2P.initPos == PLATFORM_2P_POS
    }

    /** `Scene()`: the objects are created and the scene is reset, so the first serve comes from 1P. */
    constructor()
      ensures Valid() && fresh(ball) && fresh(platform1P) && fresh(platform2P)
      ensures frameCount == 0 && status == GAME_ALIVE
      ensures Motion(ball.rect, ball.speed) == ServeMotion(true) && !ball.serveFrom1P
      ensures platform1P.rect == Rect(80, 420, 40, 30) && platform2P.rect == Rect(80, 50, 40, 30)
    {
      frameCount := 0;
      status := GAME_ALIVE;
      ball := new Ball(DISPLAY_AREA);
      platform1P := new Platform(PLATFORM_1P_POS, DISPLAY_AREA);
      platform2P := new Platform(PLATFORM_2P_POS, DISPLAY_AREA);
      new;
      Reset();
    }

    /** `reset`: frame 0, the round alive, a new serve and both platforms back at their starting rects. */
    method Reset()
      requires Valid()
      modifies this, ball, platform1P, platform2P
      ensures Valid() && frameCount == 0 && status == GAME_ALIVE
      ensures Motion(ball.rect, ball.speed) == ServeMotion(old(ball.serveFrom1P))
      ensures ball.serveFrom1P == !old(ball.serveFrom1P) && ball.lastPos == old(ball.lastPos)
      ensures platform1P.rect == Rect(80, 420, 40, 30) && platform2P.rect == Rect(80, 50, 40, 30)
      ensures platform1P.speed == old(platform1P.speed) && platform2P.speed == old(platform2P.speed)
    {
      frameCount := 0;
      status := GAME_ALIVE;
      ball.Reset();
      platform1P.Reset();
      platform2P.Reset();
    }

    /**
     * `update`: the next frame; every 200th frame the ball speeds up before
     * it moves; the platforms move by their actions; the ball bounces as
     * `bounce` says; the status is judged from the new positions.
     */
    method Update(action1P: PlatformAction, action2P: PlatformAction, bounce: (Motion, Motion, Motion) -> Motion)
      returns (s: GameStatus)
      requires Valid()
      modifies this, ball, platform1P, platform2P
      ensures Valid() && frameCount == old(frameCount) + 1
      ensures platform1P.speed == Vec(PlatformShift(old(platform1P.rect), DISPLAY_AREA, action1P), 0)
      ensures platform1P.rect == old(platform1P.rect).MovedBy(platform1P.speed)
      ensures platform2P.speed == Vec(PlatformShift(old(platform2P.rect), DISPLAY_AREA, action2P), 0)
      ensures platform2P.rect == old(platform2P.rect).MovedBy(platform2P.speed)
      ensures ball.lastPos == old(ball.rect).TopLeft() && ball.serveFrom1P == old(ball.serveFrom1P)
      ensures var sped := if SpeedUpFrame(frameCount) then SpeedUp(old(ball.speed)) else old(ball.speed);
        var m := bounce(Motion(old(ball.rect).MovedBy(sped), sped),
          Motion(platform1P.rect, platform1P.speed), Motion(platform2P.rect, platform2P.speed));
        ball.rect == old(ball.rect).WithTopLeft(m.rect.TopLeft()) && ball.speed == m.speed
      ensures s == status && s == StatusOf(ball.rect, platform1P.rect, platform2P.rect)
    {
      frameCount := frameCount + 1;
      if frameCount % 200 == 0 {
        ball.SpeedUpBall();
      }
      ball.Move();
      platform1P.Move(action1P);
      platform2P.Move(action2P);
      var m := bounce(Motion(ball.rect, ball.speed),
        Motion(platform1P.rect, platform1P.speed), Motion(platform2P.rect, platform2P.speed));
      ball.rect := ball.rect.WithTopLeft(m.rect.TopLeft());
      ball.speed := m.speed;
      if ball.rect.top > platform1P.rect.Bottom() {
        status := GAME_2P_WIN;
      } else if ball.rect.Bottom() < platform2P.rect.top {
        status := GAME_1P_WIN;
      } else {
        status := GAME_ALIVE;
      }
      s := status;
    }

    /** The scene information `fill_scene_info_obj` writes now. */
    function SceneInfoNow(): (info: SceneInfo)
      reads this, ball, platform1P, platform2P
      ensures info.frame == frameCount && info.status == StatusValue(status)
      ensures info.ballSpeed >= 0 && (info.ballSpeed == ball.speed.x || info.ballSpeed == -ball.speed.x)
    {
      SceneInfo(frameCount, StatusValue(status), ball.rect.TopLeft(), Abs(ball.speed.x),
        platform1P.rect.TopLeft(), platform2P.rect.TopLeft())
    }
  }

  /** A served ball is reported at speed 7, and each speed-up raises the reported speed by exactly one. */
  lemma ReportedSpeedAfterServe(from1P: bool, k: nat)
    ensures Abs(SpedUp(ServeMotion(from1P).speed, k).x) == 7 + k
  {
  }
}
