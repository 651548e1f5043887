/**
 * pingpong/game/gameobject.py and pingpong/game/gamecore.py: the older
 * ping-pong scene. Its platform is the newer one (40 x 30, moved 5 pixels
 * at a time under the same wall rule), with the actions LEFT, RIGHT and
 * NONE. Its ball serves from the other places, and bounces with the older
 * physics helpers: off the walls, then off the first platform it touches,
 * 1P before 2P. The scene keeps the score itself.
 *
 * Here 1P plays at the top of the play area and 2P at the bottom.
 */
module LegacyPingPong {
  import opened Wrappers
  import opened Geometry
  import opened Physics
  import opened EssentialPhysics
  import opened PingPongGameCore
  import opened PingPongGame

  /** `PlatformMoveAction`. */
  datatype MoveAction = LEFT | RIGHT | STAY

  /** LEFT and RIGHT move the platform as the newer MOVE_LEFT and MOVE_RIGHT do; NONE leaves it. */
  function AsAction(a: MoveAction): PlatformAction {
    match a
    case LEFT => MOVE_LEFT
    case RIGHT => MOVE_RIGHT
    case STAY => NONE
  }

  /** The platform a touching ball bounces off. */
  datatype Side = Side1P | Side2P

  /**
   * The platform `check_bouncing` picks: 1P whenever the ball touches it,
   * 2P only when the ball touches 2P and not 1P, and none otherwise.
   */
  function TargetOf(ball: Rect, p1: Rect, p2: Rect): (t: Option<Side>)
    ensures t == Some(Side1P) <==> CollideOrTangent(ball, p1)
    ensures t == Some(Side2P) <==> !CollideOrTangent(ball, p1) && CollideOrTangent(ball, p2)
    ensures t == None <==> !CollideOrTangent(ball, p1) && !CollideOrTangent(ball, p2)
  {
    if CollideOrTangent(ball, p1) then Some(Side1P)
    else if CollideOrTangent(ball, p2) then Some(Side2P)
    else None
  }

  /**
   * `check_bouncing`: the ball is first bounced back into the play area,
   * then off the platform `TargetOf` picks from the bounced position, if
   * any.
   */
  function CheckBouncingOf(ball: Motion, area: Rect, p1: Motion, p2: Motion): Motion {
    var boxed := Physics.BounceInBox(ball.rect, ball.speed, area);
    match TargetOf(boxed.rect, p1.rect, p2.rect)
    case Some(Side1P) => EssentialPhysics.BounceOff(boxed.rect, boxed.speed, p1.rect, p1.speed)
    case Some(Side2P) => EssentialPhysics.BounceOff(boxed.rect, boxed.speed, p2.rect, p2.speed)
    case None => boxed
  }

  /**
   * The ball bounces off one platform at most, and only one it touches
   * after the walls have bounced it; bouncing changes at most the direction
   * of each speed component and keeps the ball's size; a ball clear of the
   * walls and of both platforms is left as it is.
   */
  lemma CheckBouncingProperties(ball: Motion, area: Rect, p1: Motion, p2: Motion)
    ensures var boxed := Physics.BounceInBox(ball.rect, ball.speed, area);
      var m := CheckBouncingOf(ball, area, p1, p2);
      (m == boxed || m == EssentialPhysics.BounceOff(boxed.rect, boxed.speed, p1.rect, p1.speed)
        || m == EssentialPhysics.BounceOff(boxed.rect, boxed.speed, p2.rect, p2.speed))
      && (CollideOrTangent(boxed.rect, p1.rect) ==> m == EssentialPhysics.BounceOff(boxed.rect, boxed.speed, p1.rect, p1.speed))
      && (!CollideOrTangent(boxed.rect, p1.rect) && !CollideOrTangent(boxed.rect, p2.rect) ==> m == boxed)
    ensures var m := CheckBouncingOf(ball, area, p1, p2);
      Abs(m.speed.x) == Abs(ball.speed.x) && Abs(m.speed.y) == Abs(ball.speed.y)
      && m.rect.width == ball.rect.width && m.rect.height == ball.rect.height
    ensures !RectBreakOrContactBox(ball.rect, area) && !CollideOrTangent(ball.rect, p1.rect) && !CollideOrTangent(ball.rect, p2.rect)
      ==> CheckBouncingOf(ball, area, p1, p2) == ball
  {
    BounceInBoxNeedsContact(ball.rect, ball.speed, area);
  }

  /** Where `Ball.reset` serves from: 1P from near the top, moving down; 2P from near the bottom, moving up. */
  function LegacyServe(from1P: bool): (m: Motion)
    ensures m.rect.width == 5 && m.rect.height == 5
    ensures Abs(m.speed.x) == 7 && Abs(m.speed.y) == 7
    ensures from1P <==> m.speed.y > 0
  {
    if from1P then Motion(Rect(75, SERVE_TOP_2P, 5, 5), Vec(7, 7))
    else Motion(Rect(120, SERVE_TOP_1P, 5, 5), Vec(-7, -7))
  }

  /** The older serve is the newer one with the sides swapped: each side still serves from its own end. */
  lemma LegacyServeSwapsSides(from1P: bool)
    ensures LegacyServe(from1P) == ServeMotion(!from1P)
  {
  }

  /** The older `Ball`: a 5 x 5 rect that serves from alternate sides and bounces with the older helpers. */
  class Ball {
    const area: Rect
    var rect: Rect
    var speed: Vec
    var serveFrom1P: bool

    ghost predicate Valid()
      reads this
    {
      rect.width == 5 && rect.height == 5
    }

    constructor(playArea: Rect)
      ensures Valid() && area == playArea
      ensures rect == Rect(0, 0, 5, 5) && speed == Vec(7, 7) && serveFrom1P
    {
      area := playArea;
      rect := Rect(0, 0, 5, 5);
      speed := Vec(7, 7);
      serveFrom1P := true;
    }

    /** `reset`: serve from the current side, then switch sides. */
    method Reset()
      requires Valid()
      modifies this
      ensures Valid() && Motion(rect, speed) == LegacyServe(old(serveFrom1P)) && serveFrom1P == !old(serveFrom1P)
    {
      if serveFrom1P {
        rect := Rect(75, SERVE_TOP_2P, 5, 5);
        speed := Vec(7, 7);
      } else {
        rect := Rect(120, SERVE_TOP_1P, 5, 5);
        speed := Vec(-7, -7);
      }
      serveFrom1P := !serveFrom1P;
    }

    /** `move`: exactly by the speed. */
    method Move()
      requires Valid()
      modifies this
      ensures Valid() && rect == old(rect).MovedBy(speed) && speed == old(speed) && serveFrom1P == old(serveFrom1P)
    {
      rect := rect.MovedBy(speed);
    }

    /** `speed_up`: one faster on each axis. */
    method SpeedUpBall()
      requires Valid()
      modifies this
      ensures Valid() && speed == SpeedUp(old(speed)) && rect == old(rect) && serveFrom1P == old(serveFrom1P)
    {
      speed := Vec(speed.x + (if speed.x > 0 then 1 else -1), speed.y + (if speed.y > 0 then 1 else -1));
    }

    /** `check_bouncing(platform_1p, platform_2p)`. */
    method CheckBouncing(platform1P: Platform, platform2P: Platform)
      requires Valid()
      modifies this
      ensures Valid() && serveFrom1P == old(serveFrom1P)
      ensures Motion(rect, speed) == CheckBouncingOf(Motion(old(rect), old(speed)), area,
        Motion(platform1P.rect, platform1P.speed), Motion(platform2P.rect, platform2P.speed))
    {
      var boxed := Physics.BounceInBox(rect, speed, area);
      rect, speed := boxed.rect, boxed.speed;
      var target := if CollideOrTangent(rect, platform1P.rect) then Some(platform1P)
        else if CollideOrTangent(rect, platform2P.rect) then Some(platform2P) else None;
      if target.Some? {
        var m := EssentialPhysics.BounceOff(rect, speed, target.value.rect, target.value.speed);
        rect, speed := m.rect, m.speed;
      }
    }
  }

  /** 1P's platform near the top, 2P's 60 pixels above the bottom edge. */
  const LEGACY_1P_POS := Point(85, 50)
  const LEGACY_2P_POS := Point(85, 440)

  /**
   * The status `update` reports: 2P wins once the ball is entirely above
   * 1P's platform, 1P wins once it is entirely below 2P's, and the round
   * goes on otherwise.
   */
  function LegacyStatusOf(ball: Rect, p1: Rect, p2: Rect): (s: GameStatus)
    ensures s == GAME_2P_WIN <==> ball.Bottom() < p1.top
    ensures s == GAME_1P_WIN <==> p1.top <= ball.Bottom() && ball.top > p2.Bottom()
    ensures s == GAME_ALIVE <==> p1.top <= ball.Bottom() && ball.top <= p2.Bottom()
  {
    if ball.Bottom() < p1.top then GAME_2P_WIN
    else if ball.top > p2.Bottom() then GAME_1P_WIN
    else GAME_ALIVE
  }

  /** The scene's own tally: a win scores for the winner and a round that goes on scores nothing. */
  function RoundScore(score: Score, status: GameStatus): (t: Score)
    ensures t.p1 + t.p2 == score.p1 + score.p2 + (if status == GAME_ALIVE then 0 else 1)
    ensures t.p1 >= score.p1 && t.p2 >= score.p2
  {
    match status
    case GAME_1P_WIN => Score(score.p1 + 1, score.p2)
    case GAME_2P_WIN => Score(score.p1, score.p2 + 1)
    case GAME_ALIVE => score
  }

  /** On a finished round the scene's tally is the manual game's. */
  lemma RoundScoreAgreesOnWins(score: Score, status: GameStatus)
    requires status != GAME_ALIVE
    ensures RoundScore(score, status) == Tally(score, status)
  {
  }

  /** The older `Scene`: the frame counter, the status, the score, the ball and the two platforms. */
  class Scene {
    var frameCount: int
    var status: GameStatus
    var score: Score
    const ball: Ball
    const platform1P: Platform
    const platform2P: Platform

    ghost predicate Valid()
      reads this, ball, platform1P, platform2P
    {
      ball.Valid() && platform1P.Valid() && platform2P.Valid() && platform1P != platform2P
      && ball.area == DISPLAY_AREA && platform1P.area == DISPLAY_AREA && platform2P.area == DISPLAY_AREA
      && platform1P.initPos == LEGACY_1P_POS && platform2P.initPos == LEGACY_2P_POS
    }

    /** `Scene(...)`: the score starts at [0, 0]; the objects are created and the scene is reset. */
    constructor()
      ensures Valid() && fresh(ball) && fresh(platform1P) && fresh(platform2P)
      ensures score == Score(0, 0) && frameCount == 0 && status == GAME_ALIVE
      ensures Motion(ball.rect, ball.speed) == LegacyServe(true) && !ball.serveFrom1P
    {
      frameCount := 0;
      status := GAME_ALIVE;
      score := Score(0, 0);
      ball := new Ball(DISPLAY_AREA);
      platform1P := new Platform(LEGACY_1P_POS, DISPLAY_AREA);
      platform2P := new Platform(LEGACY_2P_POS, DISPLAY_AREA);
      new;
      Reset();
    }

    /** `reset`: frame 0, the round alive, a new serve, the platforms back; the score is kept. */
    method Reset()
      requires Valid()
      modifies this, ball, platform1P, platform2P
      ensures Valid() && frameCount == 0 && status == GAME_ALIVE && score == old(score)
      ensures Motion(ball.rect, ball.speed) == LegacyServe(old(ball.serveFrom1P)) && ball.serveFrom1P == !old(ball.serveFrom1P)
      ensures platform1P.rect == Rect(85, 50, 40, 30) && platform2P.rect == Rect(85, 440, 40, 30)
    {
      frameCount := 0;
      status := GAME_ALIVE;
      ball.Reset();
      platform1P.Reset();
      platform2P.Reset();
    }

    /**
     * `update`: the next frame; every 200th frame the ball speeds up before
     * it moves; the platforms move; the ball bounces; the status is judged
     * and a won round scored.
     */
    method Update(action1P: MoveAction, action2P: MoveAction) returns (s: GameStatus)
      requires Valid()
      modifies this, ball, platform1P, platform2P
      ensures Valid() && frameCount == old(frameCount) + 1
      ensures platform1P.speed == Vec(PlatformShift(old(platform1P.rect), DISPLAY_AREA, AsAction(action1P)), 0)
      ensures platform1P.rect == old(platform1P.rect).MovedBy(platform1P.speed)
      ensures platform2P.speed == Vec(PlatformShift(old(platform2P.rect), DISPLAY_AREA, AsAction(action2P)), 0)
      ensures platform2P.rect == old(platform2P.rect).MovedBy(platform2P.speed)
      ensures var sped := if SpeedUpFrame(frameCount) then SpeedUp(old(ball.speed)) else old(ball.speed);
        Motion(ball.rect, ball.speed) == CheckBouncingOf(Motion(old(ball.rect).MovedBy(sped), sped), DISPLAY_AREA,
          Motion(platform1P.rect, platform1P.speed), Motion(platform2P.rect, platform2P.speed))
      ensures s == status && s == LegacyStatusOf(ball.rect, platform1P.rect, platform2P.rect)
      ensures score == RoundScore(old(score), s)
    {
      Advance(action1P, action2P);
      ghost var moved := Motion(ball.rect, ball.speed);
      ball.CheckBouncing(platform1P, platform2P);
      ghost var bounced := Motion(ball.rect, ball.speed);
      Judge();
      assert Motion(ball.rect, ball.speed) == bounced;
      s := status;
    }

    /** The start of `update`: the next frame, the speed-up every 200th frame, the ball's move and the platforms' moves. */
    method Advance(action1P: MoveAction, action2P: MoveAction)
      requires Valid()
      modifies this, ball, platform1P, platform2P
      ensures Valid() && frameCount == old(frameCount) + 1 && score == old(score) && status == old(status)
      ensures platform1P.speed == Vec(PlatformShift(old(platform1P.rect), DISPLAY_AREA, AsAction(action1P)), 0)
      ensures platform1P.rect == old(platform1P.rect).MovedBy(platform1P.speed)
      ensures platform2P.speed == Vec(PlatformShift(old(platform2P.rect), DISPLAY_AREA, AsAction(action2P)), 0)
      ensures platform2P.rect == old(platform2P.rect).MovedBy(platform2P.speed)
      ensures var sped := if SpeedUpFrame(frameCount) then SpeedUp(old(ball.speed)) else old(ball.speed);
        ball.rect == old(ball.rect).MovedBy(sped) && ball.speed == sped
    {
      frameCount := frameCount + 1;
      if frameCount % 200 == 0 {
        ball.SpeedUpBall();
      }
      ball.Move();
      platform1P.Move(AsAction(action1P));
      platform2P.Move(AsAction(action2P));
    }

    /** The end of `update`: the status from the new positions, and a point for the winner of the round. */
    method Judge()
      requires Valid()
      modifies this
      ensures Valid() && frameCount == old(frameCount)
      ensures status == LegacyStatusOf(ball.rect, platform1P.rect, platform2P.rect)
      ensures score == RoundScore(old(score), status)
    {
      if ball.rect.Bottom() < platform1P.rect.top {
        status := GAME_2P_WIN;
        score := score.(p2 := score.p2 + 1);
      } else if ball.rect.top > platform2P.rect.Bottom() {
        status := GAME_1P_WIN;
        score := score.(p1 := score.p1 + 1);
      } else {
        status := GAME_ALIVE;
      }
    }
  }
}
