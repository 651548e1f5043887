/**
 * games/pingpong/game/pingpong.py and games/pingpong/game/pingpong_ml.py:
 * the rules the two ping-pong front ends put around the scene. The manual
 * game turns the command strings into platform actions, keeps the score
 * and tells its caller whether to reset or quit; the ML game keeps each
 * client's largest frame delay, keeps the score and, when a round ends
 * without ending the game, resets the scene and waits for both clients to
 * be ready again.
 *
 * Drawing, the messages printed and the sleep of one frame period are
 * left out; `_print_result`'s message is modelled as a string. The record
 * handler is modelled as the list of objects handed to it.
 */
module PingPongGame {
  import opened Wrappers
  import opened Exceptions
  import opened PyText
  import opened PyValue
  import opened Geometry
  import opened Physics
  import opened Communication
  import opened GameComm
  import opened PingPongGameCore
  import StringEnums

  // ---- the command conversion of `PingPong.update` ----

  /** The message of the ValueError `PlatformAction(s)` raises when no member has the value `s`. */
  function NotAnAction(s: string): string {
    "'" + s + "' is not a valid PlatformAction"
  }

  /**
   * The conversion as written in `update`: a string is accepted when it is
   * a member NAME, and then converted with `PlatformAction(cmd)`, which
   * looks members up by VALUE; any other string becomes NONE.
   */
  function CommandAsWritten(cmd: string): Result<PlatformAction, PyException> {
    if ActionByName(cmd).None? then Success(NONE)
    else match ActionByValue(cmd)
      case Some(a) => Success(a)
      case None => Failure(ValueError(NotAnAction(cmd)))
  }

  /**
   * As written, no command string can move a platform: the names
   * "MOVE_LEFT" and "MOVE_RIGHT" pass the test and then raise ValueError,
   * and the values "LEFT" and "RIGHT" fail the test and become NONE.
   */
  lemma CommandAsWrittenNeverMoves(cmd: string)
    ensures CommandAsWritten(cmd) != Success(MOVE_LEFT) && CommandAsWritten(cmd) != Success(MOVE_RIGHT)
    ensures CommandAsWritten(ActionName(MOVE_LEFT)) == Failure(ValueError(NotAnAction("MOVE_LEFT")))
    ensures CommandAsWritten(ActionName(MOVE_RIGHT)) == Failure(ValueError(NotAnAction("MOVE_RIGHT")))
    ensures CommandAsWritten(ActionValue(MOVE_LEFT)) == Success(NONE)
  {
  }

  /** The conversion evidently meant, `PlatformAction[cmd]`: a member name selects that member, any other string NONE. */
  function Command(cmd: string): (a: PlatformAction)
    ensures forall b :: ActionName(b) == cmd ==> a == b
    ensures (forall b :: ActionName(b) != cmd) ==> a == NONE
  {
    match ActionByName(cmd)
    case Some(b) => b
    case None => NONE
  }

  /** Every member is reached from its name, so each side can move its platform both ways. */
  lemma CommandOfName(a: PlatformAction)
    ensures Command(ActionName(a)) == a
    ensures CommandAsWritten(ActionName(a)).Success? ==> CommandAsWritten(ActionName(a)) == Success(Command(ActionName(a)))
  {
  }

  // ---- the score ----

  /** The two scores, 1P first. */
  datatype Score = Score(p1: int, p2: int)

  /**
   * `PingPong._game_over`'s tally: a win scores for the winner, anything
   * else (a draw) scores for both.
   */
  function Tally(score: Score, status: GameStatus): (t: Score)
    ensures t.p1 == score.p1 + (if status == GAME_2P_WIN then 0 else 1)
    ensures t.p2 == score.p2 + (if status == GAME_1P_WIN then 0 else 1)
  {
    match status
    case GAME_1P_WIN => Score(score.p1 + 1, score.p2)
    case GAME_2P_WIN => Score(score.p1, score.p2 + 1)
    case GAME_ALIVE => Score(score.p1 + 1, score.p2 + 1)
  }

  /** `pingpong_ml.PingPong._game_over`'s tally: a 1P win scores for 1P, any other status for 2P. */
  function TallyMl(score: Score, status: GameStatus): (t: Score)
    ensures t.p1 + t.p2 == score.p1 + score.p2 + 1
    ensures t.p1 == score.p1 + 1 <==> status == GAME_1P_WIN
  {
    if status == GAME_1P_WIN then Score(score.p1 + 1, score.p2) else Score(score.p1, score.p2 + 1)
  }

  /** The two tallies agree on every finished round, which is the only time the ML game calls its own. */
  lemma TalliesAgreeOnWins(score: Score, status: GameStatus)
    requires status != GAME_ALIVE
    ensures TallyMl(score, status) == Tally(score, status)
  {
  }

  /** The game is over once either side's score equals the game-over score. */
  predicate Reached(score: Score, gameOverScore: int) {
    score.p1 == gameOverScore || score.p2 == gameOverScore
  }

  /**
   * Scores go up by one at a time, so the equality test cannot be jumped
   * over: from scores below the game-over score, a tally either reaches it
   * or stays below it.
   */
  lemma TallyStaysBelow(score: Score, status: GameStatus, gameOverScore: int)
    requires 0 <= score.p1 < gameOverScore && 0 <= score.p2 < gameOverScore
    ensures Reached(Tally(score, status), gameOverScore)
      || (Tally(score, status).p1 < gameOverScore && Tally(score, status).p2 < gameOverScore)
    ensures Reached(TallyMl(score, status), gameOverScore)
      || (TallyMl(score, status).p1 < gameOverScore && TallyMl(score, status).p2 < gameOverScore)
  {
  }

  /** `_print_result`'s winner: the side with the higher score, "No one" on a tie. */
  function WinSide(score: Score): (side: string)
    ensures side == "1P" <==> score.p1 > score.p2
    ensures side == "2P" <==> score.p1 < score.p2
    ensures side == "No one" <==> score.p1 == score.p2
  {
    if score.p1 > score.p2 then "1P" else if score.p1 == score.p2 then "No one" else "2P"
  }

  /** The line `_print_result` prints. */
  function ResultLine(score: Score): string {
    WinSide(score) + " wins! Final score: " + DecimalString(score.p1) + "-" + DecimalString(score.p2)
  }

  /** `get_game_result`'s "result": the higher score passes and the other is over; a tie is a draw for both. */
  function ResultStatus(score: Score): (r: seq<string>)
    ensures |r| == 2
    ensures r[0] == "GAME_PASS" <==> r[1] == "GAME_OVER"
    ensures r[0] == "GAME_DRAW" <==> r[1] == "GAME_DRAW"
  {
    if score.p1 > score.p2 then ["GAME_PASS", "GAME_OVER"]
    else if score.p1 < score.p2 then ["GAME_OVER", "GAME_PASS"]
    else ["GAME_DRAW", "GAME_DRAW"]
  }

  /** The reported result names the same winner as the printed one. */
  lemma ResultAgreesWithWinner(score: Score)
    ensures ResultStatus(score)[0] == "GAME_PASS" <==> WinSide(score) == "1P"
    ensures ResultStatus(score)[1] == "GAME_PASS" <==> WinSide(score) == "2P"
    ensures ResultStatus(score)[0] == "GAME_DRAW" <==> WinSide(score) == "No one"
  {
  }

  // ---- the round-end test of `update` ----

  /** A status as a member of the StringEnum class `GameStatus`: its value is its name. */
  function StatusMember(status: GameStatus): (m: StringEnums.Operand)
    ensures m.Member? && m.enumClass == "GameStatus" && m.value == StatusValue(status)
  {
    StringEnums.AutoMember("GameStatus", StatusValue(status))
  }

  /** `game_status != GameStatus.GAME_ALIVE` with `__ne__` as written: `not self.__eq__(other)`. */
  predicate RoundEndsAsWritten(status: GameStatus) {
    StringEnums.NotEqualsAsWritten(StatusMember(status), StatusMember(GAME_ALIVE))
  }

  /**
   * What `update` returns once the scene is updated, with the test as
   * written: "QUIT" or "RESET" when the round ends, None otherwise.
   */
  function UpdateResultAsWritten(status: GameStatus, over: bool): Option<string> {
    if RoundEndsAsWritten(status) then Some(if over then "QUIT" else "RESET") else None
  }

  /**
   * As written, `update` returns None whatever the status: for GAME_ALIVE
   * `__eq__` is True, and for a win it is NotImplemented, which `not` reads
   * as true, so `!=` is False either way.
   */
  lemma UpdateAsWrittenReturnsNone(status: GameStatus, over: bool)
    ensures !RoundEndsAsWritten(status)
    ensures UpdateResultAsWritten(status, over) == None
  {
    if status != GAME_ALIVE {
      StringEnums.NotEqualsAsWrittenDistinctMembers(StatusMember(status), StatusMember(GAME_ALIVE));
    }
  }

  /** `game_status != GameStatus.GAME_ALIVE` with the evidently intended `__ne__`, the negation of `==`. */
  predicate RoundEnds(status: GameStatus) {
    StringEnums.NotEquals(StatusMember(status), StatusMember(GAME_ALIVE))
  }

  /** With the intended `!=`, a round ends exactly when the status is not GAME_ALIVE. */
  lemma RoundEndsIffNotAlive(status: GameStatus)
    ensures RoundEnds(status) <==> status != GAME_ALIVE
  {
    StringEnums.NotEqualsMembers(StatusMember(status), StatusMember(GAME_ALIVE));
  }

  /** What `get_game_result` returns: the frames used, the result per side and the ball's speed. */
  datatype GameResult = GameResult(frameUsed: int, result: seq<string>, ballSpeed: int)

  /** `PingPong` in manual mode: the score, the game-over score and the scene. */
  class PingPong {
    var score: Score
    const gameOverScore: int
    const scene: Scene

    ghost predicate Valid()
      reads this, scene, scene.ball, scene.platform1P, scene.platform2P
    {
      scene.Valid()
    }

    constructor(gameOver: int)
      ensures Valid() && score == Score(0, 0) && gameOverScore == gameOver
      ensures fresh(scene) && fresh(scene.ball) && fresh(scene.platform1P) && fresh(scene.platform2P)
      ensures scene.frameCount == 0 && scene.status == GAME_ALIVE
    {
      score := Score(0, 0);
      gameOverScore := gameOver;
      scene := new Scene();
    }

    /** `_game_over(status)`: tally the round and tell whether either side has reached the game-over score. */
    method GameOver(status: GameStatus) returns (over: bool)
      modifies this
      ensures score == Tally(old(score), status) && over == Reached(score, gameOverScore)
    {
      match status {
        case GAME_1P_WIN => score := score.(p1 := score.p1 + 1);
        case GAME_2P_WIN => score := score.(p2 := score.p2 + 1);
        case GAME_ALIVE => score := Score(score.p1 + 1, score.p2 + 1);
      }
      over := score.p1 == gameOverScore || score.p2 == gameOverScore;
    }

    /**
     * `update(cmd_list)` with the conversion evidently meant: both commands
     * are converted, the scene is updated, and a finished round is tallied;
     * the result is None while the round goes on, "QUIT" when the game is
     * over and "RESET" otherwise. A list with fewer than two commands raises
     * IndexError before anything changes.
     */
    method Update(cmds: seq<string>, bounce: (Motion, Motion, Motion) -> Motion)
      returns (r: Result<Option<string>, PyException>)
      requires Valid()
      modifies this, scene, scene.ball, scene.platform1P, scene.platform2P
      ensures Valid()
      ensures |cmds| < 2 ==> r == Failure(IndexError) && score == old(score) && scene.frameCount == old(scene.frameCount)
      ensures |cmds| >= 2 ==>
        r.Success? && scene.frameCount == old(scene.frameCount) + 1
        && scene.platform1P.speed == Vec(PlatformShift(old(scene.platform1P.rect), DISPLAY_AREA, Command(cmds[0])), 0)
        && scene.platform2P.speed == Vec(PlatformShift(old(scene.platform2P.rect), DISPLAY_AREA, Command(cmds[1])), 0)
        && (r.value == None <==> scene.status == GAME_ALIVE)
        && (r.value != None <==> RoundEnds(scene.status))
      ensures |cmds| >= 2 && scene.status == GAME_ALIVE ==> score == old(score)
      ensures |cmds| >= 2 && scene.status != GAME_ALIVE ==>
        score == Tally(old(score), scene.status)
        && (r.value == Some("QUIT") <==> Reached(score, gameOverScore))
        && (r.value == Some("RESET") <==> !Reached(score, gameOverScore))
    {
      if |cmds| < 2 {
        return Failure(IndexError);
      }
      var status := scene.Update(Command(cmds[0]), Command(cmds[1]), bounce);
      RoundEndsIffNotAlive(status);
      if status == GAME_ALIVE {
        return Success(None);
      }
      var over := GameOver(status);
      r := if over then Success(Some("QUIT")) else Success(Some("RESET"));
    }

    /** `get_game_result`: the frame count, the result per side and the ball's speed as the scene reports it. */
    method GetGameResult() returns (res: GameResult)
      requires Valid()
      ensures res.frameUsed == scene.frameCount && res.result == ResultStatus(score)
      ensures res.ballSpeed == scene.SceneInfoNow().ballSpeed && res.ballSpeed >= 0
    {
      var info := scene.SceneInfoNow();
      res := GameResult(info.frame, ResultStatus(score), info.ballSpeed);
    }
  }

  // ---- the ML game ----

  /**
   * `_check_frame_delayed`'s rule: a client's delay becomes the distance
   * from its instruction's frame to the scene's frame when the instruction
   * answers a real frame and that distance exceeds the delay so far.
   */
  function NewDelay(delayed: int, sceneFrame: int, instructFrame: int): (d: int)
    ensures d >= delayed
    ensures instructFrame != -1 ==> d >= sceneFrame - instructFrame
    ensures d == delayed || (instructFrame != -1 && d == sceneFrame - instructFrame)
  {
    if instructFrame != -1 && sceneFrame - instructFrame > delayed then sceneFrame - instructFrame else delayed
  }

  /** Delays are never negative: a client answering a later frame than the scene's does not lower it. */
  lemma NewDelayKeepsNonNegative(delayed: int, sceneFrame: int, instructFrame: int)
    requires delayed >= 0
    ensures NewDelay(delayed, sceneFrame, instructFrame) >= 0
    ensures instructFrame == -1 || sceneFrame <= instructFrame ==> NewDelay(delayed, sceneFrame, instructFrame) == delayed
  {
  }

  /** The scene information object sent to the clients and recorded. */
  function SceneInfoValue(info: SceneInfo): Value {
    ObjectV("SceneInfo", [], map[
      "frame" := IntV(info.frame), "status" := StrV(info.status),
      "ball" := ListV([IntV(info.ball.x), IntV(info.ball.y)]), "ball_speed" := IntV(info.ballSpeed),
      "platform_1P" := ListV([IntV(info.platform1P.x), IntV(info.platform1P.y)]),
      "platform_2P" := ListV([IntV(info.platform2P.x), IntV(info.platform2P.y)])])
  }

  /** How the end of a pass of `game_loop` leaves the loop. */
  datatype Flow =
    | Running
    /** The game is over: `game_loop` breaks out. */
    | Finished
    /** Waiting for a "READY" that the named client's pipe does not hold. */
    | AwaitingReady(name: string)
    | Halted(e: PyException)

  /** `PingPong` in ML mode: the pipes, the scene, both delay counters, the score and the recorded objects. */
  class PingPongMl {
    const cs: CommunicationSet
    const scene: Scene
    const gameOverScore: int
    var frameDelayed: seq<int>
    var score: Score
    var recorded: seq<Value>

    ghost predicate Valid()
      reads this, cs, scene, scene.ball, scene.platform1P, scene.platform2P
    {
      cs.Valid() && scene.Valid() && |frameDelayed| == 2
    }

    /** Both delay counters and both scores start at 0. */
    constructor(comm: CommunicationSet, gameOver: int)
      requires comm.Valid()
      ensures Valid() && cs == comm && gameOverScore == gameOver
      ensures frameDelayed == [0, 0] && score == Score(0, 0) && recorded == []
      ensures fresh(scene) && fresh(scene.ball) && fresh(scene.platform1P) && fresh(scene.platform2P)
    {
      cs, gameOverScore := comm, gameOver;
      frameDelayed, score, recorded := [0, 0], Score(0, 0), [];
      scene := new Scene();
    }

    /** `_check_frame_delayed(ml_index, ...)`: only that client's counter moves, and only up. */
    method CheckFrameDelayed(mlIndex: nat, sceneFrame: int, instructFrame: int)
      requires Valid() && mlIndex < 2
      modifies this
      ensures Valid() && score == old(score) && recorded == old(recorded)
      ensures frameDelayed == old(frameDelayed)[mlIndex := NewDelay(old(frameDelayed)[mlIndex], sceneFrame, instructFrame)]
    {
      if instructFrame != -1 && sceneFrame - instructFrame > frameDelayed[mlIndex] {
        frameDelayed := frameDelayed[mlIndex := sceneFrame - instructFrame];
      }
    }

    /** `_game_over(status)`: tally the round for its winner and tell whether the game is over. */
    method GameOver(status: GameStatus) returns (over: bool)
      modifies this
      ensures score == TallyMl(old(score), status) && over == Reached(score, gameOverScore)
      ensures frameDelayed == old(frameDelayed) && recorded == old(recorded)
    {
      if status == GAME_1P_WIN {
        score := score.(p1 := score.p1 + 1);
      } else {
        score := score.(p2 := score.p2 + 1);
      }
      over := score.p1 == gameOverScore || score.p2 == gameOverScore;
    }

    /** The report of a finished round (lines 68-70): the final scene is recorded, then sent to every client. */
    method SendFinalScene() returns (o: Outcome<PyException>)
      requires Valid()
      modifies this, cs
      ensures Valid() && frameDelayed == old(frameDelayed) && score == old(score)
      ensures recorded == old(recorded) + [SceneInfoValue(scene.SceneInfoNow())]
      ensures o.Pass? <==> forall n :: n in old(cs.sendEnd) ==> !old(cs.sendEnd)[n].broken
      ensures o.Fail? ==> o.error == BrokenPipeError
      ensures o.Pass? ==> cs.sendEnd == (map n | n in old(cs.sendEnd) :: old(cs.sendEnd)[n].Pushed(SceneInfoValue(scene.SceneInfoNow())))
      ensures cs.recvEnd == old(cs.recvEnd) && cs.recvNames == old(cs.recvNames)
    {
      var info := SceneInfoValue(scene.SceneInfoNow());
      recorded := recorded + [info];
      o := cs.SendAll(info);
    }

    /** The restart of a round (lines 78-81): the scene is reset, both delays go back to 0 and "READY" is awaited from every client. */
    method Restart() returns (flow: Flow)
      requires Valid()
      modifies this, cs, scene, scene.ball, scene.platform1P, scene.platform2P
      ensures Valid() && score == old(score) && recorded == old(recorded) && cs.sendEnd == old(cs.sendEnd)
      ensures frameDelayed == [0, 0] && scene.frameCount == 0 && scene.status == GAME_ALIVE
      ensures Motion(scene.ball.rect, scene.ball.speed) == ServeMotion(old(scene.ball.serveFrom1P))
      ensures scene.platform1P.rect == Rect(80, 420, 40, 30) && scene.platform2P.rect == Rect(80, 50, 40, 30)
      ensures flow == Running <==> forall n :: n in old(cs.recvEnd) ==> READY in old(cs.recvEnd)[n].incoming
      ensures flow == Running ==> cs.recvEnd == AllDrained(old(cs.recvEnd))
      ensures flow.AwaitingReady? ==> flow.name in old(cs.recvEnd) && READY !in old(cs.recvEnd)[flow.name].incoming
      ensures flow == Running || flow.AwaitingReady?
    {
      scene.Reset();
      frameDelayed := [0, 0];
      var waitingOn := WaitAllMlReady(cs);
      flow := if waitingOn.None? then Running else AwaitingReady(waitingOn.value);
    }

    /**
     * The end of a pass of `game_loop` (lines 66-81): while the round goes
     * on nothing happens. A won round is recorded and sent and tallied; the
     * loop breaks when the game is over, and otherwise the round restarts.
     */
    method EndRound(status: GameStatus) returns (flow: Flow)
      requires Valid()
      modifies this, cs, scene, scene.ball, scene.platform1P, scene.platform2P
      ensures Valid()
      ensures status == GAME_ALIVE ==>
        flow == Running && score == old(score) && frameDelayed == old(frameDelayed) && recorded == old(recorded)
      ensures status != GAME_ALIVE ==> |recorded| == |old(recorded)| + 1
      ensures status != GAME_ALIVE && !flow.Halted? ==>
        score == TallyMl(old(score), status) && (flow == Finished <==> Reached(score, gameOverScore))
      ensures status != GAME_ALIVE && !flow.Halted? && flow != Finished ==>
        frameDelayed == [0, 0] && scene.frameCount == 0 && scene.status == GAME_ALIVE
      ensures flow.Halted? ==> flow.e == BrokenPipeError && score == old(score)
    {
      if status == GAME_ALIVE {
        return Running;
      }
      var sent := SendFinalScene();
      if sent.Fail? {
        return Halted(sent.error);
      }
      var over := GameOver(status);
      if over {
        return Finished;
      }
      flow := Restart();
    }
  }
}
