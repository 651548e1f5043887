/**
 * games/arkanoid/game/arkanoid_ml.py: the arkanoid game in machine-learning
 * mode. Every frame it sends the scene information to the ML process
 * named "ml", takes the reply that is there (if any) without waiting,
 * validates it into a game command, keeps the largest frame delay seen in
 * the round, updates the scene, and at the end of a round sends the final
 * scene and either stops (one-shot mode) or resets and waits for "READY".
 *
 * The sleep of one frame period and the messages printed are left out; the
 * record handler is modelled as the list of scene objects handed to it.
 */
module ArkanoidMl {
  import opened Wrappers
  import opened Exceptions
  import opened PyValue
  import opened Geometry
  import opened Communication
  import opened GameComm
  import opened ArkanoidGameObject
  import opened ArkanoidGameCore
  import opened Physics

  /** The processed command: the frame it answers and the platform action. */
  datatype GameCommand = GameCommand(frame: int, command: PlatformAction)

  /** `{"frame": -1, "command": PlatformAction.NONE}`: what an invalid or missing reply becomes. */
  const DEFAULT_COMMAND := GameCommand(-1, NONE)

  /** A reply `_process_cmd` accepts: a truthy dict whose "frame" is an int and whose "command" is a str. */
  predicate WellTyped(received: Value) {
    Truthy(received) && received.DictV?
    && "frame" in received.entries && IsInt(received.entries["frame"])
    && "command" in received.entries && received.entries["command"].StrV?
  }

  /**
   * `_process_cmd`: a falsy reply, a non-dict, a missing key or a value of
   * the wrong type gives the default command. Otherwise the frame is taken
   * first and the command string converted afterwards, so an unknown
   * command string keeps the received frame with the command NONE.
   */
  function ProcessCmd(received: Value): (c: GameCommand)
    ensures !WellTyped(received) ==> c == DEFAULT_COMMAND
    ensures WellTyped(received) ==> c.frame == AsInt(received.entries["frame"])
    ensures c.command != NONE ==> WellTyped(received) && received.entries["command"] == StrV(ActionValue(c.command))
  {
    if !Truthy(received) then DEFAULT_COMMAND
    else if !received.DictV? then DEFAULT_COMMAND
    else if "frame" !in received.entries then DEFAULT_COMMAND
    else if !IsInt(received.entries["frame"]) then DEFAULT_COMMAND
    else if "command" !in received.entries then DEFAULT_COMMAND
    else if !received.entries["command"].StrV? then DEFAULT_COMMAND
    else
      var frame := AsInt(received.entries["frame"]);
      match ActionOf(received.entries["command"].s)
      case Some(action) => GameCommand(frame, action)
      case None => GameCommand(frame, NONE)
  }

  /** The reply an ML client sends for a command. */
  function CommandValue(c: GameCommand): Value {
    DictV(map["frame" := IntV(c.frame), "command" := StrV(ActionValue(c.command))])
  }

  /** A well-formed reply is processed back into the command it carries. */
  lemma ProcessCmdRoundTrip(c: GameCommand)
    ensures ProcessCmd(CommandValue(c)) == c
  {
    ActionValueRoundTrip(c.command);
    assert Truthy(CommandValue(c)) by {
      assert "frame" in CommandValue(c).entries;
    }
  }

  /** A command string that names no action keeps the frame and gives NONE. */
  lemma ProcessCmdUnknownCommand(frame: int, s: string)
    requires ActionOf(s).None?
    ensures ProcessCmd(DictV(map["frame" := IntV(frame), "command" := StrV(s)])) == GameCommand(frame, NONE)
  {
    var d := DictV(map["frame" := IntV(frame), "command" := StrV(s)]);
    assert "frame" in d.entries;
  }

  /**
   * The delay rule of `_make_ml_execute`: the delay becomes the distance
   * from the command's frame to the scene's frame when the command answers
   * a real frame and that distance exceeds the delay so far.
   */
  function NewDelay(delayed: int, sceneFrame: int, cmd: GameCommand): (d: int)
    ensures d >= delayed
    ensures cmd.frame != -1 ==> d >= sceneFrame - cmd.frame
    ensures d == delayed || (cmd.frame != -1 && d == sceneFrame - cmd.frame)
  {
    if cmd.frame != -1 && sceneFrame - cmd.frame > delayed then sceneFrame - cmd.frame else delayed
  }

  /** A reply with the default frame -1 never changes the delay. */
  lemma DefaultCommandKeepsDelay(delayed: int, sceneFrame: int, action: PlatformAction)
    ensures NewDelay(delayed, sceneFrame, GameCommand(-1, action)) == delayed
  {
  }

  // ---- the scene information as the Python object that is sent ----

  /** A position as the `(x, y)` pair the scene information holds. */
  function PointValue(p: Point): Value {
    ListV([IntV(p.x), IntV(p.y)])
  }

  function PointsValue(ps: seq<Point>): (v: Value)
    ensures v.ListV? && |v.items| == |ps|
  {
    ListV(seq(|ps|, i requires 0 <= i < |ps| => PointValue(ps[i])))
  }

  /** The `SceneInfo` instance `get_scene_info` builds, its `command` attribute set to `command`. */
  function SceneInfoValue(info: SceneInfo, command: Value): Value {
    ObjectV("SceneInfo", [], map[
      "frame" := IntV(info.frame), "status" := StrV(info.status),
      "ball" := PointValue(info.ball), "platform" := PointValue(info.platform),
      "bricks" := PointsValue(info.bricks), "hard_bricks" := PointsValue(info.hardBricks),
      "command" := command])
  }

  /** The position a pair value holds, if it is one. */
  function PointOf(v: Value): Option<Point> {
    if v.ListV? && |v.items| == 2 && v.items[0].IntV? && v.items[1].IntV? then
      Some(Point(v.items[0].i, v.items[1].i))
    else None
  }

  /** The positions a list of pairs holds, if it is one. */
  function PointsOf(items: seq<Value>): (r: Option<seq<Point>>)
    ensures r.Some? ==> |r.value| == |items|
  {
    if items == [] then Some([])
    else match (PointOf(items[|items| - 1]), PointsOf(items[..|items| - 1]))
      case (Some(p), Some(ps)) => Some(ps + [p])
      case _ => None
  }

  /** What an ML client reads from the scene object: its frame, status and positions. */
  function SceneInfoOf(v: Value): Option<SceneInfo> {
    if !v.ObjectV? then None
    else if !("frame" in v.attrs && "status" in v.attrs && "ball" in v.attrs && "platform" in v.attrs
      && "bricks" in v.attrs && "hard_bricks" in v.attrs) then None
    else if !(v.attrs["frame"].IntV? && v.attrs["status"].StrV?
      && v.attrs["bricks"].ListV? && v.attrs["hard_bricks"].ListV?) then None
    else match (PointOf(v.attrs["ball"]), PointOf(v.attrs["platform"]),
      PointsOf(v.attrs["bricks"].items), PointsOf(v.attrs["hard_bricks"].items))
      case (Some(b), Some(p), Some(bs), Some(hs)) =>
        Some(SceneInfo(v.attrs["frame"].i, v.attrs["status"].s, b, p, bs, hs))
      case _ => None
  }

  /** The positions read back from the list they were sent as. */
  lemma {:induction false} PointsRoundTrip(ps: seq<Point>)
    ensures PointsOf(PointsValue(ps).items) == Some(ps)
  {
    if ps != [] {
      var init := ps[..|ps| - 1];
      assert PointsValue(ps).items[..|ps| - 1] == PointsValue(init).items;
      PointsRoundTrip(init);
      assert init + [ps[|ps| - 1]] == ps;
    }
  }

  /** The object sent to the ML process carries exactly the scene information, whatever its command. */
  lemma SceneInfoRoundTrip(info: SceneInfo, command: Value)
    ensures SceneInfoOf(SceneInfoValue(info, command)) == Some(info)
  {
    PointsRoundTrip(info.bricks);
    PointsRoundTrip(info.hardBricks);
  }

  // ---- the subscripts of `_make_ml_execute` and `game_loop` as written ----

  /** The message of the TypeError raised by `obj[key]` on an instance of class `cls`. */
  function NotSubscriptable(cls: string): string {
    "'" + cls + "' object is not subscriptable"
  }

  /** The message of the TypeError raised by `obj[key] = v` on an instance of class `cls`. */
  function NoItemAssignment(cls: string): string {
    "'" + cls + "' object does not support item assignment"
  }

  /** `obj[key]`: a dict looks the key up; an instance of a class without `__getitem__` raises TypeError. */
  function Subscript(obj: Value, key: string): Result<Value, PyException> {
    if obj.DictV? then
      if key in obj.entries then Success(obj.entries[key]) else Failure(KeyError(key))
    else if obj.ObjectV? then Failure(TypeError(NotSubscriptable(obj.cls)))
    else Failure(TypeError("object is not subscriptable"))
  }

  /** `obj[key] = v`: a dict stores it; an instance of a class without `__setitem__` raises TypeError. */
  function SetItem(obj: Value, key: string, v: Value): Result<Value, PyException> {
    if obj.DictV? then Success(DictV(obj.entries[key := v]))
    else if obj.ObjectV? then Failure(TypeError(NoItemAssignment(obj.cls)))
    else Failure(TypeError("object does not support item assignment"))
  }

  /**
   * The delay rule as written: it reads `scene_info["frame"]` from the
   * scene object once the command's frame is not -1.
   */
  function FrameDelayAsWritten(delayed: int, sceneInfo: Value, cmd: GameCommand): Result<int, PyException> {
    if cmd.frame == -1 then Success(delayed)
    else match Subscript(sceneInfo, "frame")
      case Failure(e) => Failure(e)
      case Success(f) =>
        if !f.IntV? then Failure(TypeError("unsupported operand type(s) for -"))
        else Success(NewDelay(delayed, f.i, cmd))
  }

  /**
   * `get_scene_info` returns a `SceneInfo` object, not a dict, so every
   * reply that answers a frame makes the rule as written raise TypeError;
   * the default reply leaves the delay as it was, as `NewDelay` does.
   */
  lemma FrameDelayAsWrittenRaises(delayed: int, info: SceneInfo, command: Value, cmd: GameCommand)
    ensures cmd.frame != -1 ==>
      FrameDelayAsWritten(delayed, SceneInfoValue(info, command), cmd)
      == Failure(TypeError(NotSubscriptable("SceneInfo")))
    ensures cmd.frame == -1 ==>
      FrameDelayAsWritten(delayed, SceneInfoValue(info, command), cmd) == Success(NewDelay(delayed, info.frame, cmd))
  {
  }

  /** `scene_info["command"] = ...` as written raises TypeError on every frame: the object takes no item assignment. */
  lemma SetCommandAsWrittenRaises(info: SceneInfo, command: Value, value: Value)
    ensures SetItem(SceneInfoValue(info, command), "command", value)
      == Failure(TypeError(NoItemAssignment("SceneInfo")))
  {
  }

  /** `scene_info.command = value`: the attribute assignment evidently meant; the rest of the object is kept. */
  function SetCommand(sceneInfo: Value, value: Value): (r: Value)
    requires sceneInfo.ObjectV?
    ensures r.ObjectV? && r.cls == sceneInfo.cls && r.attrs == sceneInfo.attrs["command" := value]
  {
    sceneInfo.(attrs := sceneInfo.attrs["command" := value])
  }

  /** Setting the command of a fresh scene object gives the object with that command, and the same scene information. */
  lemma SetCommandOfSceneInfo(info: SceneInfo, value: Value)
    ensures SetCommand(SceneInfoValue(info, NoneV), value) == SceneInfoValue(info, value)
    ensures SceneInfoOf(SetCommand(SceneInfoValue(info, NoneV), value)) == Some(info)
  {
    SceneInfoRoundTrip(info, value);
  }

  // ---- the game ----

  /** How one pass of `game_loop` ends. */
  datatype Flow =
    | Running
    /** The round ended in one-shot mode: `game_loop` returns. */
    | Finished
    /** Waiting for a "READY" that is not in the pipe. */
    | AwaitingReady
    | Halted(e: PyException)

  const ML_NAME := "ml"

  /**
   * What `_make_ml_execute` gets from the pipes it finds: a KeyError for a
   * missing end, BrokenPipeError for a closed one, and otherwise the
   * processed reply at the head of the receiving end (the default command
   * when there is none).
   */
  function PassCommand(sendEnd: map<string, Conn>, recvEnd: map<string, Conn>): (r: Result<GameCommand, PyException>)
    ensures r.Success? <==> ML_NAME in sendEnd && !sendEnd[ML_NAME].broken && ML_NAME in recvEnd
    ensures r.Success? && recvEnd[ML_NAME].incoming == [] ==> r.value == DEFAULT_COMMAND
  {
    if ML_NAME !in sendEnd then Failure(KeyError(ML_NAME))
    else if sendEnd[ML_NAME].broken then Failure(BrokenPipeError)
    else if ML_NAME !in recvEnd then Failure(KeyError(ML_NAME))
    else Success(ProcessCmd(HeadOrNone(recvEnd[ML_NAME])))
  }

  /** `Arkanoid` in ML mode: the registry of pipes, the scene, the delay counter and the objects handed to the record handler. */
  class ArkanoidMl {
    const cs: CommunicationSet
    const scene: Scene
    const oneShotMode: bool
    var frameDelayed: int
    var recorded: seq<Value>

    ghost predicate Valid()
      reads this, cs, scene, scene.ball, scene.platform
    {
      cs.Valid() && scene.Valid() && frameDelayed >= 0
    }

    constructor(comm: CommunicationSet, s: Scene, oneShot: bool)
      requires comm.Valid() && s.Valid()
      ensures Valid() && cs == comm && scene == s && oneShotMode == oneShot
      ensures frameDelayed == 0 && recorded == []
    {
      cs, scene, oneShotMode := comm, s, oneShot;
      frameDelayed, recorded := 0, [];
    }

    /**
     * `_make_ml_execute(scene_info)`: send the scene, take the reply that is
     * there without waiting, process it and update the delay from the
     * scene's frame; the command is returned. A missing or broken pipe
     * raises before anything is received.
     */
    method MakeMlExecute(info: SceneInfo) returns (r: Result<PlatformAction, PyException>)
      requires Valid()
      modifies this, cs
      ensures Valid() && recorded == old(recorded)
      ensures cs.recvNames == old(cs.recvNames) && cs.sendNames == old(cs.sendNames)
      ensures ML_NAME !in old(cs.sendEnd) ==>
        r == Failure(KeyError(ML_NAME)) && cs.sendEnd == old(cs.sendEnd)
        && cs.recvEnd == old(cs.recvEnd) && frameDelayed == old(frameDelayed)
      ensures ML_NAME in old(cs.sendEnd) && old(cs.sendEnd)[ML_NAME].broken ==>
        r == Failure(BrokenPipeError) && cs.sendEnd == old(cs.sendEnd)
        && cs.recvEnd == old(cs.recvEnd) && frameDelayed == old(frameDelayed)
      ensures ML_NAME in old(cs.sendEnd) && !old(cs.sendEnd)[ML_NAME].broken ==>
        cs.sendEnd == old(cs.sendEnd)[ML_NAME := old(cs.sendEnd)[ML_NAME].Pushed(SceneInfoValue(info, NoneV))]
      ensures ML_NAME in old(cs.sendEnd) && !old(cs.sendEnd)[ML_NAME].broken && ML_NAME !in old(cs.recvEnd) ==>
        r == Failure(KeyError(ML_NAME)) && cs.recvEnd == old(cs.recvEnd) && frameDelayed == old(frameDelayed)
      ensures ML_NAME in old(cs.sendEnd) && !old(cs.sendEnd)[ML_NAME].broken && ML_NAME in old(cs.recvEnd) ==>
        var cmd := ProcessCmd(HeadOrNone(old(cs.recvEnd)[ML_NAME]));
        r == Success(cmd.command) && frameDelayed == NewDelay(old(frameDelayed), info.frame, cmd)
        && cs.recvEnd == old(cs.recvEnd)[ML_NAME := old(cs.recvEnd)[ML_NAME].AfterRecv()]
    {
      var sent := cs.Send(SceneInfoValue(info, NoneV), ML_NAME);
      if sent.Fail? {
        return Failure(sent.error);
      }
      var received := cs.Recv(ML_NAME, false);
      if received.Raised? {
        return Failure(received.e);
      }
      var cmd := ProcessCmd(received.obj);
      if cmd.frame != -1 && info.frame - cmd.frame > frameDelayed {
        frameDelayed := info.frame - cmd.frame;
      }
      r := Success(cmd.command);
    }

    /**
     * The end of a pass of `game_loop` (lines 56-72): while the game is
     * alive nothing happens. A finished round sends the final scene and
     * records it with no command; in one-shot mode the loop then returns,
     * otherwise the scene is reset, the delay returns to 0 and "READY" is
     * awaited.
     */
    method EndRound(status: GameStatus) returns (flow: Flow)
      requires Valid()
      modifies this, cs, scene, scene.ball, scene.platform
      ensures Valid()
      ensures flow == Finished ==> oneShotMode
      ensures status == GAME_ALIVE ==>
        flow == Running && frameDelayed == old(frameDelayed) && recorded == old(recorded)
        && cs.recvEnd == old(cs.recvEnd) && cs.sendEnd == old(cs.sendEnd)
        && scene.frameCount == old(scene.frameCount) && scene.group == old(scene.group)
      ensures status != GAME_ALIVE && ML_NAME in old(cs.sendEnd) && !old(cs.sendEnd)[ML_NAME].broken ==>
        cs.sendEnd == old(cs.sendEnd)[ML_NAME := old(cs.sendEnd)[ML_NAME].Pushed(SceneInfoValue(old(SceneInfoNow()), NoneV))]
        && recorded == old(recorded) + [SceneInfoValue(old(SceneInfoNow()), NoneV)]
      ensures status != GAME_ALIVE && oneShotMode ==>
        (flow == Finished || flow.Halted?) && scene.frameCount == old(scene.frameCount) && scene.group == old(scene.group)
      ensures status != GAME_ALIVE && ML_NAME in old(cs.sendEnd) && !old(cs.sendEnd)[ML_NAME].broken ==>
        (oneShotMode ==> flow == Finished) && (!oneShotMode && ML_NAME in old(cs.recvEnd) ==> !flow.Halted?)
        && |recorded| == |old(recorded)| + 1 && SceneInfoOf(recorded[|old(recorded)|]) == Some(old(SceneInfoNow()))
      ensures |recorded| >= |old(recorded)| && recorded[..|old(recorded)|] == old(recorded)
      ensures ML_NAME in old(cs.sendEnd) ==>
        ML_NAME in cs.sendEnd && |cs.sendEnd[ML_NAME].sent| >= |old(cs.sendEnd)[ML_NAME].sent|
        && cs.sendEnd[ML_NAME].sent[..|old(cs.sendEnd)[ML_NAME].sent|] == old(cs.sendEnd)[ML_NAME].sent
      ensures status != GAME_ALIVE && !oneShotMode && !flow.Halted? ==>
        scene.frameCount == 0 && scene.status == GAME_ALIVE && scene.group == scene.container && frameDelayed == 0
        && (forall b :: b in scene.group && b.hard ==> b.hp == 2)
        && ML_NAME in old(cs.recvEnd)
        && (flow == Running <==> READY in old(cs.recvEnd)[ML_NAME].incoming)
        && cs.recvEnd == old(cs.recvEnd)[ML_NAME := Drained(old(cs.recvEnd)[ML_NAME])]
    {
      if status == GAME_ALIVE {
        return Running;
      }
      SceneInfoRoundTrip(SceneInfoNow(), NoneV);
      var sent := SendFinalScene();
      if sent.Fail? {
        return Halted(sent.error);
      }
      if oneShotMode {
        return Finished;
      }
      flow := Restart();
    }

    /**
     * The finished-round report of `game_loop` (lines 57-63): the final
     * scene goes to the ML process and is recorded with no command.
     */
    method SendFinalScene() returns (o: Outcome<PyException>)
      requires Valid()
      modifies this, cs
      ensures Valid() && frameDelayed == old(frameDelayed)
      ensures cs.recvEnd == old(cs.recvEnd) && cs.recvNames == old(cs.recvNames) && cs.sendNames == old(cs.sendNames)
      ensures ML_NAME !in old(cs.sendEnd) ==>
        o == Fail(KeyError(ML_NAME)) && cs.sendEnd == old(cs.sendEnd) && recorded == old(recorded)
      ensures ML_NAME in old(cs.sendEnd) && old(cs.sendEnd)[ML_NAME].broken ==>
        o == Fail(BrokenPipeError) && cs.sendEnd == old(cs.sendEnd) && recorded == old(recorded)
      ensures ML_NAME in old(cs.sendEnd) && !old(cs.sendEnd)[ML_NAME].broken ==>
        o == Pass
        && cs.sendEnd == old(cs.sendEnd)[ML_NAME := old(cs.sendEnd)[ML_NAME].Pushed(SceneInfoValue(SceneInfoNow(), NoneV))]
        && recorded == old(recorded) + [SceneInfoValue(SceneInfoNow(), NoneV)]
    {
      var info := scene.GetSceneInfo();
      var sent := cs.Send(SceneInfoValue(info, NoneV), ML_NAME);
      if sent.Fail? {
        return sent;
      }
      SetCommandOfSceneInfo(info, NoneV);
      recorded := recorded + [SetCommand(SceneInfoValue(info, NoneV), NoneV)];
      o := Pass;
    }

    /**
     * The restart of `game_loop` (lines 68-72): the scene is reset, the
     * delay goes back to 0 and "READY" is awaited again.
     */
    method Restart() returns (flow: Flow)
      requires Valid()
      modifies this, cs, scene, scene.ball, scene.platform
      ensures Valid() && recorded == old(recorded) && cs.sendEnd == old(cs.sendEnd)
      ensures flow == Running || flow == AwaitingReady || flow.Halted?
      ensures scene.frameCount == 0 && scene.status == GAME_ALIVE && scene.group == scene.container && frameDelayed == 0
      ensures forall b :: b in scene.group && b.hard ==> b.hp == 2
      ensures ML_NAME !in old(cs.recvEnd) ==> flow == Halted(KeyError(ML_NAME))
      ensures ML_NAME in old(cs.recvEnd) ==>
        (flow == Running <==> READY in old(cs.recvEnd)[ML_NAME].incoming) && !flow.Halted?
        && cs.recvEnd == old(cs.recvEnd)[ML_NAME := Drained(old(cs.recvEnd)[ML_NAME])]
    {
      scene.Reset();
      frameDelayed := 0;
      var ready := WaitMlReady(cs, ML_NAME);
      if ready.Raised? {
        return Halted(ready.e);
      }
      flow := if ready.Got? then Running else AwaitingReady;
    }

    /** The scene information `get_scene_info` would build now. */
    function SceneInfoNow(): (info: SceneInfo)
      reads scene, scene.ball, scene.platform
      ensures info.frame == scene.frameCount && info.status == StatusValue(scene.status)
      ensures |info.bricks| + |info.hardBricks| == |scene.group|
    {
      PositionsPartition(scene.group);
      SceneInfo(scene.frameCount, StatusValue(scene.status), scene.ball.rect.TopLeft(), scene.platform.rect.TopLeft(),
        PlainPositions(scene.group), HardPositions(scene.group))
    }

    /**
     * Lines 46-52 of `game_loop`: the scene goes to the ML process, its
     * command comes back, the scene is recorded with the command's value
     * and updated with the command.
     */
    method PlayFrame() returns (r: Result<GameStatus, PyException>)
      requires Valid()
      modifies this, cs, scene, scene.ball, scene.platform
      ensures Valid() && cs.recvNames == old(cs.recvNames) && cs.sendNames == old(cs.sendNames)
      ensures var c := PassCommand(old(cs.sendEnd), old(cs.recvEnd));
        c.Failure? ==>
          r == Failure(c.error) && recorded == old(recorded) && frameDelayed == old(frameDelayed)
          && scene.frameCount == old(scene.frameCount) && scene.group == old(scene.group) && scene.status == old(scene.status)
      ensures var c := PassCommand(old(cs.sendEnd), old(cs.recvEnd));
        var info := old(SceneInfoNow());
        c.Success? ==>
          recorded == old(recorded) + [SceneInfoValue(info, StrV(ActionValue(c.value.command)))]
          && cs.sendEnd == old(cs.sendEnd)[ML_NAME := old(cs.sendEnd)[ML_NAME].Pushed(SceneInfoValue(info, NoneV))]
          && cs.recvEnd == old(cs.recvEnd)[ML_NAME := old(cs.recvEnd)[ML_NAME].AfterRecv()]
          && frameDelayed == NewDelay(old(frameDelayed), info.frame, c.value)
          && scene.frameCount == old(scene.frameCount) + 1
          && r == FrameStatus(Motion(old(scene.ball.rect), old(scene.ball.speed)), old(scene.group), old(scene.platform.rect),
                              scene.ball.slideEnabled, c.value.command)
          && (r.Success? ==> scene.status == r.value)
    {
      var info := scene.GetSceneInfo();
      var command := MakeMlExecute(info);
      if command.Failure? {
        return Failure(command.error);
      }
      SetCommandOfSceneInfo(info, StrV(ActionValue(command.value)));
      recorded := recorded + [SetCommand(SceneInfoValue(info, NoneV), StrV(ActionValue(command.value)))];
      r := scene.Update(command.value);
    }

    /**
     * One pass of the `game_loop` body: send the scene, get the command,
     * record the scene with the command's value, update the scene and end
     * the round if it is over.
     */
    method Step() returns (flow: Flow)
      requires Valid()
      modifies this, cs, scene, scene.ball, scene.platform
      ensures Valid()
      ensures flow == Finished ==> oneShotMode
      ensures !flow.Halted? ==> |recorded| > |old(recorded)|
      ensures var c := PassCommand(old(cs.sendEnd), old(cs.recvEnd));
        c.Failure? ==> flow == Halted(c.error) && recorded == old(recorded) && scene.frameCount == old(scene.frameCount)
      ensures var c := PassCommand(old(cs.sendEnd), old(cs.recvEnd));
        var info := old(SceneInfoNow());
        c.Success? ==>
          |recorded| > |old(recorded)|
          && recorded[..|old(recorded)| + 1] == old(recorded) + [SceneInfoValue(info, StrV(ActionValue(c.value.command)))]
          && ML_NAME in cs.sendEnd && |cs.sendEnd[ML_NAME].sent| > |old(cs.sendEnd)[ML_NAME].sent|
          && cs.sendEnd[ML_NAME].sent[..|old(cs.sendEnd)[ML_NAME].sent| + 1]
             == old(cs.sendEnd)[ML_NAME].sent + [SceneInfoValue(info, NoneV)]
      ensures var c := PassCommand(old(cs.sendEnd), old(cs.recvEnd));
        c.Success? ==>
          var st := FrameStatus(Motion(old(scene.ball.rect), old(scene.ball.speed)), old(scene.group), old(scene.platform.rect),
                                scene.ball.slideEnabled, c.value.command);
          (st.Failure? ==> flow == Halted(st.error) && |recorded| == |old(recorded)| + 1)
          && (st == Success(GAME_ALIVE) ==>
                flow == Running && |recorded| == |old(recorded)| + 1 && scene.frameCount == old(scene.frameCount) + 1
                && frameDelayed == NewDelay(old(frameDelayed), old(scene.frameCount), c.value))
          && (st.Success? && st.value != GAME_ALIVE ==>
                |recorded| == |old(recorded)| + 2
                && SceneInfoOf(recorded[|old(recorded)| + 1]).Some?
                && SceneInfoOf(recorded[|old(recorded)| + 1]).value.status == StatusValue(st.value)
                && (oneShotMode ==> flow == Finished)
                && (!oneShotMode ==>
                      scene.frameCount == 0 && frameDelayed == 0
                      && (flow == Running <==> READY in old(cs.recvEnd)[ML_NAME].AfterRecv().incoming)))
    {
      ghost var n := |recorded|;
      var status := PlayFrame();
      if status.Failure? {
        return Halted(status.error);
      }
      ghost var r1, s1 := recorded, cs.sendEnd[ML_NAME].sent;
      flow := EndRound(status.value);
      assert recorded[..n + 1] == r1 && cs.sendEnd[ML_NAME].sent[..|s1|] == s1;
    }

    /**
     * `game_loop`: wait for "READY", then run passes until the player
     * quits, the round ends in one-shot mode, a wait finds no "READY" or an
     * exception is raised. `quitAfter` is the number of passes before
     * `quit_or_esc()` is true.
     */
    method GameLoop(quitAfter: nat) returns (flow: Flow, passes: nat)
      requires Valid()
      modifies this, cs, scene, scene.ball, scene.platform
      ensures Valid() && passes <= quitAfter
      ensures flow == Running ==> passes == quitAfter
      ensures flow == Finished ==> oneShotMode
      ensures ML_NAME !in old(cs.recvEnd) ==> flow == Halted(KeyError(ML_NAME)) && passes == 0 && recorded == old(recorded)
      ensures ML_NAME in old(cs.recvEnd) ==>
        (READY !in old(cs.recvEnd)[ML_NAME].incoming <==> flow == AwaitingReady && passes == 0)
        && !(flow.Halted? && passes == 0)
      ensures !flow.Halted? ==> |recorded| >= |old(recorded)| + passes
    {
      passes := 0;
      ghost var r0 := recorded;
      var ready := WaitMlReady(cs, ML_NAME);
      if ready.Raised? {
        return Halted(ready.e), 0;
      }
      if ready.WouldBlock? {
        return AwaitingReady, 0;
      }
      flow := Running;
      while passes < quitAfter
        invariant Valid() && passes <= quitAfter && flow == Running
        invariant |recorded| >= |r0| + passes
        decreases quitAfter - passes
      {
        flow := Step();
        passes := passes + 1;
        if flow != Running {
          return;
        }
      }
    }
  }
}
