/**
 * essential/process.py: the older process manager. Each process is
 * described by a `ProcessData` with a name and a communication set whose
 * `recv_end` and `send_end` dicts the manager fills directly; the manager
 * remembers whether it is running.
 *
 * The communication set is essential/communication's `CommunicationSet`,
 * which is not part of this model; only its two dicts are. Spawning and
 * terminating a process are recorded as flags on its `ProcessData`, and
 * what the game process's target does is given as its outcome.
 */
module EssentialProcess {
  import opened Wrappers
  import opened Exceptions
  import opened Communication

  /** The `recv_end` and `send_end` dicts of a process's communication set. */
  class Channels {
    var recvEnd: map<string, Conn>
    var sendEnd: map<string, Conn>

    constructor()
      ensures recvEnd == map[] && sendEnd == map[]
    {
      recvEnd, sendEnd := map[], map[];
    }
  }

  /** `ProcessData`: the process object is recorded by whether it was started and terminated. */
  class ProcessData {
    const name: string
    const comm: Channels
    var started: bool
    var terminated: bool

    constructor(name: string)
      ensures this.name == name && fresh(comm) && !started && !terminated
      ensures comm.recvEnd == map[] && comm.sendEnd == map[]
    {
      this.name := name;
      comm := new Channels();
      started, terminated := false, false;
    }
  }

  /** One end of a fresh `Pipe(False)`. */
  function FreshEnd(): Conn {
    PipeEnd([])
  }

  /** The name the game process gets: "game" when none is given. */
  function GameName(name: string): (n: string)
    ensures name != "" ==> n == name
    ensures n != ""
  {
    if name == "" then "game" else name
  }

  /** A registry after a fresh end has been stored under each of `names`. */
  function Added(m: map<string, Conn>, names: seq<string>): (r: map<string, Conn>)
    ensures forall n :: n in r <==> n in m || n in names
    ensures forall n :: n in r ==> r[n] == if n in names then FreshEnd() else m[n]
  {
    map n | n in m.Keys + set k | 0 <= k < |names| :: names[k] :: if n in names then FreshEnd() else m[n]
  }

  lemma AddedStep(m: map<string, Conn>, names: seq<string>, i: nat)
    requires i < |names|
    ensures Added(m, names[..i + 1]) == Added(m, names[..i])[names[i] := FreshEnd()]
  {
    assert names[..i + 1] == names[..i] + [names[i]];
  }

  /** The names of the given processes, in order. */
  function Names(ps: seq<ProcessData>): (names: seq<string>)
    ensures |names| == |ps| && forall k :: 0 <= k < |ps| ==> names[k] == ps[k].name
  {
    if ps == [] then [] else Names(ps[..|ps| - 1]) + [ps[|ps| - 1].name]
  }

  /** The communication sets of the given processes. */
  function CommsOf(ps: seq<ProcessData>): set<Channels> {
    set k | 0 <= k < |ps| :: ps[k].comm
  }

  /** No two of the given processes share a communication set. */
  ghost predicate SeparateComms(game: Option<ProcessData>, mls: seq<ProcessData>) {
    (game.Some? ==> forall k :: 0 <= k < |mls| ==> mls[k].comm != game.value.comm)
    && forall i, j :: 0 <= i < j < |mls| ==> mls[i].comm != mls[j].comm
  }

  /** One round of `_create_pipes`: the game-to-ML pipe, then the ML-to-game pipe. */
  method PipePair(game: ProcessData, ml: ProcessData)
    requires ml.comm != game.comm
    modifies game.comm, ml.comm
    ensures game.comm.sendEnd == old(game.comm.sendEnd)[ml.name := FreshEnd()]
    ensures game.comm.recvEnd == old(game.comm.recvEnd)[ml.name := FreshEnd()]
    ensures ml.comm.recvEnd == old(ml.comm.recvEnd)[game.name := FreshEnd()]
    ensures ml.comm.sendEnd == old(ml.comm.sendEnd)[game.name := FreshEnd()]
  {
    game.comm.sendEnd := game.comm.sendEnd[ml.name := FreshEnd()];
    ml.comm.recvEnd := ml.comm.recvEnd[game.name := FreshEnd()];
    ml.comm.sendEnd := ml.comm.sendEnd[game.name := FreshEnd()];
    game.comm.recvEnd := game.comm.recvEnd[ml.name := FreshEnd()];
  }

  /**
   * The loop of `_create_pipes`: a pipe each way between the game process
   * and every ML process, each ML name stored on the game side and the game
   * name on each ML side.
   */
  method WirePipes(game: ProcessData, mls: seq<ProcessData>)
    requires forall k :: 0 <= k < |mls| ==> mls[k].comm != game.comm
    requires forall i, j :: 0 <= i < j < |mls| ==> mls[i].comm != mls[j].comm
    modifies game.comm, CommsOf(mls)
    ensures game.comm.recvEnd == Added(old(game.comm.recvEnd), Names(mls))
    ensures game.comm.sendEnd == Added(old(game.comm.sendEnd), Names(mls))
    ensures forall k :: 0 <= k < |mls| ==>
      mls[k].comm.recvEnd == old(mls[k].comm.recvEnd)[game.name := FreshEnd()]
      && mls[k].comm.sendEnd == old(mls[k].comm.sendEnd)[game.name := FreshEnd()]
  {
    ghost var names := Names(mls);
    ghost var recv0, send0 := game.comm.recvEnd, game.comm.sendEnd;
    assert names[..0] == [];
    var i := 0;
    while i < |mls|
      invariant 0 <= i <= |mls|
      invariant game.comm.recvEnd == Added(recv0, names[..i])
      invariant game.comm.sendEnd == Added(send0, names[..i])
      invariant forall k :: i <= k < |mls| ==>
        mls[k].comm.recvEnd == old(mls[k].comm.recvEnd) && mls[k].comm.sendEnd == old(mls[k].comm.sendEnd)
      invariant forall k :: 0 <= k < i ==>
        mls[k].comm.recvEnd == old(mls[k].comm.recvEnd)[game.name := FreshEnd()]
        && mls[k].comm.sendEnd == old(mls[k].comm.sendEnd)[game.name := FreshEnd()]
    {
      var ml := mls[i];
      AddedStep(recv0, names, i);
      AddedStep(send0, names, i);
      assert names[i] == ml.name;
      ghost var recvBefore, sendBefore := game.comm.recvEnd, game.comm.sendEnd;
      PipePair(game, ml);
      assert game.comm.recvEnd == recvBefore[names[i] := FreshEnd()];
      assert game.comm.sendEnd == sendBefore[names[i] := FreshEnd()];
      assert forall k :: 0 <= k < |mls| && k != i ==> mls[k].comm != ml.comm;
      i := i + 1;
    }
    assert names[..i] == names;
  }

  /** The loop of `_start_ml_processes`: every process is started, in order. */
  method StartEach(mls: seq<ProcessData>)
    modifies set k | 0 <= k < |mls| :: mls[k]
    ensures forall k :: 0 <= k < |mls| ==> mls[k].started
  {
    var i := 0;
    while i < |mls|
      invariant 0 <= i <= |mls|
      invariant forall k :: 0 <= k < i ==> mls[k].started
    {
      mls[i].started := true;
      i := i + 1;
    }
  }

  /** `ProcessManager`. */
  class ProcessManager {
    var gameProcess: Option<ProcessData>
    var mlProcesses: seq<ProcessData>
    var isRunning: bool

    /** Every process has a communication set of its own. */
    ghost predicate Valid()
      reads this
    {
      SeparateComms(gameProcess, mlProcesses)
    }

    constructor()
      ensures Valid() && gameProcess == None && mlProcesses == [] && !isRunning
    {
      gameProcess, mlProcesses, isRunning := None, [], false;
    }

    /** `set_game_process`: a new `ProcessData`, named "game" when no name is given. */
    method SetGameProcess(name: string)
      requires Valid()
      modifies this
      ensures Valid() && gameProcess.Some? && fresh(gameProcess.value)
      ensures gameProcess.value.name == GameName(name) && !gameProcess.value.started
      ensures gameProcess.value.comm.recvEnd == map[] && gameProcess.value.comm.sendEnd == map[]
      ensures mlProcesses == old(mlProcesses) && isRunning == old(isRunning)
    {
      var p := new ProcessData(GameName(name));
      gameProcess := Some(p);
    }

    /**
     * `add_ml_process`: a new `ProcessData` at the end of the list. With no
     * name given, `"ml_" + len(...)` adds an int to a str, which raises
     * TypeError before anything is added.
     */
    method AddMlProcess(name: string) returns (o: Outcome<PyException>)
      requires Valid()
      modifies this
      ensures Valid() && gameProcess == old(gameProcess) && isRunning == old(isRunning)
      ensures name == "" ==> o == Fail(TypeError("can only concatenate str (not \"int\") to str")) && mlProcesses == old(mlProcesses)
      ensures name != "" ==>
        o == Pass && |mlProcesses| == |old(mlProcesses)| + 1 && mlProcesses[..|old(mlProcesses)|] == old(mlProcesses)
        && var p := mlProcesses[|old(mlProcesses)|];
        fresh(p) && p.name == name && !p.started && p.comm.recvEnd == map[] && p.comm.sendEnd == map[]
    {
      if name == "" {
        return Fail(TypeError("can only concatenate str (not \"int\") to str"));
      }
      var p := new ProcessData(name);
      mlProcesses := mlProcesses + [p];
      assert mlProcesses[..|old(mlProcesses)|] == old(mlProcesses);
      o := Pass;
    }

    /** The objects `start` writes to: every process's communication set and the ML processes' data. */
    function StartFrame(): set<object>
      reads this
    {
      (if gameProcess.Some? then {gameProcess.value.comm} else {}) + CommsOf(mlProcesses) + set k | 0 <= k < |mlProcesses| :: mlProcesses[k]
    }

    /**
     * `_create_pipes`: for every ML process, a pipe each way, stored on the
     * game side under the ML process's name and on the ML side under the
     * game process's name.
     */
    method CreatePipes()
      requires Valid() && gameProcess.Some?
      modifies StartFrame()
      ensures
        var game := gameProcess.value;
        game.comm.recvEnd == Added(old(game.comm.recvEnd), Names(mlProcesses))
        && game.comm.sendEnd == Added(old(game.comm.sendEnd), Names(mlProcesses))
        && forall k :: 0 <= k < |mlProcesses| ==>
          mlProcesses[k].comm.recvEnd == old(mlProcesses[k].comm.recvEnd)[game.name := FreshEnd()]
          && mlProcesses[k].comm.sendEnd == old(mlProcesses[k].comm.sendEnd)[game.name := FreshEnd()]
    {
      WirePipes(gameProcess.value, mlProcesses);
    }

    /** `_start_ml_processes`: every ML process is started. */
    method StartMlProcesses()
      modifies set k | 0 <= k < |mlProcesses| :: mlProcesses[k]
      ensures forall k :: 0 <= k < |mlProcesses| ==> mlProcesses[k].started
    {
      StartEach(mlProcesses);
    }

    /**
     * `start`: the two RuntimeError checks come first; a running manager
     * is left alone; otherwise the manager is marked running before the
     * pipes are made, the ML processes started and the game's target run,
     * whose exception escapes.
     */
    method Start(gameRun: Outcome<PyException>) returns (o: Outcome<PyException>)
      requires Valid()
      modifies this, StartFrame()
      ensures Valid() && gameProcess == old(gameProcess) && mlProcesses == old(mlProcesses)
      ensures old(gameProcess).None? ==>
        o == Fail(RuntimeError("The game process is not set. Cannot start the ProcessManager")) && isRunning == old(isRunning)
      ensures old(gameProcess).Some? && old(mlProcesses) == [] ==>
        o == Fail(RuntimeError("No ml process added. Cannot start the ProcessManager")) && isRunning == old(isRunning)
      ensures old(gameProcess).Some? && old(mlProcesses) != [] && old(isRunning) ==>
        o == Pass && isRunning && unchanged(StartFrame())
      ensures old(gameProcess).Some? && old(mlProcesses) != [] && !old(isRunning) ==>
        o == gameRun && isRunning
        && gameProcess.value.comm.recvEnd == Added(old(gameProcess.value.comm.recvEnd), Names(mlProcesses))
        && gameProcess.value.comm.sendEnd == Added(old(gameProcess.value.comm.sendEnd), Names(mlProcesses))
        && forall k :: 0 <= k < |mlProcesses| ==>
          mlProcesses[k].started
          && mlProcesses[k].comm.recvEnd == old(mlProcesses[k].comm.recvEnd)[gameProcess.value.name := FreshEnd()]
          && mlProcesses[k].comm.sendEnd == old(mlProcesses[k].comm.sendEnd)[gameProcess.value.name := FreshEnd()]
    {
      if gameProcess.None? {
        return Fail(RuntimeError("The game process is not set. Cannot start the ProcessManager"));
      }
      if |mlProcesses| == 0 {
        return Fail(RuntimeError("No ml process added. Cannot start the ProcessManager"));
      }
      if isRunning {
        return Pass;
      }
      isRunning := true;
      WirePipes(gameProcess.value, mlProcesses);
      StartEach(mlProcesses);
      o := gameRun;
    }

    /**
     * `terminate`: every ML process is terminated, in order; one that was
     * never started has no process object, and the attribute lookup on None
     * raises AttributeError before the manager is marked stopped.
     */
    method Terminate() returns (o: Outcome<PyException>)
      modifies this, set k | 0 <= k < |mlProcesses| :: mlProcesses[k]
      ensures gameProcess == old(gameProcess) && mlProcesses == old(mlProcesses)
      ensures o.Pass? <==> forall k :: 0 <= k < |mlProcesses| ==> old(mlProcesses[k].started)
      ensures o.Pass? ==> !isRunning && forall k :: 0 <= k < |mlProcesses| ==> mlProcesses[k].terminated
      ensures o.Fail? ==> o == Fail(AttributeError("terminate")) && isRunning == old(isRunning)
      ensures forall k :: 0 <= k < |mlProcesses| ==> mlProcesses[k].started == old(mlProcesses[k].started)
    {
      var i := 0;
      while i < |mlProcesses|
        invariant 0 <= i <= |mlProcesses| && mlProcesses == old(mlProcesses)
        invariant gameProcess == old(gameProcess) && isRunning == old(isRunning)
        invariant forall k :: 0 <= k < i ==> old(mlProcesses[k].started) && mlProcesses[k].terminated
        invariant forall k :: 0 <= k < |mlProcesses| ==> mlProcesses[k].started == old(mlProcesses[k].started)
      {
        if !mlProcesses[i].started {
          return Fail(AttributeError("terminate"));
        }
        mlProcesses[i].terminated := true;
        i := i + 1;
      }
      isRunning := false;
      o := Pass;
    }
  }
}
