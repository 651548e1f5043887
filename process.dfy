/**
 * mlgame/process.py: the `ProcessManager` that wires one pair of pipes per
 * ML process, spawns the ML processes, runs the game process in the
 * calling process and then asks the ML processes still alive to stop.
 *
 * Spawning is recorded as the list of spawned process names. What the game
 * process does is given as the outcome of `GameMLModeExecutor.start` (see
 * `Loops.GameMLModeExecutor.Start`), and which ML processes are still alive
 * when it returns is given as one flag per spawned process.
 */
module ProcessManagement {
  import opened Wrappers
  import opened Exceptions
  import opened PyValue
  import opened Communication

  /** `GameMLModeExecutorProperty`, reduced to what the manager uses: the process name and its channels. */
  datatype GameExecutorProperty = GameExecutorProperty(procName: string, comm: GameCommManager)

  /** `MLExecutorProperty`, reduced to what the manager uses: the process name and its channels. */
  datatype MLExecutorProperty = MLExecutorProperty(name: string, comm: MLCommManager)

  /** The names of the ML properties, in list order. */
  function PropNames(props: seq<MLExecutorProperty>): (names: seq<string>)
    ensures |names| == |props| && forall k :: 0 <= k < |props| ==> names[k] == props[k].name
  {
    if props == [] then [] else PropNames(props[..|props| - 1]) + [props[|props| - 1].name]
  }

  /** The ML-side handlers the wiring writes to. */
  function Handlers(props: seq<MLExecutorProperty>): set<CommunicationHandler> {
    set k | 0 <= k < |props| :: props[k].comm.toGame
  }

  /** One end of a fresh `Pipe(False)`; a Connection object has `recv`, `poll` and `send`. */
  function FreshEnd(): Conn {
    PipeEnd([])
  }

  // ---- _create_pipes ----

  /** A name whose current entry is truthy is refused by the registry. */
  predicate Taken(m: map<string, Conn>, name: string) {
    name in m && m[name].truthy
  }

  /**
   * Registering the `j`-th name fails: it was taken before the wiring
   * started, or an earlier property has the same name (its fresh pipe end is
   * truthy).
   */
  predicate RefusedAt(recv: map<string, Conn>, send: map<string, Conn>, names: seq<string>, j: nat)
    requires j < |names|
  {
    Taken(recv, names[j]) || Taken(send, names[j]) || names[j] in names[..j]
  }

  /** The first name the wiring refuses, or `|names|`. */
  function FirstRefused(recv: map<string, Conn>, send: map<string, Conn>, names: seq<string>, from: nat): (j: nat)
    requires from <= |names|
    ensures from <= j <= |names|
    ensures forall k :: from <= k < j ==> !RefusedAt(recv, send, names, k)
    ensures j < |names| ==> RefusedAt(recv, send, names, j)
    decreases |names| - from
  {
    if from == |names| then from
    else if RefusedAt(recv, send, names, from) then from
    else FirstRefused(recv, send, names, from + 1)
  }

  /**
   * The ValueError the refused name raises: the receiving registry is
   * checked first, so a name repeated in the list is reported there.
   */
  function WiringError(recv: map<string, Conn>, names: seq<string>, j: nat): (e: PyException)
    requires j < |names|
    ensures e.ValueError?
  {
    var registry := if Taken(recv, names[j]) || names[j] in names[..j] then "recv_end" else "send_end";
    ValueError("The name '" + names[j] + "' already exists in '" + registry + "'")
  }

  /** A registry after a fresh end has been stored under each of `names`. */
  function Added(m: map<string, Conn>, names: seq<string>): (r: map<string, Conn>)
    ensures forall n :: n in r <==> n in m || n in names
    ensures forall n :: n in r ==> r[n] == if n in names then FreshEnd() else m[n]
  {
    map n | n in m.Keys + set k | 0 <= k < |names| :: names[k] :: if n in names then FreshEnd() else m[n]
  }

  lemma AddedStep(m: map<string, Conn>, names: seq<string>, i: nat)
    requires i < |names|
    ensures Added(m, names[..i + 1]) == Added(m, names[..i])[names[i] := FreshEnd()]
  {
    assert names[..i + 1] == names[..i] + [names[i]];
  }

  // ---- _terminate ----

  /** Whether the `k`-th spawned process is still alive. */
  predicate IsAlive(alive: seq<bool>, k: nat) {
    k < |alive| && alive[k]
  }

  /**
   * The registry of sending ends after `_terminate` has gone through
   * `procs`: None through the end of every live process, in order; the
   * first `send_to_ml` that raises ends the loop with its exception.
   */
  function StopAll(ends: map<string, Conn>, procs: seq<string>, alive: seq<bool>): Result<map<string, Conn>, PyException>
    decreases |procs|
  {
    if procs == [] then Success(ends)
    else
      var k := |procs| - 1;
      match StopAll(ends, procs[..k], alive)
      case Failure(e) => Failure(e)
      case Success(m) =>
        if !IsAlive(alive, k) then Success(m)
        else if procs[k] !in m then Failure(KeyError(procs[k]))
        else if m[procs[k]].broken then Failure(BrokenPipeError)
        else Success(m[procs[k] := m[procs[k]].Pushed(NoneV)])
  }

  /** How many of the live processes among `procs` are called `name`. */
  function AliveCount(procs: seq<string>, alive: seq<bool>, name: string): nat
    decreases |procs|
  {
    if procs == [] then 0
    else AliveCount(procs[..|procs| - 1], alive, name)
         + if IsAlive(alive, |procs| - 1) && procs[|procs| - 1] == name then 1 else 0
  }

  /** `n` copies of None. */
  function Nones(n: nat): (s: seq<Value>)
    ensures |s| == n && forall k :: 0 <= k < n ==> s[k] == NoneV
  {
    seq(n, _ => NoneV)
  }

  /**
   * `_terminate` fails exactly when a live process has no sending end or a
   * broken one; when it does not, every end has received one None per live
   * process of its name and nothing else: an end whose processes have all
   * exited is untouched.
   */
  lemma {:induction false} StopAllSpec(ends: map<string, Conn>, procs: seq<string>, alive: seq<bool>)
    ensures StopAll(ends, procs, alive).Success? <==>
      forall k :: 0 <= k < |procs| && IsAlive(alive, k) ==> procs[k] in ends && !ends[procs[k]].broken
    ensures StopAll(ends, procs, alive).Success? ==>
      var m := StopAll(ends, procs, alive).value;
      m.Keys == ends.Keys
      && forall n :: n in ends ==> m[n] == ends[n].(sent := ends[n].sent + Nones(AliveCount(procs, alive, n)))
    decreases |procs|
  {
    if procs != [] {
      var k := |procs| - 1;
      var pre := procs[..k];
      StopAllSpec(ends, pre, alive);
      assert forall j :: 0 <= j < k ==> pre[j] == procs[j];
      var r := StopAll(ends, pre, alive);
      if r.Success? {
        var m := r.value;
        forall n | n in ends
          ensures n in m && m[n].broken == ends[n].broken
        {
        }
        if IsAlive(alive, k) && procs[k] in m && !m[procs[k]].broken {
          var m' := m[procs[k] := m[procs[k]].Pushed(NoneV)];
          forall n | n in ends
            ensures m'[n] == ends[n].(sent := ends[n].sent + Nones(AliveCount(procs, alive, n)))
          {
            if n == procs[k] {
              assert Nones(AliveCount(pre, alive, n)) + [NoneV] == Nones(AliveCount(procs, alive, n));
            }
          }
        }
      }
    }
  }

  /** The return code of `start` once the game process has returned or raised a ProcessError. */
  function ReturnCode(gameRun: Outcome<PyException>): int {
    if gameRun.Pass? then 0 else -1
  }

  /** The two lines `start` prints for a ProcessError escaping the game process. */
  function ErrorReport(e: ProcessError): seq<string> {
    ["Error: Exception occurred in '" + e.processName + "' process:", e.message]
  }

  /** The handlers of the first `n` properties hold fresh pipe ends. */
  ghost predicate HandlersWired(props: seq<MLExecutorProperty>, n: nat)
    requires n <= |props|
    reads Handlers(props)
  {
    forall k :: 0 <= k < n ==>
      props[k].comm.toGame.recvEnd == Some(FreshEnd()) && props[k].comm.toGame.sendEnd == Some(FreshEnd())
  }

  /** The ML side of one wiring step: the `i`-th property's handler gets fresh pipe ends, the earlier ones keep theirs. */
  method WireMlSide(props: seq<MLExecutorProperty>, i: nat)
    requires i < |props| && HandlersWired(props, i)
    modifies props[i].comm.toGame
    ensures HandlersWired(props, i + 1)
  {
    var handler := props[i].comm.toGame;
    var wired := props[i].comm.SetCommToGame(FreshEnd(), FreshEnd());
    assert handler.recvEnd == Some(FreshEnd()) && handler.sendEnd == Some(FreshEnd());
  }

  /**
   * One round of `_create_pipes`: the game side registers the `i`-th name,
   * then the ML side gets its pipe ends. A refused name raises the
   * wiring's ValueError and is the first refused one.
   */
  method WireOne(comm: GameCommManager, props: seq<MLExecutorProperty>,
                 ghost recv0: map<string, Conn>, ghost send0: map<string, Conn>, i: nat)
    returns (o: Outcome<PyException>)
    requires i < |props| && comm.Valid() && HandlersWired(props, i)
    requires i <= FirstRefused(recv0, send0, PropNames(props), 0)
    requires comm.commToMl.recvEnd == Added(recv0, PropNames(props)[..i])
    requires comm.commToMl.sendEnd == Added(send0, PropNames(props)[..i])
    modifies comm.commToMl, props[i].comm.toGame
    ensures comm.Valid()
    ensures o.Fail? ==>
      FirstRefused(recv0, send0, PropNames(props), 0) == i && o == Fail(WiringError(recv0, PropNames(props), i))
    ensures o.Pass? ==>
      i + 1 <= FirstRefused(recv0, send0, PropNames(props), 0)
      && comm.commToMl.recvEnd == Added(recv0, PropNames(props)[..i + 1])
      && comm.commToMl.sendEnd == Added(send0, PropNames(props)[..i + 1])
      && HandlersWired(props, i + 1)
  {
    ghost var names := PropNames(props);
    WireStep(recv0, send0, names, i);
    ghost var accepted := !RefusedAt(recv0, send0, names, i);
    assert accepted ==> i + 1 <= FirstRefused(recv0, send0, names, 0);
    o := comm.AddCommToMl(props[i].name, FreshEnd(), FreshEnd());
    if o.Fail? {
      return;
    }
    assert accepted;
    WireMlSide(props, i);
  }

  /** The loop of `_create_pipes`, over the ML properties in order; it stops at the first refused name. */
  method WireAll(comm: GameCommManager, props: seq<MLExecutorProperty>) returns (o: Outcome<PyException>)
    requires comm.Valid()
    modifies comm.commToMl, Handlers(props)
    ensures comm.Valid()
    ensures
      var names := PropNames(props);
      var j := FirstRefused(old(comm.commToMl.recvEnd), old(comm.commToMl.sendEnd), names, 0);
      (j < |names| ==> o == Fail(WiringError(old(comm.commToMl.recvEnd), names, j)))
      && (j == |names| ==>
        o == Pass
        && comm.commToMl.recvEnd == Added(old(comm.commToMl.recvEnd), names)
        && comm.commToMl.sendEnd == Added(old(comm.commToMl.sendEnd), names)
        && HandlersWired(props, |props|))
  {
    ghost var recv0, send0 := comm.commToMl.recvEnd, comm.commToMl.sendEnd;
    ghost var names := PropNames(props);
    assert names[..0] == [];
    var i := 0;
    while i < |props|
      invariant 0 <= i <= |props|
      invariant comm.Valid()
      invariant i <= FirstRefused(recv0, send0, names, 0)
      invariant comm.commToMl.recvEnd == Added(recv0, names[..i])
      invariant comm.commToMl.sendEnd == Added(send0, names[..i])
      invariant HandlersWired(props, i)
    {
      o := WireOne(comm, props, recv0, send0, i);
      if o.Fail? {
        return;
      }
      i := i + 1;
    }
    assert names[..i] == names;
    o := Pass;
  }

  /** `ProcessManager`. */
  class ProcessManager {
    const gameProp: Option<GameExecutorProperty>
    const mlProps: seq<MLExecutorProperty>
    /** `_ml_procs`: the names of the spawned ML processes, in spawning order. */
    var mlProcs: seq<string>
    /** What `start` printed. */
    var printed: seq<string>

    constructor(gameProp: Option<GameExecutorProperty>, mlProps: seq<MLExecutorProperty>)
      ensures this.gameProp == gameProp && this.mlProps == mlProps
      ensures mlProcs == [] && printed == []
    {
      this.gameProp := gameProp;
      this.mlProps := mlProps;
      mlProcs := [];
      printed := [];
    }

    /** The game side's registry, the one object of the game property the manager writes to. */
    function GameRegistry(): set<object>
      reads this
    {
      if gameProp.Some? then {gameProp.value.comm.commToMl} else {}
    }

    /**
     * `_create_pipes`: for every ML property in order, one pipe from the ML
     * process to the game and one back, registered on the game side under
     * the ML process's name and set on the ML side as its game channel. A
     * refused name raises ValueError and ends the wiring.
     */
    method CreatePipes() returns (o: Outcome<PyException>)
      requires gameProp.Some? && gameProp.value.comm.Valid()
      modifies GameRegistry(), Handlers(mlProps)
      ensures gameProp.value.comm.Valid()
      ensures
        var names := PropNames(mlProps);
        var j := FirstRefused(old(gameProp.value.comm.commToMl.recvEnd), old(gameProp.value.comm.commToMl.sendEnd), names, 0);
        (j < |names| ==> o == Fail(WiringError(old(gameProp.value.comm.commToMl.recvEnd), names, j)))
        && (j == |names| ==>
          o == Pass
          && gameProp.value.comm.commToMl.recvEnd == Added(old(gameProp.value.comm.commToMl.recvEnd), names)
          && gameProp.value.comm.commToMl.sendEnd == Added(old(gameProp.value.comm.commToMl.sendEnd), names)
          && HandlersWired(mlProps, |mlProps|))
    {
      o := WireAll(gameProp.value.comm, mlProps);
    }

    /** `_start_ml_processes`: one process per ML property, named after it, in order. */
    method StartMlProcesses()
      modifies this
      ensures mlProcs == old(mlProcs) + PropNames(mlProps) && printed == old(printed)
    {
      var i := 0;
      while i < |mlProps|
        invariant 0 <= i <= |mlProps|
        invariant mlProcs == old(mlProcs) + PropNames(mlProps[..i]) && printed == old(printed)
      {
        assert mlProps[..i + 1][..i] == mlProps[..i];
        mlProcs := mlProcs + [mlProps[i].name];
        i := i + 1;
      }
      assert mlProps[..i] == mlProps;
    }

    /** `_terminate`: None through the game-side end of every spawned process still alive. */
    method Terminate(alive: seq<bool>) returns (o: Outcome<PyException>)
      requires gameProp.Some? && gameProp.value.comm.Valid()
      modifies GameRegistry()
      ensures gameProp.value.comm.Valid()
      ensures gameProp.value.comm.commToMl.recvEnd == old(gameProp.value.comm.commToMl.recvEnd)
      ensures
        var r := StopAll(old(gameProp.value.comm.commToMl.sendEnd), mlProcs, alive);
        (r.Failure? ==> o == Fail(r.error)) && (r.Success? ==> o == Pass && gameProp.value.comm.commToMl.sendEnd == r.value)
    {
      var comm := gameProp.value.comm;
      ghost var send0 := comm.commToMl.sendEnd;
      assert mlProcs[..0] == [];
      var i := 0;
      while i < |mlProcs|
        invariant 0 <= i <= |mlProcs|
        invariant comm.Valid()
        invariant comm.commToMl.recvEnd == old(comm.commToMl.recvEnd)
        invariant StopAll(send0, mlProcs[..i], alive) == Success(comm.commToMl.sendEnd)
      {
        assert mlProcs[..i + 1][..i] == mlProcs[..i];
        if IsAlive(alive, i) {
          o := comm.SendToMl(NoneV, mlProcs[i]);
          if o.Fail? {
            assert StopAll(send0, mlProcs[..i + 1], alive) == Failure(o.error);
            StopAllFailed(send0, mlProcs, alive, i + 1);
            return;
          }
        }
        i := i + 1;
      }
      assert mlProcs[..i] == mlProcs;
      o := Pass;
    }

    /**
     * `start`: the two RuntimeError checks come before anything else; then
     * the wiring, the spawning and the game process. Return code 0, or -1
     * after a ProcessError has been reported; either way the live ML
     * processes are then told to stop. Any other exception from the game
     * process escapes without that.
     */
    method Start(gameRun: Outcome<PyException>, alive: seq<bool>) returns (r: Result<int, PyException>)
      requires gameProp.Some? ==> gameProp.value.comm.Valid()
      modifies this, GameRegistry(), Handlers(mlProps)
      ensures gameProp.Some? ==> gameProp.value.comm.Valid()
      ensures gameProp.None? ==>
        r == Failure(RuntimeError("The game process is not set. Cannot start the ProcessManager"))
        && mlProcs == old(mlProcs) && printed == old(printed)
      ensures gameProp.Some? && mlProps == [] ==>
        r == Failure(RuntimeError("No ml process added. Cannot start the ProcessManager"))
        && mlProcs == old(mlProcs) && printed == old(printed)
        && gameProp.value.comm.commToMl.sendEnd == old(gameProp.value.comm.commToMl.sendEnd)
      ensures gameProp.Some? && mlProps != [] ==>
        var names := PropNames(mlProps);
        var recv0 := old(gameProp.value.comm.commToMl.recvEnd);
        var send0 := old(gameProp.value.comm.commToMl.sendEnd);
        var j := FirstRefused(recv0, send0, names, 0);
        (j < |names| ==> r == Failure(WiringError(recv0, names, j)) && mlProcs == old(mlProcs) && printed == old(printed))
        && (j == |names| ==> mlProcs == old(mlProcs) + names && ProcessTail(gameRun, alive, old(printed), Added(send0, names), r))
    {
      if gameProp.None? {
        return Failure(RuntimeError("The game process is not set. Cannot start the ProcessManager"));
      }
      if |mlProps| == 0 {
        return Failure(RuntimeError("No ml process added. Cannot start the ProcessManager"));
      }
      var wired := CreatePipes();
      if wired.Fail? {
        return Failure(wired.error);
      }
      StartMlProcesses();
      r := RunGame(gameRun, alive);
    }

    /** The part of `start` after the spawning: the game process, the report and `_terminate`. */
    method RunGame(gameRun: Outcome<PyException>, alive: seq<bool>) returns (r: Result<int, PyException>)
      requires gameProp.Some? && gameProp.value.comm.Valid()
      modifies this, GameRegistry()
      ensures gameProp.value.comm.Valid() && mlProcs == old(mlProcs)
      ensures ProcessTail(gameRun, alive, old(printed), old(gameProp.value.comm.commToMl.sendEnd), r)
    {
      if gameRun.Fail? && !gameRun.error.ProcessFailure? {
        return Failure(gameRun.error);
      }
      var code := 0;
      if gameRun.Fail? {
        printed := printed + ErrorReport(gameRun.error.err);
        code := -1;
      }
      ghost var spawned, reported := mlProcs, printed;
      var stopped := Terminate(alive);
      assert mlProcs == spawned && printed == reported;
      r := if stopped.Fail? then Failure(stopped.error) else Success(code);
    }

    /** What `start` leaves once the wiring has succeeded, given the sending ends it left. */
    ghost predicate ProcessTail(gameRun: Outcome<PyException>, alive: seq<bool>, printed0: seq<string>,
                                ends: map<string, Conn>, r: Result<int, PyException>)
      requires gameProp.Some?
      reads this, gameProp.value.comm.commToMl
    {
      if gameRun.Fail? && !gameRun.error.ProcessFailure? then
        r == Failure(gameRun.error) && printed == printed0 && gameProp.value.comm.commToMl.sendEnd == ends
      else
        printed == printed0 + (if gameRun.Fail? then ErrorReport(gameRun.error.err) else [])
        && var stop := StopAll(ends, mlProcs, alive);
        (stop.Failure? ==> r == Failure(stop.error))
        && (stop.Success? ==> r == Success(ReturnCode(gameRun)) && gameProp.value.comm.commToMl.sendEnd == stop.value)
    }
  }

  /**
   * Registering the `i`-th name after the first `i` went through: the
   * registries' checks fail exactly when the name is refused, with the
   * error `WiringError` names, and the first refused name is then this one.
   */
  lemma WireStep(recv: map<string, Conn>, send: map<string, Conn>, names: seq<string>, i: nat)
    requires i < |names| && forall k :: 0 <= k < i ==> !RefusedAt(recv, send, names, k)
    ensures
      var o := Then(Then(NameFree(Added(recv, names[..i]), names[i], "recv_end"), RecvCapability(FreshEnd())),
                    Then(NameFree(Added(send, names[..i]), names[i], "send_end"), SendCapability(FreshEnd())));
      (o.Fail? <==> RefusedAt(recv, send, names, i))
      && (o.Fail? ==> o == Fail(WiringError(recv, names, i)) && FirstRefused(recv, send, names, 0) == i)
      && (o.Pass? ==> Added(recv, names[..i + 1]) == Added(recv, names[..i])[names[i] := FreshEnd()]
                      && Added(send, names[..i + 1]) == Added(send, names[..i])[names[i] := FreshEnd()])
  {
    AddedStep(recv, names, i);
    AddedStep(send, names, i);
    if RefusedAt(recv, send, names, i) {
      FirstRefusedAt(recv, send, names, 0, i);
    }
  }

  lemma {:induction false} FirstRefusedAt(recv: map<string, Conn>, send: map<string, Conn>, names: seq<string>, from: nat, i: nat)
    requires from <= i < |names|
    requires forall k :: from <= k < i ==> !RefusedAt(recv, send, names, k)
    requires RefusedAt(recv, send, names, i)
    ensures FirstRefused(recv, send, names, from) == i
    decreases i - from
  {
    if from < i {
      FirstRefusedAt(recv, send, names, from + 1, i);
    }
  }

  /** A failure after the first `i` processes is the failure of the whole loop. */
  lemma {:induction false} StopAllFailed(ends: map<string, Conn>, procs: seq<string>, alive: seq<bool>, i: nat)
    requires i <= |procs| && StopAll(ends, procs[..i], alive).Failure?
    ensures StopAll(ends, procs, alive) == StopAll(ends, procs[..i], alive)
    decreases |procs| - i
  {
    if i < |procs| {
      assert procs[..i + 1][..i] == procs[..i];
      StopAllFailed(ends, procs, alive, i + 1);
    } else {
      assert procs[..i] == procs;
    }
  }
}
