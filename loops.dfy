/**
 * mlgame/loops.py: the loop executors. The game process runs a game either
 * on keyboard commands (manual mode) or in lock step with the ML processes
 * (ML mode); each ML process runs its `MLPlay` on the scenes the game
 * sends. The game, the keyboard, the ML code and `quit_or_esc` are given as
 * inputs; the channels are the model of mlgame/communication.py.
 */
module Loops {
  import opened Wrappers
  import opened Exceptions
  import opened PyText
  import opened PyValue
  import opened Communication

  const RESET := StrV("RESET")
  const QUIT := StrV("QUIT")

  /** A result of `game.update` that ends the round. */
  predicate Terminal(result: Value) {
    result == RESET || result == QUIT
  }

  /**
   * A game class as the executors use it: its scene information, `update`
   * on a command (returning the new state and the result), `reset`.
   */
  datatype Game<!S> = Game(sceneInfo: S -> Value, update: (S, Value) -> (S, Value), reset: S -> S)
  {
    /** `get_player_scene_info()` in state `s`. */
    function Scene(s: S): Value {
      sceneInfo(s)
    }

    /** `update(command)` in state `s`: the next state and the result. */
    function Step(s: S, command: Value): (S, Value) {
      update(s, command)
    }

    /** `reset()` in state `s`. */
    function Restart(s: S): S {
      reset(s)
    }
  }

  // ---- Manual mode ----

  /** What the executors hand to the recorder. */
  datatype RecordEvent = Recorded(scene: Value, command: Value) | Flushed

  /** Why a game loop ended: `quit_or_esc()` became true, or a round's result ended it. */
  datatype ManualEnd = Quit | Finished(result: Value)

  /** One round of the manual loop: the game state after it, the recorder calls, and the result if it ends the loop. */
  datatype ManualRound<S> = ManualRound(state: S, events: seq<RecordEvent>, stop: Option<Value>)

  /**
   * One round on keyboard command `key`: the scene is recorded with the
   * command and the game updates; a RESET or QUIT records the final scene
   * with None and flushes, then ends the loop on QUIT or in one-shot mode
   * and resets the game otherwise.
   */
  function PlayRound<S>(game: Game<S>, oneShot: bool, s: S, key: Value): (r: ManualRound<S>)
    ensures |r.events| > 0 && r.events[0] == Recorded(game.sceneInfo(s), key)
    ensures r.stop.Some? ==> Terminal(r.stop.value) && (oneShot || r.stop.value == QUIT)
  {
    var next := game.update(s, key);
    var recorded := Recorded(game.sceneInfo(s), key);
    if !Terminal(next.1) then ManualRound(next.0, [recorded], None)
    else
      var ending := [recorded, Recorded(game.sceneInfo(next.0), NoneV), Flushed];
      if oneShot || next.1 == QUIT then ManualRound(next.0, ending, Some(next.1))
      else ManualRound(game.reset(next.0), ending, None)
  }

  /** What running the manual loop gives: the final game state, the recorder calls, and why it ended. */
  datatype ManualRun<S> = ManualRun(state: S, events: seq<RecordEvent>, end: ManualEnd)

  /** The manual loop on the keyboard commands read in the rounds before `quit_or_esc()` becomes true. */
  function RunManual<S>(game: Game<S>, oneShot: bool, s: S, keys: seq<Value>): ManualRun<S>
    decreases |keys|
  {
    if keys == [] then ManualRun(s, [], Quit)
    else
      var round := PlayRound(game, oneShot, s, keys[0]);
      if round.stop.Some? then ManualRun(round.state, round.events, Finished(round.stop.value))
      else
        var rest := RunManual(game, oneShot, round.state, keys[1..]);
        rest.(events := round.events + rest.events)
  }

  /**
   * The manual loop ends on its own only on QUIT, or on RESET in one-shot
   * mode, and it records every round it runs, the first one first.
   */
  lemma {:induction false} RunManualEnds<S>(game: Game<S>, oneShot: bool, s: S, keys: seq<Value>)
    ensures var r := RunManual(game, oneShot, s, keys);
      (r.end.Finished? ==> Terminal(r.end.result) && (oneShot || r.end.result == QUIT))
      && (keys != [] ==> |r.events| > 0 && r.events[0] == Recorded(game.sceneInfo(s), keys[0]))
    decreases |keys|
  {
    if keys != [] {
      var round := PlayRound(game, oneShot, s, keys[0]);
      if round.stop.None? {
        RunManualEnds(game, oneShot, round.state, keys[1..]);
      }
    }
  }

  /**
   * `_loop` on values, with `keys` the keyboard commands of the rounds
   * before `quit_or_esc()` is true: the final game state, the recorder
   * calls in order, and why the loop ended.
   */
  method ManualLoop<S>(game: Game<S>, oneShot: bool, s0: S, keys: seq<Value>)
    returns (s: S, events: seq<RecordEvent>, end: ManualEnd)
    ensures RunManual(game, oneShot, s0, keys) == ManualRun(s, events, end)
  {
    s, events := s0, [];
    ghost var r0 := RunManual(game, oneShot, s0, keys);
    var i := 0;
    while i < |keys|
      invariant 0 <= i <= |keys|
      invariant var rest := RunManual(game, oneShot, s, keys[i..]);
        r0 == rest.(events := events + rest.events)
    {
      assert keys[i..][1..] == keys[i + 1..];
      var round := PlayRound(game, oneShot, s, keys[i]);
      events, s := events + round.events, round.state;
      if round.stop.Some? {
        return s, events, Finished(round.stop.value);
      }
      i := i + 1;
    }
    end := Quit;
  }

  /** `GameManualModeExecutor`: the recorder calls so far are its observable effect. */
  class GameManualModeExecutor {
    const oneShot: bool
    var records: seq<RecordEvent>

    constructor(oneShot: bool)
      ensures this.oneShot == oneShot && records == []
    {
      this.oneShot := oneShot;
      records := [];
    }

    /** `_loop`: the rounds of `ManualLoop`, handed to the recorder. */
    method Loop<S>(game: Game<S>, s0: S, keys: seq<Value>) returns (s: S, end: ManualEnd)
      modifies this
      ensures var r := RunManual(game, oneShot, s0, keys);
        s == r.state && end == r.end && records == old(records) + r.events
    {
      var events;
      s, events, end := ManualLoop(game, oneShot, s0, keys);
      records := records + events;
    }
  }

  // ---- ML mode: the command list ----

  /** The line `_check_delay` prints. */
  function DelayLine(name: string, delay: int): string {
    "The client '" + name + "' delayed " + DecimalString(delay) + " frame(s)"
  }

  function Max(a: int, b: int): int {
    if a < b then b else a
  }

  /**
   * The command list being built by `_make_ml_execute`, the delay table,
   * the lines printed, and the exception that stopped the build, if any.
   */
  datatype Tally = Tally(cmds: seq<Value>, delayed: map<string, int>, printed: seq<string>, raised: Option<PyException>)

  /** A reply the build accepts: anything but a dict, or a dict with an integer "frame" and a "command". */
  predicate WellFormed(reply: Value) {
    reply.DictV? ==> "frame" in reply.entries && IsInt(reply.entries["frame"]) && "command" in reply.entries
  }

  /** A client whose reply is there and well formed. */
  predicate Accepted(replies: map<string, Value>, name: string) {
    name in replies && WellFormed(replies[name])
  }

  /** What a well-formed reply contributes to the command list. */
  function CommandOf(reply: Value): Value
    requires WellFormed(reply)
  {
    if reply.DictV? then reply.entries["command"] else NoneV
  }

  /**
   * One client's reply: a dict triggers the delay check with its "frame"
   * and contributes its "command"; anything else contributes None. A
   * missing key raises KeyError, a frame that is not an integer TypeError.
   */
  function ReplyStep(t: Tally, name: string, replies: map<string, Value>, frameCount: int): (r: Tally)
    requires name in t.delayed
    ensures r.delayed.Keys == t.delayed.Keys
    ensures forall n :: n in t.delayed ==> r.delayed[n] >= t.delayed[n] && (r.delayed[n] != t.delayed[n] ==> n == name)
    ensures t.printed <= r.printed && t.cmds <= r.cmds
    ensures t.raised.None? ==>
      (r.raised.None? <==> Accepted(replies, name))
      && (r.raised.None? ==> r.cmds == t.cmds + [CommandOf(replies[name])])
  {
    if name !in replies then t.(raised := Some(KeyError(name)))
    else
      var reply := replies[name];
      if !reply.DictV? then t.(cmds := t.cmds + [NoneV])
      else if "frame" !in reply.entries then t.(raised := Some(KeyError("frame")))
      else if !IsInt(reply.entries["frame"]) then t.(raised := Some(TypeError("unsupported operand type(s) for -")))
      else
        var delay := frameCount - AsInt(reply.entries["frame"]);
        var checked := t.(delayed := t.delayed[name := Max(t.delayed[name], delay)],
                          printed := t.printed + if delay > t.delayed[name] then [DelayLine(name, delay)] else []);
        if "command" !in reply.entries then checked.(raised := Some(KeyError("command")))
        else checked.(cmds := checked.cmds + [reply.entries["command"]])
  }

  /** The replies of `names`, in order, folded from `t0`; the first exception stops the fold. */
  function Collect(names: seq<string>, replies: map<string, Value>, frameCount: int, t0: Tally): (r: Tally)
    requires forall n :: n in names ==> n in t0.delayed
    ensures r.delayed.Keys == t0.delayed.Keys
    decreases |names|
  {
    if names == [] then t0
    else
      var t := Collect(names[..|names| - 1], replies, frameCount, t0);
      if t.raised.Some? then t else ReplyStep(t, names[|names| - 1], replies, frameCount)
  }

  /**
   * The build succeeds exactly when every client has a well-formed reply;
   * it then has one entry per client, in name order, each the client's
   * command or None.
   */
  lemma {:induction false} CollectCommands(names: seq<string>, replies: map<string, Value>, frameCount: int, t0: Tally)
    requires forall n :: n in names ==> n in t0.delayed
    requires t0.cmds == [] && t0.raised.None?
    ensures var r := Collect(names, replies, frameCount, t0);
      (r.raised.None? <==> forall k :: 0 <= k < |names| ==> Accepted(replies, names[k]))
      && (r.raised.None? ==>
            |r.cmds| == |names| && forall k :: 0 <= k < |names| ==> r.cmds[k] == CommandOf(replies[names[k]]))
    decreases |names|
  {
    if names != [] {
      var init := names[..|names| - 1];
      CollectCommands(init, replies, frameCount, t0);
      var t := Collect(init, replies, frameCount, t0);
      var r := Collect(names, replies, frameCount, t0);
      assert forall k :: 0 <= k < |init| ==> init[k] == names[k];
      var last := names[|names| - 1];
      assert names == init + [last];
      assert (forall k :: 0 <= k < |names| ==> Accepted(replies, names[k]))
        <==> (forall k :: 0 <= k < |init| ==> Accepted(replies, init[k])) && Accepted(replies, last);
      if t.raised.None? {
        assert r == ReplyStep(t, last, replies, frameCount);
      }
    }
  }

  /**
   * The delay table is a high-water mark: no entry ever decreases, only
   * the entries of the clients replying change, and the printed lines and
   * the command list only grow.
   */
  lemma {:induction false} CollectRaisesDelays(names: seq<string>, replies: map<string, Value>, frameCount: int, t0: Tally)
    requires forall n :: n in names ==> n in t0.delayed
    ensures var r := Collect(names, replies, frameCount, t0);
      (forall n :: n in t0.delayed ==> r.delayed[n] >= t0.delayed[n] && (r.delayed[n] != t0.delayed[n] ==> n in names))
      && t0.printed <= r.printed && t0.cmds <= r.cmds
    decreases |names|
  {
    if names != [] {
      var init := names[..|names| - 1];
      assert forall n :: n in init ==> n in names;
      CollectRaisesDelays(init, replies, frameCount, t0);
    }
  }

  /**
   * The value `_make_ml_execute` returns for a command list: the list
   * itself when clients are dynamic or there are several, else its only
   * element (an empty list raises IndexError).
   */
  function Unwrap(cmds: seq<Value>, dynamic: bool): Result<Value, PyException> {
    if dynamic || |cmds| > 1 then Success(ListV(cmds))
    else if |cmds| == 1 then Success(cmds[0])
    else Failure(IndexError)
  }

  // ---- ML mode: waiting for READY ----

  /** An object that stops the game's `while recv_from_ml(name) != "READY"`: READY, or an MLProcessError it raises. */
  predicate EndsWait(v: Value) {
    v == READY || IsMLProcessError(v)
  }

  /** The index of the first object that stops the wait, or `|xs|`. */
  function FirstEnd(xs: seq<Value>): (k: nat)
    ensures k <= |xs| && (k < |xs| ==> EndsWait(xs[k]))
    ensures forall j :: 0 <= j < k ==> !EndsWait(xs[j])
  {
    if xs == [] then 0
    else if EndsWait(xs[0]) then 0
    else 1 + FirstEnd(xs[1..])
  }

  /** A pipe whose first stopping object is READY. */
  predicate ReadyFirst(xs: seq<Value>) {
    FirstEnd(xs) < |xs| && xs[FirstEnd(xs)] == READY
  }

  /** A pipe after the wait: everything through the stopping object is taken, or everything. */
  function Awaited(c: Conn): Conn {
    var k := FirstEnd(c.incoming);
    c.(incoming := if k < |c.incoming| then c.incoming[k + 1..] else [])
  }

  /**
   * `while self._comm_manager.recv_from_ml(ml_name) != "READY": pass` on one
   * pipe: each round receives without waiting; READY ends the wait, an
   * MLProcessError is raised, and an empty pipe gives None forever.
   */
  method AwaitReady(c: Conn) returns (after: Conn, r: Received)
    ensures after == Awaited(c)
    ensures r == if FirstEnd(c.incoming) < |c.incoming| then RaiseMLError(c.incoming[FirstEnd(c.incoming)]) else WouldBlock
    ensures r.Got? <==> ReadyFirst(c.incoming)
  {
    ghost var xs := c.incoming;
    var rest := c.incoming;
    ghost var i := 0;
    while rest != []
      invariant i <= FirstEnd(xs) && rest == xs[i..]
    {
      var obj := rest[0];
      rest := rest[1..];
      if EndsWait(obj) {
        assert FirstEnd(xs) == i;
        return c.(incoming := rest), RaiseMLError(obj);
      }
      i := i + 1;
    }
    after, r := c.(incoming := []), WouldBlock;
  }

  /** How `_wait_all_ml_ready` ends: every client READY, stuck on a client with nothing to send, or raising. */
  datatype WaitEnd = AllReady | StuckOn(name: string) | WaitRaised(e: PyException)

  /** The registry after the waits on the first `i` names. */
  ghost function AwaitedThrough(ends: map<string, Conn>, names: seq<string>, i: nat): map<string, Conn>
    requires i <= |names|
  {
    map n | n in ends :: if n in names[..i] then Awaited(ends[n]) else ends[n]
  }

  /** The waits take objects from the pipes and change nothing else. */
  lemma AwaitedThroughKeepsFlags(ends: map<string, Conn>, names: seq<string>, i: nat)
    requires i <= |names|
    ensures var after := AwaitedThrough(ends, names, i);
      after.Keys == ends.Keys && forall n :: n in after ==> after[n] == ends[n].(incoming := after[n].incoming)
  {
  }

  /** Waiting on one more name extends the prefix by that name. */
  lemma AwaitedThroughStep(ends: map<string, Conn>, names: seq<string>, i: nat)
    requires Enumerates(names, ends) && i < |names|
    ensures names[i] in ends && AwaitedThrough(ends, names, i)[names[i]] == ends[names[i]]
    ensures AwaitedThrough(ends, names, i + 1) == AwaitedThrough(ends, names, i)[names[i] := Awaited(ends[names[i]])]
  {
    assert names[i] !in names[..i] by {
      forall k | 0 <= k < i
        ensures names[..i][k] != names[i]
      {
        assert names[k] != names[i];
      }
    }
    assert names[..i + 1] == names[..i] + [names[i]];
  }

  /** The index of the first name whose pipe does not have READY first, or `|names|`. */
  function FirstNotReady(ends: map<string, Conn>, names: seq<string>): (j: nat)
    requires forall n :: n in names ==> n in ends
    ensures j <= |names| && (j < |names| ==> !ReadyFirst(ends[names[j]].incoming))
    ensures forall k :: 0 <= k < j ==> ReadyFirst(ends[names[k]].incoming)
  {
    if names == [] then 0
    else if !ReadyFirst(ends[names[0]].incoming) then 0
    else 1 + FirstNotReady(ends, names[1..])
  }

  /** Where the wait stands at name `i`: past it when its pipe has READY first, else stopped there. */
  lemma FirstNotReadyAt(ends: map<string, Conn>, names: seq<string>, i: nat)
    requires forall n :: n in names ==> n in ends
    requires i < |names| && i <= FirstNotReady(ends, names)
    ensures ReadyFirst(ends[names[i]].incoming) ==> i + 1 <= FirstNotReady(ends, names)
    ensures !ReadyFirst(ends[names[i]].incoming) ==> FirstNotReady(ends, names) == i
  {
  }

  /**
   * The outcome of waiting on `names` in order: all ready exactly when no
   * client is found not ready; otherwise the waits stop at the first such
   * client, which raised the error in its pipe or is still waited on.
   */
  ghost predicate WaitedAll(ends: map<string, Conn>, names: seq<string>, w: WaitEnd, after: map<string, Conn>)
    requires forall n :: n in names ==> n in ends
  {
    var j := FirstNotReady(ends, names);
    (w.AllReady? <==> j == |names|)
    && after == AwaitedThrough(ends, names, if j < |names| then j + 1 else j)
    && (j < |names| ==>
          var xs := ends[names[j]].incoming;
          w == if FirstEnd(xs) < |xs| then WaitRaised(ProcessFailure(xs[FirstEnd(xs)].err)) else StuckOn(names[j]))
  }

  /** The waits that stop at the first client not ready, `i`, end as `WaitedAll` says. */
  lemma WaitedAllStopsAt(ends: map<string, Conn>, names: seq<string>, i: nat, w: WaitEnd, after: map<string, Conn>)
    requires forall n :: n in names ==> n in ends
    requires i < |names| && FirstNotReady(ends, names) == i
    requires after == AwaitedThrough(ends, names, i + 1)
    requires var xs := ends[names[i]].incoming;
      w == if FirstEnd(xs) < |xs| then WaitRaised(ProcessFailure(xs[FirstEnd(xs)].err)) else StuckOn(names[i])
    ensures WaitedAll(ends, names, w, after)
  {
  }

  /** Waiting leaves a registry of receiving ends, over the same names, a registry of receiving ends. */
  lemma WaitedKeepsReceivers(ends: map<string, Conn>, names: seq<string>, w: WaitEnd, after: map<string, Conn>)
    requires Enumerates(names, ends)
    requires forall n :: n in ends ==> ends[n].hasRecv && ends[n].hasPoll
    requires WaitedAll(ends, names, w, after)
    ensures Enumerates(names, after) && forall n :: n in after ==> after[n].hasRecv && after[n].hasPoll
  {
    var j := FirstNotReady(ends, names);
    AwaitedThroughKeepsFlags(ends, names, if j < |names| then j + 1 else j);
  }

  /**
   * `_wait_all_ml_ready` on the registry: the names in order, each waited
   * on until READY. It gets past a name only when that pipe's first
   * stopping object is READY; the first name where it is not decides the
   * end: an MLProcessError is raised, an empty pipe waits forever.
   */
  method AwaitEach(ends: map<string, Conn>, names: seq<string>) returns (w: WaitEnd, after: map<string, Conn>)
    requires Enumerates(names, ends)
    ensures WaitedAll(ends, names, w, after)
  {
    after := ends;
    assert names[..0] == [];
    var i := 0;
    while i < |names|
      invariant 0 <= i <= FirstNotReady(ends, names)
      invariant after == AwaitedThrough(ends, names, i)
    {
      var name := names[i];
      AwaitedThroughStep(ends, names, i);
      FirstNotReadyAt(ends, names, i);
      var c, r := AwaitReady(after[name]);
      after := after[name := c];
      if !r.Got? {
        w := if r.Raised? then WaitRaised(r.e) else StuckOn(name);
        WaitedAllStopsAt(ends, names, i, w, after);
        return;
      }
      i := i + 1;
    }
    w := AllReady;
  }

  /** `for name in names: delayed[name] = 0`, on an empty or a full table. */
  method ZeroDelays(names: seq<string>) returns (delayed: map<string, int>)
    ensures forall n :: n in delayed <==> n in names
    ensures forall n :: n in delayed ==> delayed[n] == 0
  {
    delayed := map[];
    var i := 0;
    while i < |names|
      invariant 0 <= i <= |names|
      invariant forall n :: n in delayed <==> n in names[..i]
      invariant forall n :: n in delayed ==> delayed[n] == 0
    {
      assert names[..i + 1] == names[..i] + [names[i]];
      delayed := delayed[names[i] := 0];
      i := i + 1;
    }
    assert names[..i] == names;
  }

  /** Once the build has raised, the later replies change nothing. */
  lemma {:induction false} CollectStops(names: seq<string>, i: nat, replies: map<string, Value>, frameCount: int, t0: Tally)
    requires i <= |names| && forall n :: n in names ==> n in t0.delayed
    requires Collect(names[..i], replies, frameCount, t0).raised.Some?
    ensures Collect(names, replies, frameCount, t0) == Collect(names[..i], replies, frameCount, t0)
    decreases |names|
  {
    if i < |names| {
      var init := names[..|names| - 1];
      assert init[..i] == names[..i];
      assert forall n :: n in init ==> n in names;
      CollectStops(init, i, replies, frameCount, t0);
    } else {
      assert names[..i] == names;
    }
  }

  /**
   * `_check_delay` on the executor's delay table and output: the client's
   * counter becomes the larger of itself and this command's delay, and a
   * line is printed only when it grows.
   */
  method CheckDelay(delayed: map<string, int>, printed: seq<string>, frameCount: int, name: string, cmdFrame: int)
    returns (delayed': map<string, int>, printed': seq<string>)
    requires name in delayed
    ensures delayed' == delayed[name := Max(delayed[name], frameCount - cmdFrame)]
    ensures delayed'[name] >= delayed[name] && delayed'[name] >= frameCount - cmdFrame
    ensures printed' == printed + if frameCount - cmdFrame > delayed[name] then [DelayLine(name, frameCount - cmdFrame)] else []
  {
    delayed', printed' := delayed, printed;
    var delay := frameCount - cmdFrame;
    if delay > delayed[name] {
      delayed' := delayed[name := delay];
      printed' := printed + [DelayLine(name, delay)];
    }
  }

  /**
   * One turn of the loop of `_make_ml_execute`: the client's reply turned
   * into its command, the delay of a dict reply checked on the way.
   */
  method ReplyCommand(t: Tally, name: string, replies: map<string, Value>, frameCount: int) returns (r: Tally)
    requires name in t.delayed && t.raised.None?
    ensures r == ReplyStep(t, name, replies, frameCount)
  {
    if name !in replies {
      return t.(raised := Some(KeyError(name)));
    }
    var reply := replies[name];
    if !reply.DictV? {
      return t.(cmds := t.cmds + [NoneV]);
    }
    if "frame" !in reply.entries {
      return t.(raised := Some(KeyError("frame")));
    }
    var frame := reply.entries["frame"];
    if !IsInt(frame) {
      return t.(raised := Some(TypeError("unsupported operand type(s) for -")));
    }
    var delayed, printed := CheckDelay(t.delayed, t.printed, frameCount, name, AsInt(frame));
    if "command" !in reply.entries {
      return Tally(t.cmds, delayed, printed, Some(KeyError("command")));
    }
    r := Tally(t.cmds + [reply.entries["command"]], delayed, printed, None);
  }

  /**
   * The loop of `_make_ml_execute` over the client names: each reply turned
   * into its command in order; the first exception ends it.
   */
  method CommandList(names: seq<string>, replies: map<string, Value>, frameCount: int, t0: Tally) returns (t: Tally)
    requires forall n :: n in names ==> n in t0.delayed
    requires t0.raised.None?
    ensures t == Collect(names, replies, frameCount, t0)
  {
    assert names[..0] == [];
    t := t0;
    var i := 0;
    while i < |names|
      invariant 0 <= i <= |names| && t.delayed.Keys == t0.delayed.Keys && t.raised.None?
      invariant Collect(names[..i], replies, frameCount, t0) == t
    {
      assert names[..i + 1] == names[..i] + [names[i]];
      t := ReplyCommand(t, names[i], replies, frameCount);
      if t.raised.Some? {
        CollectStops(names, i + 1, replies, frameCount, t0);
        return;
      }
      i := i + 1;
    }
    assert names[..i] == names;
  }

  /** How one round of the ML-mode loop ends. */
  datatype TickEnd = Continue | Stop(result: Value) | TickRaised(e: PyException) | TickStuck(name: string)

  /** How the ML-mode loop ends. */
  datatype LoopEnd = Quitted | Ended(result: Value) | LoopRaised(e: PyException) | WaitingFor(name: string)

  /**
   * What `GameMLModeExecutor.start` lets escape: an MLProcessError
   * unchanged, any other exception as a GameProcessError of this process
   * carrying the traceback.
   */
  function GameStartError(procName: string, e: PyException, traceback: string): (r: PyException)
    ensures r.ProcessFailure?
    ensures e.ProcessFailure? && e.err.kind == MLProcess ==> r == e
    ensures !(e.ProcessFailure? && e.err.kind == MLProcess) ==> r.err == ProcessError(GameProcess, procName, traceback)
  {
    if e.ProcessFailure? && e.err.kind == MLProcess then e
    else ProcessFailure(ProcessError(GameProcess, procName, traceback))
  }

  /**
   * What `_make_ml_execute` does with the channels it finds and the delay
   * table and output it starts from: a broken pipe to any client is a
   * BrokenPipeError, an MLProcessError at the head of any client's pipe is
   * raised as it is, and otherwise every client's head object (None when
   * its pipe is empty) goes through the command loop.
   */
  ghost predicate Executed(sendEnd: map<string, Conn>, recvEnd: map<string, Conn>, names: seq<string>,
                           frameCount: int, dynamic: bool, delayed0: map<string, int>, printed0: seq<string>,
                           r: Result<Value, PyException>, delayed: map<string, int>, printed: seq<string>)
    requires forall n :: n in names ==> n in delayed0
  {
    if exists n :: n in sendEnd && sendEnd[n].broken then
      r == Failure(BrokenPipeError) && delayed == delayed0 && printed == printed0
    else if exists n :: n in recvEnd && IsMLProcessError(HeadOrNone(recvEnd[n])) then
      r.Failure? && r.error.ProcessFailure? && r.error.err.kind == MLProcess
      && delayed == delayed0 && printed == printed0
    else
      var t := Collect(names, map n | n in recvEnd :: HeadOrNone(recvEnd[n]), frameCount, Tally([], delayed0, printed0, None));
      delayed == t.delayed && printed == t.printed
      && r == if t.raised.Some? then Failure(t.raised.value) else Unwrap(t.cmds, dynamic)
  }

  /**
   * What `_make_ml_execute` leaves in the channels: the scene has gone
   * through the sending ends in name order up to the first broken one.
   * When none is broken, one object has been taken from each receiving end
   * in name order, up to and including the first MLProcessError, which is
   * the one raised; when none holds one, from every end.
   */
  ghost predicate Exchanged(sendEnd: map<string, Conn>, sendNames: seq<string>, recvEnd: map<string, Conn>,
                            names: seq<string>, scene: Value, r: Result<Value, PyException>,
                            sendAfter: map<string, Conn>, recvAfter: map<string, Conn>)
    requires forall n :: n in sendNames ==> n in sendEnd
  {
    sendAfter == PushedThrough(sendEnd, sendNames, FirstBroken(sendEnd, sendNames), scene)
    && if exists n :: n in sendEnd && sendEnd[n].broken then
         recvAfter == recvEnd
       else if exists n :: n in recvEnd && IsMLProcessError(HeadOrNone(recvEnd[n])) then
         r.Failure? && StoppedAtFirstError(recvEnd, names, r.error, recvAfter)
       else
         recvAfter == (map n | n in recvEnd :: recvEnd[n].AfterRecv())
  }

  /**
   * The READY wait of the reset branch, as the round's end reports it:
   * it continues exactly when every client had READY first, and otherwise
   * stops at the first client that had not, raising the MLProcessError in
   * its pipe or waiting on it; the pipes are taken as `WaitedAll` says.
   */
  ghost predicate WaitedTick(ends: map<string, Conn>, names: seq<string>, t: TickEnd, after: map<string, Conn>)
    requires forall n :: n in names ==> n in ends
  {
    var j := FirstNotReady(ends, names);
    (t.Continue? <==> j == |names|)
    && after == AwaitedThrough(ends, names, if j < |names| then j + 1 else j)
    && (j < |names| ==>
          var xs := ends[names[j]].incoming;
          t == if FirstEnd(xs) < |xs| then TickRaised(ProcessFailure(xs[FirstEnd(xs)].err)) else TickStuck(names[j]))
  }

  /**
   * What the end of a round leaves in the channels: the final scene has
   * gone through the sending ends in name order up to the first broken
   * one; the receiving ends are untouched when a pipe was broken or the
   * loop stops (`stops`), and are otherwise taken by the READY wait as
   * `WaitedTick` says.
   */
  ghost predicate RoundEndExchanged(sendEnd: map<string, Conn>, sendNames: seq<string>, recvEnd: map<string, Conn>,
                                    names: seq<string>, scene: Value, stops: bool, t: TickEnd,
                                    sendAfter: map<string, Conn>, recvAfter: map<string, Conn>)
    requires forall n :: n in sendNames ==> n in sendEnd
    requires forall n :: n in names ==> n in recvEnd
  {
    sendAfter == PushedThrough(sendEnd, sendNames, FirstBroken(sendEnd, sendNames), scene)
    && if stops || exists n :: n in sendEnd && sendEnd[n].broken then recvAfter == recvEnd
       else WaitedTick(recvEnd, names, t, recvAfter)
  }

  /** How a round ends when the READY wait of its reset branch ends as `w`. */
  function TickOf(w: WaitEnd): TickEnd {
    match w
    case AllReady => Continue
    case StuckOn(name) => TickStuck(name)
    case WaitRaised(e) => TickRaised(e)
  }

  /** A wait that ends as `WaitedAll` says ends the round as `WaitedTick` says. */
  lemma WaitedTickOf(ends: map<string, Conn>, names: seq<string>, w: WaitEnd, after: map<string, Conn>)
    requires forall n :: n in names ==> n in ends
    requires WaitedAll(ends, names, w, after)
    ensures WaitedTick(ends, names, TickOf(w), after)
  {
  }

  /** The rounds recorded since the last flush (since the start when there is none). */
  function FramesSinceFlush(records: seq<RecordEvent>): (n: nat)
    ensures n <= |records|
  {
    if records == [] || records[|records| - 1].Flushed? then 0
    else 1 + FramesSinceFlush(records[..|records| - 1])
  }

  /** One more recorded round counts one more frame; a flush starts the count again. */
  lemma FramesSinceFlushStep(records: seq<RecordEvent>, scene: Value, command: Value, endScene: Value)
    ensures FramesSinceFlush(records + [Recorded(scene, command)]) == FramesSinceFlush(records) + 1
    ensures FramesSinceFlush(records + [Recorded(scene, command)] + [Recorded(endScene, NoneV), Flushed]) == 0
  {
    assert (records + [Recorded(scene, command)])[..|records|] == records;
  }

  /** The waits of `_wait_all_ml_ready` on the registry, in the order of `names`; only the receiving ends change. */
  method AwaitAllOn(cs: CommunicationSet, names: seq<string>) returns (w: WaitEnd)
    requires cs.Valid() && cs.recvNames == names
    modifies cs
    ensures cs.Valid()
    ensures WaitedAll(old(cs.recvEnd), names, w, cs.recvEnd)
    ensures cs.recvNames == old(cs.recvNames) && cs.sendEnd == old(cs.sendEnd) && cs.sendNames == old(cs.sendNames)
  {
    ghost var ends := cs.recvEnd;
    var after;
    w, after := AwaitEach(cs.recvEnd, names);
    WaitedKeepsReceivers(ends, names, w, after);
    cs.recvEnd := after;
  }

  /** `GameMLModeExecutor`: the game in lock step with the ML processes. */
  class GameMLModeExecutor {
    const procName: string
    const oneShot: bool
    const dynamic: bool
    const comm: GameCommManager
    /** `_ml_names`, fixed when the executor is built. */
    const mlNames: seq<string>
    var frameCount: int
    /** `_ml_delayed_frames`. */
    var delayed: map<string, int>
    /** The lines `_check_delay` printed. */
    var printed: seq<string>
    /** What the recorder was handed, in order. */
    var records: seq<RecordEvent>

    ghost predicate Valid()
      reads this, comm, comm.commToMl
    {
      comm.Valid() && comm.commToMl.recvNames == mlNames && forall n :: n in mlNames ==> n in delayed
    }

    /** The executor of a wired game process: every client's delay counter starts at 0. */
    constructor(procName: string, oneShot: bool, dynamic: bool, comm: GameCommManager)
      requires comm.Valid()
      ensures Valid() && this.comm == comm && mlNames == comm.MLNames()
      ensures this.procName == procName && this.oneShot == oneShot && this.dynamic == dynamic
      ensures frameCount == 0 && printed == [] && records == [] && forall n :: n in delayed ==> delayed[n] == 0
    {
      this.procName := procName;
      this.oneShot := oneShot;
      this.dynamic := dynamic;
      this.comm := comm;
      mlNames := comm.MLNames();
      var zeroes := ZeroDelays(comm.MLNames());
      delayed := zeroes;
      frameCount := 0;
      printed := [];
      records := [];
    }

    /**
     * `_make_ml_execute`: the scene goes to every client, one reply is taken
     * from each without waiting, and the replies become the command list.
     */
    method MakeMlExecute(scene: Value) returns (r: Result<Value, PyException>)
      requires Valid()
      modifies this, comm.commToMl
      ensures Valid() && frameCount == old(frameCount) && records == old(records)
      ensures Executed(old(comm.commToMl.sendEnd), old(comm.commToMl.recvEnd), mlNames, frameCount, dynamic,
                       old(delayed), old(printed), r, delayed, printed)
      ensures Exchanged(old(comm.commToMl.sendEnd), old(comm.commToMl.sendNames), old(comm.commToMl.recvEnd), mlNames,
                        scene, r, comm.commToMl.sendEnd, comm.commToMl.recvEnd)
      ensures comm.commToMl.sendNames == old(comm.commToMl.sendNames)
    {
      ghost var recv0 := comm.commToMl.recvEnd;
      var o := comm.SendToAllMl(scene);
      if o.Fail? {
        return Failure(o.error);
      }
      ghost var sent := comm.commToMl.sendEnd;
      var g := comm.RecvFromAllMl();
      assert comm.commToMl.sendEnd == sent;
      if g.Failed? {
        return Failure(g.e);
      }
      var t := CommandList(mlNames, g.m, frameCount, Tally([], delayed, printed, None));
      delayed, printed := t.delayed, t.printed;
      r := if t.raised.Some? then Failure(t.raised.value) else Unwrap(t.cmds, dynamic);
    }

    /**
     * `_wait_all_ml_ready`: every client in name order, each read without
     * waiting until it sends READY.
     */
    method WaitAllMlReady() returns (w: WaitEnd)
      requires Valid()
      modifies comm.commToMl
      ensures Valid()
      ensures WaitedAll(old(comm.commToMl.recvEnd), mlNames, w, comm.commToMl.recvEnd)
      ensures comm.commToMl.sendEnd == old(comm.commToMl.sendEnd) && comm.commToMl.sendNames == old(comm.commToMl.sendNames)
    {
      w := AwaitAllOn(comm.commToMl, mlNames);
    }
  
    /**
     * The reset branch of `_loop`, after a round whose result was "RESET"
     * or "QUIT": the final scene goes to every client and is recorded with
     * no command, and the record is flushed; the loop then stops in
     * one-shot mode or on "QUIT", and otherwise the game is reset, the
     * frame counter and every delay counter go back to 0 and every client
     * must send READY again.
     */
    method EndRound<S>(game: Game<S>, s: S, result: Value) returns (next: S, t: TickEnd)
      requires Valid() && Terminal(result)
      modifies this, comm.commToMl
      ensures Valid()
      ensures (exists n :: n in old(comm.commToMl.sendEnd) && old(comm.commToMl.sendEnd)[n].broken) ==>
        t == TickRaised(BrokenPipeError) && next == s && records == old(records) && frameCount == old(frameCount)
      ensures (forall n :: n in old(comm.commToMl.sendEnd) ==> !old(comm.commToMl.sendEnd)[n].broken) ==>
        t != TickRaised(BrokenPipeError)
        && records == old(records) + [Recorded(game.Scene(s), NoneV), Flushed]
        && if oneShot || result == QUIT then
             t == Stop(result) && next == s && frameCount == old(frameCount)
           else
             next == game.Restart(s) && frameCount == 0 && (forall n :: n in delayed ==> delayed[n] == 0)
             && (t.Continue? <==> FirstNotReady(old(comm.commToMl.recvEnd), mlNames) == |mlNames|)
             && !t.Stop?
      ensures comm.commToMl.sendNames == old(comm.commToMl.sendNames)
      ensures RoundEndExchanged(old(comm.commToMl.sendEnd), old(comm.commToMl.sendNames), old(comm.commToMl.recvEnd), mlNames,
                                game.Scene(s), oneShot || result == QUIT, t, comm.commToMl.sendEnd, comm.commToMl.recvEnd)
    {
      var endScene := game.Scene(s);
      var o := comm.SendToAllMl(endScene);
      if o.Fail? {
        return s, TickRaised(o.error);
      }
      records := records + [Recorded(endScene, NoneV), Flushed];
      if oneShot || result == QUIT {
        return s, Stop(result);
      }
      next := game.Restart(s);
      t := ResetRound();
    }

    /**
     * The rest of the reset branch, once the game is reset: the frame
     * counter and every delay counter go back to 0 and every client must
     * send READY again; only the receiving ends change in the channels.
     */
    method ResetRound() returns (t: TickEnd)
      requires Valid()
      modifies this, comm.commToMl
      ensures Valid() && records == old(records)
      ensures frameCount == 0 && forall n :: n in delayed ==> delayed[n] == 0
      ensures comm.commToMl.sendEnd == old(comm.commToMl.sendEnd) && comm.commToMl.sendNames == old(comm.commToMl.sendNames)
      ensures WaitedTick(old(comm.commToMl.recvEnd), mlNames, t, comm.commToMl.recvEnd)
    {
      frameCount := 0;
      var zeroes := ZeroDelays(mlNames);
      delayed := zeroes;
      ghost var kept := records;
      ghost var ends := comm.commToMl.recvEnd;
      var w := WaitAllMlReady();
      assert records == kept && delayed == zeroes;
      WaitedTickOf(ends, mlNames, w, comm.commToMl.recvEnd);
      t := TickOf(w);
    }

    /**
     * One round of `_loop`: the scene is sent and the commands gathered,
     * recorded and handed to the game; a "RESET" or "QUIT" result goes on
     * to `EndRound`. `cmd` is the command handed to the game, None when
     * gathering raised.
     */
    method Tick<S>(game: Game<S>, s: S) returns (next: S, cmd: Option<Value>, t: TickEnd)
      requires Valid() && frameCount == FramesSinceFlush(records)
      modifies this, comm.commToMl
      ensures Valid() && |old(records)| <= |records| <= |old(records)| + 3
      ensures !t.Stop? ==> frameCount == FramesSinceFlush(records)
      ensures t.Stop? ==> Terminal(t.result) && (oneShot || t.result == QUIT) && |records| > 0 && records[|records| - 1] == Flushed
      ensures cmd.None? ==> t.TickRaised? && next == s && records == old(records) && frameCount == old(frameCount)
      ensures cmd.Some? && !Terminal(game.Step(s, cmd.value).1) ==>
        t == Continue && next == game.Step(s, cmd.value).0 && frameCount == old(frameCount) + 1
        && records == old(records) + [Recorded(game.Scene(s), cmd.value)]
      ensures cmd.Some? && Terminal(game.Step(s, cmd.value).1) && t == TickRaised(BrokenPipeError) ==>
        next == game.Step(s, cmd.value).0 && records == old(records) + [Recorded(game.Scene(s), cmd.value)]
      ensures cmd.Some? && Terminal(game.Step(s, cmd.value).1) && t != TickRaised(BrokenPipeError) ==>
        var u := game.Step(s, cmd.value);
        records == old(records) + [Recorded(game.Scene(s), cmd.value)] + [Recorded(game.Scene(u.0), NoneV), Flushed]
        && if oneShot || u.1 == QUIT then
             t == Stop(u.1) && next == u.0 && frameCount == old(frameCount) + 1
           else
             next == game.Restart(u.0) && frameCount == 0 && !t.Stop? && forall n :: n in delayed ==> delayed[n] == 0
    {
      var scene := game.Scene(s);
      var r := MakeMlExecute(scene);
      if r.Failure? {
        return s, None, TickRaised(r.error);
      }
      cmd := Some(r.value);
      var u := game.Step(s, r.value);
      FramesSinceFlushStep(records, scene, r.value, game.Scene(u.0));
      records := records + [Recorded(scene, r.value)];
      frameCount := frameCount + 1;
      if !Terminal(u.1) {
        return u.0, cmd, Continue;
      }
      next, t := EndRound(game, u.0, u.1);
    }
  
    /**
     * `_loop`: every client must send READY, then rounds are played until
     * one ends the loop, for as long as `quit_or_esc()` stays false, which
     * is `rounds` times. Between rounds the frame counter is the number of
     * rounds recorded since the last flush.
     */
    method Run<S>(game: Game<S>, s0: S, rounds: nat) returns (s: S, end: LoopEnd)
      requires Valid() && frameCount == FramesSinceFlush(records)
      modifies this, comm.commToMl
      ensures Valid()
      ensures end.Ended? ==>
        Terminal(end.result) && (oneShot || end.result == QUIT) && |records| > 0 && records[|records| - 1] == Flushed
      ensures !end.Ended? ==> frameCount == FramesSinceFlush(records)
      ensures |old(records)| <= |records| <= |old(records)| + 3 * rounds
    {
      s := s0;
      var w := WaitAllMlReady();
      match w
      case StuckOn(name) => return s, WaitingFor(name);
      case WaitRaised(e) => return s, LoopRaised(e);
      case AllReady =>
      var i := 0;
      while i < rounds
        invariant Valid() && i <= rounds && frameCount == FramesSinceFlush(records)
        invariant |old(records)| <= |records| <= |old(records)| + 3 * i
      {
        var next, cmd, t := Tick(game, s);
        s := next;
        match t
        case Stop(result) => return s, Ended(result);
        case TickRaised(e) => return s, LoopRaised(e);
        case TickStuck(name) => return s, WaitingFor(name);
        case Continue =>
        i := i + 1;
      }
      end := Quitted;
    }

    /**
     * `start`: the loop, with an MLProcessError let through and any other
     * exception turned into a GameProcessError of this process carrying
     * `traceback`.
     */
    method Start<S>(game: Game<S>, s0: S, rounds: nat, traceback: string) returns (end: LoopEnd, o: Outcome<PyException>)
      requires Valid() && frameCount == FramesSinceFlush(records)
      modifies this, comm.commToMl
      ensures Valid()
      ensures end.Ended? ==> Terminal(end.result) && (oneShot || end.result == QUIT)
      ensures end.LoopRaised? ==> o == Fail(GameStartError(procName, end.e, traceback))
      ensures !end.LoopRaised? ==> o == Pass
    {
      var s;
      s, end := Run(game, s0, rounds);
      o := if end.LoopRaised? then Fail(GameStartError(procName, end.e, traceback)) else Pass;
    }
}

  // ---- The ML process ----

  /** How user code in the ML process can fail: an exception, or `sys.exit()`. */
  datatype Crash = ExceptionCrash(traceback: string) | SystemExitCrash(traceback: string)

  /**
   * The user's `MLPlay` class: `update` on a scene gives the next state
   * and the command, or fails; `reset` gives the state after a reset.
   */
  datatype MLPlay<!S> = MLPlay(update: (S, Value) -> Result<(S, Value), Crash>, reset: S -> S)
  {
    /** `update(scene_info)` in state `s`. */
    function Step(s: S, scene: Value): Result<(S, Value), Crash> {
      update(s, scene)
    }

    /** `reset()` in state `s`. */
    function Restart(s: S): S {
      reset(s)
    }
  }

  /** What the ML process sends for a command given in frame `frame`. */
  function CommandMessage(frame: int, command: Value): Value {
    DictV(map["frame" := IntV(frame), "command" := command])
  }

  /** What one scene does in the ML loop: the new state and frame counter, what goes to the game, or the crash. */
  datatype SceneOutcome<S> = SceneOutcome(state: S, frame: int, sent: seq<Value>, crash: Option<Crash>)

  /**
   * One scene of `MLExecutor._loop`: "RESET" resets the player, the frame
   * counter goes back to 0 and READY is sent; any other command but None
   * is sent with the current frame number; either way but the first the
   * frame counter then goes up by one.
   */
  function PlayScene<S>(play: MLPlay<S>, s: S, frame: int, scene: Value): (r: SceneOutcome<S>)
    ensures r.crash.Some? <==> play.Step(s, scene).Failure?
    ensures r.crash.Some? ==> r.sent == [] && r.state == s && r.frame == frame
    ensures r.crash.None? && play.Step(s, scene).value.1 == RESET ==>
      r.sent == [READY] && r.frame == 0 && r.state == play.Restart(play.Step(s, scene).value.0)
    ensures r.crash.None? && play.Step(s, scene).value.1 != RESET ==>
      r.frame == frame + 1 && r.state == play.Step(s, scene).value.0
      && r.sent == (if play.Step(s, scene).value.1 == NoneV then [] else [CommandMessage(frame, play.Step(s, scene).value.1)])
  {
    match play.Step(s, scene)
    case Failure(c) => SceneOutcome(s, frame, [], Some(c))
    case Success(next) =>
      if next.1 == RESET then SceneOutcome(play.Restart(next.0), 0, [READY], None)
      else if next.1 == NoneV then SceneOutcome(next.0, frame + 1, [], None)
      else SceneOutcome(next.0, frame + 1, [CommandMessage(frame, next.1)], None)
  }

  /** Why the ML loop ended: the game sent None, the queue ran dry and it waits, or the user code failed. */
  datatype MLEnd = GameOver | Starved | CodeFailed(crash: Crash)

  /** The ML loop over queued scenes: the final state and counter, how many scenes it took, what it sent, how it ended. */
  datatype MLTrace<S> = MLTrace(state: S, frame: int, taken: nat, sent: seq<Value>, end: MLEnd)

  /** `MLExecutor._loop` after READY, on the scenes in the queue. */
  function RunML<S>(play: MLPlay<S>, s: S, frame: int, scenes: seq<Value>): (r: MLTrace<S>)
    ensures r.taken <= |scenes|
    decreases |scenes|
  {
    if scenes == [] then MLTrace(s, frame, 0, [], Starved)
    else if scenes[0] == NoneV then MLTrace(s, frame, 1, [], GameOver)
    else
      var o := PlayScene(play, s, frame, scenes[0]);
      if o.crash.Some? then MLTrace(o.state, o.frame, 1, [], CodeFailed(o.crash.value))
      else
        var rest := RunML(play, o.state, o.frame, scenes[1..]);
        rest.(taken := rest.taken + 1, sent := o.sent + rest.sent)
  }

  /**
   * The loop ends on the first None, having taken exactly the scenes up
   * to it, unless a crash ends it earlier; it waits only when the queue
   * holds no None.
   */
  lemma {:induction false} RunMLEnds<S>(play: MLPlay<S>, s: S, frame: int, scenes: seq<Value>)
    ensures var r := RunML(play, s, frame, scenes);
      (r.end.GameOver? ==> r.taken > 0 && scenes[r.taken - 1] == NoneV && NoneV !in scenes[..r.taken - 1])
      && (r.end.Starved? <==> r.taken == |scenes| && NoneV !in scenes && !r.end.CodeFailed?)
      && (r.end.CodeFailed? ==> r.taken > 0 && NoneV !in scenes[..r.taken])
    decreases |scenes|
  {
    if scenes != [] && scenes[0] != NoneV {
      var o := PlayScene(play, s, frame, scenes[0]);
      if o.crash.None? {
        RunMLEnds(play, o.state, o.frame, scenes[1..]);
        var rest := RunML(play, o.state, o.frame, scenes[1..]);
        assert scenes == [scenes[0]] + scenes[1..];
        if rest.taken > 0 {
          assert scenes[..rest.taken + 1] == [scenes[0]] + scenes[1..][..rest.taken];
          assert scenes[..rest.taken] == [scenes[0]] + scenes[1..][..rest.taken - 1];
        }
      } else {
        assert scenes[..1] == [scenes[0]];
      }
    }
  }

  /** Playing one more scene moves the rest of the loop one scene on, with what that scene sent counted as already sent. */
  lemma RunMLStep<S>(play: MLPlay<S>, tr0: MLTrace<S>, taken: nat, sent: seq<Value>, s: S, frame: int, scenes: seq<Value>)
    requires scenes != [] && scenes[0] != NoneV && PlayScene(play, s, frame, scenes[0]).crash.None?
    requires var rest := RunML(play, s, frame, scenes);
      tr0 == rest.(taken := taken + rest.taken, sent := sent + rest.sent)
    ensures var o := PlayScene(play, s, frame, scenes[0]);
      var rest := RunML(play, o.state, o.frame, scenes[1..]);
      tr0 == rest.(taken := taken + 1 + rest.taken, sent := sent + o.sent + rest.sent)
  {
    var o := PlayScene(play, s, frame, scenes[0]);
    var rest := RunML(play, o.state, o.frame, scenes[1..]);
    assert sent + (o.sent + rest.sent) == sent + o.sent + rest.sent;
  }

  /** The error object the ML process sends when its user code fails. */
  function CrashError(name: string, c: Crash): (v: Value)
    ensures v.ErrorV? && v.err.kind == MLProcess && v.err.processName == name
    ensures c.ExceptionCrash? ==> v.err.message == c.traceback
    ensures c.SystemExitCrash? ==> v.err.message == "The process '" + name + "' is exited by itself. " + c.traceback
  {
    match c
    case ExceptionCrash(tb) => ErrorV(ProcessError(MLProcess, name, tb))
    case SystemExitCrash(tb) => ErrorV(ProcessError(MLProcess, name, "The process '" + name + "' is exited by itself. " + tb))
  }

  /** The line `send_to_game` prints for each object when the pipe to the game is broken. */
  function ClosedLine(name: string): string {
    "Process '" + name + "': The connection to the game process is closed."
  }

  /**
   * `send_to_game` called on `objs` in order, from sending end `c0` and
   * output `p0` to end `c` and output `p`: on a healthy pipe the objects
   * are queued to the game in order; on a broken one each is reported on
   * the output instead.
   */
  ghost predicate SentToGame(name: string, c0: Conn, p0: seq<string>, objs: seq<Value>, c: Option<Conn>, p: seq<string>) {
    c.Some?
    && if c0.broken then c.value == c0 && p == p0 + seq(|objs|, _ => ClosedLine(name))
       else c.value == c0.(sent := c0.sent + objs) && p == p0
  }

  /** Sending `xs` and then `ys` is sending `xs + ys`. */
  lemma SentToGameThen(name: string, c0: Conn, p0: seq<string>, xs: seq<Value>, c1: Conn, p1: seq<string>,
                       ys: seq<Value>, c: Option<Conn>, p: seq<string>)
    requires SentToGame(name, c0, p0, xs, Some(c1), p1) && SentToGame(name, c1, p1, ys, c, p)
    ensures SentToGame(name, c0, p0, xs + ys, c, p)
  {
    if c0.broken {
      assert p == p0 + seq(|xs + ys|, _ => ClosedLine(name));
    } else {
      assert c0.sent + xs + ys == c0.sent + (xs + ys);
    }
  }

  /** `MLExecutor`: runs the user's player in lock step with the game. */
  class MLExecutor {
    const name: string
    const comm: MLCommManager
    var frameCount: int

    /** The executor of a wired ML process; its frame counter starts at 0. */
    constructor(comm: MLCommManager)
      ensures this.comm == comm && name == comm.mlName && frameCount == 0
    {
      this.comm := comm;
      name := comm.mlName;
      frameCount := 0;
    }

    /** The executor's name is its manager's, and the manager has a sending end to the game. */
    ghost predicate Wired()
      reads this, comm, comm.toGame
    {
      name == comm.mlName && comm.toGame.sendEnd.Some? && comm.toGame.sendEnd.value.hasSend
    }

    /** `_ml_ready`: READY to the game. */
    method MlReady()
      requires Wired()
      modifies comm, comm.toGame
      ensures Wired()
      ensures SentToGame(name, old(comm.toGame.sendEnd.value), old(comm.printed), [READY], comm.toGame.sendEnd, comm.printed)
      ensures comm.queue == old(comm.queue) && comm.started == old(comm.started) && comm.toGame.recvEnd == old(comm.toGame.recvEnd)
    {
      var o := comm.SendToGame(READY);
    }

    /** One scene of `_loop`: the player's update, its command sent or READY after a reset, the frame counter moved on. */
    method HandleScene<S>(play: MLPlay<S>, s: S, scene: Value) returns (next: S, crash: Option<Crash>)
      requires Wired()
      modifies this, comm, comm.toGame
      ensures Wired()
      ensures var o := PlayScene(play, s, old(frameCount), scene);
        next == o.state && frameCount == o.frame && crash == o.crash
        && SentToGame(name, old(comm.toGame.sendEnd.value), old(comm.printed), o.sent, comm.toGame.sendEnd, comm.printed)
      ensures comm.queue == old(comm.queue) && comm.started == old(comm.started) && comm.toGame.recvEnd == old(comm.toGame.recvEnd)
    {
      var u := play.Step(s, scene);
      if u.Failure? {
        assert seq(0, _ => ClosedLine(name)) == [];
        return s, Some(u.error);
      }
      var command := u.value.1;
      next := u.value.0;
      crash := None;
      if command == RESET {
        next := play.Restart(next);
        frameCount := 0;
        MlReady();
        return;
      }
      if command != NoneV {
        var o := comm.SendToGame(CommandMessage(frameCount, command));
      } else {
        assert seq(0, _ => ClosedLine(name)) == [];
      }
      frameCount := frameCount + 1;
    }

    /** `_loop` after READY: scenes are taken from the queue in order until None, a crash, or an empty queue. */
    method Loop<S>(play: MLPlay<S>, s0: S) returns (s: S, end: MLEnd)
      requires Wired() && comm.Valid() && comm.started
      modifies this, comm, comm.toGame
      ensures Wired() && comm.Valid()
      ensures var tr := RunML(play, s0, old(frameCount), old(comm.queue));
        s == tr.state && frameCount == tr.frame && end == tr.end && comm.queue == old(comm.queue)[tr.taken..]
        && SentToGame(name, old(comm.toGame.sendEnd.value), old(comm.printed), tr.sent, comm.toGame.sendEnd, comm.printed)
      ensures comm.toGame.recvEnd == old(comm.toGame.recvEnd)
    {
      ghost var q0, c0, p0 := comm.queue, comm.toGame.sendEnd.value, comm.printed;
      ghost var tr0 := RunML(play, s0, frameCount, q0);
      ghost var taken, sent := 0, [];
      s := s0;
      assert seq(0, _ => ClosedLine(name)) == [];
      while true
        invariant Wired() && comm.Valid() && comm.started && comm.toGame.recvEnd == old(comm.toGame.recvEnd)
        invariant taken <= |q0| && comm.queue == q0[taken..]
        invariant SentToGame(name, c0, p0, sent, comm.toGame.sendEnd, comm.printed)
        invariant var rest := RunML(play, s, frameCount, comm.queue);
          tr0 == rest.(taken := taken + rest.taken, sent := sent + rest.sent)
        decreases |comm.queue|
      {
        ghost var c1, p1, f := comm.toGame.sendEnd.value, comm.printed, frameCount;
        var r := comm.RecvFromGame();
        if !r.Got? {
          return s, Starved;
        }
        if r.obj == NoneV {
          return s, GameOver;
        }
        ghost var o := PlayScene(play, s, f, r.obj);
        if o.crash.None? {
          RunMLStep(play, tr0, taken, sent, s, f, q0[taken..]);
        }
        var next, crash := HandleScene(play, s, r.obj);
        SentToGameThen(name, c0, p0, sent, c1, p1, o.sent, comm.toGame.sendEnd, comm.printed);
        s := next;
        if crash.Some? {
          return s, CodeFailed(crash.value);
        }
        taken, sent := taken + 1, sent + o.sent;
      }
    }
  
    /**
     * The reader thread of `start`, run until it stops: it queues the
     * scenes from the game and leaves the sending end and the printed
     * lines as they were.
     */
    method RunReader() returns (scenes: seq<Value>, stop: ReaderStop)
      requires Wired()
      modifies comm, comm.toGame
      ensures Wired() && comm.Valid() && comm.started && comm.queue == scenes
      ensures comm.toGame.sendEnd == old(comm.toGame.sendEnd) && comm.printed == old(comm.printed)
      ensures old(comm.toGame.recvEnd).Some? && old(comm.toGame.recvEnd).value.hasRecv ==>
        comm.toGame.recvEnd.Some? && ReaderStopped([], old(comm.toGame.recvEnd).value, scenes, comm.toGame.recvEnd.value, stop)
      ensures old(comm.toGame.recvEnd).None? || !old(comm.toGame.recvEnd).value.hasRecv ==>
        stop == Crashed(AttributeError("recv")) && scenes == []
    {
      comm.StartRecvObjThread();
      stop := comm.KeepRecvObjFromGame();
      scenes := comm.queue;
    }

    /**
     * The rest of `start` once the player is built: READY, the loop over
     * the queued scenes, and an MLProcessError to the game when the user's
     * code failed.
     */
    method Play<S>(play: MLPlay<S>, s0: S) returns (end: MLEnd)
      requires Wired() && comm.Valid() && comm.started
      modifies this, comm, comm.toGame
      ensures Wired() && comm.toGame.recvEnd == old(comm.toGame.recvEnd)
      ensures var tr := RunML(play, s0, old(frameCount), old(comm.queue));
        end == tr.end
        && SentToGame(name, old(comm.toGame.sendEnd.value), old(comm.printed),
                      [READY] + tr.sent + (if tr.end.CodeFailed? then [CrashError(name, tr.end.crash)] else []),
                      comm.toGame.sendEnd, comm.printed)
    {
      ghost var c0, p0, q0 := comm.toGame.sendEnd.value, comm.printed, comm.queue;
      MlReady();
      ghost var c1, p1 := comm.toGame.sendEnd.value, comm.printed;
      ghost var tr := RunML(play, s0, frameCount, q0);
      var s;
      s, end := Loop(play, s0);
      SentToGameThen(name, c0, p0, [READY], c1, p1, tr.sent, comm.toGame.sendEnd, comm.printed);
      if end.CodeFailed? {
        ghost var c2, p2 := comm.toGame.sendEnd.value, comm.printed;
        var o := comm.SendToGame(CrashError(name, end.crash));
        SentToGameThen(name, c0, p0, [READY] + tr.sent, c2, p2, [CrashError(name, end.crash)], comm.toGame.sendEnd, comm.printed);
      } else {
        assert [READY] + tr.sent + [] == [READY] + tr.sent;
      }
    }

    /**
     * `start`: the reader thread is started (and, in this model, runs until
     * it stops before the loop takes anything), the player is built, READY
     * is sent and the loop runs; a failure of the user's code is sent to
     * the game as an MLProcessError. `scenes` is what the reader queued.
     */
    method Start<S>(play: MLPlay<S>, init: Result<S, Crash>) returns (scenes: seq<Value>, stop: ReaderStop, end: MLEnd)
      requires Wired()
      modifies this, comm, comm.toGame
      ensures Wired()
      ensures old(comm.toGame.recvEnd).Some? && old(comm.toGame.recvEnd).value.hasRecv ==>
        comm.toGame.recvEnd.Some? && ReaderStopped([], old(comm.toGame.recvEnd).value, scenes, comm.toGame.recvEnd.value, stop)
      ensures old(comm.toGame.recvEnd).None? || !old(comm.toGame.recvEnd).value.hasRecv ==>
        stop == Crashed(AttributeError("recv")) && scenes == []
      ensures init.Failure? ==>
        end == CodeFailed(init.error)
        && SentToGame(name, old(comm.toGame.sendEnd.value), old(comm.printed), [CrashError(name, init.error)],
                      comm.toGame.sendEnd, comm.printed)
      ensures init.Success? ==>
        var tr := RunML(play, init.value, old(frameCount), scenes);
        end == tr.end
        && SentToGame(name, old(comm.toGame.sendEnd.value), old(comm.printed),
                      [READY] + tr.sent + (if tr.end.CodeFailed? then [CrashError(name, tr.end.crash)] else []),
                      comm.toGame.sendEnd, comm.printed)
    {
      scenes, stop := RunReader();
      if init.Failure? {
        var o := comm.SendToGame(CrashError(name, init.error));
        return scenes, stop, CodeFailed(init.error);
      }
      end := Play(play, init.value);
    }
  }
}
