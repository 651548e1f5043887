/**
 * mlgame/crosslang/ml_play.py: `ml_loop`, the bridge an ML process runs
 * between a non-Python client and the game process. It hands the client
 * its initial arguments, then, for each object the client queues, passes
 * it on to the game (or raises the client's error) and answers the client
 * with the next scene from the game.
 *
 * The game-side channel is the ML process's `MLCommManager` (the handlers
 * of mlgame/communication/ml.py forward to it). The client's reader thread
 * runs to its stop before the loop starts taking commands.
 */
module CrosslangBridge {
  import opened Wrappers
  import opened Exceptions
  import opened PyValue
  import opened Communication
  import opened CrosslangClient
  import opened Loops

  /** The message `ml_loop` sends first. */
  function InitPayload(args: Value, kwargs: Value): Value {
    DictV(map["args" := args, "kwargs" := kwargs])
  }

  /** What the bridge has passed on so far: objects to the game, and (header, payload) messages to the client. */
  datatype Exchange = Exchange(toGame: seq<Value>, toClient: seq<(string, Value)>)

  /**
   * Why the bridge stopped: the client's error was raised, or it is left
   * waiting on the client or on the game, or receiving from the game raised.
   */
  datatype BridgeEnd = ClientFailed(message: string) | AwaitingClient | AwaitingGame | GameRecvFailed(e: PyException)

  /** A run of the bridge: what it passed on, why it stopped, and the commands and scenes it did not take. */
  datatype BridgeRun = BridgeRun(ex: Exchange, end: BridgeEnd, commandsLeft: seq<Value>, scenesLeft: seq<Value>)

  /**
   * The loop of `ml_loop` from the exchange `acc`, over the objects the
   * client queued and the scenes the game sent: "READY" is passed on as the
   * ready signal and any other object except the client's error unchanged;
   * then one scene goes back to the client under "__scene_info__".
   */
  function Bridge(acc: Exchange, commands: seq<Value>, scenes: seq<Value>, started: bool): (r: BridgeRun)
    decreases |commands|
  {
    if commands == [] then BridgeRun(acc, AwaitingClient, [], scenes)
    else
      var command := commands[0];
      if command != READY && command.ClientErrorV? then
        BridgeRun(acc, ClientFailed(command.message), commands[1..], scenes)
      else
        var sent := acc.(toGame := acc.toGame + [command]);
        if !started then BridgeRun(sent, GameRecvFailed(AttributeError("_obj_queue")), commands[1..], scenes)
        else if scenes == [] then BridgeRun(sent, AwaitingGame, commands[1..], scenes)
        else Bridge(sent.(toClient := sent.toClient + [("__scene_info__", scenes[0])]), commands[1..], scenes[1..], started)
  }

  /**
   * What reaches the game: the client's commands unchanged and in order,
   * none of them an error, up to where the bridge stopped; the bridge
   * stops on the client's error only when that is the next command, and it
   * leaves exactly the commands it did not take.
   */
  lemma {:induction false} BridgeToGame(acc: Exchange, commands: seq<Value>, scenes: seq<Value>, started: bool)
    ensures var r := Bridge(acc, commands, scenes, started);
      var n := |r.ex.toGame| - |acc.toGame|;
      0 <= n <= |commands| && r.ex.toGame == acc.toGame + commands[..n]
      && (forall k :: 0 <= k < n ==> !commands[k].ClientErrorV?)
      && (r.end.ClientFailed? ==> n < |commands| && commands[n] == ClientErrorV(r.end.message) && r.commandsLeft == commands[n + 1..])
      && (!r.end.ClientFailed? ==> r.commandsLeft == commands[n..])
      && (r.end.AwaitingClient? ==> n == |commands|)
    decreases |commands|
  {
    if commands != [] {
      var command := commands[0];
      if !(command != READY && command.ClientErrorV?) {
        var sent := acc.(toGame := acc.toGame + [command]);
        if started && scenes != [] {
          var next := sent.(toClient := sent.toClient + [("__scene_info__", scenes[0])]);
          BridgeToGame(next, commands[1..], scenes[1..], started);
          var r := Bridge(next, commands[1..], scenes[1..], started);
          var n := |r.ex.toGame| - |next.toGame|;
          assert commands[..n + 1] == [command] + commands[1..][..n];
          assert r.ex.toGame == acc.toGame + commands[..n + 1];
          assert commands[1..][n..] == commands[n + 1..];
          assert r.end.ClientFailed? ==> commands[1..][n + 1..] == commands[n + 2..];
        } else {
          assert commands[..1] == [command];
        }
      }
    }
  }

  /**
   * How much reaches the client: one scene after each command passed on
   * but possibly the last, and the bridge leaves exactly the scenes it did
   * not take.
   */
  lemma {:induction false} BridgeClientCount(acc: Exchange, commands: seq<Value>, scenes: seq<Value>, started: bool)
    ensures var r := Bridge(acc, commands, scenes, started);
      var n := |r.ex.toGame| - |acc.toGame|;
      var m := |r.ex.toClient| - |acc.toClient|;
      0 <= m <= |scenes| && m <= n <= m + 1 && r.scenesLeft == scenes[m..]
    decreases |commands|
  {
    if commands != [] {
      var command := commands[0];
      if !(command != READY && command.ClientErrorV?) {
        var sent := acc.(toGame := acc.toGame + [command]);
        if started && scenes != [] {
          var next := sent.(toClient := sent.toClient + [("__scene_info__", scenes[0])]);
          BridgeClientCount(next, commands[1..], scenes[1..], started);
          var r := Bridge(next, commands[1..], scenes[1..], started);
          var m := |r.ex.toClient| - |next.toClient|;
          assert scenes[1..][m..] == scenes[m + 1..];
        }
      }
    }
  }

  /** The messages that carry the given scenes to the client, in order. */
  function SceneMessages(scenes: seq<Value>): (msgs: seq<(string, Value)>)
    ensures |msgs| == |scenes|
    ensures forall k :: 0 <= k < |scenes| ==> msgs[k] == ("__scene_info__", scenes[k])
  {
    if scenes == [] then [] else [("__scene_info__", scenes[0])] + SceneMessages(scenes[1..])
  }

  /** Sending the first scene and then the next `m` sends the first `m + 1` scenes. */
  lemma SceneMessagesStep(sent: seq<(string, Value)>, scenes: seq<Value>, m: nat)
    requires m < |scenes|
    ensures (sent + [("__scene_info__", scenes[0])]) + SceneMessages(scenes[1..][..m]) == sent + SceneMessages(scenes[..m + 1])
  {
    assert scenes[..m + 1][1..] == scenes[1..][..m];
    assert SceneMessages(scenes[..m + 1]) == [("__scene_info__", scenes[0])] + SceneMessages(scenes[1..][..m]);
  }

  /**
   * What reaches the client: after what had been sent before, the scenes
   * the bridge took, in the order the game sent them.
   */
  lemma {:induction false} BridgeToClient(acc: Exchange, commands: seq<Value>, scenes: seq<Value>, started: bool)
    ensures var r := Bridge(acc, commands, scenes, started);
      var m := |r.ex.toClient| - |acc.toClient|;
      0 <= m <= |scenes| && r.ex.toClient == acc.toClient + SceneMessages(scenes[..m])
    decreases |commands|
  {
    if commands != [] {
      var command := commands[0];
      if !(command != READY && command.ClientErrorV?) {
        var sent := acc.(toGame := acc.toGame + [command]);
        if started && scenes != [] {
          var next := sent.(toClient := sent.toClient + [("__scene_info__", scenes[0])]);
          BridgeToClient(next, commands[1..], scenes[1..], started);
          var r := Bridge(next, commands[1..], scenes[1..], started);
          SceneMessagesStep(acc.toClient, scenes, |r.ex.toClient| - |next.toClient|);
        } else {
          assert scenes[..0] == [];
        }
      } else {
        assert scenes[..0] == [];
      }
    } else {
      assert scenes[..0] == [];
    }
  }

  /** The text written to the client for a list of (header, payload) messages. */
  function Frames(msgs: seq<(string, Value)>, dumps: Value -> string): string
    decreases |msgs|
  {
    if msgs == [] then ""
    else Frames(msgs[..|msgs| - 1], dumps) + Frame(msgs[|msgs| - 1].0, dumps(msgs[|msgs| - 1].1))
  }

  /** One more message extends the written text by its frame. */
  lemma FramesStep(msgs: seq<(string, Value)>, msg: (string, Value), dumps: Value -> string)
    ensures Frames(msgs + [msg], dumps) == Frames(msgs, dumps) + Frame(msg.0, dumps(msg.1))
  {
    assert (msgs + [msg])[..|msgs|] == msgs;
  }

  /** The game-side channel can send. */
  predicate CanSend(comm: MLCommManager)
    reads comm, comm.toGame
  {
    comm.toGame.sendEnd.Some? && comm.toGame.sendEnd.value.hasSend
  }

  /** Writing `a` and then `b` writes their frames in that order. */
  lemma {:induction false} FramesAppend(a: seq<(string, Value)>, b: seq<(string, Value)>, dumps: Value -> string)
    ensures Frames(a + b, dumps) == Frames(a, dumps) + Frames(b, dumps)
    decreases |b|
  {
    if b == [] {
      assert a + b == a;
    } else {
      var front, last := b[..|b| - 1], b[|b| - 1];
      assert b == front + [last];
      assert a + b == (a + front) + [last];
      calc {
        Frames(a + b, dumps);
        { FramesStep(a + front, last, dumps); }
        Frames(a + front, dumps) + Frame(last.0, dumps(last.1));
        { FramesAppend(a, front, dumps); }
        Frames(a, dumps) + Frames(front, dumps) + Frame(last.0, dumps(last.1));
        { FramesStep(front, last, dumps); }
        Frames(a, dumps) + Frames(b, dumps);
      }
    }
  }

  /** What one round of the loop does: how it stops, if it does, what it passes on, and what it leaves. */
  datatype RoundResult = RoundResult(stop: Option<BridgeEnd>, toGame: seq<Value>, toClient: seq<(string, Value)>,
                                     commandsLeft: seq<Value>, scenesLeft: seq<Value>)

  /** One round of the loop of `ml_loop` over the queued commands and scenes. */
  function RoundOf(commands: seq<Value>, scenes: seq<Value>, started: bool): RoundResult {
    if commands == [] then RoundResult(Some(AwaitingClient), [], [], commands, scenes)
    else
      var command := commands[0];
      if command != READY && command.ClientErrorV? then
        RoundResult(Some(ClientFailed(command.message)), [], [], commands[1..], scenes)
      else if !started then RoundResult(Some(GameRecvFailed(AttributeError("_obj_queue"))), [command], [], commands[1..], scenes)
      else if scenes == [] then RoundResult(Some(AwaitingGame), [command], [], commands[1..], scenes)
      else RoundResult(None, [command], [("__scene_info__", scenes[0])], commands[1..], scenes[1..])
  }

  /** The bridge is its first round followed, unless that round stopped, by the bridge on what is left. */
  lemma BridgeRound(ex: Exchange, commands: seq<Value>, scenes: seq<Value>, started: bool)
    ensures var s := RoundOf(commands, scenes, started);
      var ex' := Exchange(ex.toGame + s.toGame, ex.toClient + s.toClient);
      (s.stop.None? ==> |s.commandsLeft| < |commands|)
      && Bridge(ex, commands, scenes, started)
         == if s.stop.Some? then BridgeRun(ex', s.stop.value, s.commandsLeft, s.scenesLeft)
            else Bridge(ex', s.commandsLeft, s.scenesLeft, started)
  {
    assert ex == Exchange(ex.toGame + [], ex.toClient + []);
  }

  /** Text written before the frames of `a`, then the frames of `b`, is that text followed by the frames of `a + b`. */
  lemma WrittenThen(before: string, a: seq<(string, Value)>, b: seq<(string, Value)>, dumps: Value -> string)
    ensures (before + Frames(a, dumps)) + Frames(b, dumps) == before + Frames(a + b, dumps)
  {
    FramesAppend(a, b, dumps);
    assert (before + Frames(a, dumps)) + Frames(b, dumps) == before + (Frames(a, dumps) + Frames(b, dumps));
  }

  /**
   * The first half of a round: the oldest object the client queued is
   * passed on to the game, or the client's error stops the bridge.
   */
  method TakeCommand(client: Client, comm: MLCommManager) returns (stop: Option<BridgeEnd>, ghost sent: seq<Value>)
    requires CanSend(comm)
    modifies client, comm, comm.toGame
    ensures CanSend(comm)
    ensures var q := old(client.queue);
      if q == [] then stop == Some(AwaitingClient) && sent == [] && client.queue == q
      else if q[0] != READY && q[0].ClientErrorV? then stop == Some(ClientFailed(q[0].message)) && sent == [] && client.queue == q[1..]
      else stop == None && sent == [q[0]] && client.queue == q[1..]
    ensures SentToGame(comm.mlName, old(comm.toGame.sendEnd.value), old(comm.printed), sent, comm.toGame.sendEnd, comm.printed)
    ensures client.stdin == old(client.stdin) && client.stdout == old(client.stdout) && client.printed == old(client.printed)
    ensures comm.queue == old(comm.queue) && comm.started == old(comm.started) && comm.toGame.recvEnd == old(comm.toGame.recvEnd)
  {
    assert seq(0, _ => ClosedLine(comm.mlName)) == [];
    var received := client.RecvFromClient();
    if received.WouldBlock? {
      return Some(AwaitingClient), [];
    }
    var command := received.obj;
    if command == READY {
      var o := comm.SendToGame(READY);
    } else if command.ClientErrorV? {
      return Some(ClientFailed(command.message)), [];
    } else {
      var o := comm.SendToGame(command);
    }
    assert seq(1, _ => ClosedLine(comm.mlName)) == [ClosedLine(comm.mlName)];
    stop, sent := None, [command];
  }

  /** The second half of a round: the next scene from the game goes to the client. */
  method PassScene(client: Client, comm: MLCommManager) returns (stop: Option<BridgeEnd>, ghost passed: seq<(string, Value)>)
    requires comm.Valid()
    modifies client, comm
    ensures comm.Valid()
    ensures var s := old(comm.queue);
      if !comm.started then stop == Some(GameRecvFailed(AttributeError("_obj_queue"))) && passed == [] && comm.queue == s
      else if s == [] then stop == Some(AwaitingGame) && passed == [] && comm.queue == s
      else stop == None && passed == [("__scene_info__", s[0])] && comm.queue == s[1..]
    ensures client.stdin == old(client.stdin) + Frames(passed, client.dumps)
    ensures client.queue == old(client.queue) && client.stdout == old(client.stdout) && client.printed == old(client.printed)
    ensures comm.started == old(comm.started) && comm.printed == old(comm.printed)
  {
    var scene := comm.RecvFromGame();
    if scene.Raised? {
      return Some(GameRecvFailed(scene.e)), [];
    }
    if scene.WouldBlock? {
      return Some(AwaitingGame), [];
    }
    client.SendToClient("__scene_info__", scene.obj);
    passed := [("__scene_info__", scene.obj)];
    FramesStep([], ("__scene_info__", scene.obj), client.dumps);
    stop := None;
  }

  /** One round of the loop of `ml_loop`. */
  method Round(client: Client, comm: MLCommManager) returns (stop: Option<BridgeEnd>, ghost sentToGame: seq<Value>, ghost sentToClient: seq<(string, Value)>)
    requires comm.Valid() && CanSend(comm)
    modifies client, comm, comm.toGame
    ensures comm.Valid() && CanSend(comm)
    ensures var s := RoundOf(old(client.queue), old(comm.queue), old(comm.started));
      stop == s.stop && sentToGame == s.toGame && sentToClient == s.toClient
      && client.queue == s.commandsLeft && comm.queue == s.scenesLeft
    ensures client.stdin == old(client.stdin) + Frames(sentToClient, client.dumps)
    ensures SentToGame(comm.mlName, old(comm.toGame.sendEnd.value), old(comm.printed), sentToGame, comm.toGame.sendEnd, comm.printed)
    ensures client.stdout == old(client.stdout) && client.printed == old(client.printed)
    ensures comm.started == old(comm.started) && comm.toGame.recvEnd == old(comm.toGame.recvEnd)
  {
    stop, sentToGame := TakeCommand(client, comm);
    sentToClient := [];
    if stop.None? {
      ghost var c1 := comm.toGame.sendEnd;
      stop, sentToClient := PassScene(client, comm);
      assert comm.toGame.sendEnd == c1;
    }
  }

  /** The loop of `ml_loop`, from the objects the client has queued. */
  method Loop(client: Client, comm: MLCommManager) returns (end: BridgeEnd)
    requires comm.Valid() && CanSend(comm)
    modifies client, comm, comm.toGame
    ensures comm.Valid() && CanSend(comm)
    ensures var r := Bridge(Exchange([], []), old(client.queue), old(comm.queue), old(comm.started));
      end == r.end && client.queue == r.commandsLeft && comm.queue == r.scenesLeft
      && client.stdin == old(client.stdin) + Frames(r.ex.toClient, client.dumps)
      && SentToGame(comm.mlName, old(comm.toGame.sendEnd.value), old(comm.printed), r.ex.toGame,
                    comm.toGame.sendEnd, comm.printed)
  {
    ghost var goal := Bridge(Exchange([], []), client.queue, comm.queue, comm.started);
    ghost var stdin0, c0, p0 := client.stdin, comm.toGame.sendEnd.value, comm.printed;
    ghost var ex := Exchange([], []);
    assert seq(0, _ => ClosedLine(comm.mlName)) == [];
    while true
      invariant comm.Valid() && CanSend(comm)
      invariant Bridge(ex, client.queue, comm.queue, comm.started) == goal
      invariant client.stdin == stdin0 + Frames(ex.toClient, client.dumps)
      invariant SentToGame(comm.mlName, c0, p0, ex.toGame, comm.toGame.sendEnd, comm.printed)
      invariant comm.started == old(comm.started)
      decreases |client.queue|
    {
      ghost var c1, p1 := comm.toGame.sendEnd.value, comm.printed;
      BridgeRound(ex, client.queue, comm.queue, comm.started);
      var stop, sentToGame, sentToClient := Round(client, comm);
      SentToGameThen(comm.mlName, c0, p0, ex.toGame, c1, p1, sentToGame, comm.toGame.sendEnd, comm.printed);
      WrittenThen(stdin0, ex.toClient, sentToClient, client.dumps);
      ex := Exchange(ex.toGame + sentToGame, ex.toClient + sentToClient);
      if stop.Some? {
        return stop.value;
      }
    }
  }

  /**
   * `ml_loop`: the initial arguments go to the client first; the client's
   * reader then runs to its stop, and the loop takes what it queued.
   */
  method MlLoop(client: Client, comm: MLCommManager, args: Value, kwargs: Value) returns (readEnd: ReadEnd, end: BridgeEnd)
    requires comm.Valid() && CanSend(comm)
    modifies client, comm, comm.toGame
    ensures comm.Valid() && CanSend(comm)
    ensures var s := ReadAll(Reading(old(client.queue), old(client.printed), old(client.stdout)), client.loads);
      var queued := s.r.queue + ExitReport(s.end, client.returncode, old(client.stderr));
      var r := Bridge(Exchange([], []), queued, old(comm.queue), old(comm.started));
      readEnd == s.end && end == r.end && client.queue == r.commandsLeft && comm.queue == r.scenesLeft
      && client.stdin == old(client.stdin) + Frame("__init__", client.dumps(InitPayload(args, kwargs)))
                         + Frames(r.ex.toClient, client.dumps)
      && SentToGame(comm.mlName, old(comm.toGame.sendEnd.value), old(comm.printed), r.ex.toGame,
                    comm.toGame.sendEnd, comm.printed)
  {
    client.SendToClient("__init__", InitPayload(args, kwargs));
    readEnd := client.ReadStdout();
    end := Loop(client, comm);
  }
}
