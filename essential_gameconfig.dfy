/**
 * essential/gameconfig.py: `GameConfig`, built from the parsed command
 * line. It decides the game mode (manual first, then online, then ML),
 * checks the online channel's format and the user scripts' existence.
 * The argument parser itself is not modelled: its result is the input, and
 * the files that exist are given as a set of paths relative to the games'
 * directory.
 */
module EssentialConfig {
  import opened Wrappers
  import opened Exceptions
  import opened PyText

  datatype GameMode = MANUAL | ML | ONLINE

  /** What `parse_args` returns: the game, its parameters and the option flags. */
  datatype ParsedArgs = ParsedArgs(
    game: string, gameParams: seq<string>, fps: int, manualMode: bool, recordProgress: bool,
    oneShotMode: bool, inputScript: seq<string>, onlineChannel: Option<string>)

  const CHANNEL_FORMAT_MESSAGE := "Invalid ONLINE_CHANNEL format. Must be \"<server_ip>:<server_port>:<channel_nane>\"."

  /** `not channel_str` for an optional string. */
  predicate NoChannel(channel: Option<string>) {
    channel == None || channel == Some("")
  }

  /**
   * `get_online_channel`: no channel gives None; otherwise the string must
   * split on ":" into exactly three parts, which are returned in order.
   */
  function OnlineChannel(channel: Option<string>): (r: Result<Option<seq<string>>, PyException>)
    ensures NoChannel(channel) ==> r == Success(None)
    ensures !NoChannel(channel) && r.Success? ==>
      r.value.Some? && |r.value.value| == 3 && Join(":", r.value.value) == channel.value
      && forall i :: 0 <= i < 3 ==> ':' !in r.value.value[i]
    ensures r.Failure? ==> !NoChannel(channel) && r.error == ValueError(CHANNEL_FORMAT_MESSAGE)
  {
    if NoChannel(channel) then Success(None)
    else
      var parts := Split(channel.value, ':');
      SplitJoin(channel.value, ':');
      if |parts| != 3 then Failure(ValueError(CHANNEL_FORMAT_MESSAGE))
      else Success(Some(parts))
  }

  /** Any three parts without ":" make a channel string that is accepted and split back into them. */
  lemma ChannelOfParts(server: string, port: string, name: string)
    requires ':' !in server && ':' !in port && ':' !in name
    ensures OnlineChannel(Some(server + ":" + port + ":" + name)) == Success(Some([server, port, name]))
  {
    var parts := [server, port, name];
    assert parts[1..] == [port, name] && [port, name][1..] == [name];
    assert Join(":", [port, name]) == port + ":" + name;
    assert Join(":", parts) == server + ":" + (port + ":" + name);
    assert server + ":" + (port + ":" + name) == server + ":" + port + ":" + name;
    JoinSplit(parts, ':');
  }

  /** Where a user script must be, relative to the games' directory. */
  function ScriptPath(gameName: string, script: string): string {
    gameName + "/ml/" + script
  }

  function MissingScriptMessage(gameName: string, script: string): string {
    "The script \"" + gameName + "/ml/" + script + "\" does not exist. Cannot start the game."
  }

  /**
   * `get_ml_scripts`: the scripts are returned when all of them exist;
   * otherwise the first missing one raises FileNotFoundError.
   */
  method GetMlScripts(gameName: string, scripts: seq<string>, existing: set<string>) returns (r: Result<seq<string>, PyException>)
    ensures r.Success? <==> forall i :: 0 <= i < |scripts| ==> ScriptPath(gameName, scripts[i]) in existing
    ensures r.Success? ==> r.value == scripts
    ensures r.Failure? ==>
      exists i :: 0 <= i < |scripts| && ScriptPath(gameName, scripts[i]) !in existing
        && (forall j :: 0 <= j < i ==> ScriptPath(gameName, scripts[j]) in existing)
        && r.error == FileNotFoundError(MissingScriptMessage(gameName, scripts[i]))
  {
    for i := 0 to |scripts|
      invariant forall j :: 0 <= j < i ==> ScriptPath(gameName, scripts[j]) in existing
    {
      if ScriptPath(gameName, scripts[i]) !in existing {
        return Failure(FileNotFoundError(MissingScriptMessage(gameName, scripts[i])));
      }
    }
    return Success(scripts);
  }

  /** `GameConfig`: the settings of one run. */
  class GameConfig {
    var gameName: string
    var gameParams: seq<string>
    var oneShotMode: bool
    var gameMode: GameMode
    var recordProgress: bool
    var onlineChannel: Option<seq<string>>
    var fps: int
    var inputScripts: seq<string>

    /** The fields that cannot fail, the game mode among them; the channel and the scripts are checked by `GetGameConfig`. */
    constructor(args: ParsedArgs)
      ensures gameName == args.game && gameParams == args.gameParams && recordProgress == args.recordProgress && fps == args.fps
      ensures args.manualMode ==> gameMode == MANUAL && oneShotMode == args.oneShotMode
      ensures !args.manualMode && !NoChannel(args.onlineChannel) ==> gameMode == ONLINE && oneShotMode
      ensures !args.manualMode && NoChannel(args.onlineChannel) ==> gameMode == ML && oneShotMode == args.oneShotMode
      ensures onlineChannel == None && inputScripts == []
    {
      gameName := args.game;
      gameParams := args.gameParams;
      oneShotMode := args.oneShotMode;
      gameMode := ML;
      recordProgress := args.recordProgress;
      onlineChannel := None;
      fps := args.fps;
      inputScripts := [];
      new;
      gameMode := GetGameMode(args);
    }

    /**
     * `get_game_mode`: manual mode wins; a channel selects the online mode
     * and forces one-shot mode; otherwise the ML mode.
     */
    method GetGameMode(args: ParsedArgs) returns (mode: GameMode)
      modifies this
      ensures args.manualMode ==> mode == MANUAL && oneShotMode == old(oneShotMode)
      ensures !args.manualMode && !NoChannel(args.onlineChannel) ==> mode == ONLINE && oneShotMode
      ensures !args.manualMode && NoChannel(args.onlineChannel) ==> mode == ML && oneShotMode == old(oneShotMode)
      ensures gameName == old(gameName) && gameParams == old(gameParams) && gameMode == old(gameMode)
      ensures recordProgress == old(recordProgress) && onlineChannel == old(onlineChannel)
      ensures fps == old(fps) && inputScripts == old(inputScripts)
    {
      if args.manualMode {
        return MANUAL;
      }
      if !NoChannel(args.onlineChannel) {
        oneShotMode := true;
        return ONLINE;
      }
      return ML;
    }
  }

  /**
   * `GameConfig(parsed_args)` as `get_game_config` builds it: a malformed
   * channel raises ValueError, a missing script FileNotFoundError.
   */
  method GetGameConfig(args: ParsedArgs, existing: set<string>) returns (r: Result<GameConfig, PyException>)
    ensures r.Success? <==>
      OnlineChannel(args.onlineChannel).Success?
      && forall i :: 0 <= i < |args.inputScript| ==> ScriptPath(args.game, args.inputScript[i]) in existing
    ensures OnlineChannel(args.onlineChannel).Failure? ==> r == Failure(OnlineChannel(args.onlineChannel).error)
    ensures r.Success? ==>
      fresh(r.value)
      && r.value.onlineChannel == OnlineChannel(args.onlineChannel).value
      && r.value.inputScripts == args.inputScript
      && (r.value.gameMode == ONLINE <==> !args.manualMode && !NoChannel(args.onlineChannel))
      && (r.value.gameMode == ONLINE ==> r.value.oneShotMode && r.value.onlineChannel.Some?)
  {
    var cfg := new GameConfig(args);
    var channel := OnlineChannel(args.onlineChannel);
    if channel.Failure? {
      return Failure(channel.error);
    }
    cfg.onlineChannel := channel.value;
    var scripts := GetMlScripts(cfg.gameName, args.inputScript, existing);
    if scripts.Failure? {
      return Failure(scripts.error);
    }
    cfg.inputScripts := scripts.value;
    r := Success(cfg);
  }
}
