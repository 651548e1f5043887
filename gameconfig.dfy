/**
 * mlgame/gameconfig.py: `GameConfig`, the settings a game declares in its
 * config module. The module's attributes are given as a dict (importing
 * it is not modelled); the parameter and setup dicts are normalised in
 * place, and the ML client names are checked in one pass.
 */
module GameConfiguration {
  import opened Wrappers
  import opened Exceptions
  import opened PyText
  import opened PyValue

  const CONFIG_FILE_NAME := "config.py"
  const USAGE_PREFIX := "python MLGame.py [options] "

  /** `GAME_PARAMS` when the config module does not define it. */
  function DefaultParams(gameName: string): Value {
    DictV(map["()" := DictV(map["prog" := StrV(gameName), "game_usage" := StrV("%(prog)s")])])
  }

  /** The "--version" flag made from the game's version. */
  function VersionFlag(version: Value): Value {
    DictV(map["action" := StrV("version"), "version" := version])
  }

  /** `param_dict["()"]` with its "game_usage" turned into the full "usage" text. */
  function WithUsage(head: map<string, Value>): map<string, Value>
    requires "game_usage" in head
  {
    (head - {"game_usage"})["usage" := StrV(USAGE_PREFIX + Str(head["game_usage"]))]
  }

  /**
   * `_process_game_param_dict` on the value of `GAME_PARAMS`: a non-dict,
   * or a truthy "()" entry that is not a dict, fails on `.get`.
   */
  function ParamsProcessed(params: Value, version: Value): Result<map<string, Value>, PyException> {
    if !params.DictV? then Failure(AttributeError("get"))
    else
      var d := params.entries;
      var head := Get(d, "()", NoneV);
      if Truthy(head) && !head.DictV? then Failure(AttributeError("get"))
      else
        var d1 := if Truthy(head) && Truthy(Get(head.entries, "game_usage", NoneV)) then d["()" := DictV(WithUsage(head.entries))] else d;
        Success(if Truthy(Get(d1, "--version", NoneV)) then d1 else d1["--version" := VersionFlag(version)])
  }

  /**
   * After processing, the "()" entry carries "usage" = the MLGame prefix
   * followed by the game's own usage text, which is gone, and the rest of
   * that entry is as it was; a "--version" flag exists and a truthy one the
   * game gave is kept; no other entry changes.
   */
  lemma ParamsProcessedSpec(params: Value, version: Value)
    ensures var r := ParamsProcessed(params, version);
      r.Success? <==> params.DictV? && (Truthy(Get(params.entries, "()", NoneV)) ==> params.entries["()"].DictV?)
    ensures var r := ParamsProcessed(params, version);
      r.Success? ==>
        var d := params.entries;
        r.value.Keys == d.Keys + {"--version"}
        && Truthy(r.value["--version"])
        && (Truthy(Get(d, "--version", NoneV)) ==> r.value["--version"] == d["--version"])
        && (forall k :: k in d && k != "()" && k != "--version" ==> r.value[k] == d[k])
        && ((Truthy(Get(d, "()", NoneV)) && Truthy(Get(d["()"].entries, "game_usage", NoneV))) ==>
              r.value["()"].DictV?
              && "game_usage" !in r.value["()"].entries
              && r.value["()"].entries["usage"] == StrV(USAGE_PREFIX + Str(d["()"].entries["game_usage"]))
              && (forall k :: k in d["()"].entries && k != "game_usage" && k != "usage" ==>
                    k in r.value["()"].entries && r.value["()"].entries[k] == d["()"].entries[k]))
  {
    if params.DictV? {
      var d := params.entries;
      var head := Get(d, "()", NoneV);
      if !(Truthy(head) && !head.DictV?) {
        var d1 := if Truthy(head) && Truthy(Get(head.entries, "game_usage", NoneV)) then d["()" := DictV(WithUsage(head.entries))] else d;
        assert "action" in VersionFlag(version).entries;
        assert "()" != "--version";
      }
    }
  }

  /** Processing the parameters a second time changes nothing. */
  lemma ParamsProcessedIdempotent(params: Value, version: Value)
    requires ParamsProcessed(params, version).Success?
    ensures ParamsProcessed(DictV(ParamsProcessed(params, version).value), version) == ParamsProcessed(params, version)
  {
    var d := params.entries;
    var r := ParamsProcessed(params, version).value;
    ParamsProcessedSpec(params, version);
    var head := Get(d, "()", NoneV);
    if Truthy(head) && Truthy(Get(head.entries, "game_usage", NoneV)) {
      assert Get(r["()"].entries, "game_usage", NoneV) == NoneV;
    } else {
      assert "()" != "--version";
      assert Get(r, "()", NoneV) == head;
    }
    assert Truthy(Get(r, "--version", NoneV)) by {
      assert "action" in VersionFlag(version).entries;
    }
  }

  /** The message of the error for a client without a name. */
  const EMPTY_NAME_MESSAGE := "'name' in 'ml_clients' of 'GAME_SETUP' in '" + CONFIG_FILE_NAME + "' is empty or not existing"

  function DuplicateMessage(name: Value): string {
    "Duplicated name '" + Str(name) + "' in 'ml_clients' of 'GAME_SETUP' in '" + CONFIG_FILE_NAME + "'"
  }

  function MissingKeyMessage(key: string): string {
    "Missing '" + key + "' in 'GAME_SETUP' in '" + CONFIG_FILE_NAME + "'"
  }

  const SINGLE_CLIENT_WARNING := "Warning: 'dynamic_ml_clients' in 'GAME_SETUP' in '" + CONFIG_FILE_NAME
    + "' is invalid for just one ml client. Set to False."

  /** `client.get("name", "")`. */
  function NameOf(client: Value): Value
    requires client.DictV?
  {
    Get(client.entries, "name", StrV(""))
  }

  /**
   * The check of the client list after the names `seen`: a client that is
   * not a dict fails on `.get`, an empty or missing name and a name seen
   * before raise GameConfigError, in list order.
   */
  function NameCheck(clients: seq<Value>, seen: seq<Value>): Outcome<PyException>
    decreases |clients|
  {
    if clients == [] then Pass
    else if !clients[0].DictV? then Fail(AttributeError("get"))
    else
      var name := NameOf(clients[0]);
      if !Truthy(name) then Fail(ConfigFailure(GameConfigError(EMPTY_NAME_MESSAGE)))
      else if name in seen then Fail(ConfigFailure(GameConfigError(DuplicateMessage(name))))
      else NameCheck(clients[1..], seen + [name])
  }

  /** Every client is a dict with a non-empty name that is not among `seen`. */
  predicate FreshNames(clients: seq<Value>, seen: seq<Value>) {
    forall i :: 0 <= i < |clients| ==> clients[i].DictV? && Truthy(NameOf(clients[i])) && NameOf(clients[i]) !in seen
  }

  /** No two clients have the same name. */
  predicate DistinctNames(clients: seq<Value>) {
    forall i, j :: 0 <= i < j < |clients| && clients[i].DictV? && clients[j].DictV? ==> NameOf(clients[i]) != NameOf(clients[j])
  }

  /** The clients pass the check exactly when they are dicts with non-empty names, none seen before and no two equal. */
  lemma {:induction false} NameCheckPasses(clients: seq<Value>, seen: seq<Value>)
    ensures NameCheck(clients, seen) == Pass <==> FreshNames(clients, seen) && DistinctNames(clients)
    decreases |clients|
  {
    if clients != [] && clients[0].DictV? {
      var name := NameOf(clients[0]);
      if Truthy(name) && name !in seen {
        var rest := clients[1..];
        NameCheckPasses(rest, seen + [name]);
        if FreshNames(clients, seen) && DistinctNames(clients) {
          forall i | 0 <= i < |rest|
            ensures rest[i].DictV? && Truthy(NameOf(rest[i])) && NameOf(rest[i]) !in seen + [name]
          {
            assert rest[i] == clients[i + 1];
          }
          forall i, j | 0 <= i < j < |rest| && rest[i].DictV? && rest[j].DictV?
            ensures NameOf(rest[i]) != NameOf(rest[j])
          {
            assert rest[i] == clients[i + 1] && rest[j] == clients[j + 1];
          }
        }
        if FreshNames(rest, seen + [name]) && DistinctNames(rest) {
          forall i | 0 <= i < |clients|
            ensures clients[i].DictV? && Truthy(NameOf(clients[i])) && NameOf(clients[i]) !in seen
          {
            if i > 0 {
              assert clients[i] == rest[i - 1];
            }
          }
          forall i, j | 0 <= i < j < |clients| && clients[i].DictV? && clients[j].DictV?
            ensures NameOf(clients[i]) != NameOf(clients[j])
          {
            assert clients[j] == rest[j - 1];
            if i > 0 {
              assert clients[i] == rest[i - 1];
            }
          }
        }
      }
    }
  }

  /** The "dynamic_ml_clients" entry after processing: False when absent, falsy, or with exactly one client. */
  function DynamicFlag(setup: map<string, Value>, clientCount: nat): Value {
    if !Truthy(Get(setup, "dynamic_ml_clients", NoneV)) || clientCount == 1 then BoolV(false)
    else setup["dynamic_ml_clients"]
  }

  /**
   * The clients `for client in ml_clients` visits, when the name check can
   * get past the loop header: a list gives its items, an empty str or dict
   * gives none. Any other value is refused by `ClientsError`.
   */
  function ClientsOf(v: Value): (r: Option<seq<Value>>)
    ensures v.ListV? ==> r == Some(v.items)
    ensures r.Some? && !v.ListV? ==> r.value == []
  {
    if v.ListV? then Some(v.items)
    else if v == StrV("") || v == DictV(map[]) then Some([])
    else None
  }

  /**
   * What `for client in ml_clients` raises for a value `ClientsOf` refuses:
   * a non-empty str or dict is iterated, and its first item, a str, has no
   * `get`; an int, bool, None or other object is not iterable.
   */
  function ClientsError(v: Value): (e: PyException)
    ensures (v.StrV? || v.DictV?) && ClientsOf(v).None? ==> e == AttributeError("get")
    ensures !(v.StrV? || v.DictV? || v.ListV?) ==> e.TypeError?
  {
    if v.StrV? || v.DictV? then AttributeError("get")
    else TypeError("'ml_clients' is not iterable")
  }

  /** `GameConfig`: the version, the argument-parser parameters and the setup of a game. */
  class GameConfig {
    var gameVersion: Value
    var gameParams: Value
    var gameSetup: Value
    /** The warnings printed. */
    var printed: seq<string>

    /** The attributes read first: `GAME_VERSION` (default "") and `GAME_PARAMS` (default a "()" entry for the game). */
    constructor(gameName: string, config: map<string, Value>)
      ensures gameVersion == Get(config, "GAME_VERSION", StrV(""))
      ensures gameParams == Get(config, "GAME_PARAMS", DefaultParams(gameName))
      ensures gameSetup == NoneV && printed == []
    {
      gameVersion := Get(config, "GAME_VERSION", StrV(""));
      gameParams := Get(config, "GAME_PARAMS", DefaultParams(gameName));
      gameSetup := NoneV;
      printed := [];
    }

    /** `_process_game_param_dict`. */
    method ProcessGameParamDict() returns (o: Outcome<PyException>)
      modifies this
      ensures var r := ParamsProcessed(old(gameParams), gameVersion);
        (r.Success? ==> o == Pass && gameParams == DictV(r.value))
        && (r.Failure? ==> o == Fail(r.error) && gameParams == old(gameParams))
      ensures gameVersion == old(gameVersion) && gameSetup == old(gameSetup) && printed == old(printed)
    {
      if !gameParams.DictV? {
        return Fail(AttributeError("get"));
      }
      var paramDict := gameParams.entries;
      var head := Get(paramDict, "()", NoneV);
      if Truthy(head) && !head.DictV? {
        return Fail(AttributeError("get"));
      }
      if Truthy(head) && Truthy(Get(head.entries, "game_usage", NoneV)) {
        var gameUsage := Str(head.entries["game_usage"]);
        paramDict := paramDict["()" := DictV((head.entries - {"game_usage"})["usage" := StrV(USAGE_PREFIX + gameUsage)])];
      }
      if !Truthy(Get(paramDict, "--version", NoneV)) {
        paramDict := paramDict["--version" := VersionFlag(gameVersion)];
      }
      gameParams := DictV(paramDict);
      o := Pass;
    }

    /**
     * `_process_game_setup_dict`: "game" and "ml_clients" must exist, every
     * client needs a distinct non-empty name, and "dynamic_ml_clients" is
     * normalised. A setup that is not a dict raises TypeError; a client
     * value that is not a list is iterated as Python would (`ClientsOf`).
     */
    method ProcessGameSetupDict() returns (o: Outcome<PyException>)
      modifies this
      ensures !old(gameSetup).DictV? ==> o.Fail? && o.error.TypeError? && gameSetup == old(gameSetup) && printed == old(printed)
      ensures old(gameSetup).DictV? ==>
        var s := old(gameSetup).entries;
        if "game" !in s then o == Fail(ConfigFailure(GameConfigError(MissingKeyMessage("game")))) && gameSetup == old(gameSetup) && printed == old(printed)
        else if "ml_clients" !in s then o == Fail(ConfigFailure(GameConfigError(MissingKeyMessage("ml_clients")))) && gameSetup == old(gameSetup) && printed == old(printed)
        else if ClientsOf(s["ml_clients"]).None? then
          o == Fail(ClientsError(s["ml_clients"])) && gameSetup == old(gameSetup) && printed == old(printed)
        else
          var clients := ClientsOf(s["ml_clients"]).value;
          if NameCheck(clients, []).Fail? then o == NameCheck(clients, []) && gameSetup == old(gameSetup) && printed == old(printed)
          else
            var lone := Truthy(Get(s, "dynamic_ml_clients", NoneV)) && |clients| == 1;
            o == Pass && gameSetup == DictV(s["dynamic_ml_clients" := DynamicFlag(s, |clients|)])
            && printed == old(printed) + (if lone then [SINGLE_CLIENT_WARNING] else [])
      ensures gameVersion == old(gameVersion) && gameParams == old(gameParams)
    {
      if !gameSetup.DictV? {
        return Fail(TypeError("'GAME_SETUP' is not subscriptable by str"));
      }
      var setup := gameSetup.entries;
      if "game" !in setup {
        return Fail(ConfigFailure(GameConfigError(MissingKeyMessage("game"))));
      }
      if "ml_clients" !in setup {
        return Fail(ConfigFailure(GameConfigError(MissingKeyMessage("ml_clients"))));
      }
      var clients: seq<Value>;
      var mlClients := setup["ml_clients"];
      if mlClients.ListV? {
        clients := mlClients.items;
      } else if mlClients == StrV("") || mlClients == DictV(map[]) {
        clients := [];
      } else if mlClients.StrV? || mlClients.DictV? {
        return Fail(AttributeError("get"));
      } else {
        return Fail(TypeError("'ml_clients' is not iterable"));
      }
      var mlNames: seq<Value> := [];
      var i := 0;
      while i < |clients|
        invariant 0 <= i <= |clients|
        invariant NameCheck(clients[i..], mlNames) == NameCheck(clients, [])
      {
        var client := clients[i];
        assert clients[i..][1..] == clients[i + 1..];
        if !client.DictV? {
          return Fail(AttributeError("get"));
        }
        var clientName := Get(client.entries, "name", StrV(""));
        if !Truthy(clientName) {
          return Fail(ConfigFailure(GameConfigError(EMPTY_NAME_MESSAGE)));
        }
        if clientName in mlNames {
          return Fail(ConfigFailure(GameConfigError(DuplicateMessage(clientName))));
        }
        mlNames := mlNames + [clientName];
        i := i + 1;
      }
      if !Truthy(Get(setup, "dynamic_ml_clients", NoneV)) {
        setup := setup["dynamic_ml_clients" := BoolV(false)];
      }
      if Truthy(setup["dynamic_ml_clients"]) && |clients| == 1 {
        printed := printed + [SINGLE_CLIENT_WARNING];
        setup := setup["dynamic_ml_clients" := BoolV(false)];
      }
      gameSetup := DictV(setup);
      o := Pass;
    }
  }

  /**
   * `GameConfig(game_name)` once the game's config module is loaded: the
   * parameters are processed, `GAME_SETUP` must exist, and the setup is
   * processed; the first failure is raised.
   */
  method LoadGameConfig(gameName: string, config: map<string, Value>) returns (cfg: GameConfig, o: Outcome<PyException>)
    ensures fresh(cfg)
    ensures var params := ParamsProcessed(Get(config, "GAME_PARAMS", DefaultParams(gameName)), Get(config, "GAME_VERSION", StrV("")));
      (params.Failure? ==> o == Fail(params.error))
      && (params.Success? && "GAME_SETUP" !in config ==> o == Fail(ConfigFailure(GameConfigError("Missing 'GAME_SETUP' in the game config"))))
      && (params.Success? ==> cfg.gameParams == DictV(params.value))
    ensures o == Pass ==>
      ("GAME_SETUP" in config && config["GAME_SETUP"].DictV?
       && "ml_clients" in config["GAME_SETUP"].entries && ClientsOf(config["GAME_SETUP"].entries["ml_clients"]).Some?
       && NameCheck(ClientsOf(config["GAME_SETUP"].entries["ml_clients"]).value, []) == Pass
       && cfg.gameSetup == DictV(config["GAME_SETUP"].entries["dynamic_ml_clients" :=
            DynamicFlag(config["GAME_SETUP"].entries, |ClientsOf(config["GAME_SETUP"].entries["ml_clients"]).value|)]))
  {
    cfg := new GameConfig(gameName, config);
    o := cfg.ProcessGameParamDict();
    if o.Fail? {
      return;
    }
    if "GAME_SETUP" !in config {
      o := Fail(ConfigFailure(GameConfigError("Missing 'GAME_SETUP' in the game config")));
      return;
    }
    cfg.gameSetup := config["GAME_SETUP"];
    o := cfg.ProcessGameSetupDict();
  }
}
