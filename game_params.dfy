/**
 * games/arkanoid/main.py and games/pingpong/main.py: how a game's
 * launcher reads its parameters. The level and the game-over score are
 * `int(game_params[0])` when that is at least 1, and a default otherwise
 * (the parameter is missing, is not an integer, or is below 1). Pingpong
 * in one-shot mode ignores the parameter and ends after one point. The
 * launcher's messages to stdout are left out.
 */
module GameParams {
  import opened Wrappers
  import opened Exceptions
  import opened PyText

  /** `int(game_params[0])` if it is at least 1, else `default`. */
  function PositiveParamOr(params: seq<string>, default: int): (v: int)
    ensures params == [] ==> v == default
    ensures params != [] ==>
      var parsed := ParseInt(params[0]);
      (parsed.Some? && parsed.value >= 1 ==> v == parsed.value)
      && (parsed.None? || parsed.value < 1 ==> v == default)
  {
    if params == [] then default
    else match ParseInt(params[0])
      case None => default
      case Some(n) => if n < 1 then default else n
  }

  /** A positive integer parameter is taken as is; any other parameter, or none, gives the default. */
  lemma PositiveParamOfDecimal(n: int, rest: seq<string>, default: int)
    ensures n >= 1 ==> PositiveParamOr([DecimalString(n)] + rest, default) == n
    ensures n < 1 ==> PositiveParamOr([DecimalString(n)] + rest, default) == default
  {
    ParseDecimalString(n);
  }

  /** games/arkanoid/main.py `_get_level`: the level, 1 unless a positive integer is given. */
  function GetLevel(params: seq<string>): (level: int)
    ensures level >= 1
  {
    PositiveParamOr(params, 1)
  }

  /** The level given as `str(n)` is `n` when `n` is at least 1, and 1 otherwise. */
  lemma GetLevelOfDecimal(n: int, rest: seq<string>)
    ensures GetLevel([DecimalString(n)] + rest) == if n >= 1 then n else 1
  {
    PositiveParamOfDecimal(n, rest, 1);
  }

  /** A parameter that `int()` rejects gives level 1. */
  lemma GetLevelNotInteger(params: seq<string>)
    requires params != [] && ParseInt(params[0]).None?
    ensures GetLevel(params) == 1
  {
  }

  /** games/pingpong/main.py `_get_game_over_score`: 1 in one-shot mode, else 3 unless a positive integer is given. */
  function GetGameOverScore(params: seq<string>, oneShotMode: bool): (score: int)
    ensures score >= 1
    ensures oneShotMode ==> score == 1
    ensures !oneShotMode ==> score == PositiveParamOr(params, 3)
  {
    if oneShotMode then 1 else PositiveParamOr(params, 3)
  }

  /** Outside one-shot mode, `str(n)` gives score `n` when `n` is at least 1, and 3 otherwise. */
  lemma GetGameOverScoreOfDecimal(n: int, rest: seq<string>)
    ensures GetGameOverScore([DecimalString(n)] + rest, false) == if n >= 1 then n else 3
  {
    PositiveParamOfDecimal(n, rest, 3);
  }

  /**
   * games/pingpong/main.py `_get_ml_modules`: the modules of 1P and 2P;
   * one module plays both sides. With none, `input_modules[0]` raises
   * IndexError.
   */
  function GetMlModules(modules: seq<string>): (r: Result<(string, string), PyException>)
    ensures modules == [] <==> r == Failure(IndexError)
    ensures |modules| == 1 ==> r == Success((modules[0], modules[0]))
    ensures |modules| >= 2 ==> r == Success((modules[0], modules[1]))
  {
    if |modules| == 1 then Success((modules[0], modules[0]))
    else if |modules| == 0 then Failure(IndexError)
    else Success((modules[0], modules[1]))
  }
}
