/**
 * mlgame/recorder.py: the recorder of the game progress. For each ML
 * client it keeps the scene information sent to it and the command it
 * answered with, and writes the whole progress to a file at the end of a
 * round. Writing a file is modelled as appending (file name, progress) to
 * `saved`; the clock reading is a parameter; creating the directory is not
 * modelled.
 */
module Recording {
  import opened Wrappers
  import opened Exceptions
  import opened PyText
  import opened PyValue

  const RECORD_FORMAT_VERSION := 2
  /** The key of the progress dict that holds the format version. */
  const RECORD_FORMAT_KEY := "record_format_version"

  /** The fields of the execution command `get_recorder` reads. */
  datatype ExecutionSettings = ExecutionSettings(recordProgress: bool, gameName: string, gameParams: seq<string>, manualMode: bool)

  /** The mode word that starts every file name: "manual" or "ml". */
  function ModeWord(manualMode: bool): string {
    if manualMode then "manual" else "ml"
  }

  /** No game parameter holds the "_" that separates them in a file name. */
  predicate NoUnderscore(params: seq<string>) {
    forall i :: 0 <= i < |params| ==> '_' !in params[i]
  }

  /**
   * The prefix of the recorded files: the mode, then the game parameters
   * joined by "_", if there are any. It starts with the mode word, and
   * when no parameter holds "_" it splits back at "_" into the mode word
   * and the parameters.
   */
  function FilenamePrefix(cmd: ExecutionSettings): (prefix: string)
    ensures |prefix| >= |ModeWord(cmd.manualMode)| && prefix[..|ModeWord(cmd.manualMode)|] == ModeWord(cmd.manualMode)
    ensures NoUnderscore(cmd.gameParams) ==> Split(prefix, '_') == [ModeWord(cmd.manualMode)] + cmd.gameParams
  {
    var mode := if cmd.manualMode then "manual" else "ml";
    PrefixSplitsBack(mode, cmd.gameParams);
    if cmd.gameParams != [] then mode + "_" + Join("_", cmd.gameParams) else mode
  }

  /** A mode word followed by "_"-free parameters joined by "_" splits back into them. */
  lemma PrefixSplitsBack(mode: string, params: seq<string>)
    requires '_' !in mode
    ensures NoUnderscore(params) ==>
      Split(if params != [] then mode + "_" + Join("_", params) else mode, '_') == [mode] + params
  {
    if NoUnderscore(params) {
      var parts := [mode] + params;
      assert parts[1..] == params;
      JoinSplit(parts, '_');
    }
  }

  /** Runs whose parameters hold no "_" and whose prefixes agree had the same mode and the same parameters. */
  lemma FilenamePrefixInjective(a: ExecutionSettings, b: ExecutionSettings)
    requires NoUnderscore(a.gameParams) && NoUnderscore(b.gameParams)
    requires FilenamePrefix(a) == FilenamePrefix(b)
    ensures a.manualMode == b.manualMode && a.gameParams == b.gameParams
  {
    var pa, pb := [ModeWord(a.manualMode)] + a.gameParams, [ModeWord(b.manualMode)] + b.gameParams;
    assert pa == pb;
    assert pa[0] == pb[0] && pa[1..] == pb[1..];
    assert pa[1..] == a.gameParams && pb[1..] == b.gameParams;
  }

  /**
   * The name of a progress file written at `timestamp` (the clock reading
   * formatted as "%Y-%m-%d_%H-%M-%S"): the prefix and "_" in front when the
   * prefix is non-empty. The name always ends with the timestamp and
   * ".pickle" and starts with the prefix.
   */
  function PickleName(prefix: string, timestamp: string): (name: string)
    ensures |name| == (if prefix == "" then 0 else |prefix| + 1) + |timestamp| + 7
    ensures name[..|prefix|] == prefix
    ensures name[|name| - |timestamp| - 7..] == timestamp + ".pickle"
  {
    if prefix != "" then prefix + "_" + timestamp + ".pickle" else timestamp + ".pickle"
  }

  /** Two writers with different prefixes never name a file alike within the same second. */
  lemma PickleNameInjective(prefix1: string, prefix2: string, timestamp: string)
    requires prefix1 != prefix2
    ensures PickleName(prefix1, timestamp) != PickleName(prefix2, timestamp)
  {
    var n1, n2 := PickleName(prefix1, timestamp), PickleName(prefix2, timestamp);
    if |prefix1| == |prefix2| {
      assert n1[..|prefix1|] != n2[..|prefix2|];
    }
  }

  /** One client's slot: the scene information it got and the command it answered, index by index. */
  datatype Slot = Slot(sceneInfo: seq<Value>, command: seq<Value>)

  /** The progress after `record` visits `names`: each client with truthy scene information gets that and its command (or None). */
  function RecordedFor(progress: map<string, Slot>, names: seq<string>, scenes: map<string, Value>, commands: map<string, Value>): map<string, Slot>
    requires forall n :: n in names ==> n in progress
    ensures RecordedFor(progress, names, scenes, commands).Keys == progress.Keys
    decreases |names|
  {
    if names == [] then progress
    else
      var name := names[|names| - 1];
      var before := RecordedFor(progress, names[..|names| - 1], scenes, commands);
      var scene := Get(scenes, name, NoneV);
      if Truthy(scene) then
        before[name := Slot(before[name].sceneInfo + [scene], before[name].command + [Get(commands, name, NoneV)])]
      else before
  }

  /** No slot's lists differ in length. */
  predicate Balanced(progress: map<string, Slot>) {
    forall n :: n in progress ==> |progress[n].sceneInfo| == |progress[n].command|
  }

  /** Recording keeps the two lists of every slot of equal length. */
  lemma {:induction false} RecordedForBalanced(progress: map<string, Slot>, names: seq<string>, scenes: map<string, Value>, commands: map<string, Value>)
    requires forall n :: n in names ==> n in progress
    requires Balanced(progress)
    ensures Balanced(RecordedFor(progress, names, scenes, commands))
    decreases |names|
  {
    if names != [] {
      var name := names[|names| - 1];
      assert name in names;
      RecordedForBalanced(progress, names[..|names| - 1], scenes, commands);
      var before := RecordedFor(progress, names[..|names| - 1], scenes, commands);
      assert name in before;
    }
  }

  /**
   * A slot is only ever extended, and only a client named in `names` and
   * given truthy scene information gets anything; a client named once gets
   * exactly its scene and its command.
   */
  lemma {:induction false} RecordedForSlot(progress: map<string, Slot>, names: seq<string>, scenes: map<string, Value>, commands: map<string, Value>, n: string)
    requires forall m :: m in names ==> m in progress
    requires n in progress
    ensures var after := RecordedFor(progress, names, scenes, commands);
      (n !in names || !Truthy(Get(scenes, n, NoneV)) ==> after[n] == progress[n])
      && (multiset(names)[n] == 1 && Truthy(Get(scenes, n, NoneV)) ==>
            after[n] == Slot(progress[n].sceneInfo + [scenes[n]], progress[n].command + [Get(commands, n, NoneV)]))
    decreases |names|
  {
    if names != [] {
      var front := names[..|names| - 1];
      assert names == front + [names[|names| - 1]];
      assert multiset(names) == multiset(front) + multiset{names[|names| - 1]};
      RecordedForSlot(progress, front, scenes, commands, n);
    }
  }

  /** `Recorder`: one slot per ML client, and the files written so far. */
  class Recorder {
    const mlNames: seq<string>
    const filenamePrefix: string
    /**
     * The "record_format_version" entry of the progress: RECORD_FORMAT_VERSION,
     * unless a client of that name took the key over with its slot.
     */
    const formatVersion: Option<int>
    var progress: map<string, Slot>
    /** The files written: name, format version entry and the clients' slots. */
    var saved: seq<(string, Option<int>, map<string, Slot>)>

    /** Every client has a slot, and no slot's lists differ in length. */
    ghost predicate Valid()
      reads this
    {
      (forall n :: n in mlNames ==> n in progress)
      && Balanced(progress)
    }

    /** The progress starts with the format version and one empty slot per client. */
    constructor(names: seq<string>, prefix: string)
      ensures Valid() && mlNames == names && filenamePrefix == prefix && saved == []
      ensures formatVersion == if RECORD_FORMAT_KEY in names then None else Some(RECORD_FORMAT_VERSION)
      ensures progress.Keys == set n | n in names
      ensures forall n :: n in progress ==> progress[n] == Slot([], [])
    {
      mlNames, filenamePrefix := names, prefix;
      formatVersion := if RECORD_FORMAT_KEY in names then None else Some(RECORD_FORMAT_VERSION);
      progress := map n | n in names :: Slot([], []);
      saved := [];
    }

    /** `record`: visits the clients in order and extends the slot of each one that got scene information. */
    method Record(scenes: map<string, Value>, commands: map<string, Value>)
      requires Valid()
      modifies this
      ensures Valid()
      ensures progress == RecordedFor(old(progress), mlNames, scenes, commands)
      ensures saved == old(saved)
    {
      ghost var p0 := progress;
      for i := 0 to |mlNames|
        invariant progress == RecordedFor(p0, mlNames[..i], scenes, commands)
        invariant saved == old(saved)
      {
        assert mlNames[..i + 1][..i] == mlNames[..i];
        var name := mlNames[i];
        var sceneInfo := Get(scenes, name, NoneV);
        if Truthy(sceneInfo) {
          progress := progress[name := Slot(progress[name].sceneInfo + [sceneInfo], progress[name].command + [Get(commands, name, NoneV)])];
        }
      }
      assert mlNames[..|mlNames|] == mlNames;
      RecordedForBalanced(p0, mlNames, scenes, commands);
    }

    /** The name of the file written at `timestamp`: the prefix and "_" in front when the prefix is non-empty. */
    function FileName(timestamp: string): string
      reads this
    {
      PickleName(filenamePrefix, timestamp)
    }

    /** `flush_to_file`: the progress is written, then every client's slot is emptied. */
    method FlushToFile(timestamp: string)
      requires Valid()
      modifies this
      ensures Valid()
      ensures saved == old(saved) + [(FileName(timestamp), formatVersion, old(progress))]
      ensures progress.Keys == old(progress).Keys
      ensures forall n :: n in mlNames ==> progress[n] == Slot([], [])
      ensures forall n :: n in progress && n !in mlNames ==> progress[n] == old(progress)[n]
    {
      var filename := timestamp + ".pickle";
      if filenamePrefix != "" {
        filename := filenamePrefix + "_" + filename;
      }
      assert filename == FileName(timestamp);
      saved := saved + [(filename, formatVersion, progress)];
      ghost var p0 := progress;
      for i := 0 to |mlNames|
        invariant progress.Keys == p0.Keys
        invariant forall n :: n in mlNames[..i] ==> progress[n] == Slot([], [])
        invariant forall n :: n in progress && n !in mlNames[..i] ==> progress[n] == p0[n]
        invariant saved == old(saved) + [(FileName(timestamp), formatVersion, old(progress))]
      {
        assert mlNames[..i + 1] == mlNames[..i] + [mlNames[i]];
        progress := progress[mlNames[i] := Slot([], [])];
      }
      assert mlNames[..|mlNames|] == mlNames;
    }
  }

  /**
   * `get_recorder`: no recorder (the do-nothing DummyRecorder) when
   * recording is off, otherwise a recorder for the clients with the
   * file-name prefix of the run.
   */
  method GetRecorder(cmd: ExecutionSettings, mlNames: seq<string>) returns (r: Option<Recorder>)
    ensures !cmd.recordProgress ==> r == None
    ensures cmd.recordProgress ==>
      r.Some? && fresh(r.value) && r.value.Valid()
      && r.value.mlNames == mlNames && r.value.filenamePrefix == FilenamePrefix(cmd) && r.value.saved == []
      && r.value.formatVersion == (if RECORD_FORMAT_KEY in mlNames then None else Some(RECORD_FORMAT_VERSION))
      && forall n :: n in r.value.progress ==> r.value.progress[n] == Slot([], [])
  {
    if !cmd.recordProgress {
      return None;
    }
    var recorder := new Recorder(mlNames, FilenamePrefix(cmd));
    r := Some(recorder);
  }

  /** `Recorder(...)` with a prefix that is any Python value: anything but a str raises TypeError. */
  method NewRecorder(mlNames: seq<string>, prefix: Value) returns (r: Result<Recorder, PyException>)
    ensures !prefix.StrV? ==> r == Failure(TypeError("'filename_prefix' should be the type of 'str'"))
    ensures prefix.StrV? ==>
      r.Success? && fresh(r.value) && r.value.Valid() && r.value.filenamePrefix == prefix.s
      && r.value.mlNames == mlNames && r.value.saved == []
      && r.value.formatVersion == (if RECORD_FORMAT_KEY in mlNames then None else Some(RECORD_FORMAT_VERSION))
  {
    if !prefix.StrV? {
      return Failure(TypeError("'filename_prefix' should be the type of 'str'"));
    }
    var recorder := new Recorder(mlNames, prefix.s);
    r := Success(recorder);
  }
}
