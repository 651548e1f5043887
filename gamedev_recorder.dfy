/**
 * mlgame/gamedev/recorder.py: the recorder a game uses on its own. It keeps
 * the scene information in one list and writes the list to a file when
 * asked; `RecorderHelper` flushes it whenever a watched member of the
 * recorded progress takes one of its listed values. Writing a file is
 * modelled as appending (file name, list) to `saved`; the clock reading is a
 * parameter; creating the directory is not modelled.
 */
module GamedevRecording {
  import opened Wrappers
  import opened Exceptions
  import opened PyValue
  import opened Recording

  const PREFIX_TYPE_MESSAGE := "'filename_prefix' should be the type of 'str'"

  /** The items of the written files, file after file. */
  function Flatten(files: seq<(string, seq<Value>)>): (items: seq<Value>)
    ensures files == [] ==> items == []
    ensures forall k :: 0 <= k < |files| ==> |files[k].1| <= |items|
    ensures forall k, v :: 0 <= k < |files| && v in files[k].1 ==> v in items
  {
    if files == [] then [] else Flatten(files[..|files| - 1]) + files[|files| - 1].1
  }

  /** Writing one more file adds its items at the end. */
  lemma FlattenSnoc(files: seq<(string, seq<Value>)>, file: (string, seq<Value>))
    ensures Flatten(files + [file]) == Flatten(files) + file.1
  {
    assert (files + [file])[..|files|] == files;
  }

  /** `Recorder`: the scene information recorded since the last flush, and the files written. */
  class SceneRecorder {
    var sceneInfoList: seq<Value>
    var saved: seq<(string, seq<Value>)>
    /** Every item ever recorded, in order. */
    ghost var recorded: seq<Value>

    /** Nothing recorded is lost or duplicated: the written files, then the list, hold exactly what was recorded. */
    ghost predicate Valid()
      reads this
    {
      Flatten(saved) + sceneInfoList == recorded
    }

    constructor()
      ensures Valid() && sceneInfoList == [] && saved == [] && recorded == []
    {
      sceneInfoList, saved := [], [];
      recorded := [];
    }

    /** `record_scene_info`: exactly one item more, at the end. */
    method RecordSceneInfo(sceneInfo: Value)
      requires Valid()
      modifies this
      ensures Valid() && recorded == old(recorded) + [sceneInfo]
      ensures sceneInfoList == old(sceneInfoList) + [sceneInfo]
      ensures saved == old(saved)
    {
      sceneInfoList := sceneInfoList + [sceneInfo];
      recorded := recorded + [sceneInfo];
    }

    /**
     * `flush_to_file(filename_prefix)`: a prefix that is not a str raises
     * TypeError and changes nothing; otherwise the list is written under
     * the prefixed timestamp name and then cleared.
     */
    method FlushToFile(prefix: Value, timestamp: string) returns (o: Outcome<PyException>)
      requires Valid()
      modifies this
      ensures Valid() && recorded == old(recorded)
      ensures !prefix.StrV? ==>
        o == Fail(TypeError(PREFIX_TYPE_MESSAGE))
        && sceneInfoList == old(sceneInfoList) && saved == old(saved)
      ensures prefix.StrV? ==>
        o == Pass
        && saved == old(saved) + [(PickleName(prefix.s, timestamp), old(sceneInfoList))]
        && sceneInfoList == []
    {
      if !prefix.StrV? {
        return Fail(TypeError(PREFIX_TYPE_MESSAGE));
      }
      var filename := timestamp + ".pickle";
      if prefix.s != "" {
        filename := prefix.s + "_" + filename;
      }
      assert filename == PickleName(prefix.s, timestamp);
      FlattenSnoc(saved, (filename, sceneInfoList));
      saved := saved + [(filename, sceneInfoList)];
      sceneInfoList := [];
      return Pass;
    }
  }

  /** A watched member fires when the progress holds a truthy value for it that is among its listed values. */
  predicate Fires(progress: map<string, Value>, member: string, values: seq<Value>) {
    var target := Get(progress, member, NoneV);
    Truthy(target) && target in values
  }

  /** The progress object makes `record_handler` flush: some watched member fires. */
  predicate Triggers(savingStatus: seq<(string, seq<Value>)>, progress: map<string, Value>) {
    exists i :: 0 <= i < |savingStatus| && Fires(progress, savingStatus[i].0, savingStatus[i].1)
  }

  /**
   * `RecorderHelper`: a recorder, the watched members with their values
   * (the items of the `saving_status` dict, in order) and the file-name
   * prefix.
   */
  class RecorderHelper {
    const recorder: SceneRecorder
    const savingStatus: seq<(string, seq<Value>)>
    const filenamePrefix: Value

    /** The recorder's invariant. */
    ghost predicate Valid()
      reads this, recorder
    {
      recorder.Valid()
    }

    constructor(status: seq<(string, seq<Value>)>, prefix: Value)
      ensures Valid() && fresh(recorder) && recorder.sceneInfoList == [] && recorder.saved == []
      ensures savingStatus == status && filenamePrefix == prefix
    {
      recorder := new SceneRecorder();
      savingStatus, filenamePrefix := status, prefix;
    }

    /**
     * `record_handler`: the progress object is always recorded; then the
     * watched members are visited in order and the first one that fires
     * flushes the recorder, once.
     */
    method RecordHandler(progress: map<string, Value>, timestamp: string) returns (o: Outcome<PyException>)
      requires Valid()
      modifies recorder
      ensures Valid() && recorder.recorded == old(recorder.recorded) + [DictV(progress)]
      ensures !Triggers(savingStatus, progress) ==>
        o == Pass
        && recorder.sceneInfoList == old(recorder.sceneInfoList) + [DictV(progress)]
        && recorder.saved == old(recorder.saved)
      ensures Triggers(savingStatus, progress) && filenamePrefix.StrV? ==>
        o == Pass
        && recorder.saved == old(recorder.saved) + [(PickleName(filenamePrefix.s, timestamp), old(recorder.sceneInfoList) + [DictV(progress)])]
        && recorder.sceneInfoList == []
      ensures Triggers(savingStatus, progress) && !filenamePrefix.StrV? ==>
        o == Fail(TypeError(PREFIX_TYPE_MESSAGE))
        && recorder.sceneInfoList == old(recorder.sceneInfoList) + [DictV(progress)]
        && recorder.saved == old(recorder.saved)
    {
      recorder.RecordSceneInfo(DictV(progress));
      for i := 0 to |savingStatus|
        invariant forall j :: 0 <= j < i ==> !Fires(progress, savingStatus[j].0, savingStatus[j].1)
        invariant recorder.sceneInfoList == old(recorder.sceneInfoList) + [DictV(progress)]
        invariant recorder.saved == old(recorder.saved)
        invariant Valid() && recorder.recorded == old(recorder.recorded) + [DictV(progress)]
      {
        var member, values := savingStatus[i].0, savingStatus[i].1;
        var target := Get(progress, member, NoneV);
        if Truthy(target) && target in values {
          o := recorder.FlushToFile(filenamePrefix, timestamp);
          return;
        }
      }
      return Pass;
    }
  }
}
