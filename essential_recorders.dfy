/**
 * essential/gamedev/recorder.py: a recorder that writes its list of scene
 * information to a file by itself, as soon as a recorded scene's status is
 * one of the saving statuses, and then starts a new list. Writing a file is
 * modelled as appending (file name, list) to `saved`; the clock reading is a
 * parameter; creating the directory is not modelled.
 */
module EssentialSceneRecording {
  import opened Wrappers
  import opened Exceptions
  import opened PyValue
  import opened GamedevRecording

  /** `scene_info.status` can be read. */
  predicate HasStatus(scene: Value) {
    scene.ObjectV? && "status" in scene.attrs
  }

  /** The scene makes the recorder save: its status is one of the saving statuses. */
  predicate Saves(savingStatus: seq<Value>, scene: Value) {
    HasStatus(scene) && scene.attrs["status"] in savingStatus
  }

  /** The name of a file written at `timestamp`: the fixed file name when one is given and non-empty, else the timestamp. */
  function SaveName(filename: Option<string>, timestamp: string): string {
    if filename.Some? && filename.value != "" then filename.value else timestamp + ".pickle"
  }

  /** A written list: non-empty, its last scene saves and no earlier one does. */
  ghost predicate SavedAtEnd(savingStatus: seq<Value>, scenes: seq<Value>) {
    scenes != [] && Saves(savingStatus, scenes[|scenes| - 1])
    && forall j :: 0 <= j < |scenes| - 1 ==> !Saves(savingStatus, scenes[j])
  }

  /** The files and the pending list cut the recorded scenes right after each saving scene. */
  ghost predicate CutAtSaves(savingStatus: seq<Value>, saved: seq<(string, seq<Value>)>, pending: seq<Value>, recorded: seq<Value>) {
    Flatten(saved) + pending == recorded
    && (forall k :: 0 <= k < |saved| ==> SavedAtEnd(savingStatus, saved[k].1))
    && (forall j :: 0 <= j < |pending| ==> !Saves(savingStatus, pending[j]))
  }

  /** Recording a scene that does not save extends the pending list. */
  lemma PendKeepsCut(savingStatus: seq<Value>, saved: seq<(string, seq<Value>)>, pending: seq<Value>, recorded: seq<Value>, scene: Value)
    requires CutAtSaves(savingStatus, saved, pending, recorded) && !Saves(savingStatus, scene)
    ensures CutAtSaves(savingStatus, saved, pending + [scene], recorded + [scene])
  {
  }

  /** Recording a saving scene writes the pending list with it and leaves nothing pending. */
  lemma SaveKeepsCut(savingStatus: seq<Value>, saved: seq<(string, seq<Value>)>, pending: seq<Value>, recorded: seq<Value>, scene: Value, name: string)
    requires CutAtSaves(savingStatus, saved, pending, recorded) && Saves(savingStatus, scene)
    ensures CutAtSaves(savingStatus, saved + [(name, pending + [scene])], [], recorded + [scene])
  {
    FlattenSnoc(saved, (name, pending + [scene]));
    var s' := saved + [(name, pending + [scene])];
    forall k | 0 <= k < |s'|
      ensures SavedAtEnd(savingStatus, s'[k].1)
    {
      if k < |saved| {
        assert s'[k] == saved[k];
      }
    }
  }

  /** `Recorder`: the saving statuses, the optional fixed file name, the pending list and the files written. */
  class StatusRecorder {
    const savingStatus: seq<Value>
    const filename: Option<string>
    var sceneInfoList: seq<Value>
    var saved: seq<(string, seq<Value>)>
    /** Every scene ever recorded, in order. */
    ghost var recorded: seq<Value>

    /**
     * The recorded scenes are cut into files right after each saving
     * scene: every file ends with its only saving scene, the pending list
     * holds none, and together they hold exactly what was recorded.
     */
    ghost predicate Valid()
      reads this
    {
      CutAtSaves(savingStatus, saved, sceneInfoList, recorded)
    }

    constructor(status: seq<Value>, name: Option<string>)
      ensures Valid() && savingStatus == status && filename == name
      ensures sceneInfoList == [] && saved == [] && recorded == []
    {
      savingStatus, filename := status, name;
      sceneInfoList, saved := [], [];
      recorded := [];
    }

    /**
     * `record_scene_info`: the scene is appended; when its status is a
     * saving status the list, that scene included, is written and cleared.
     * A scene without a status raises AttributeError after it was appended.
     */
    method RecordSceneInfo(scene: Value, timestamp: string) returns (o: Outcome<PyException>)
      requires Valid()
      modifies this
      ensures Valid() && recorded == old(recorded) + [scene]
      ensures !HasStatus(scene) ==>
        o == Fail(AttributeError("status"))
        && sceneInfoList == old(sceneInfoList) + [scene] && saved == old(saved)
      ensures HasStatus(scene) && !Saves(savingStatus, scene) ==>
        o == Pass && sceneInfoList == old(sceneInfoList) + [scene] && saved == old(saved)
      ensures Saves(savingStatus, scene) ==>
        o == Pass && sceneInfoList == []
        && saved == old(saved) + [(SaveName(filename, timestamp), old(sceneInfoList) + [scene])]
    {
      if !HasStatus(scene) || scene.attrs["status"] !in savingStatus {
        PendKeepsCut(savingStatus, saved, sceneInfoList, recorded, scene);
      } else {
        SaveKeepsCut(savingStatus, saved, sceneInfoList, recorded, scene, SaveName(filename, timestamp));
      }
      sceneInfoList := sceneInfoList + [scene];
      recorded := recorded + [scene];
      if !HasStatus(scene) {
        return Fail(AttributeError("status"));
      }
      if scene.attrs["status"] in savingStatus {
        SaveToFile(timestamp);
        sceneInfoList := [];
      }
      return Pass;
    }

    /** `__save_to_file`: the list is written under the fixed name or the timestamp. */
    method SaveToFile(timestamp: string)
      modifies this
      ensures saved == old(saved) + [(SaveName(filename, timestamp), sceneInfoList)]
      ensures sceneInfoList == old(sceneInfoList) && recorded == old(recorded)
    {
      var name := timestamp + ".pickle";
      if filename.Some? && filename.value != "" {
        name := filename.value;
      }
      saved := saved + [(name, sceneInfoList)];
    }
  }
}

/**
 * essential/recorder.py: the same recorder with the saving statuses fixed to
 * the two end-of-game statuses of `BasicSceneInfo` and the timestamp as
 * file name.
 */
module EssentialRecording {
  import opened Wrappers
  import opened PyValue
  import opened EssentialSceneRecording

  const STATUS_GAME_OVER := "GAME_OVER"
  const STATUS_GAME_PASS := "GAME_PASS"

  /** The statuses that end a recorded game. */
  const TERMINAL_STATUSES := [StrV(STATUS_GAME_OVER), StrV(STATUS_GAME_PASS)]

  /** A scene is saved exactly when its status is GAME_OVER or GAME_PASS. */
  lemma TerminalSaves(scene: Value)
    ensures Saves(TERMINAL_STATUSES, scene) <==>
      HasStatus(scene) && (scene.attrs["status"] == StrV(STATUS_GAME_OVER) || scene.attrs["status"] == StrV(STATUS_GAME_PASS))
  {
  }

  /** `Recorder(saving_directory)`: an empty recorder that saves on the end-of-game statuses under timestamp names. */
  method NewRecorder() returns (r: StatusRecorder)
    ensures fresh(r) && r.Valid() && r.savingStatus == TERMINAL_STATUSES && r.filename == None
    ensures r.sceneInfoList == [] && r.saved == [] && r.recorded == []
    ensures forall t :: SaveName(r.filename, t) == t + ".pickle"
  {
    r := new StatusRecorder(TERMINAL_STATUSES, None);
  }
}
