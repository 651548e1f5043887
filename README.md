# MLGame, modelled in Dafny

MLGame is a framework for running small pygame games against machine-learning
(ML) players. The game process runs the game loop. Each player runs in its
own ML process, or, for a player written in another language, in a
subprocess bridged by an ML process. The two sides talk through named pipes.
Every frame, the game sends its scene information to every ML process, takes
whatever commands have arrived without waiting, records the scene, and
updates the game. When a round ends, the final scene is sent and recorded,
and the game either stops or resets and waits until every ML process says
"READY" again.

This project models, in Dafny:

- the framework core:
  - the pipe registries and managers (`Communication`, `CommunicationBase`, `GameComm`, `EssentialGameComm`);
  - the loop executors of both sides (`Loops`);
  - the process managers (`ProcessManagement`, `EssentialProcess`);
  - the cross-language client and its bridge (`CrosslangClient`, `CrosslangBridge`);
  - the game configuration (`GameConfiguration`, `EssentialConfig`, `GameParams`);
  - the recorders (`Recording`, `GamedevRecording`, `EssentialSceneRecording`, `EssentialRecording`);
  - the exception family (`Exceptions`), the delegate slot (`Delegate`) and the string enum (`StringEnums`);
  - the physics helpers (`Physics`, `EssentialPhysics`);
- the games built on it:
  - snake (`SnakeGameObject`, `SnakeGameCore`);
  - arkanoid (`ArkanoidGameObject`, `ArkanoidGameCore`, `ArkanoidMl`);
  - ping-pong (`PingPongGameCore`, `PingPongGame`);
  - the older arkanoid and ping-pong scenes (`LegacyArkanoid`, `LegacyPingPong`).

Code that updates state in place is modelled as classes whose methods change
their fields. These include the registries, the executors, the managers, the
recorders, the scenes and their sprites. Each method is proved against
specification functions, and lemmas state what those functions guarantee.
Pure rules are modelled as functions. These include the physics tests, the
command validation, the level parsing, the delay and score rules and the
result strings.

Shared helper modules:

- `Wrappers`: Option, Result and Outcome.
- `PyValue`: the Python objects that cross the pipes.
- `Geometry`: pygame's `Rect` on integers.
- `PyText`: the Python string operations used.

## Model

| member | source | states |
|---|---|---|
| StringEnums.AutoMember | mlgame/utils/enum.py:4-5 | `auto()` gives a member its own name as its value |
| StringEnums.DunderEq | mlgame/utils/enum.py:7-13 | `__eq__` against a str compares the value; against a non-str non-member it is False; against a member it is True for the same member and NotImplemented for another |
| StringEnums.EqualsStr | essential/utils/enum.py:4-10 | `==` between a member and a str, on either side, holds exactly when the member's value is that str |
| StringEnums.EqualsMembers | mlgame/utils/enum.py:7-9 | `==` between two members holds exactly when they are the same member |
| StringEnums.EqualsOther | mlgame/utils/enum.py:13 | a member never equals an object that is neither a member nor a str, on either side |
| StringEnums.NotEqualsAsWrittenDistinctMembers | mlgame/utils/enum.py:15-16 | for two different members `==` is False and `!=` as written is False as well |
| StringEnums.NotEqualsMembers | essential/utils/enum.py:12-13 | the `!=` evidently intended, the negation of `==`: two members are unequal exactly when they differ. The lines cited write `not self.__eq__(other)`, the same as mlgame/utils/enum.py:15-16, so as written they have the flaw `NotEqualsAsWrittenDistinctMembers` shows |
| StringEnums.NotEqualsAgreement | essential/utils/enum.py:12-13 | the written (in both enum modules) and the intended `!=` agree on every operand except a different member |
| Delegate.FunctionDelegate.constructor | mlgame/utils/delegate.py:14-15 | a new slot has no target |
| Delegate.FunctionDelegate.SetFunction | mlgame/utils/delegate.py:17-29 | a second call raises and keeps the first target; a non-callable raises and sets nothing; otherwise the target is set |
| Delegate.FunctionDelegate.Call | mlgame/utils/delegate.py:31-40 | RuntimeError "The target function is not specified." while unset; otherwise the target's result on the same arguments |
| Exceptions.StartIndex | mlgame/exception.py:36-40 | the index the search loop stops on is a valid line index whenever there is a line |
| Exceptions.TrimCallstack | mlgame/exception.py:28-42 | the loop computes the trimmed message of the specification function `Trimmed` |
| Exceptions.SearchFromSpec | mlgame/exception.py:37-40 | the search stops at the first line from its start holding the target, or at the last line |
| Exceptions.TrimmedStartsWithTitle | mlgame/exception.py:32-34 | an empty message raises IndexError; any other result starts with the message's first line |
| Exceptions.TrimmedLongMessage | mlgame/exception.py:36-42 | with three or more lines the result is the title followed by every line from the first index at least 2 whose line holds the target, else from the last line |
| Exceptions.TrimmedNoMatch | mlgame/exception.py:36-42 | with no line from index 2 on holding the target, only the title and the last line remain |
| Exceptions.TrimmedShortMessage | mlgame/exception.py:36-42 | for one or two lines the loop never runs: the result is the title followed by the whole message |
| Exceptions.TrimmedKeepsSuffix | mlgame/exception.py:32-42 | everything after the title is a verbatim suffix of the message |
| Recording.FilenamePrefix | mlgame/recorder.py:20-24 | the prefix starts with "manual" or "ml", and when no parameter holds "_" it splits back at "_" into that word and the parameters |
| Recording.PrefixSplitsBack | mlgame/recorder.py:22-24 | a mode word followed by "_"-free parameters joined by "_" splits back into the word and the parameters |
| Recording.FilenamePrefixInjective | mlgame/recorder.py:20-24 | two runs whose parameters hold no "_" get the same prefix only when they have the same mode and the same parameters |
| Recording.PickleName | mlgame/recorder.py:83-86 | the name is the prefix and "_" (when the prefix is non-empty), then the timestamp and ".pickle" |
| Recording.PickleNameInjective | mlgame/recorder.py:83-86 | two different prefixes never give the same name within one second |
| Recording.RecordedFor | mlgame/recorder.py:72-77 | recording keeps the set of slots |
| Recording.RecordedForBalanced | mlgame/recorder.py:75-77 | every slot keeps as many commands as scene informations |
| Recording.RecordedForSlot | mlgame/recorder.py:72-77 | a slot is only extended, only for a listed client with truthy scene information, and a client listed once gets exactly its scene and its command or None |
| Recording.Recorder.constructor | mlgame/recorder.py:47-61 | one empty slot per client, the given prefix, and the "record_format_version" entry 2 unless a client of that name replaces it |
| Recording.Recorder.Record | mlgame/recorder.py:63-77 | the progress becomes `RecordedFor` of the old progress; nothing is written |
| Recording.Recorder.FlushToFile | mlgame/recorder.py:79-95 | the progress, with its format version entry, is written under `PickleName`, then every client's slot is emptied and no slot is added or lost |
| Recording.GetRecorder | mlgame/recorder.py:9-26 | no recorder when recording is off; otherwise a recorder for the clients with `FilenamePrefix` of the run and format version 2 |
| Recording.NewRecorder | mlgame/recorder.py:47-48 | a prefix that is not a str raises TypeError "'filename_prefix' should be the type of 'str'" |
| GamedevRecording.Flatten | mlgame/gamedev/recorder.py:39-43 | no file gives no items; every file is no longer than all of them together, and each of its items is among them |
| GamedevRecording.FlattenSnoc | mlgame/gamedev/recorder.py:39-43 | writing one more file adds its items at the end |
| GamedevRecording.SceneRecorder.constructor | mlgame/gamedev/recorder.py:10-18 | the list starts empty and nothing is written |
| GamedevRecording.SceneRecorder.RecordSceneInfo | mlgame/gamedev/recorder.py:45-53 | exactly one item more, at the end; nothing is written |
| GamedevRecording.SceneRecorder.FlushToFile | mlgame/gamedev/recorder.py:24-43 | a non-str prefix raises TypeError and changes nothing; otherwise the list is written under the prefixed timestamp name and then cleared |
| GamedevRecording.RecorderHelper.constructor | mlgame/gamedev/recorder.py:60-72 | a fresh empty recorder with the given watched members and prefix |
| GamedevRecording.RecorderHelper.RecordHandler | mlgame/gamedev/recorder.py:74-89 | the progress is always recorded; the recorder is flushed once exactly when some watched member holds a truthy listed value, and not otherwise |
| EssentialSceneRecording.PendKeepsCut | essential/gamedev/recorder.py:50-53 | a scene that does not save extends the pending list and keeps every saved file a run of recorded scenes ending in a saving one |
| EssentialSceneRecording.SaveKeepsCut | essential/gamedev/recorder.py:50-53 | a saving scene writes the pending list with it and leaves nothing pending |
| EssentialSceneRecording.StatusRecorder.constructor | essential/gamedev/recorder.py:9-23 | an empty list, the given statuses and file name, nothing written |
| EssentialSceneRecording.StatusRecorder.RecordSceneInfo | essential/gamedev/recorder.py:40-53 | the scene is appended; a scene whose status is a saving one writes the list, itself included, and clears it; a scene without a status raises AttributeError |
| EssentialSceneRecording.StatusRecorder.SaveToFile | essential/gamedev/recorder.py:30-38 | the list is written under the fixed name, or the timestamp name when none is given |
| EssentialRecording.TerminalSaves | essential/recorder.py:21-26 | a scene is written exactly when its status is GAME_OVER or GAME_PASS |
| EssentialRecording.NewRecorder | essential/recorder.py:5-8 | an empty recorder that saves on the end-of-game statuses under timestamp names |
| Communication.PipeEnd | mlgame/communication.py:25-55 | one end of a fresh pipe provides `recv`, `poll` and `send`, is truthy and not broken, holds the given waiting objects and has sent nothing |
| Communication.ReceiveEach | mlgame/communication.py:106-110 | the loop of `recv_all`: the result has exactly the registered names; it blocks exactly when waiting and some end is empty; otherwise each name maps to its end's first object or None, and each end has moved on by one |
| Communication.FirstBroken | mlgame/communication.py:127-128 | the first position in dict order whose sending end is broken, or the number of names when none is |
| Communication.SentToEvery | mlgame/communication.py:127-128 | with no end broken, the loop gets through every name and every end has sent the object once |
| Communication.SendEach | mlgame/communication.py:127-128 | the loop of `send_all`: it passes exactly when no end is broken, and then every end has sent the object once; otherwise BrokenPipeError, after exactly the ends before the first broken one in dict order have sent it (`FirstBroken`) |
| Communication.FirstMLError | mlgame/communication.py:217-220 | the first position in name order whose end holds an MLProcessError first, or the number of names when none does |
| Communication.ReceiveEachFromMl | mlgame/communication.py:217-220 | the loop of `recv_from_all_ml`: it never waits; it returns exactly when no first object is an MLProcessError, and then each name maps to its end's first object or None; otherwise the error raised is that of `FirstMLError`, every end up to it has been read and no end after it |
| Communication.StopsAtFirstError | mlgame/communication.py:217-220 | a receive loop that raises at a position has stopped at the first error in name order |
| Communication.ReceivedFromAll | mlgame/communication.py:217-220 | when every name was received from without an error, the results are the ends' first objects and every end has moved on |
| Communication.CommunicationSet.constructor | mlgame/communication.py:21-23 | both registries start empty |
| Communication.CommunicationSet.AddRecvEnd | mlgame/communication.py:25-39 | a taken name raises ValueError, then an object without `recv` or `poll` raises ValueError, each leaving the registry as it was; otherwise the object is registered under the name, appended to the name order |
| Communication.CommunicationSet.AddSendEnd | mlgame/communication.py:41-55 | a taken name, then an object without `send`, raise ValueError and change nothing; otherwise the object is registered |
| Communication.CommunicationSet.RecvEndNames | mlgame/communication.py:57-63 | every registered receiving name, each once |
| Communication.CommunicationSet.SendEndNames | mlgame/communication.py:65-71 | every registered sending name, each once |
| Communication.CommunicationSet.Poll | mlgame/communication.py:73-79 | KeyError for an unknown name; otherwise whether an object waits |
| Communication.CommunicationSet.Recv | mlgame/communication.py:81-93 | KeyError for an unknown name; without waiting an empty end gives None and is left alone; otherwise the first waiting object is taken, and a wait on an empty end blocks |
| Communication.CommunicationSet.RecvAll | mlgame/communication.py:95-110 | the same as `ReceiveEach` on the registry: never a failure, blocking exactly when waiting on an empty end, otherwise a dict of every name's first object or None |
| Communication.CommunicationSet.Send | mlgame/communication.py:112-119 | KeyError for an unknown name, BrokenPipeError for a broken end, otherwise exactly that end has sent the object |
| Communication.CommunicationSet.SendAll | mlgame/communication.py:121-128 | passes exactly when no end is broken, and then every end has sent the object once; otherwise BrokenPipeError, with exactly the ends before the first broken one having sent it |
| Communication.CommunicationHandler.constructor | mlgame/communication.py:135-137 | both ends unset |
| Communication.CommunicationHandler.SetRecvEnd | mlgame/communication.py:139-148 | an object without `recv` or `poll` raises ValueError and is not set; otherwise it becomes the receiving end; the sending end is kept |
| Communication.CommunicationHandler.SetSendEnd | mlgame/communication.py:150-159 | an object without `send` raises ValueError and is not set; otherwise it becomes the sending end |
| Communication.CommunicationHandler.Poll | mlgame/communication.py:161-162 | AttributeError on an unset end; otherwise whether an object waits |
| Communication.CommunicationHandler.Recv | mlgame/communication.py:164-165 | AttributeError on an unset end; otherwise the first waiting object, or a block when none waits |
| Communication.CommunicationHandler.Send | mlgame/communication.py:167-168 | AttributeError on an unset end, BrokenPipeError on a broken one, otherwise the object is sent |
| Communication.RaiseMLError | mlgame/communication.py:208-211 | a received MLProcessError is raised and anything else, None included, is returned unchanged |
| Communication.GameCommManager.constructor | mlgame/communication.py:174-175 | an empty registry |
| Communication.GameCommManager.AddCommToMl | mlgame/communication.py:177-182 | the receiving object is registered first and the sending one second under the ML name; a failing second registration leaves the first in place |
| Communication.GameCommManager.MLNames | mlgame/communication.py:184-188 | the registered ML names, each once |
| Communication.GameCommManager.SendToMl | mlgame/communication.py:190-194 | KeyError for an unknown name, BrokenPipeError for a broken end, otherwise the object is sent to that process |
| Communication.GameCommManager.SendToAllMl | mlgame/communication.py:196-200 | the object reaches every process exactly when no end is broken; otherwise BrokenPipeError, and it has reached exactly the processes before the first broken end in name order |
| Communication.GameCommManager.RecvFromMl | mlgame/communication.py:202-211 | KeyError for an unknown name; otherwise a non-blocking receive whose MLProcessError is raised and any other object returned |
| Communication.GameCommManager.RecvFromAllMl | mlgame/communication.py:213-220 | a dict of every process's first object or None exactly when none of them is an MLProcessError; otherwise the error of `FirstMLError` in name order is raised, the ends up to it have been read and the later ones are untouched |
| Communication.LastN | mlgame/communication.py:244 | the last `n` objects of a stream, or all of them when there are fewer |
| Communication.LastNAppend | mlgame/communication.py:255-263 | keeping the last `n` step by step keeps the last `n` of the whole stream |
| Communication.MakeRoom | mlgame/communication.py:256-257 | after dropping the oldest object of a full queue there is room for one more |
| Communication.MakeRoomThenPut | mlgame/communication.py:256-263 | dropping the oldest and then putting keeps the last 15 objects |
| Communication.ReaderPut | mlgame/communication.py:255-263 | one round of the reader keeps the queue equal to the last 15 objects received |
| Communication.FirstIndex | mlgame/communication.py:264-265 | the index of the first occurrence, which is the length exactly when there is none |
| Communication.FirstIndexAt | mlgame/communication.py:264-265 | up to the first occurrence, an element is the value exactly at that index |
| Communication.ReadUntilNone | mlgame/communication.py:255-265 | the reader loop keeps at most 15 objects and stops right after the first None, holding the last 15 objects received through it |
| Communication.MLCommManager.constructor | mlgame/communication.py:226-228 | a handler with both ends unset, no queue, nothing printed |
| Communication.MLCommManager.SetCommToGame | mlgame/communication.py:230-238 | the receiving object is checked and set first, then the sending one; a failure of the second keeps the first |
| Communication.MLCommManager.StartRecvObjThread | mlgame/communication.py:240-247 | a fresh empty queue |
| Communication.MLCommManager.KeepRecvObjFromGame | mlgame/communication.py:249-265 | the reader run to its stop: the queue holds the last 15 objects up to and including the first None, or blocks on an exhausted channel |
| Communication.MLCommManager.RecvFromGame | mlgame/communication.py:267-273 | AttributeError before the queue exists; otherwise the oldest queued object is taken, and an empty queue blocks |
| Communication.MLCommManager.SendToGame | mlgame/communication.py:275-285 | a BrokenPipeError is reported with the process's name and swallowed; otherwise the object is sent |
| CommunicationBase.RecvAllAsWritten | mlgame/communication/base.py:90-105 | as written: an empty registry gives `{}`; otherwise the first end loses one object and NameError is raised |
| CommunicationBase.RecvAllCounterexample | mlgame/communication/base.py:101-105 | one end holding one object: NameError as written, where the intended loop returns the object under its name |
| CommunicationBase.AssignEnds | mlgame/communication/base.py:125-140 | the handler's ends are plain attributes: whatever is assigned is stored, with no capability check |
| CommunicationBase.Slots.constructor | mlgame/communication/base.py:142-173 | the six module-level delegate slots start unset |
| GameComm.DrainUntilReady | mlgame/communication/game.py:50-51 | the loop takes every object up to and including the first "READY"; it returns exactly when there is one, and blocks otherwise |
| GameComm.WaitMlReady | mlgame/communication/game.py:44-51 | KeyError for an unknown name; otherwise only that end is drained through its first "READY" |
| GameComm.FirstPassThenDrain | mlgame/communication/game.py:57-62 | a first receive without waiting, then draining unless it was "READY", takes exactly what draining from the start takes |
| GameComm.FirstPass | mlgame/communication/game.py:57 | one receive from every end without waiting: each name's first object or None |
| GameComm.DrainedThroughStep | mlgame/communication/game.py:60-62 | draining one more name extends the drained prefix by that name alone |
| GameComm.AllNamesReady | mlgame/communication/game.py:60-62 | "READY" waiting on every name of the order is "READY" on every end |
| GameComm.DrainedThroughAll | mlgame/communication/game.py:60-62 | draining every name leaves every end taken through its first "READY" |
| GameComm.WaitOne | mlgame/communication/game.py:61-62 | one round of the second loop drains exactly the next end and succeeds exactly when it holds "READY" |
| GameComm.WaitAllReady | mlgame/communication/game.py:53-62 | returns exactly when every end holds "READY", and then every end is taken through it; otherwise it blocks on an end without one |
| GameComm.WaitAllMlReady | mlgame/communication/game.py:53-62 | `WaitAllReady` on the registry; names and sending ends are kept |
| EssentialGameComm.IsCmdValid | essential/communication/game.py:89-103 | the loop accepts a command exactly when it is an instance of the class and every checked member is present with an allowed value |
| EssentialGameComm.Recv | essential/communication/game.py:105-118 | a valid command is returned as received; anything else, None included, gives the default |
| EssentialGameComm.RecvAll | essential/communication/game.py:120-133 | the names stay, valid commands stay and every invalid one becomes the default |
| EssentialGameComm.SanitizedAccepted | essential/communication/game.py:129-133 | every command handed over is valid or the default |
| EssentialGameComm.SanitizedIdempotent | essential/communication/game.py:129-133 | checking the commands a second time changes nothing |
| Physics.CollideOrContactSharesPoint | mlgame/gamedev/physics.py:9-21 | for rects of non-negative size, `collide_or_contact` holds exactly when the two closed rects share a point, and it is symmetric |
| Physics.LineIntersectSound | mlgame/gamedev/physics.py:53-97 | whenever `line_intersect` answers true the two segments have a common point |
| Physics.MeetingFixesParameters | mlgame/gamedev/physics.py:81-91 | a common point of two segments fixes the Cramer parameters: s·det and t·det are the scaled `s_det` and `t_det` |
| Physics.LineIntersectIff | mlgame/gamedev/physics.py:62-97 | for segments with no shared end point, `line_intersect` holds exactly when they are not parallel and meet |
| Physics.CollinearOverlapMeets | mlgame/gamedev/physics.py:85-87 | the segments (0,0)-(2,0) and (1,0)-(3,0) overlap |
| Physics.CollinearOverlapMissed | mlgame/gamedev/physics.py:85-87 | yet `line_intersect` reports them apart, because their determinant is 0 |
| Physics.SegmentsMeetSymmetric | mlgame/gamedev/physics.py:53-97 | meeting is symmetric in the two segments |
| Physics.LineIntersectSymmetric | mlgame/gamedev/physics.py:53-97 | `line_intersect` does not depend on the order of its segments |
| Physics.RectCollideLineSound | mlgame/gamedev/physics.py:99-120 | whenever `rect_collideline` answers true the segment has a point in the closed rect |
| Geometry.InflatedIsClosed | mlgame/gamedev/physics.py:108-109 | after `inflate(1, 1)`, `collidepoint` accepts exactly the points of the closed rect |
| Physics.MovingContactSound | mlgame/gamedev/physics.py:23-51 | a reported moving contact has a corner that started outside the closed target and whose path from its last position reaches the target |
| Physics.AxisContactOf | mlgame/gamedev/physics.py:149-182 | on one axis, when the rect was not entirely on one side of the hit rect one frame ago, the fallback surface distance makes the hit time negative, so that axis is never flipped |
| Physics.BounceFlips | mlgame/gamedev/physics.py:185-194 | an axis is flipped only when the rect was entirely on one side of the hit rect on that axis one frame ago |
| Physics.BounceOff | mlgame/gamedev/physics.py:196-210 | ZeroDivisionError exactly when a relative speed component is 0; otherwise the size is kept, each speed component is kept or negated, and a rect moved on an axis lands flush against a face of the hit rect |
| Physics.BounceOffFromAbove | mlgame/gamedev/physics.py:163-169 | a rect fully above the hit rect one frame ago, moving down relative to it and overlapping it horizontally, lands on its top with its y speed negated and its x speed kept |
| Physics.BounceOffIp | mlgame/gamedev/physics.py:135-194 | the rect object and the speed list end as `BounceOff` computes, or stay as they were when it raises |
| Physics.BounceInBox | mlgame/gamedev/physics.py:235-248 | on each axis the rect is clamped to the first box edge it reaches or crosses (left before right, top before bottom) and that speed component is negated; otherwise both are kept; the size is kept |
| Physics.BounceInBoxStaysInside | mlgame/gamedev/physics.py:212-233 | a rect no larger than the box ends inside the closed box |
| Physics.BounceInBoxNeedsContact | mlgame/gamedev/physics.py:122-133 | when `rect_break_or_contact_box` is false nothing changes, and any change means it was true |
| Physics.BounceInBoxIp | mlgame/gamedev/physics.py:212-233 | the rect object and the speed list end as `BounceInBox` computes |
| EssentialPhysics.TangentIsContact | essential/physics.py:8-20 | `collide_or_tangent` and the newer `collide_or_contact` agree on every pair of rects |
| EssentialPhysics.BounceOff | essential/physics.py:22-59 | the size is kept, each speed component is kept or negated, and a rect moved on an axis has that component negated and lies flush against a face of the hit rect |
| EssentialPhysics.BounceOffAgreesFromAbove | essential/physics.py:22-59 | where the newer `bounce_off` lands a rect coming from above, the older rule gives the same rect and speed |
| EssentialPhysics.BounceOffIp | essential/physics.py:22-59 | the rect object and the speed list end as `BounceOff` computes; it never raises |
| EssentialPhysics.BounceInBox | essential/physics.py:61-91 | clamps and negates exactly as the newer `bounce_in_box_ip`, and returns True exactly when `rect_break_or_contact_box` held before the call |
| ArkanoidGameObject.NewBrick | games/arkanoid/game/gameobject.py:11-34 | a brick is 25 x 10 at its position, and a hard brick starts with 2 hit points |
| ArkanoidGameObject.ResetBrick | games/arkanoid/game/gameobject.py:36-39 | a reset hard brick has 2 hit points again; rect and kind are kept |
| ArkanoidGameObject.ActionOf | games/arkanoid/game/gameobject.py:52-57 | a string found as an action is that action's value; any other string gives none (ValueError) |
| ArkanoidGameObject.ActionValueRoundTrip | games/arkanoid/game/gameobject.py:52-57 | every action is found again from its value |
| ArkanoidGameObject.PlatformShift | games/arkanoid/game/gameobject.py:85-95 | the x speed is -5 exactly for MOVE_LEFT away from the left wall, +5 exactly for MOVE_RIGHT away from the right wall, 0 otherwise |
| ArkanoidGameObject.Platform.constructor | games/arkanoid/game/gameobject.py:62-71 | a 40 x 5 platform at its position with speed (0, 0) |
| ArkanoidGameObject.Platform.Reset | games/arkanoid/game/gameobject.py:82-83 | back at the initial position, 40 x 5 |
| ArkanoidGameObject.Platform.Move | games/arkanoid/game/gameobject.py:85-95 | the speed is set by `PlatformShift` and the platform moves by it; y never changes |
| ArkanoidGameObject.SliceBall | games/arkanoid/game/gameobject.py:171-187 | the new x speed is ±7 or ±10; ±10 exactly when the platform moves the ball's way, then keeping its direction; a still platform keeps the direction at 7 |
| ArkanoidGameObject.PlatformBounce | games/arkanoid/game/gameobject.py:146-153 | the bounce off the platform keeps the size; it fails exactly when `bounce_off` divides by zero; the x speed is sliced exactly when slicing is on and the ball goes up |
| ArkanoidGameObject.InBox | games/arkanoid/game/gameobject.py:155-156 | the wall step is `bounce_in_box` |
| ArkanoidGameObject.BouncingOf | games/arkanoid/game/gameobject.py:141-156 | fails exactly when the ball touches the platform and the bounce divides by zero; without contact only the walls act; the size is kept |
| ArkanoidGameObject.BouncingStaysInside | games/arkanoid/game/gameobject.py:141-156 | a ball no larger than the area ends `check_bouncing` inside it |
| ArkanoidGameObject.ComputeBouncing | games/arkanoid/game/gameobject.py:141-156 | the body of `check_bouncing` on values computes `BouncingOf` |
| ArkanoidGameObject.Hits | games/arkanoid/game/gameobject.py:198-199 | the touched bricks are bricks of the group that the ball touches, no more than the group holds |
| ArkanoidGameObject.HitsComplete | games/arkanoid/game/gameobject.py:198-199 | every brick of the group the ball touches is among the hits |
| ArkanoidGameObject.Misses | games/arkanoid/game/gameobject.py:198-199 | the bricks left are the untouched ones; together with the hits they are as many as the group; with no hit the group is unchanged |
| ArkanoidGameObject.Survivors | games/arkanoid/game/gameobject.py:212-216 | the bricks put back are hit hard bricks with hit points left |
| ArkanoidGameObject.BrickHitConserves | games/arkanoid/game/gameobject.py:189-218 | the bricks left and the bricks destroyed add up to the group |
| ArkanoidGameObject.BrickHitRemaining | games/arkanoid/game/gameobject.py:189-218 | a brick left in the group was not touched, or is a hard brick that survived its hit |
| ArkanoidGameObject.KeepSurvivors | games/arkanoid/game/gameobject.py:212-216 | the loop puts the surviving hard bricks back and counts one brick less for each |
| ArkanoidGameObject.BrickHitKeepsSize | games/arkanoid/game/gameobject.py:202-210 | the bounce off the touched bricks keeps the ball's size |
| ArkanoidGameObject.ComputeBrickHit | games/arkanoid/game/gameobject.py:189-218 | the method computes `BrickHitOf`: the touched bricks leave, the ball bounces off the first one or the union of two aligned ones, and at x speed 7 the hard ones take a hit |
| ArkanoidGameObject.Ball.constructor | games/arkanoid/game/gameobject.py:98-112 | a 5 x 5 ball at its position with speed (0, 0), no platform hits, slicing as given |
| ArkanoidGameObject.Ball.Reset | games/arkanoid/game/gameobject.py:123-126 | the initial position, speed (0, 0), no platform hits |
| ArkanoidGameObject.Ball.StickOnPlatform | games/arkanoid/game/gameobject.py:128-129 | the ball is centred horizontally on the given x; nothing else changes |
| ArkanoidGameObject.Ball.Serve | games/arkanoid/game/gameobject.py:131-135 | SERVE_TO_LEFT gives speed (-7, -7), SERVE_TO_RIGHT (7, -7), anything else keeps the speed |
| ArkanoidGameObject.Ball.Move | games/arkanoid/game/gameobject.py:137-139 | the previous rect is remembered, then the ball moves by exactly its speed |
| ArkanoidGameObject.Ball.CheckBouncing | games/arkanoid/game/gameobject.py:141-169 | a platform contact, or a corner path crossing it, counts one hit; the ball ends as `BouncingOf` says, or the bounce's error is raised |
| ArkanoidGameObject.Ball.CheckHitBrick | games/arkanoid/game/gameobject.py:189-218 | the group and the ball change as `BrickHitOf` says, and the destroyed count is returned; a failed bounce raises with the touched bricks already gone |
| ArkanoidGameCore.AllOrFirstError | games/arkanoid/game/gamecore.py:90-101 | the lines' values in order exactly when every line reads, otherwise the error of the first line that fails |
| ArkanoidGameCore.CoordinatesOfLevelLine | games/arkanoid/game/gamecore.py:79-81 | reading the line written for (x, y, t) gives (x, y, t) back |
| ArkanoidGameCore.CoordinatesShortLine | games/arkanoid/game/gamecore.py:79-81 | a line of fewer than three fields raises: IndexError when its fields are numbers |
| ArkanoidGameCore.EmptyLevelFails | games/arkanoid/game/gamecore.py:90-91 | an empty level file raises ValueError "invalid literal for int() with base 10: ''" |
| ArkanoidGameCore.LevelBricksStartFull | games/arkanoid/game/gamecore.py:94-101 | every hard brick a level creates has 2 hit points |
| ArkanoidGameCore.ParseLevelOfLines | games/arkanoid/game/gamecore.py:78-101 | a level written from an offset line and brick lines reads back as those bricks, each at offset plus position, hard exactly where the type is not 0 |
| ArkanoidGameCore.ReadLevel | games/arkanoid/game/gamecore.py:90-91 | the offset line, then the brick lines: the result is the specification function `ParseLevel` |
| ArkanoidGameCore.ReadBricks | games/arkanoid/game/gamecore.py:92-101 | the loop appends one brick per line and stops at the first line that fails, as `PlaceLines` says |
| ArkanoidGameCore.SurvivorsHaveOneHp | games/arkanoid/game/gameobject.py:41-50 | a hit hard brick that stays has one hit point left |
| ArkanoidGameCore.BrickHitKeepsHitPoints | games/arkanoid/game/gameobject.py:212-216 | hitting bricks keeps every hard brick of the group at one or two hit points |
| ArkanoidGameCore.StatusOf | games/arkanoid/game/gamecore.py:125-130 | GAME_PASS exactly when no brick is left; otherwise GAME_OVER exactly when the ball's top is at or below the platform's bottom, else GAME_ALIVE |
| ArkanoidGameCore.PositionsPartition | games/arkanoid/game/gamecore.py:147-151 | every brick of the group is listed once: among the hard bricks when it has 2 hit points, else among the bricks |
| ArkanoidGameCore.Scene.constructor | games/arkanoid/game/gamecore.py:60-76 | frame 0, alive, every brick of the level in play, the ball and platform at their start, slicing unless the difficulty is EASY |
| ArkanoidGameCore.Scene.Reset | games/arkanoid/game/gamecore.py:103-114 | frame 0, alive, ball and platform at their start, every brick back in play with full hit points, each one as `ResetBrick` leaves it |
| ArkanoidGameCore.FrameBall | games/arkanoid/game/gamecore.py:119-123 | the ball after a frame's move, brick bounce and platform/wall bounce; it keeps its size, ends inside the area, and only a ZeroDivisionError stops it |
| ArkanoidGameCore.FrameBallInOpenSpace | games/arkanoid/game/gamecore.py:119-123 | a ball that touches no brick, no platform and no wall just moves by its speed and counts no platform hit |
| ArkanoidGameCore.FrameStatus | games/arkanoid/game/gamecore.py:116-132 | the status a frame's update returns, from the scene before it: GAME_PASS exactly when the brick move leaves no brick, and only ZeroDivisionError makes it fail |
| ArkanoidGameCore.Scene.Update | games/arkanoid/game/gamecore.py:116-132 | one frame: frame + 1; the platform moves by `PlatformShift`; the group is what `BrickHitOf` leaves; the ball is `FrameBall` of its old motion, the update fails exactly when `FrameBall` does, and a platform hit is counted exactly when `FrameHitsPlatform`; on success the status is `StatusOf` the result |
| ArkanoidGameCore.Scene.GetSceneInfo | games/arkanoid/game/gamecore.py:138-153 | the frame, the status value, the positions, and the bricks split into never-hit hard bricks and the rest |
| ArkanoidGameCore.NewScene | games/arkanoid/game/gamecore.py:60-101 | a missing level file raises FileNotFoundError and an unreadable line raises its error; otherwise the scene starts with every brick of the level in play |
| ArkanoidMl.ProcessCmd | games/arkanoid/game/arkanoid_ml.py:89-119 | a falsy reply, a non-dict, a missing key or a wrongly typed value gives the default command; a well-typed reply keeps its frame; a command other than NONE comes only from a well-typed reply carrying its value |
| ArkanoidMl.ProcessCmdRoundTrip | games/arkanoid/game/arkanoid_ml.py:101-110 | a well-formed reply is processed back into the command it carries |
| ArkanoidMl.ProcessCmdUnknownCommand | games/arkanoid/game/arkanoid_ml.py:109-117 | a command string naming no action keeps the frame, already taken, and gives NONE |
| ArkanoidMl.NewDelay | games/arkanoid/game/arkanoid_ml.py:82-84 | the delay never shrinks, covers the distance from a real command's frame to the scene's frame, and is either the old delay or that distance |
| ArkanoidMl.DefaultCommandKeepsDelay | games/arkanoid/game/arkanoid_ml.py:82 | a reply with the default frame -1 never changes the delay |
| ArkanoidMl.PointsValue | games/arkanoid/game/gamecore.py:147-151 | the positions are sent as a list of as many pairs |
| ArkanoidMl.PointsOf | games/arkanoid/game/gamecore.py:147-151 | a list read back as positions has one position per pair |
| ArkanoidMl.PointsRoundTrip | games/arkanoid/game/gamecore.py:147-151 | the positions read back from the list they were sent as are the same positions |
| ArkanoidMl.SceneInfoRoundTrip | games/arkanoid/game/gamecore.py:138-153 | the scene object sent to the ML process carries exactly the scene information, whatever its command |
| ArkanoidMl.FrameDelayAsWrittenRaises | games/arkanoid/game/arkanoid_ml.py:82-84 | as written, a reply answering a frame makes `scene_info["frame"]` raise TypeError; the default reply leaves the delay |
| ArkanoidMl.SetCommandAsWrittenRaises | games/arkanoid/game/arkanoid_ml.py:49 | as written, `scene_info["command"] = ...` raises TypeError on every frame |
| ArkanoidMl.SetCommand | games/arkanoid/game/arkanoid_ml.py:49 | the attribute assignment evidently meant: the object with its command replaced and every other attribute kept |
| ArkanoidMl.SetCommandOfSceneInfo | games/arkanoid/game/arkanoid_ml.py:49-50 | setting the command of a fresh scene object gives the object with that command and the same scene information |
| ArkanoidMl.ArkanoidMl.constructor | games/arkanoid/game/arkanoid_ml.py:15-26 | delay 0, nothing recorded, the given scene and mode |
| ArkanoidMl.ArkanoidMl.MakeMlExecute | games/arkanoid/game/arkanoid_ml.py:74-87 | the scene is sent to "ml" (KeyError or BrokenPipeError when it cannot be), the reply waiting is taken without blocking and processed, and the delay becomes `NewDelay` |
| ArkanoidMl.ArkanoidMl.EndRound | games/arkanoid/game/arkanoid_ml.py:56-72 | nothing happens while alive; a finished round is sent and recorded with no command, then the loop stops in one-shot mode or resets, clears the delay and awaits "READY" |
| ArkanoidMl.ArkanoidMl.SendFinalScene | games/arkanoid/game/arkanoid_ml.py:57-62 | the final scene goes to "ml" and is recorded with command None; a missing or broken pipe halts with its error |
| ArkanoidMl.ArkanoidMl.Restart | games/arkanoid/game/arkanoid_ml.py:69-72 | the scene is reset with every brick back at full hit points, the delay is 0 and "READY" is awaited |
| ArkanoidMl.ArkanoidMl.SceneInfoNow | games/arkanoid/game/gamecore.py:138-153 | the scene information reports the frame, the status value and every brick of the group once |
| ArkanoidMl.PassCommand | games/arkanoid/game/arkanoid_ml.py:74-87 | a command is obtained exactly when "ml" has an unbroken sending end and a receiving end; with no reply waiting it is the default command |
| ArkanoidMl.ArkanoidMl.PlayFrame | games/arkanoid/game/arkanoid_ml.py:46-52 | when `PassCommand` fails nothing is recorded and the scene is not updated; otherwise the scene is sent to "ml", its reply is taken, exactly one scene object is recorded with the command's value, the delay becomes `NewDelay`, the frame advances and the status is `FrameStatus` of the old scene and the command |
| ArkanoidMl.ArkanoidMl.Step | games/arkanoid/game/arkanoid_ml.py:46-72 | a pass halts with `PassCommand`'s error when it fails; otherwise the scene sent to "ml" and the record with the command come first, a `FrameStatus` failure halts, an alive game records one object and keeps running, and a finished round records a second object carrying the final status, then stops in one-shot mode or restarts with frame 0, delay 0 and "running" exactly when "READY" is in the reply pipe |
| ArkanoidMl.ArkanoidMl.GameLoop | games/arkanoid/game/arkanoid_ml.py:28-72 | it halts before any pass exactly when the "ml" pipe is missing, with KeyError; it waits before any pass exactly when the pipe holds no "READY"; every pass that does not halt records at least one object, and the loop stops early only when a pass halts, finishes or waits |
| GameParams.PositiveParamOr | games/arkanoid/main.py:50-59 | no parameter gives the default; a first parameter that `int()` reads as at least 1 is taken, anything else gives the default |
| GameParams.PositiveParamOfDecimal | games/arkanoid/main.py:50-59 | a parameter written as `str(n)` gives `n` when `n` is at least 1 and the default otherwise |
| GameParams.GetLevel | games/arkanoid/main.py:46-61 | the level is always at least 1 |
| GameParams.GetLevelOfDecimal | games/arkanoid/main.py:46-61 | the level given as `str(n)` is `n` when positive, else 1 |
| GameParams.GetLevelNotInteger | games/arkanoid/main.py:57-59 | a parameter that is not an integer gives level 1 |
| GameParams.GetGameOverScore | games/pingpong/main.py:58-77 | the score is at least 1; it is 1 in one-shot mode, else the positive parameter or 3 |
| GameParams.GetGameOverScoreOfDecimal | games/pingpong/main.py:66-77 | outside one-shot mode, `str(n)` gives `n` when positive, else 3 |
| GameParams.GetMlModules | games/pingpong/main.py:25-34 | no module raises IndexError; one module plays both sides; otherwise the first two modules are 1P and 2P |
| GameConfiguration.ParamsProcessedSpec | mlgame/gameconfig.py:57-75 | a truthy "game_usage" is removed and becomes "usage" with the MLGame prefix, the rest of "()" kept; a falsy "--version" is replaced by the version flag; every other entry is unchanged |
| GameConfiguration.ParamsProcessedIdempotent | mlgame/gameconfig.py:57-75 | processing the parameters twice gives what processing them once gives |
| GameConfiguration.NameCheckPasses | mlgame/gameconfig.py:100-112 | the client names pass exactly when every client has a non-empty name, none seen before and no two alike |
| GameConfiguration.GameConfig.constructor | mlgame/gameconfig.py:21-29 | the version defaults to "" and the parameters to a "()" entry naming the game |
| GameConfiguration.GameConfig.ProcessGameParamDict | mlgame/gameconfig.py:57-75 | the parameters become their processed form, or the TypeError the processing raises, and nothing else changes |
| GameConfiguration.ClientsOf | mlgame/gameconfig.py:102 | a list's clients are its items; an empty str or dict gives no client, and nothing else gets past the loop header |
| GameConfiguration.ClientsError | mlgame/gameconfig.py:102-103 | a non-empty str or dict raises AttributeError on `get` of its first item; an int, bool, None or object is not iterable and raises TypeError |
| GameConfiguration.GameConfig.ProcessGameSetupDict | mlgame/gameconfig.py:77-121 | a missing "game" or "ml_clients" key, an empty or duplicated client name raise GameConfigError; a client value `ClientsOf` refuses raises `ClientsError`, while an empty str or dict passes as no client; otherwise "dynamic_ml_clients" is false when falsy or with only one client, with the warning printed in that case |
| GameConfiguration.LoadGameConfig | mlgame/gameconfig.py:17-37 | the parameters are processed first, a missing `GAME_SETUP` raises GameConfigError, and the setup is processed; the first failure is the result |
| EssentialConfig.OnlineChannel | essential/gameconfig.py:134-148 | no channel gives None; a channel splitting on ":" into three parts gives the parts; any other raises ValueError with the format message |
| EssentialConfig.ChannelOfParts | essential/gameconfig.py:134-148 | three parts without ":" joined by ":" are read back as those parts |
| EssentialConfig.GetMlScripts | essential/gameconfig.py:113-132 | the scripts are returned exactly when all of them exist; otherwise the first missing one raises FileNotFoundError |
| EssentialConfig.GameConfig.constructor | essential/gameconfig.py:84-97 | manual mode wins; a channel selects online mode and forces one-shot mode; otherwise ML mode |
| EssentialConfig.GameConfig.GetGameMode | essential/gameconfig.py:99-111 | manual mode wins; a channel selects online mode and sets one-shot mode; otherwise ML mode, and no other field changes |
| EssentialConfig.GetGameConfig | essential/gameconfig.py:52-57 | the configuration is built exactly when the channel is well formed and every script exists; a bad channel raises its ValueError before the scripts are checked |
| Loops.PlayRound | mlgame/loops.py:41-57 | a round records the scene with the keyboard command first; it stops the loop only on a RESET or QUIT result, and on RESET only in one-shot mode |
| Loops.RunManualEnds | mlgame/loops.py:41-57 | the manual loop ends by itself only on QUIT, or on RESET in one-shot mode, and records the first round first |
| Loops.ManualLoop | mlgame/loops.py:35-57 | the loop's final state, recorder calls and end are those of the round-by-round definition |
| Loops.GameManualModeExecutor.constructor | mlgame/loops.py:18-24 | the executor keeps its one-shot flag and has recorded nothing |
| Loops.GameManualModeExecutor.Loop | mlgame/loops.py:35-57 | the recorder receives exactly the calls of the rounds played |
| Loops.ReplyStep | mlgame/loops.py:162-168 | a reply only raises delay counters, and only its own client's; the printed lines and commands only grow; a dict without "frame" or "command" raises KeyError, a non-dict gives None |
| Loops.CollectCommands | mlgame/loops.py:161-168 | the command list is built exactly when every reply is well formed, and then holds one command per client, in name order |
| Loops.CollectRaisesDelays | mlgame/loops.py:161-168 | no delay counter decreases, only those of the named clients change, and the output and the command list only grow |
| Loops.AwaitReady | mlgame/loops.py:150-151 | the wait takes the objects up to the first READY or error; it ends with READY exactly when READY comes first, raises the error of an error object, and otherwise waits on |
| Loops.AwaitEach | mlgame/loops.py:144-151 | every client is ready exactly when each pipe has READY before any error; the first client that is not raises its error or is still waited on |
| Loops.ZeroDelays | mlgame/loops.py:92-93 | after the loop every named client, and no other, has delay 0 |
| Loops.CheckDelay | mlgame/loops.py:176-183 | the counter becomes the larger of itself and the new delay, and a line is printed exactly when it grows |
| Loops.ReplyCommand | mlgame/loops.py:163-168 | one turn of the loop gives the reply's command and checks a dict reply's delay |
| Loops.CommandList | mlgame/loops.py:161-168 | the loop over the client names gives the command list of the fold, stopping at the first exception |
| Loops.GameStartError | mlgame/loops.py:103-110 | an MLProcessError escapes unchanged; any other exception becomes a GameProcessError of this process carrying the traceback |
| Loops.FramesSinceFlushStep | mlgame/loops.py:123-139 | each recorded round counts one frame; the final record and flush of a round start the count again |
| Loops.GameMLModeExecutor.constructor | mlgame/loops.py:82-97 | the client names are the registry's, every delay counter is 0, the frame counter is 0 and nothing is recorded |
| Loops.GameMLModeExecutor.MakeMlExecute | mlgame/loops.py:153-174 | the scene goes through the sending ends in name order up to the first broken one (BrokenPipeError, receiving ends untouched); with none broken, one object is taken from each receiving end in name order up to the first MLProcessError, which is the one raised (`StoppedAtFirstError`), or from every end, and the result is the command list, or its only command when clients are not dynamic, with the delays checked |
| Loops.GameMLModeExecutor.WaitAllMlReady | mlgame/loops.py:144-151 | the clients are waited on in name order as `WaitedAll` says: all ready exactly when every pipe has READY first, otherwise stopped at the first that has not, raising its MLProcessError or waiting on it; only the receiving ends change |
| Loops.GameMLModeExecutor.EndRound | mlgame/loops.py:129-142 | the final scene goes through the sending ends in name order up to the first broken one and, when none is, is recorded with None and flushed; the loop stops in one-shot mode or on QUIT with the receiving ends untouched, and otherwise the game resets, the frame counter and every delay go to 0 and READY is awaited from all, the round ending and the receiving ends taken as `WaitedTick` says |
| Loops.GameMLModeExecutor.ResetRound | mlgame/loops.py:138-141 | the frame counter and every delay go to 0, the sending ends are kept, and the READY wait continues exactly when every client had READY first, otherwise stops at the first that had not with its MLProcessError or waiting on it |
| Loops.GameMLModeExecutor.Tick | mlgame/loops.py:120-142 | a round records the scene with the commands and advances the frame count by one; a terminal result adds the final record and the flush |
| Loops.GameMLModeExecutor.Run | mlgame/loops.py:112-142 | the loop ends by itself only on QUIT or in one-shot mode, right after a flush; between rounds the frame counter counts the rounds since the last flush |
| Loops.GameMLModeExecutor.Start | mlgame/loops.py:99-110 | an exception from the loop escapes as `GameStartError` describes; otherwise the start passes |
| Loops.PlayScene | mlgame/loops.py:248-262 | "RESET" resets the player, the frame counter to 0 and sends READY; any other command but None is sent with its frame number and the counter advances; a failure of the user's code sends nothing |
| Loops.RunMLEnds | mlgame/loops.py:244-262 | the loop ends at the first None, having taken the scenes up to it, unless the user's code fails earlier; it waits on only when the queue holds no None |
| Loops.CrashError | mlgame/loops.py:224-233 | a failure of the user's code becomes an MLProcessError of this process with the traceback, with the exited-by-itself message for `sys.exit()` |
| Loops.MLExecutor.constructor | mlgame/loops.py:210-216 | the executor takes the process name from its pipes and starts at frame 0 |
| Loops.MLExecutor.MlReady | mlgame/loops.py:264-268 | READY is sent to the game, and nothing else changes |
| Loops.MLExecutor.HandleScene | mlgame/loops.py:245-262 | one scene's update is sent as `PlayScene` says, and the frame counter moves on with it |
| Loops.MLExecutor.Loop | mlgame/loops.py:244-262 | the scenes are taken from the queue in order as `RunML` says, and exactly what it sends reaches the game |
| Loops.MLExecutor.RunReader | mlgame/loops.py:222 | the reader thread queues the game's scenes until it stops, as `ReaderStopped` says, and sends and prints nothing |
| Loops.MLExecutor.Play | mlgame/loops.py:224-262 | READY, then the queued scenes as `RunML` says; when the user's code fails, its MLProcessError follows what the loop sent |
| Loops.MLExecutor.Start | mlgame/loops.py:218-262 | the reader thread starts; a failure of the user's code sends its MLProcessError to the game; otherwise READY is sent and the loop runs |
| ProcessManagement.PropNames | mlgame/process.py:66-71 | one name per ML property, in list order |
| ProcessManagement.FirstRefused | mlgame/process.py:66-74 | every name before the result is accepted by the registries, and the result, when inside the list, is refused |
| ProcessManagement.WiringError | mlgame/communication.py:222-285 | a refused name raises a ValueError |
| ProcessManagement.Added | mlgame/process.py:66-74 | after the wiring, the registry holds the old entries and a fresh end under each new name, and nothing else |
| ProcessManagement.StopAllSpec | mlgame/process.py:93-101 | the stop signals go out exactly when every live process has an unbroken sending end; every end then receives one None per live process of its name and nothing else |
| ProcessManagement.WireStep | mlgame/process.py:70-74 | registering one more name fails exactly when that name is refused, with its ValueError, and otherwise adds fresh ends under it |
| ProcessManagement.WireOne | mlgame/process.py:67-74 | one round registers the property's name on the game side and gives its handler fresh ends, or raises the first refusal |
| ProcessManagement.WireAll | mlgame/process.py:61-74 | the loop raises at the first refused name; otherwise every name has fresh ends on the game side and every handler is wired |
| ProcessManagement.ProcessManager.constructor | mlgame/process.py:17-28 | the properties are kept and no process is spawned yet |
| ProcessManagement.ProcessManager.CreatePipes | mlgame/process.py:61-74 | `_create_pipes` wires every ML property in order, or raises the first refusal |
| ProcessManagement.ProcessManager.StartMlProcesses | mlgame/process.py:76-85 | one process per ML property is appended, named after it, in order |
| ProcessManagement.ProcessManager.Terminate | mlgame/process.py:93-101 | the game side's sending ends become `StopAll`'s; the receiving ends are untouched |
| ProcessManagement.ProcessManager.Start | mlgame/process.py:30-59 | no game property or no ML property raises its RuntimeError before anything changes; a wiring refusal raises before any spawn; otherwise the game runs, a ProcessError is reported and gives -1, else 0, and the live processes are stopped |
| ProcessManagement.ProcessManager.RunGame | mlgame/process.py:49-59 | the return code is 0, or -1 after the process error's two lines are printed, followed by `_terminate` |
| EssentialProcess.Channels.constructor | essential/process.py:11 | a new communication set has no ends |
| EssentialProcess.ProcessData.constructor | essential/process.py:5-11 | a process record starts unstarted, with its name and an empty communication set |
| EssentialProcess.GameName | essential/process.py:25-26 | the game process is named "game" when no name is given, and keeps a given name |
| EssentialProcess.PipePair | essential/process.py:54-62 | one round stores a fresh end each way, under the ML name on the game side and under the game name on the ML side |
| EssentialProcess.WirePipes | essential/process.py:52-62 | the game side gains a fresh end each way for every ML name; every ML process gains them under the game name |
| EssentialProcess.StartEach | essential/process.py:64-69 | every ML process is started |
| EssentialProcess.ProcessManager.constructor | essential/process.py:14-18 | no game process, no ML process, not running |
| EssentialProcess.ProcessManager.SetGameProcess | essential/process.py:24-28 | a new unstarted process record, named "game" when no name is given |
| EssentialProcess.ProcessManager.AddMlProcess | essential/process.py:30-35 | a named process is appended; with no name `"ml_" + len(...)` raises TypeError and nothing is added |
| EssentialProcess.ProcessManager.CreatePipes | essential/process.py:52-62 | every ML process is connected to the game process by a pipe each way |
| EssentialProcess.ProcessManager.StartMlProcesses | essential/process.py:64-69 | every ML process is started |
| EssentialProcess.ProcessManager.Start | essential/process.py:37-50 | the two RuntimeError checks come first; a running manager is left alone; otherwise it is marked running, wired and its ML processes started |
| EssentialProcess.ProcessManager.Terminate | essential/process.py:74-78 | it passes exactly when every ML process was started, and then all are terminated and the manager is not running; otherwise AttributeError is raised |
| CrosslangClient.Frame | mlgame/crosslang/client.py:41 | a frame is the header, a space, the JSON text and a newline, two characters longer than its parts |
| CrosslangClient.FrameParts | mlgame/crosslang/client.py:41 | a frame splits back into its header and its JSON text |
| CrosslangClient.FrameIsOneLine | mlgame/crosslang/client.py:41 | with no newline in either part, a frame is exactly one line |
| CrosslangClient.Payload | mlgame/crosslang/client.py:61 | the payload drops the first twelve characters and the last one; too short a line gives "" |
| CrosslangClient.PayloadOfCommandLine | mlgame/crosslang/client.py:59-61 | the payload of `"__command__ " + text + "\n"` is `text` |
| CrosslangClient.ReadAllAppends | mlgame/crosslang/client.py:57-69 | the reader only appends to the queue and to the output |
| CrosslangClient.ReadEndOfOutput | mlgame/crosslang/client.py:68-69 | with nothing left to read, the reader stops at once |
| CrosslangClient.PlainLineStep | mlgame/crosslang/client.py:66-67 | a nonempty line without the header is printed and reading goes on |
| CrosslangClient.ReadPlainLines | mlgame/crosslang/client.py:57-69 | lines without the header are printed in order and nothing is queued |
| CrosslangClient.ReadCommandLines | mlgame/crosslang/client.py:59-65 | each command line queues exactly its decoded object, READY as a string, in the order of the lines, and nothing is printed |
| CrosslangClient.ReadStopsAtEmptyLine | mlgame/crosslang/client.py:68-69 | the reader stops at the first zero-length read; later lines are never read |
| CrosslangClient.ResetIsDecoded | mlgame/crosslang/client.py:62-65 | "RESET" is handed to `json.loads` like any payload other than "READY" |
| CrosslangClient.ExitReport | mlgame/crosslang/client.py:71-82 | after the loop, one error carrying the whole standard error is queued exactly when the client exited with a non-zero code |
| CrosslangClient.Client.constructor | mlgame/crosslang/client.py:17-30 | a client starts with nothing written, queued or printed |
| CrosslangClient.Client.SendToClient | mlgame/crosslang/client.py:32-42 | exactly one frame is appended to the client's standard input |
| CrosslangClient.Client.RecvFromClient | mlgame/crosslang/client.py:44-49 | the oldest queued object is taken; an empty queue waits |
| CrosslangClient.Client.ReadStdout | mlgame/crosslang/client.py:51-82 | the reading loop ends as `ReadAll` says, then the exit report is queued |
| CrosslangBridge.BridgeToGame | mlgame/crosslang/ml_play.py:21-31 | the game receives the client's commands unchanged, in order and none an error; a client error stops the bridge only when it is the next command |
| CrosslangBridge.BridgeClientCount | mlgame/crosslang/ml_play.py:21-33 | one scene reaches the client after each command passed on, save possibly the last, and the scenes not taken are left |
| CrosslangBridge.BridgeToClient | mlgame/crosslang/ml_play.py:33 | the client receives the scenes taken, in the order the game sent them |
| CrosslangBridge.FramesAppend | mlgame/crosslang/client.py:41 | writing two runs of messages writes their frames in that order |
| CrosslangBridge.BridgeRound | mlgame/crosslang/ml_play.py:21-33 | the bridge is its first round followed, unless that round stopped, by the bridge on the rest |
| CrosslangBridge.TakeCommand | mlgame/crosslang/ml_play.py:22-31 | the oldest queued object is passed to the game, the client's error stops the bridge, and an empty queue waits |
| CrosslangBridge.PassScene | mlgame/crosslang/ml_play.py:33 | the next scene from the game is written to the client as one frame; none waits |
| CrosslangBridge.Round | mlgame/crosslang/ml_play.py:22-33 | one round writes and sends what `RoundOf` says |
| CrosslangBridge.Loop | mlgame/crosslang/ml_play.py:21-33 | the loop leaves the queues and writes exactly what `Bridge` describes |
| CrosslangBridge.MlLoop | mlgame/crosslang/ml_play.py:9-33 | the initial arguments are written first, then the reader runs to its stop and the loop takes what it queued |
| SnakeGameObject.Step | games/snake/game/gameobject.py:129-142 | the head moves exactly 10 units |
| SnakeGameObject.EffectiveAction | games/snake/game/gameobject.py:113-120 | the action taken is never NONE |
| SnakeGameObject.Moved | games/snake/game/gameobject.py:103-127 | the body keeps its length, its first segment takes the old head position and each later one the position of the segment in front, the old tail dropped |
| SnakeGameObject.MovedAction | games/snake/game/gameobject.py:113-127 | NONE and a reversal keep the last action; any other action is taken and stored |
| SnakeGameObject.NoReversal | games/snake/game/gameobject.py:118-120 | after a move the head is never on the segment right behind it |
| SnakeGameObject.OppositeSteps | games/snake/game/gameobject.py:133-142 | two steps in one direction never come back to the start |
| SnakeGameObject.Grown | games/snake/game/gameobject.py:93-101 | growing adds one segment, placed at the old tail's position, and keeps the head, the action and every other segment |
| SnakeGameObject.Snake.constructor | games/snake/game/gameobject.py:63-77 | a new snake has its head at (40,40), body (40,30), (40,20), (40,10), and last action DOWN |
| SnakeGameObject.Snake.IsBodyPos | games/snake/game/gameobject.py:83-91 | true exactly when some segment, the head excluded, is at the position |
| SnakeGameObject.Snake.Grow | games/snake/game/gameobject.py:93-101 | the snake becomes `Grown` of itself and the new segment sits at the old tail |
| SnakeGameObject.Snake.Move | games/snake/game/gameobject.py:103-127 | the snake becomes `Moved` of itself |
| SnakeGameCore.FirstFree | games/snake/game/gamecore.py:77-90 | the food lands on the first draw that is neither the head nor a segment, every earlier draw rejected |
| SnakeGameCore.Scene.constructor | games/snake/game/gamecore.py:59-75 | a new game has a new snake, food off it, score and frame 0, and is alive |
| SnakeGameCore.Scene.RandomFoodPos | games/snake/game/gamecore.py:77-90 | the food is placed on the first free draw and nothing else changes |
| SnakeGameCore.Scene.Reset | games/snake/game/gamecore.py:92-100 | score and frame 0, alive, a new snake and food off it |
| SnakeGameCore.Scene.Update | games/snake/game/gamecore.py:108-127 | the frame advances by 1; the head landing on the food scores 1, places new food and grows the snake, and otherwise score and food stay; the game is over exactly when it was, or the head left the 300x300 area or hit the body |
| SnakeGameCore.Scene.GetSceneInfo | games/snake/game/gamecore.py:129-142 | the scene carries the frame, the status, the head, the body from the head side to the tail, and the food |
| PingPongGameCore.ActionByValue | games/pingpong/game/gameobject.py:8-11 | `PlatformAction(s)` finds the member whose value is `s`, and finds one whenever one exists |
| PingPongGameCore.ActionByName | games/pingpong/game/gameobject.py:8-11 | `PlatformAction[s]` finds the member whose name is `s`, and finds one whenever one exists |
| PingPongGameCore.PlatformShift | games/pingpong/game/gameobject.py:52-60 | the x speed is -5 exactly when moving left off the left wall, +5 exactly when moving right off the right wall, and 0 otherwise |
| PingPongGameCore.ShiftKeepsOnGrid | games/pingpong/game/gameobject.py:52-62 | a platform starting inside the play area at a multiple of 5 from both walls stays so after any move |
| PingPongGameCore.Platform.constructor | games/pingpong/game/gameobject.py:14-23 | the platform is 40x30 at its initial position, at rest |
| PingPongGameCore.Platform.Reset | games/pingpong/game/gameobject.py:49-50 | the platform is back at its initial rect exactly; the speed is kept |
| PingPongGameCore.Platform.Move | games/pingpong/game/gameobject.py:52-62 | the x speed is `PlatformShift`'s, the platform moves by it, and y never changes |
| PingPongGameCore.ServeMotion | games/pingpong/game/gameobject.py:92-102 | a serve is a 5x5 ball at speed 7 on both axes, upward exactly when 1P serves |
| PingPongGameCore.ServeSidesAlternate | games/pingpong/game/gameobject.py:103-104 | every reset flips the serving side, so the k-th serve comes from the first side exactly when k is even |
| PingPongGameCore.StepAway | games/pingpong/game/gameobject.py:111-112 | one speed-up step makes a component one larger in size, in its own direction |
| PingPongGameCore.SpeedUp | games/pingpong/game/gameobject.py:110-112 | each speed component grows in size by exactly 1 |
| PingPongGameCore.SpedUp | games/pingpong/game/gameobject.py:110-112 | `k` speed-ups grow each component by exactly `k` |
| PingPongGameCore.SpedUpKeepsDirection | games/pingpong/game/gameobject.py:110-112 | speeding up never changes the ball's direction on either axis |
| PingPongGameCore.Ball.constructor | games/pingpong/game/gameobject.py:65-77 | a 5x5 ball at the origin, speed (7,7), serving from 1P first |
| PingPongGameCore.Ball.Reset | games/pingpong/game/gameobject.py:88-104 | the ball is served from the current side, which then flips |
| PingPongGameCore.Ball.Move | games/pingpong/game/gameobject.py:106-108 | the previous position is remembered and the ball moves by exactly its speed |
| PingPongGameCore.Ball.SpeedUpBall | games/pingpong/game/gameobject.py:110-112 | the speed becomes `SpeedUp` of itself and nothing else changes |
| PingPongGameCore.StatusOf | games/pingpong/game/gamecore.py:62-67 | 2P wins exactly when the ball's top is below 1P's bottom, 1P wins exactly when otherwise the ball's bottom is above 2P's top, and the round goes on otherwise |
| PingPongGameCore.BallBetweenPlatformsAlive | games/pingpong/game/gamecore.py:62-67 | a ball between the platforms' outer edges keeps the round going |
| PingPongGameCore.Scene.constructor | games/pingpong/game/gamecore.py:18-34 | the scene starts at frame 0, alive, with 1P serving and both platforms at their starting rects |
| PingPongGameCore.Scene.Reset | games/pingpong/game/gamecore.py:41-46 | frame 0, alive, a new serve from the current side and both platforms at their starting rects |
| PingPongGameCore.Scene.Update | games/pingpong/game/gamecore.py:48-69 | the frame advances by 1; the ball speeds up exactly on frames that are multiples of 200, then moves; each platform moves by its action; the status is judged by `StatusOf` from the new positions |
| PingPongGameCore.Scene.SceneInfoNow | games/pingpong/game/gamecore.py:74-88 | the scene reports its frame, its status value and the size of the ball's x speed |
| PingPongGameCore.ReportedSpeedAfterServe | games/pingpong/game/gamecore.py:84 | a served ball is reported at speed 7, plus one per speed-up |
| PingPongGame.CommandAsWrittenNeverMoves | games/pingpong/game/pingpong.py:26-29 | as written, no command string moves a platform: the names raise ValueError and the values become NONE |
| PingPongGame.Command | games/pingpong/game/pingpong.py:26-29 | the conversion evidently meant: a member name selects that member, any other string NONE |
| PingPongGame.CommandOfName | games/pingpong/game/pingpong.py:26-29 | every member is reached from its name, and where the code as written succeeds it agrees |
| PingPongGame.Tally | games/pingpong/game/pingpong.py:61-71 | a 1P win scores for 1P, a 2P win for 2P, and a draw for both |
| PingPongGame.TallyMl | games/pingpong/game/pingpong_ml.py:110-114 | a round scores exactly one point, for 1P exactly on a 1P win |
| PingPongGame.TalliesAgreeOnWins | games/pingpong/game/pingpong_ml.py:66-75 | on a won round the two tallies agree |
| PingPongGame.TallyStaysBelow | games/pingpong/game/pingpong.py:73-74 | from scores below the game-over score, a tally reaches it or stays below, so the equality test is never jumped over |
| PingPongGame.WinSide | games/pingpong/game/pingpong.py:78-89 | the winner is the side with the higher score, "No one" on a tie |
| PingPongGame.ResultStatus | games/pingpong/game/pingpong.py:153-158 | one side passes exactly when the other is over, and a draw is a draw for both |
| PingPongGame.ResultAgreesWithWinner | games/pingpong/game/pingpong.py:78-89 | the reported result names the same winner as the printed one |
| PingPongGame.PingPong.constructor | games/pingpong/game/pingpong.py:6-11 | scores 0-0, the given game-over score and a fresh scene at frame 0 |
| PingPongGame.PingPong.GameOver | games/pingpong/game/pingpong.py:61-76 | the round is tallied, and the game is over exactly when either score equals the game-over score |
| PingPongGame.UpdateAsWrittenReturnsNone | games/pingpong/game/pingpong.py:34-40 | with the StringEnum `!=` as written, the round-end test is False for every status, so `update` returns None even for a won round |
| PingPongGame.RoundEndsIffNotAlive | games/pingpong/game/pingpong.py:34 | with the intended `!=`, the round-end test holds exactly when the status is not GAME_ALIVE |
| PingPongGame.PingPong.Update | games/pingpong/game/pingpong.py:25-40 | fewer than two commands raise IndexError; otherwise both platforms move by their converted commands, and the result is None exactly while the round goes on (the intended round-end test `RoundEnds` fails), then "QUIT" or "RESET" by the tally |
| PingPongGame.PingPong.GetGameResult | games/pingpong/game/pingpong.py:150-164 | the frames used, the result per side and the ball's reported speed |
| PingPongGame.NewDelay | games/pingpong/game/pingpong_ml.py:100-108 | the delay never shrinks, covers the distance to a real instruction's frame, and is the old delay or that distance |
| PingPongGame.NewDelayKeepsNonNegative | games/pingpong/game/pingpong_ml.py:104-106 | a delay never becomes negative, and the -1 frame or a later frame leave it |
| PingPongGame.PingPongMl.constructor | games/pingpong/game/pingpong_ml.py:19-41 | both delay counters and both scores start at 0 |
| PingPongGame.PingPongMl.CheckFrameDelayed | games/pingpong/game/pingpong_ml.py:100-108 | only that client's counter changes, to `NewDelay` |
| PingPongGame.PingPongMl.GameOver | games/pingpong/game/pingpong_ml.py:110-117 | the round is tallied for its winner and the game is over exactly when either score equals the game-over score |
| PingPongGame.PingPongMl.SendFinalScene | games/pingpong/game/pingpong_ml.py:68-70 | the final scene is recorded and sent to every client; a broken pipe raises BrokenPipeError |
| PingPongGame.PingPongMl.Restart | games/pingpong/game/pingpong_ml.py:78-81 | the scene resets, both delays return to 0 and READY is awaited from every client |
| PingPongGame.PingPongMl.EndRound | games/pingpong/game/pingpong_ml.py:66-81 | nothing happens while the round goes on; a won round is recorded, tallied, ends the loop exactly when the game is over, and otherwise restarts the round |
| LegacyPingPong.TargetOf | pingpong/game/gameobject.py:102-107 | 1P is picked exactly when the ball touches it, 2P exactly when the ball touches 2P and not 1P, and none otherwise |
| LegacyPingPong.CheckBouncingProperties | pingpong/game/gameobject.py:98-111 | after the walls, the ball bounces off at most one platform, 1P whenever it touches it; only directions change and the size is kept; a ball clear of everything is left as it is |
| LegacyPingPong.LegacyServe | pingpong/game/gameobject.py:73-87 | a serve is a 5x5 ball at speed 7 on both axes, moving down exactly when 1P serves |
| LegacyPingPong.LegacyServeSwapsSides | pingpong/game/gameobject.py:73-89 | the older serve is the newer serve with the sides swapped |
| LegacyPingPong.Ball.constructor | pingpong/game/gameobject.py:58-66 | a 5x5 ball at the origin, speed (7,7), serving from 1P first |
| LegacyPingPong.Ball.Reset | pingpong/game/gameobject.py:73-89 | the ball is served from the current side, which then flips |
| LegacyPingPong.Ball.Move | pingpong/game/gameobject.py:91-92 | the ball moves by exactly its speed |
| LegacyPingPong.Ball.SpeedUpBall | pingpong/game/gameobject.py:94-96 | each speed component grows in size by exactly 1, in its own direction |
| LegacyPingPong.Ball.CheckBouncing | pingpong/game/gameobject.py:98-111 | the ball's motion becomes `CheckBouncingOf` its old motion and the platforms' |
| LegacyPingPong.LegacyStatusOf | pingpong/game/gamecore.py:68-75 | 2P wins exactly when the ball's bottom is above 1P's top, 1P wins exactly when otherwise the ball's top is below 2P's bottom, and the round goes on otherwise |
| LegacyPingPong.RoundScore | pingpong/game/gamecore.py:68-75 | a finished round adds exactly one point and a live round none; no score decreases |
| LegacyPingPong.RoundScoreAgreesOnWins | pingpong/game/gamecore.py:68-75 | on a won round the scene's tally is the newer game's tally |
| LegacyPingPong.Scene.constructor | pingpong/game/gamecore.py:19-38 | score 0-0, frame 0, alive, with 1P serving first |
| LegacyPingPong.Scene.Reset | pingpong/game/gamecore.py:47-52 | frame 0, alive, a new serve and both platforms back; the score is kept |
| LegacyPingPong.Scene.Update | pingpong/game/gamecore.py:54-77 | the frame advances by 1, the ball speeds up on multiples of 200, the platforms move by their actions, the ball bounces, and the status and score follow `LegacyStatusOf` and `RoundScore` |
| LegacyPingPong.Scene.Advance | pingpong/game/gamecore.py:56-64 | the frame advances, the ball speeds up on multiples of 200 and moves, and the platforms move; score and status are kept |
| LegacyPingPong.Scene.Judge | pingpong/game/gamecore.py:68-77 | the status is judged from the new positions and the winner of the round scores |
| LegacyArkanoid.BrickAt | arkanoid/game/gameobject.py:14-18 | a brick is 25x10 at its position |
| LegacyArkanoid.PlatformShift | arkanoid/game/gameobject.py:46-52 | the shift is -5 exactly on "LEFT" off the left wall, +5 exactly on "RIGHT" off the right wall, and 0 otherwise |
| LegacyArkanoid.PlatformShiftStaysInside | arkanoid/game/gameobject.py:46-52 | a platform inside the area on the 5-pixel grid stays inside it |
| LegacyArkanoid.Platform.constructor | arkanoid/game/gameobject.py:30-36 | the platform is 50x5 at its initial position |
| LegacyArkanoid.Platform.Reset | arkanoid/game/gameobject.py:43-44 | the platform is back at its initial rect |
| LegacyArkanoid.Platform.Move | arkanoid/game/gameobject.py:46-52 | the platform moves by `PlatformShift` on x only |
| LegacyArkanoid.FaceBounce | arkanoid/game/gameobject.py:75-81 | on each axis, a ball at a face of the target and moving into it turns back; every other component is kept |
| LegacyArkanoid.FaceBounceLeavesFace | arkanoid/game/gameobject.py:75-81 | after the bounce the ball no longer moves into a face it is at, and its speeds keep their sizes |
| LegacyArkanoid.WallBounce | arkanoid/game/gameobject.py:93-99 | a component is negated exactly when the ball is at or beyond a wall on that axis |
| LegacyArkanoid.WallBounceIgnoresDirection | arkanoid/game/gameobject.py:94-96 | the wall test ignores the direction: a ball past the left wall already moving right is turned back towards it |
| LegacyArkanoid.WallBounceTwice | arkanoid/game/gameobject.py:93-99 | bouncing twice at the same place gives the speed back |
| LegacyArkanoid.BouncingSpeedInOpenSpace | arkanoid/game/gameobject.py:83-103 | a ball clear of the platform and of every wall keeps its speed |
| LegacyArkanoid.BouncingOffPlatformTop | arkanoid/game/gameobject.py:76-78 | a ball falling onto the platform's top face rises after bouncing, away from the top and bottom walls |
| LegacyArkanoid.Hits | arkanoid/game/gameobject.py:106-107 | every hit brick is in the group and touched by the ball |
| LegacyArkanoid.Misses | arkanoid/game/gameobject.py:106-107 | every kept brick is in the group and not touched by the ball |
| LegacyArkanoid.HitsMissesPartition | arkanoid/game/gameobject.py:106-107 | the hit and the kept bricks together are the group, none lost or doubled |
| LegacyArkanoid.HitsComplete | arkanoid/game/gameobject.py:106-107 | every touched brick is hit |
| LegacyArkanoid.FirstHitIsFirstTouched | arkanoid/game/gameobject.py:109-110 | the brick the ball bounces off is the first touched brick in group order |
| LegacyArkanoid.NoHitKeepsAll | arkanoid/game/gameobject.py:105-112 | a ball touching no brick keeps its speed and the whole group |
| LegacyArkanoid.Ball.constructor | arkanoid/game/gameobject.py:55-61 | a 5x5 ball at its initial position with speed (5,5) |
| LegacyArkanoid.Ball.Reset | arkanoid/game/gameobject.py:68-70 | back at the initial position with speed (5,5) |
| LegacyArkanoid.Ball.Move | arkanoid/game/gameobject.py:72-73 | the ball moves by exactly its speed |
| LegacyArkanoid.Ball.CheckHitBrick | arkanoid/game/gameobject.py:105-112 | the touched bricks leave the group, the ball bounces off the first of them, and their number is returned |
| LegacyArkanoid.Ball.CheckBouncing | arkanoid/game/gameobject.py:83-91 | the platform bounce, then the walls; the ball is alive exactly while its top is above the platform's bottom |
| LegacyArkanoid.CoordinateOfPositionLine | arkanoid/game/gamecore.py:46-48 | the line written for (x, y) reads back as (x, y) |
| LegacyArkanoid.CoordinateOneField | arkanoid/game/gamecore.py:47-48 | a line of one number raises IndexError |
| LegacyArkanoid.CoordinateEmpty | arkanoid/game/gamecore.py:48 | an empty line raises ValueError for `int('')` |
| LegacyArkanoid.PlaceBricks | arkanoid/game/gamecore.py:57-61 | one brick per position, in order, each at the position plus the offset |
| LegacyArkanoid.LevelBricksOfLines | arkanoid/game/gamecore.py:45-61 | a level written from an offset and positions reads back as those bricks moved by the offset |
| LegacyArkanoid.EmptyLevelFails | arkanoid/game/gamecore.py:56 | an empty level file raises ValueError |
| LegacyArkanoid.CreateBricks | arkanoid/game/gamecore.py:45-61 | the bricks are those `LevelBricks` reads from the lines, or its error |
| LegacyArkanoid.ReadBrickLines | arkanoid/game/gamecore.py:57-61 | one brick is appended per line, in order, until a line fails |
| LegacyArkanoid.StatusAfter | arkanoid/game/gamecore.py:83-88 | passed exactly when no brick is left; otherwise alive or over as the bounce check said |
| LegacyArkanoid.Pivots | arkanoid/game/gamecore.py:117-126 | one top-left point per brick, in group order |
| LegacyArkanoid.Scene.constructor | arkanoid/game/gamecore.py:15-39 | frame 0, alive, every brick of the level in play, and the objects where they were created |
| LegacyArkanoid.Scene.Reset | arkanoid/game/gamecore.py:66-72 | frame 0, alive, the objects at their start and every brick of the level back in play |
| LegacyArkanoid.Scene.Advance | arkanoid/game/gamecore.py:75-78 | the frame advances, the ball moves by its speed and the platform by its action |
| LegacyArkanoid.Scene.Judge | arkanoid/game/gamecore.py:80-90 | the touched bricks leave, the ball bounces off bricks, platform and walls, and the status is `StatusAfter` |
| LegacyArkanoid.Scene.Update | arkanoid/game/gamecore.py:74-90 | one frame: the frame advances, the ball and platform move, the touched bricks leave, and the status is returned |
| LegacyArkanoid.Scene.SceneInfoNow | arkanoid/game/gamecore.py:100-128 | the frame, the status, the ball and platform positions and one point per brick in play, in order |
| LegacyArkanoid.UpdateOnlyRemoves | arkanoid/game/gamecore.py:80 | a frame never adds a brick |
| LegacyArkanoid.NewScene | arkanoid/game/gamecore.py:15-61 | the scene is built exactly when the level's lines read, and otherwise the reading error is raised |

## Left out

- Process spawning, threads and pipes. Pipe ends are values, so two names registered with the same pipe object are not aliased. The ML processes' liveness and the game process's outcome are inputs. A `multiprocessing.Process` is recorded as its name or as a started flag.
- Blocking. A receive that would block on an empty pipe or queue returns `WouldBlock` (or `StuckOn`/`AwaitingGame`/`AwaitingClient`) instead of waiting. Every reader thread runs to its stop before the loop that consumes its queue, which is one schedule among many.
- The MLCommManager reader's "queue is full" message is not recorded among the printed lines.
- Time. The sleeps of one frame period and of the ML response window are not modelled. Where a timestamp names a file, the clock reading is a parameter.
- pygame drawing, surfaces, screens, fonts and keyboard polling. `quit_or_esc()` is the number of rounds played or the keyboard commands given. The manual and ML front-end loops of games/snake/game/snake.py and snake_ml.py, games/arkanoid/game/arkanoid.py and the older pingpong/ and arkanoid/ front ends are not part of this model.
- Messages printed to stdout are not modelled, except where a method's contract lists them as `printed` lines.
- File I/O. Pickling a record is appending (file name, list) to `saved`. Creating the log directory is not modelled. Reading a level file takes its lines as input. Which user scripts exist is given as a set of paths.
- Importing modules (`importlib`) and command-line parsing (argparse) are not modelled: a game's config module is given as a dict of its attributes, and the parsed arguments as a record.
- JSON encoding and decoding are parameters of the cross-language client. The C++ client, its compilation and the language dispatch of mlgame/crosslang/main.py are not part of this model.
- mlgame/communication/game.py:3-41 forwards `send_to_ml`, `send_to_all_ml`, `recv_from_ml` and `recv_from_all_ml` to the module-level `FunctionDelegate` slots of mlgame/communication/base.py:151-163 (`CommunicationBase.Slots`); they start unbound, and the code that sets their targets is not part of this model. `GameComm` assumes they are the game process's `CommunicationSet` sends and receives, which is what their doc comments describe.
- essential/communication/base.py is not part of this model. The values returned by its receives are parameters of `EssentialGameComm`, and `EssentialProcess` keeps only the set's two dicts.
- pingpong/game/gameobject.py:2 and pingpong/game/gamecore.py:3 import `StringEnum` from `essential.game_base`, which does not define it (it is in essential/utils/enum.py), so as written both modules raise ImportError before any of their code runs. `LegacyPingPong` models them as if the import named essential/utils/enum.py.
- mlgame/crosslang/client.py imports `MLClientExecutionError` from mlgame/exception.py, which does not define it. The model uses the class that mlgame/crosslang/exceptions.py defines and mlgame/crosslang/ml_play.py tests for.
- `PyText.ParseInt` covers `int()` on ASCII decimal strings with surrounding whitespace and an optional sign. Underscore separators and non-ASCII digits are not modelled.
- SnakeGameCore.Scene.Update: the random food draws are a sequence given as input and must contain a free cell when the snake eats. The source retries `random` until one comes up. The same requirement is on `SnakeGameCore.Scene.RandomFoodPos`, the constructor and `Reset`.
- PingPongGameCore.Scene.Update takes the ball's bounce as a function parameter. games/pingpong/game/gameobject.py:114-149 calls `physics.rect_break_or_tangent_box` and `collide_or_tangent`, which mlgame/gamedev/physics.py does not define.
- games/pingpong/game/gamecore.py annotates with `PlatformMoveAction`, which its gameobject module does not define, and its `_create_scene` calls `create_surface` and builds `Platform` with fewer arguments than the class takes. The model builds the scene as evidently intended: 1P at (80, 420) and 2P at (80, 50).
- `Scene.area_rect`, read by games/pingpong/game/pingpong.py:16 and games/pingpong/game/pingpong_ml.py:41, is not defined by the pingpong scene, and those front ends call `Scene(difficulty)` and `Scene()` while games/pingpong/game/gamecore.py:18 takes `to_create_surface`; the pingpong models construct the scene directly. The arkanoid front end is consistent with its scene (games/arkanoid/game/gamecore.py:57-60) and `ArkanoidMl` takes the scene it builds.
- ArkanoidMl.ArkanoidMl.Step: games/arkanoid/game/arkanoid_ml.py:54 reads `self._scene.catch_ball_times`, which the arkanoid scene does not define (the ball counts `hit_platform_times`), so as written every pass raises AttributeError after the update; the model goes on as if the screen update succeeded. The screen update itself is drawing and is not modelled.
- PingPongGame.PingPong.Update is modelled with the intended `!=` of `RoundEnds`; as written it never ends a round, which `PingPongGame.UpdateAsWrittenReturnsNone` states.
- PingPongGame.PingPong.GetGameResult: games/pingpong/game/pingpong.py:101, 137 and 151 call `self._scene.get_scene_info()`, which the pingpong scene does not define (games/pingpong/game/gamecore.py:74-88 has `fill_scene_info_obj` instead), so as written they raise AttributeError. The model reads the scene through `SceneInfoNow`, what `fill_scene_info_obj` writes; `get_player_scene_info` and `get_game_progress` are not modelled.
- The draw branch of games/pingpong/game/pingpong.py `_game_over` (lines 69-71) cannot be reached from `update`, which calls it only for a won round. It is modelled, and `PingPongGame.TalliesAgreeOnWins` states what holds on the reachable cases.
- The ping-pong serve heights `int(500 * 0.8 - 5)` and `int(500 * 0.2)` are the constants 395 and 100.
- ArkanoidGameCore.Scene.constructor takes the ball's start position as a parameter, because games/arkanoid/game/gamecore.py:75 passes the bare int where the ball expects a position. games/arkanoid/main.py:32 also calls the game class with one argument fewer than it takes.
- LegacyArkanoid: `collide_or_tangent` of arkanoid/game/gameobject.py:3-12 is the same test as essential/physics.py's and is taken from `EssentialPhysics`.
- Recorders: the record handler a game calls is modelled as the list of objects handed to it.
- Floating point: every coordinate and speed is an integer, and the `1 / fps` frame interval is not modelled.
- Network transport (essential/online.py and the Redis server of the older arkanoid ML front end) is not part of this model.

## Findings

| source | as written | input that shows it | evidently intended | confidence | as-written member | corrected member |
|---|---|---|---|---|---|---|
| games/pingpong/game/pingpong.py:34 | the round-end test uses the StringEnum `!=`, which is False for every status | a frame in which 1P wins returns None instead of "RESET" or "QUIT" | `update` reports a won round | not executed | PingPongGame.UpdateAsWrittenReturnsNone | PingPongGame.RoundEndsIffNotAlive |
| essential/utils/enum.py:12-13 | `__ne__` returns `not self.__eq__(other)`, as in the mlgame copy | two different members of a StringEnum compared with `!=` | `!=` is true exactly for different members | not executed | StringEnums.NotEqualsAsWrittenDistinctMembers | StringEnums.NotEqualsMembers |
| mlgame/utils/enum.py:15-16 | `__ne__` returns `not self.__eq__(other)`, and for two different members `__eq__` gives `NotImplemented`, so `!=` is False | `PlatformAction.MOVE_LEFT != PlatformAction.NONE` | `!=` is true exactly for different members | not executed | StringEnums.NotEqualsAsWrittenDistinctMembers | StringEnums.NotEqualsMembers |
| games/pingpong/game/pingpong.py:26-29 | the command is checked against member names but converted by value | the command "MOVE_LEFT" raises ValueError and "LEFT" becomes NONE | a member name selects that member | not executed | PingPongGame.CommandAsWrittenNeverMoves | PingPongGame.CommandOfName |
| games/arkanoid/game/arkanoid_ml.py:82-84 | `scene_info["frame"]` subscripts the scene object | any reply whose frame is not -1 raises TypeError | the delay is measured from `scene_info.frame` | not executed | ArkanoidMl.FrameDelayAsWrittenRaises | ArkanoidMl.NewDelay |
| games/arkanoid/game/arkanoid_ml.py:49 | `scene_info["command"] = ...` assigns an item of the scene object | the first frame raises TypeError | the command is set as an attribute | not executed | ArkanoidMl.SetCommandAsWrittenRaises | ArkanoidMl.SetCommandOfSceneInfo |
| mlgame/communication/base.py:103 | the loop stores into the undefined name `obj` | one registered end holding one object raises NameError after losing it | the objects are stored in `objs` and returned | not executed | CommunicationBase.RecvAllCounterexample | Communication.CommunicationSet.RecvAll |
