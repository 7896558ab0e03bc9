# Video tile lifecycle controller (Chime Android SDK), modelled in Dafny

This project models `DefaultVideoTileController` of the Amazon Chime SDK for
Android. That controller decides what happens to a video tile each time the
native video client reports a frame. The controller owns two things:

- a table from video id to tile;
- a set of tile observers.

Each frame report names a video id. It may carry a frame or a null frame, and
it carries a pause code. The report leads to one of four outcomes:

- **Create**: the id is unseen and a frame came. A tile is stored and every observer gets `onAddVideoTrack`.
- **Render**: the id is known and a frame came. The frame is rendered into the tile.
- **Stop**: the id is known, the frame is null and the pause code is `NO_PAUSE` (0). Every observer gets `onRemoveVideoTrack`.
- **Pause**: the id is known, the frame is null and the pause code is anything else. Nothing happens.

Around that sit the other operations:

- adding and removing observers;
- pausing and resuming remote tiles through the native client;
- binding a render view to a tile, and unbinding it.

Everything lives in one module, `VideoTileController`, in `video_tile_controller.dfy`:

- `State` is the abstract state: the tile table (`map<int, Tile>`), the observers and a log of effects.
- The observers are a duplicate-free `seq`. Kotlin's `mutableSetOf` is insertion-ordered, so the model keeps that order.
- An effect is one call the controller makes to a collaborator: an observer callback, `renderFrame` on a tile, or `setRemotePaused` on the native client.
- Each operation is a function on `State`. Each function also promises to keep the invariant `Inv`: observers are distinct, and every tile is stored under its own id.
- Lemmas prove the lifecycle properties about these functions.
- The class `DefaultVideoTileController` is the controller itself. Its fields are updated in place, and each method is proved to produce exactly the state its function describes.
- `ForEachObserver` is the source's `for` loop over the observers, with its loop invariant.

Stop only notifies. `onRemoveTrack` (DefaultVideoTileController.kt:129-133)
leaves the entry in the table until `unbindVideoView` removes it (:126). So a
second stop frame notifies the observers again, and a frame after a stop
renders into the old tile instead of creating a new one. Pause codes are plain
`Int`s compared with 0.

## Model

| member | source | states |
|---|---|---|
| VideoTileController.Without | amazon-chime-sdk/src/main/java/com/amazon/chime/sdk/media/mediacontroller/video/DefaultVideoTileController.kt:82-84 | the result holds exactly the members of the input other than the removed one, stays duplicate-free, and equals the input when the observer was absent |
| VideoTileController.AddObserver | amazon-chime-sdk/src/main/java/com/amazon/chime/sdk/media/mediacontroller/video/DefaultVideoTileController.kt:78-80 | adding an observer keeps the state invariant (no duplicate observers, tiles keyed by their own id) |
| VideoTileController.RemoveObserver | amazon-chime-sdk/src/main/java/com/amazon/chime/sdk/media/mediacontroller/video/DefaultVideoTileController.kt:82-84 | removing an observer keeps the state invariant |
| VideoTileController.Broadcast | amazon-chime-sdk/src/main/java/com/amazon/chime/sdk/media/mediacontroller/video/DefaultVideoTileController.kt:141-145 | the fan-out issues one effect per observer, and every effect is a notification of the given event to one of the observers |
| VideoTileController.BroadcastReachesEachOnce | amazon-chime-sdk/src/main/java/com/amazon/chime/sdk/media/mediacontroller/video/DefaultVideoTileController.kt:141-145 | over a duplicate-free observer list, each observer in the list gets the event exactly once and any other observer gets it zero times |
| VideoTileController.BroadcastAppend | amazon-chime-sdk/src/main/java/com/amazon/chime/sdk/media/mediacontroller/video/DefaultVideoTileController.kt:141-145 | notifying two parts of the list one after the other equals one fan-out over the whole list |
| VideoTileController.BroadcastStep | amazon-chime-sdk/src/main/java/com/amazon/chime/sdk/media/mediacontroller/video/DefaultVideoTileController.kt:142-144 | one turn of the loop, notifying the next observer, extends the log by the broadcast to that observer only |
| VideoTileController.AddTrack | amazon-chime-sdk/src/main/java/com/amazon/chime/sdk/media/mediacontroller/video/DefaultVideoTileController.kt:135-139 | storing a new tile and notifying observers keeps the state invariant |
| VideoTileController.RemoveTrack | amazon-chime-sdk/src/main/java/com/amazon/chime/sdk/media/mediacontroller/video/DefaultVideoTileController.kt:129-133 | the removal notification keeps the state invariant |
| VideoTileController.ReceiveFrame | amazon-chime-sdk/src/main/java/com/amazon/chime/sdk/media/mediacontroller/video/DefaultVideoTileController.kt:45-76 | every outcome of a frame report (create, render, stop, pause, nothing) keeps the state invariant |
| VideoTileController.SetRemoteTilePaused | amazon-chime-sdk/src/main/java/com/amazon/chime/sdk/media/mediacontroller/video/DefaultVideoTileController.kt:86-116 | remote pause and resume keep the state invariant |
| VideoTileController.BindView | amazon-chime-sdk/src/main/java/com/amazon/chime/sdk/media/mediacontroller/video/DefaultVideoTileController.kt:118-121 | binding keeps the state invariant |
| VideoTileController.UnbindView | amazon-chime-sdk/src/main/java/com/amazon/chime/sdk/media/mediacontroller/video/DefaultVideoTileController.kt:123-127 | unbinding keeps the state invariant |
| VideoTileController.FrameForUnseenIdCreatesTile | amazon-chime-sdk/src/main/java/com/amazon/chime/sdk/media/mediacontroller/video/DefaultVideoTileController.kt:52-76 | a frame for an unseen id adds exactly that id to the table, with a tile carrying that id, that attendee and no bound view. Other entries and the observers are unchanged. Every current observer gets exactly one `onAddVideoTrack` with the new tile, and nothing else is issued |
| VideoTileController.FrameForKnownIdOnlyRenders | amazon-chime-sdk/src/main/java/com/amazon/chime/sdk/media/mediacontroller/video/DefaultVideoTileController.kt:52-55 | a frame for a known id leaves the table and the observers unchanged. Its only effect is one render into that tile, so no observer is notified |
| VideoTileController.StopFrameNotifiesRemovalButKeepsTile | amazon-chime-sdk/src/main/java/com/amazon/chime/sdk/media/mediacontroller/video/DefaultVideoTileController.kt:56-63 | a null frame with pause code 0 for a known id gives every current observer exactly one `onRemoveVideoTrack` with the stored tile and issues nothing else. The table, including that tile, is unchanged |
| VideoTileController.RepeatedStopNotifiesAgain | amazon-chime-sdk/src/main/java/com/amazon/chime/sdk/media/mediacontroller/video/DefaultVideoTileController.kt:53-63 | since Stop keeps the tile, two stop frames in a row leave the table unchanged and give every current observer `onRemoveVideoTrack` with the stored tile exactly twice, and other observers never |
| VideoTileController.StopThenFrameOnlyRenders | amazon-chime-sdk/src/main/java/com/amazon/chime/sdk/media/mediacontroller/video/DefaultVideoTileController.kt:52-63 | a frame after a stop frame only renders into the kept tile: no new add notification |
| VideoTileController.NullFrameOtherwiseChangesNothing | amazon-chime-sdk/src/main/java/com/amazon/chime/sdk/media/mediacontroller/video/DefaultVideoTileController.kt:53-75 | a null frame with a non-zero pause code, or a null frame for an unknown id, leaves the whole state unchanged and notifies nobody |
| VideoTileController.SecondFrameAddsNothing | amazon-chime-sdk/src/main/java/com/amazon/chime/sdk/media/mediacontroller/video/DefaultVideoTileController.kt:52-55 | a second frame for the id a first frame created only renders: no second add notification |
| VideoTileController.RemotePauseOnlyCallsNativeClient | amazon-chime-sdk/src/main/java/com/amazon/chime/sdk/media/mediacontroller/video/DefaultVideoTileController.kt:86-116 | pause and resume never change the table or the observers. They make no native call for an unknown id or a local tile (no attendee), and exactly one `setRemotePaused(paused, tileId)` call for a remote tile |
| VideoTileController.UnbindRemovesEntry | amazon-chime-sdk/src/main/java/com/amazon/chime/sdk/media/mediacontroller/video/DefaultVideoTileController.kt:123-127 | after unbind the id is absent whether or not it was present. Every other entry, the observers and the effect log are untouched, and a second unbind changes nothing |
| VideoTileController.FrameAfterUnbindRecreates | amazon-chime-sdk/src/main/java/com/amazon/chime/sdk/media/mediacontroller/video/DefaultVideoTileController.kt:52-76 | after unbinding an id, the next frame for it creates a fresh unbound tile, and every observer gets exactly one new `onAddVideoTrack` |
| VideoTileController.BindKeepsIds | amazon-chime-sdk/src/main/java/com/amazon/chime/sdk/media/mediacontroller/video/DefaultVideoTileController.kt:118-121 | bind never changes which ids are present, the observers or the log. It is a no-op for an unknown id, and otherwise marks that tile bound while keeping its id and attendee, and leaves every other entry unchanged |
| VideoTileController.ObserversHaveSetSemantics | amazon-chime-sdk/src/main/java/com/amazon/chime/sdk/media/mediacontroller/video/DefaultVideoTileController.kt:78-84 | as sets, add gives old plus the observer and remove gives old minus it. Adding a present observer or removing an absent one changes nothing, a new observer is appended at the end, the list stays duplicate-free, and neither touches the tiles or issues any effect (an observer added late is not told about existing tiles) |
| VideoTileController.ReAddedObserverNotifiedOnce | amazon-chime-sdk/src/main/java/com/amazon/chime/sdk/media/mediacontroller/video/DefaultVideoTileController.kt:78-84 | an observer added twice still gets exactly one add notification for a later creation, and an observer added then removed gets none |
| VideoTileController.DefaultVideoTileController.constructor | amazon-chime-sdk/src/main/java/com/amazon/chime/sdk/media/mediacontroller/video/DefaultVideoTileController.kt:14-23 | a new controller has no tiles, no observers and no effects, and satisfies the invariant |
| VideoTileController.DefaultVideoTileController.OnReceiveFrame | amazon-chime-sdk/src/main/java/com/amazon/chime/sdk/media/mediacontroller/video/DefaultVideoTileController.kt:45-76 | the fields afterwards are exactly `ReceiveFrame` of the fields before, and the invariant is kept |
| VideoTileController.DefaultVideoTileController.AddVideoTileObserver | amazon-chime-sdk/src/main/java/com/amazon/chime/sdk/media/mediacontroller/video/DefaultVideoTileController.kt:78-80 | the fields afterwards are exactly `AddObserver` of the fields before |
| VideoTileController.DefaultVideoTileController.RemoveVideoTileObserver | amazon-chime-sdk/src/main/java/com/amazon/chime/sdk/media/mediacontroller/video/DefaultVideoTileController.kt:82-84 | the fields afterwards are exactly `RemoveObserver` of the fields before |
| VideoTileController.DefaultVideoTileController.PauseRemoteVideoTile | amazon-chime-sdk/src/main/java/com/amazon/chime/sdk/media/mediacontroller/video/DefaultVideoTileController.kt:86-100 | the fields afterwards are exactly `SetRemoteTilePaused(…, true)` of the fields before |
| VideoTileController.DefaultVideoTileController.ResumeRemoteVideoTile | amazon-chime-sdk/src/main/java/com/amazon/chime/sdk/media/mediacontroller/video/DefaultVideoTileController.kt:102-116 | the fields afterwards are exactly `SetRemoteTilePaused(…, false)` of the fields before |
| VideoTileController.DefaultVideoTileController.BindVideoView | amazon-chime-sdk/src/main/java/com/amazon/chime/sdk/media/mediacontroller/video/DefaultVideoTileController.kt:118-121 | the fields afterwards are exactly `BindView` of the fields before |
| VideoTileController.DefaultVideoTileController.UnbindVideoView | amazon-chime-sdk/src/main/java/com/amazon/chime/sdk/media/mediacontroller/video/DefaultVideoTileController.kt:123-127 | the fields afterwards are exactly `UnbindView` of the fields before |
| VideoTileController.DefaultVideoTileController.OnRemoveTrack | amazon-chime-sdk/src/main/java/com/amazon/chime/sdk/media/mediacontroller/video/DefaultVideoTileController.kt:129-133 | the fields afterwards are exactly `RemoveTrack` of the fields before |
| VideoTileController.DefaultVideoTileController.OnAddTrack | amazon-chime-sdk/src/main/java/com/amazon/chime/sdk/media/mediacontroller/video/DefaultVideoTileController.kt:135-139 | the fields afterwards are exactly `AddTrack` of the fields before |
| VideoTileController.DefaultVideoTileController.ForEachObserver | amazon-chime-sdk/src/main/java/com/amazon/chime/sdk/media/mediacontroller/video/DefaultVideoTileController.kt:141-145 | the loop leaves the table and the observers alone and appends exactly `Broadcast` of the observers to the log, in iteration order |

## Left out

- The client metrics collector (`DefaultClientMetricsCollector`) is not part of this model. Only its test is in the repository's visible files, so a model would be invented. That test also depends on wall-clock time.
- `AudioVideoObserver` and `DeviceController` are interface declarations with no behaviour. Device enumeration is platform I/O.
- Coroutine dispatch: the source runs the add and remove paths in `uiScope.launch` on the main dispatcher. The model runs that work at once, in sequence. The source could issue a duplicate add when two frames arrive before the launched block runs; that interleaving is not modelled.
- `initialize` and `destroy` create and release an EGL context, a foreign graphics resource. They are not modelled.
- `DefaultVideoTile` internals are not modelled. `renderFrame` becomes a `RenderFrame` entry in the effect log. `bind` becomes the tile's `bound` flag, without the identity of the view. The call to `unbind` on the tile is not modelled: the entry is dropped from the table right after it, and since tiles are values nothing can observe it.
- Tiles are values in this model. Observers receive a copy of the tile, not a shared reference, so a later bind or unbind is not visible through a tile an observer already holds.
- The native `setRemotePaused` call, `renderFrame` and the observer callbacks are entries in a ghost log, not behaviour. A callback that throws, or that changes the observer set while the loop runs, is not modelled.
- Logging and the unused `displayId` parameter of `onReceiveFrame` are left out.
- Video ids and pause codes are Kotlin `Int`s. The model uses unbounded `int`; ids are only compared and used as keys, so there is no arithmetic that could wrap.
