/**
 A model of the video tile lifecycle controller of the Chime Android SDK
 (DefaultVideoTileController). The controller keeps a table from video id to
 tile and an insertion-ordered set of observers; frame arrivals create,
 render into, stop or pause tiles, and observers are told about additions and
 removals. Everything the controller does to the outside world (observer
 callbacks, rendering into a tile, the native setRemotePaused call) is
 recorded in an effect log.

 The first half states each operation as a function on an abstract State and
 proves what the controller promises about it; the class at the end is the
 controller itself, whose methods update its fields in place and are proved
 to agree with those functions.
 */
module VideoTileController {

  datatype Option<T> = None | Some(value: T)

  /** Observers are compared by identity; the model names each by a number. */
  type ObserverId = int

  /** A decoded video frame; its content is opaque to the controller. */
  type Frame = int

  /** The pause code that means "the stream has stopped" rather than paused. */
  const NoPause: int := 0

  /**
   A video tile: its id (the video id it was created for), the attendee it
   shows (None for the local tile, whose attendee the native client does not
   know) and whether a render view is bound to it.
   */
  datatype Tile = Tile(tileId: int, attendeeId: Option<string>, bound: bool)

  /** What an observer is told. */
  datatype TrackEvent = AddVideoTrack(tile: Tile) | RemoveVideoTrack(tile: Tile)

  /** One call the controller makes to a collaborator. */
  datatype Effect =
    | Notify(observer: ObserverId, event: TrackEvent)
    | RenderFrame(tileId: int, frame: Frame)
    | SetRemotePaused(paused: bool, tileId: int)

  /** The controller's state: the tile table, the observers in insertion order, and the log of effects. */
  datatype State = State(tiles: map<int, Tile>, observers: seq<ObserverId>, log: seq<Effect>)

  predicate Distinct<T(==)>(s: seq<T>)
  {
    forall i, j :: 0 <= i < j < |s| ==> s[i] != s[j]
  }

  /** A list with a head is duplicate-free when its tail is and does not hold the head. */
  lemma DistinctCons<T>(s: seq<T>)
    requires s != []
    ensures Distinct(s) <==> s[0] !in s[1..] && Distinct(s[1..])
  {
  }

  /**
   The invariant every operation keeps: the observer list has no duplicates
   (it is a set), and each tile is stored under its own id.
   */
  ghost predicate Inv(s: State)
  {
    && Distinct(s.observers)
    && forall id :: id in s.tiles ==> s.tiles[id].tileId == id
  }

  /** The observers as a set, which is what callers of add/remove see. */
  ghost function ObserverSet(s: State): set<ObserverId>
  {
    set o | o in s.observers
  }

  /** How many times `effects` delivers `event` to observer `o`. */
  function Received(effects: seq<Effect>, o: ObserverId, event: TrackEvent): nat
  {
    multiset(effects)[Notify(o, event)]
  }

  /** The effects `r` has logged beyond those of `s`. */
  function NewEffects(s: State, r: State): seq<Effect>
    requires |s.log| <= |r.log|
  {
    r.log[|s.log|..]
  }

  // ---------------------------------------------------------------------------
  // Observer set

  /** `s` with `x` taken out, the others keeping their order. */
  function Without(s: seq<ObserverId>, x: ObserverId): (r: seq<ObserverId>)
    ensures forall y :: y in r <==> y in s && y != x
    ensures Distinct(s) ==> Distinct(r)
    ensures x !in s ==> r == s
  {
    if s == [] then []
    else
      DistinctCons(s);
      var rest := Without(s[1..], x);
      if s[0] == x then rest
      else DistinctCons([s[0]] + rest); [s[0]] + rest
  }

  /** addVideoTileObserver: a set insertion, appended at the end when new. */
  function AddObserver(s: State, o: ObserverId): (r: State)
    ensures Inv(s) ==> Inv(r)
  {
    if o in s.observers then s else s.(observers := s.observers + [o])
  }

  /** removeVideoTileObserver: a set removal. */
  function RemoveObserver(s: State, o: ObserverId): (r: State)
    ensures Inv(s) ==> Inv(r)
  {
    s.(observers := Without(s.observers, o))
  }

  // ---------------------------------------------------------------------------
  // Fan-out to observers

  /** forEachObserver: one notification per observer, in iteration order. */
  function Broadcast(observers: seq<ObserverId>, event: TrackEvent): (r: seq<Effect>)
    ensures |r| == |observers|
    ensures forall e :: e in r ==> e.Notify? && e.event == event && e.observer in observers
  {
    if observers == [] then []
    else [Notify(observers[0], event)] + Broadcast(observers[1..], event)
  }

  // ---------------------------------------------------------------------------
  // Operations

  /** onAddTrack: store a fresh, unbound tile under `tileId` and tell every observer. */
  function AddTrack(s: State, tileId: int, attendeeId: Option<string>): (r: State)
    ensures Inv(s) ==> Inv(r)
  {
    var tile := Tile(tileId, attendeeId, false);
    s.(tiles := s.tiles[tileId := tile],
       log := s.log + Broadcast(s.observers, AddVideoTrack(tile)))
  }

  /** onRemoveTrack: tell every observer about the stored tile; the table is left as it is. */
  function RemoveTrack(s: State, tileId: int): (r: State)
    ensures Inv(s) ==> Inv(r)
  {
    if tileId in s.tiles then
      s.(log := s.log + Broadcast(s.observers, RemoveVideoTrack(s.tiles[tileId])))
    else s
  }

  /**
   onReceiveFrame: the four outcomes Create, Render, Stop and Pause, keyed on
   whether a tile exists for `videoId` and whether a frame came with the call.
   */
  function ReceiveFrame(s: State, frame: Option<Frame>, attendeeId: Option<string>,
                        pauseType: int, videoId: int): (r: State)
    ensures Inv(s) ==> Inv(r)
  {
    if videoId in s.tiles then
      if frame.Some? then s.(log := s.log + [RenderFrame(videoId, frame.value)])
      else if pauseType == NoPause then RemoveTrack(s, videoId)
      else s
    else if frame.Some? then AddTrack(s, videoId, attendeeId)
    else s
  }

  /**
   pauseRemoteVideoTile (paused = true) and resumeRemoteVideoTile (paused =
   false): ask the native client to pause or resume a remote tile; a local
   tile (no attendee) and an unknown id are refused.
   */
  function SetRemoteTilePaused(s: State, tileId: int, paused: bool): (r: State)
    ensures Inv(s) ==> Inv(r)
  {
    if tileId in s.tiles && s.tiles[tileId].attendeeId.Some? then
      s.(log := s.log + [SetRemotePaused(paused, tileId)])
    else s
  }

  /** bindVideoView: mark an existing tile as bound; an unknown id is ignored. */
  function BindView(s: State, tileId: int): (r: State)
    ensures Inv(s) ==> Inv(r)
  {
    if tileId in s.tiles then s.(tiles := s.tiles[tileId := s.tiles[tileId].(bound := true)])
    else s
  }

  /** unbindVideoView: drop the entry for `tileId`, whatever its state. */
  function UnbindView(s: State, tileId: int): (r: State)
    ensures Inv(s) ==> Inv(r)
  {
    s.(tiles := s.tiles - {tileId})
  }

  // ---------------------------------------------------------------------------
  // Properties

  /** Every observer in a duplicate-free list is notified exactly once, and nobody else is. */
  lemma {:induction false} BroadcastReachesEachOnce(observers: seq<ObserverId>, event: TrackEvent, o: ObserverId)
    requires Distinct(observers)
    ensures Received(Broadcast(observers, event), o, event) == if o in observers then 1 else 0
  {
    if observers != [] {
      var rest := observers[1..];
      DistinctCons(observers);
      BroadcastReachesEachOnce(rest, event, o);
      var head := [Notify(observers[0], event)];
      assert Broadcast(observers, event) == head + Broadcast(rest, event);
      assert multiset(Broadcast(observers, event)) == multiset(head) + multiset(Broadcast(rest, event));
      assert o in observers <==> o == observers[0] || o in rest;
    }
  }

  /** Notifying observers one at a time, in order, is one broadcast to all of them. */
  lemma {:induction false} BroadcastAppend(a: seq<ObserverId>, b: seq<ObserverId>, event: TrackEvent)
    ensures Broadcast(a + b, event) == Broadcast(a, event) + Broadcast(b, event)
  {
    if a != [] {
      assert (a + b)[0] == a[0];
      assert (a + b)[1..] == a[1..] + b;
      BroadcastAppend(a[1..], b, event);
      calc {
        Broadcast(a + b, event);
        [Notify(a[0], event)] + Broadcast(a[1..] + b, event);
        [Notify(a[0], event)] + (Broadcast(a[1..], event) + Broadcast(b, event));
        ([Notify(a[0], event)] + Broadcast(a[1..], event)) + Broadcast(b, event);
      }
    } else {
      assert a + b == b;
    }
  }

  /** One turn of the fan-out loop: notifying the next observer extends the broadcast by one. */
  lemma BroadcastStep(before: seq<Effect>, observers: seq<ObserverId>, i: nat, event: TrackEvent)
    requires i < |observers|
    ensures before + Broadcast(observers[..i + 1], event)
         == (before + Broadcast(observers[..i], event)) + [Notify(observers[i], event)]
  {
    BroadcastAppend(observers[..i], [observers[i]], event);
    assert observers[..i + 1] == observers[..i] + [observers[i]];
  }

  /**
   Create: a frame for an unseen id stores a new tile with that id and
   attendee, touches no other entry, and gives every current observer exactly
   one onAddVideoTrack with that tile and nothing else.
   */
  lemma FrameForUnseenIdCreatesTile(s: State, frame: Frame, attendeeId: Option<string>,
                                    pauseType: int, videoId: int)
    requires Inv(s)
    requires videoId !in s.tiles
    ensures var r := ReceiveFrame(s, Some(frame), attendeeId, pauseType, videoId);
      && r.tiles.Keys == s.tiles.Keys + {videoId}
      && r.tiles[videoId].tileId == videoId
      && r.tiles[videoId].attendeeId == attendeeId
      && !r.tiles[videoId].bound
      && (forall id :: id in s.tiles ==> r.tiles[id] == s.tiles[id])
      && r.observers == s.observers
      && s.log <= r.log
      && (forall o :: Received(NewEffects(s, r), o, AddVideoTrack(r.tiles[videoId]))
                      == if o in s.observers then 1 else 0)
      && (forall e :: e in NewEffects(s, r) ==> e.Notify? && e.event == AddVideoTrack(r.tiles[videoId]))
  {
    var r := ReceiveFrame(s, Some(frame), attendeeId, pauseType, videoId);
    var tile := Tile(videoId, attendeeId, false);
    assert NewEffects(s, r) == Broadcast(s.observers, AddVideoTrack(tile));
    forall o ensures Received(NewEffects(s, r), o, AddVideoTrack(tile)) == if o in s.observers then 1 else 0 {
      BroadcastReachesEachOnce(s.observers, AddVideoTrack(tile), o);
    }
  }

  /** Render: a frame for a known id only renders into that tile; no tile, observer or notification changes. */
  lemma FrameForKnownIdOnlyRenders(s: State, frame: Frame, attendeeId: Option<string>,
                                   pauseType: int, videoId: int)
    requires videoId in s.tiles
    ensures var r := ReceiveFrame(s, Some(frame), attendeeId, pauseType, videoId);
      && r.tiles == s.tiles
      && r.observers == s.observers
      && r.log == s.log + [RenderFrame(videoId, frame)]
      && forall e :: e in NewEffects(s, r) ==> !e.Notify?
  {
  }

  /**
   Stop: a null frame with the no-pause code for a known id gives every current
   observer exactly one onRemoveVideoTrack with the stored tile, and the tile
   stays in the table.
   */
  lemma StopFrameNotifiesRemovalButKeepsTile(s: State, attendeeId: Option<string>, videoId: int)
    requires Inv(s)
    requires videoId in s.tiles
    ensures var r := ReceiveFrame(s, None, attendeeId, NoPause, videoId);
      && r.tiles == s.tiles
      && videoId in r.tiles
      && r.observers == s.observers
      && s.log <= r.log
      && (forall o :: Received(NewEffects(s, r), o, RemoveVideoTrack(s.tiles[videoId]))
                      == if o in s.observers then 1 else 0)
      && (forall e :: e in NewEffects(s, r) ==> e.Notify? && e.event == RemoveVideoTrack(s.tiles[videoId]))
  {
    var r := ReceiveFrame(s, None, attendeeId, NoPause, videoId);
    var event := RemoveVideoTrack(s.tiles[videoId]);
    assert NewEffects(s, r) == Broadcast(s.observers, event);
    forall o ensures Received(NewEffects(s, r), o, event) == if o in s.observers then 1 else 0 {
      BroadcastReachesEachOnce(s.observers, event, o);
    }
  }

  /**
   Because Stop leaves the tile in the table, a second stop frame for the same
   id notifies every observer of the removal again: twice in all.
   */
  lemma RepeatedStopNotifiesAgain(s: State, a1: Option<string>, a2: Option<string>, videoId: int)
    requires Inv(s)
    requires videoId in s.tiles
    ensures var r1 := ReceiveFrame(s, None, a1, NoPause, videoId);
      var r2 := ReceiveFrame(r1, None, a2, NoPause, videoId);
      && r2.tiles == s.tiles
      && s.log <= r2.log
      && forall o :: Received(NewEffects(s, r2), o, RemoveVideoTrack(s.tiles[videoId]))
                     == if o in s.observers then 2 else 0
  {
    var r1 := ReceiveFrame(s, None, a1, NoPause, videoId);
    var r2 := ReceiveFrame(r1, None, a2, NoPause, videoId);
    StopFrameNotifiesRemovalButKeepsTile(s, a1, videoId);
    StopFrameNotifiesRemovalButKeepsTile(r1, a2, videoId);
    assert NewEffects(s, r2) == NewEffects(s, r1) + NewEffects(r1, r2);
  }

  /**
   Because Stop leaves the tile in the table, a frame after a stop only renders
   into the old tile: no new onAddVideoTrack is issued.
   */
  lemma StopThenFrameOnlyRenders(s: State, a1: Option<string>, frame: Frame, a2: Option<string>,
                                 pauseType: int, videoId: int)
    requires videoId in s.tiles
    ensures var r1 := ReceiveFrame(s, None, a1, NoPause, videoId);
      ReceiveFrame(r1, Some(frame), a2, pauseType, videoId) == r1.(log := r1.log + [RenderFrame(videoId, frame)])
  {
  }

  /** Pause, and a null frame for an unknown id: nothing changes and nobody is told. */
  lemma NullFrameOtherwiseChangesNothing(s: State, attendeeId: Option<string>, pauseType: int, videoId: int)
    requires videoId !in s.tiles || pauseType != NoPause
    ensures ReceiveFrame(s, None, attendeeId, pauseType, videoId) == s
  {
  }

  /**
   A second frame for the same id causes no second onAddVideoTrack: it only
   renders.
   */
  lemma SecondFrameAddsNothing(s: State, f1: Frame, f2: Frame, a1: Option<string>, a2: Option<string>,
                               p1: int, p2: int, videoId: int)
    ensures var r1 := ReceiveFrame(s, Some(f1), a1, p1, videoId);
      ReceiveFrame(r1, Some(f2), a2, p2, videoId) == r1.(log := r1.log + [RenderFrame(videoId, f2)])
  {
  }

  /**
   Pause and resume never touch the table or the observers. They call the
   native client exactly once for a known remote tile and not at all for a
   local tile or an unknown id.
   */
  lemma RemotePauseOnlyCallsNativeClient(s: State, tileId: int, paused: bool)
    ensures var r := SetRemoteTilePaused(s, tileId, paused);
      && r.tiles == s.tiles
      && r.observers == s.observers
      && (tileId !in s.tiles ==> r.log == s.log)
      && (tileId in s.tiles && s.tiles[tileId].attendeeId.None? ==> r.log == s.log)
      && (tileId in s.tiles && s.tiles[tileId].attendeeId.Some? ==>
            r.log == s.log + [SetRemotePaused(paused, tileId)])
  {
  }

  /**
   Unbind leaves the id absent whether or not it was present, keeps every
   other entry, notifies nobody, and is idempotent.
   */
  lemma UnbindRemovesEntry(s: State, tileId: int)
    ensures var r := UnbindView(s, tileId);
      && tileId !in r.tiles
      && r.tiles.Keys == s.tiles.Keys - {tileId}
      && (forall id :: id in r.tiles ==> r.tiles[id] == s.tiles[id])
      && r.observers == s.observers
      && r.log == s.log
      && UnbindView(r, tileId) == r
  {
  }

  /** After unbind, the next frame for the id is a fresh creation with a new onAddVideoTrack to every observer. */
  lemma FrameAfterUnbindRecreates(s: State, frame: Frame, attendeeId: Option<string>,
                                  pauseType: int, videoId: int)
    requires Inv(s)
    ensures var u := UnbindView(s, videoId);
      var r := ReceiveFrame(u, Some(frame), attendeeId, pauseType, videoId);
      && videoId in r.tiles
      && r.tiles[videoId] == Tile(videoId, attendeeId, false)
      && s.log <= r.log
      && forall o :: Received(NewEffects(s, r), o, AddVideoTrack(r.tiles[videoId]))
                     == if o in s.observers then 1 else 0
  {
    var u := UnbindView(s, videoId);
    UnbindRemovesEntry(s, videoId);
    FrameForUnseenIdCreatesTile(u, frame, attendeeId, pauseType, videoId);
  }

  /**
   Bind never changes which ids are present, and is a no-op for an unknown id;
   for a known id it binds that tile and no other.
   */
  lemma BindKeepsIds(s: State, tileId: int)
    ensures var r := BindView(s, tileId);
      && r.tiles.Keys == s.tiles.Keys
      && r.observers == s.observers
      && r.log == s.log
      && (tileId !in s.tiles ==> r == s)
      && (tileId in s.tiles ==>
            && r.tiles[tileId].bound
            && r.tiles[tileId].tileId == s.tiles[tileId].tileId
            && r.tiles[tileId].attendeeId == s.tiles[tileId].attendeeId)
      && (forall id :: id in s.tiles && id != tileId ==> r.tiles[id] == s.tiles[id])
  {
  }

  /**
   Adding and removing observers has set semantics: adding a present observer
   or removing an absent one changes nothing, a new observer goes to the end,
   and the list stays duplicate-free. Neither notifies anybody, so an observer
   added late is not told about tiles that already exist.
   */
  lemma ObserversHaveSetSemantics(s: State, o: ObserverId)
    requires Inv(s)
    ensures ObserverSet(AddObserver(s, o)) == ObserverSet(s) + {o}
    ensures ObserverSet(RemoveObserver(s, o)) == ObserverSet(s) - {o}
    ensures o in s.observers ==> AddObserver(s, o) == s
    ensures o !in s.observers ==> RemoveObserver(s, o) == s
    ensures Distinct(AddObserver(s, o).observers) && Distinct(RemoveObserver(s, o).observers)
    ensures o !in s.observers ==> AddObserver(s, o).observers == s.observers + [o]
    ensures AddObserver(s, o).tiles == s.tiles && RemoveObserver(s, o).tiles == s.tiles
    ensures AddObserver(s, o).log == s.log && RemoveObserver(s, o).log == s.log
  {
  }

  /**
   However often an observer was added, a later creation notifies it exactly
   once; once removed, it is not notified at all.
   */
  lemma ReAddedObserverNotifiedOnce(s: State, o: ObserverId, frame: Frame, attendeeId: Option<string>,
                                    pauseType: int, videoId: int)
    requires Inv(s)
    requires videoId !in s.tiles
    ensures var t := AddObserver(AddObserver(s, o), o);
      var r := ReceiveFrame(t, Some(frame), attendeeId, pauseType, videoId);
      s.log <= r.log && Received(NewEffects(s, r), o, AddVideoTrack(Tile(videoId, attendeeId, false))) == 1
    ensures var t := RemoveObserver(AddObserver(s, o), o);
      var r := ReceiveFrame(t, Some(frame), attendeeId, pauseType, videoId);
      s.log <= r.log && Received(NewEffects(s, r), o, AddVideoTrack(Tile(videoId, attendeeId, false))) == 0
  {
    var t1 := AddObserver(AddObserver(s, o), o);
    assert o in t1.observers;
    FrameForUnseenIdCreatesTile(t1, frame, attendeeId, pauseType, videoId);
    var t2 := RemoveObserver(AddObserver(s, o), o);
    assert o !in t2.observers;
    FrameForUnseenIdCreatesTile(t2, frame, attendeeId, pauseType, videoId);
  }

  // ---------------------------------------------------------------------------
  // The controller

  /**
   DefaultVideoTileController: the tile table, the observer set (kept in
   insertion order, as Kotlin's mutableSetOf does) and the log of calls made
   to collaborators. Work that the source launches on the UI scope runs
   immediately here.
   */
  class DefaultVideoTileController {
    var tiles: map<int, Tile>
    var observers: seq<ObserverId>
    ghost var log: seq<Effect>

    ghost function Abstract(): State
      reads this
    {
      State(tiles, observers, log)
    }

    ghost predicate Valid()
      reads this
    {
      Inv(Abstract())
    }

    constructor ()
      ensures Valid()
      ensures tiles == map[] && observers == [] && log == []
    {
      tiles := map[];
      observers := [];
      log := [];
    }

    method OnReceiveFrame(frame: Option<Frame>, attendeeId: Option<string>, pauseType: int, videoId: int)
      requires Valid()
      modifies this
      ensures Valid()
      ensures Abstract() == ReceiveFrame(old(Abstract()), frame, attendeeId, pauseType, videoId)
    {
      if videoId in tiles {
        if frame.Some? {
          log := log + [RenderFrame(videoId, frame.value)];
        } else if pauseType == NoPause {
          OnRemoveTrack(videoId);
        }
      } else if frame.Some? {
        OnAddTrack(videoId, attendeeId);
      }
    }

    method AddVideoTileObserver(o: ObserverId)
      requires Valid()
      modifies this
      ensures Valid()
      ensures Abstract() == AddObserver(old(Abstract()), o)
    {
      if o !in observers {
        observers := observers + [o];
      }
    }

    method RemoveVideoTileObserver(o: ObserverId)
      requires Valid()
      modifies this
      ensures Valid()
      ensures Abstract() == RemoveObserver(old(Abstract()), o)
    {
      observers := Without(observers, o);
    }

    method PauseRemoteVideoTile(tileId: int)
      requires Valid()
      modifies this
      ensures Valid()
      ensures Abstract() == SetRemoteTilePaused(old(Abstract()), tileId, true)
    {
      if tileId in tiles {
        if tiles[tileId].attendeeId.None? {
          return;
        }
        log := log + [SetRemotePaused(true, tileId)];
      }
    }

    method ResumeRemoteVideoTile(tileId: int)
      requires Valid()
      modifies this
      ensures Valid()
      ensures Abstract() == SetRemoteTilePaused(old(Abstract()), tileId, false)
    {
      if tileId in tiles {
        if tiles[tileId].attendeeId.None? {
          return;
        }
        log := log + [SetRemotePaused(false, tileId)];
      }
    }

    method BindVideoView(tileId: int)
      requires Valid()
      modifies this
      ensures Valid()
      ensures Abstract() == BindView(old(Abstract()), tileId)
    {
      if tileId in tiles {
        tiles := tiles[tileId := tiles[tileId].(bound := true)];
      }
    }

    method UnbindVideoView(tileId: int)
      requires Valid()
      modifies this
      ensures Valid()
      ensures Abstract() == UnbindView(old(Abstract()), tileId)
    {
      tiles := tiles - {tileId};
    }

    method OnRemoveTrack(tileId: int)
      requires Valid()
      modifies this
      ensures Valid()
      ensures Abstract() == RemoveTrack(old(Abstract()), tileId)
    {
      if tileId in tiles {
        ForEachObserver(RemoveVideoTrack(tiles[tileId]));
      }
    }

    method OnAddTrack(tileId: int, attendeeId: Option<string>)
      requires Valid()
      modifies this
      ensures Valid()
      ensures Abstract() == AddTrack(old(Abstract()), tileId, attendeeId)
    {
      var tile := Tile(tileId, attendeeId, false);
      tiles := tiles[tileId := tile];
      ForEachObserver(AddVideoTrack(tile));
    }

    /** Deliver `event` to each observer in turn. */
    method ForEachObserver(event: TrackEvent)
      requires Valid()
      modifies this`log
      ensures Valid()
      ensures log == old(log) + Broadcast(observers, event)
    {
      var i := 0;
      while i < |observers|
        invariant 0 <= i <= |observers|
        invariant log == old(log) + Broadcast(observers[..i], event)
      {
        BroadcastStep(old(log), observers, i, event);
        log := log + [Notify(observers[i], event)];
        i := i + 1;
      }
      assert observers[..i] == observers;
    }
  }
}
