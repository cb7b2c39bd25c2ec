/**
 * The left panel: the list of cameras fetched for the map view, the pins that
 * mirror that list on the map, the selected camera with its time-lapse viewer,
 * and the two timers that drive the viewer's cursor.
 *
 * Every handler runs as one atomic step. The two calls into the camera service
 * are parameters: the camera list fetch is a CameraResponse, and each image
 * fetch is an Option<Frame> that the selected camera appends (0 or 1 frame).
 */
module Panel {
  import opened Wrappers
  import opened Mapping
  import Playback

  /** One image of a camera's time lapse. */
  datatype Frame = Frame(image: seq<bv8>, timestamp: int)

  /** The frames an image fetch appends: none, or the one it received. */
  function FetchedFrames(fetched: Option<Frame>): seq<Frame> {
    if fetched.Some? then [fetched.value] else []
  }

  /** A traffic camera: a mappable item whose time lapse grows while it is selected. */
  class Camera {
    const id: string
    const position: LatLong
    const refreshRateMs: int  // its refresh rate, already converted to whole milliseconds
    var timeLapse: seq<Frame>

    constructor (id: string, position: LatLong, refreshRateMs: int)
      ensures this.id == id && this.position == position && this.refreshRateMs == refreshRateMs
      ensures timeLapse == []
    {
      this.id := id;
      this.position := position;
      this.refreshRateMs := refreshRateMs;
      timeLapse := [];
    }

    /** The effect of one image fetch: the new image, if any, is appended to the time lapse. */
    method ReceiveImage(fetched: Option<Frame>)
      modifies this
      ensures timeLapse == old(timeLapse) + FetchedFrames(fetched)
    {
      if fetched.Some? {
        timeLapse := timeLapse + [fetched.value];
      }
    }
  }

  /** The status the camera service reports for a list fetch. */
  datatype ApiStatus = Default | Reported(code: int, message: string)

  /** What one fetch of the camera list returns. */
  datatype CameraResponse = CameraResponse(status: ApiStatus, cameras: seq<Camera>)

  /** A change notification of the results collection; only Add and Reset are acted upon. */
  datatype CollectionChange = Add(newItems: seq<Camera>) | Reset | Remove | Replace | Move

  /** The fault raised when the results change while no map is bound to the panel. */
  datatype Fault = MapNotBound

  /** An object as the list view reports it: null, a camera, or something else. */
  datatype BoxedItem = NullItem | CameraItem(camera: Camera) | OtherItem

  /** The selection-changed event: the newly and the previously selected item, each possibly null. */
  datatype ItemSelectedEventArgs = ItemSelectedEventArgs(newItem: Camera?, oldItem: Camera?)

  /** The `as IMappable` cast: a camera stays itself, anything else becomes null. */
  function AsMappable(item: BoxedItem): Camera? {
    if item.CameraItem? then item.camera else null
  }

  /** The event arguments built from the two selected objects. */
  function NewItemSelectedEventArgs(newItem: BoxedItem, oldItem: BoxedItem): (e: ItemSelectedEventArgs)
    ensures e.newItem != null <==> newItem.CameraItem?
    ensures e.oldItem != null <==> oldItem.CameraItem?
    ensures newItem.CameraItem? ==> e.newItem == newItem.camera
    ensures oldItem.CameraItem? ==> e.oldItem == oldItem.camera
  {
    ItemSelectedEventArgs(AsMappable(newItem), AsMappable(oldItem))
  }

  /** The boxed form of a possibly-null camera. */
  function Box(item: Camera?): BoxedItem {
    if item == null then NullItem else CameraItem(item)
  }

  /** The pin drawn for a camera: keyed by its Id, placed at its position. */
  function PinOf(camera: Camera): Pin {
    Pin(camera.id, camera.position)
  }

  /** The pins for a batch of items: one per item, in the items' order. */
  function PinsFor(items: seq<Camera>): (pins: seq<Pin>)
    ensures |pins| == |items|
    ensures forall k :: 0 <= k < |items| ==> pins[k] == PinOf(items[k])
  {
    if items == [] then [] else [PinOf(items[0])] + PinsFor(items[1..])
  }

  /** Adding items in two batches draws the same pins as adding them in one. */
  lemma {:induction false} PinsForAppend(items: seq<Camera>, more: seq<Camera>)
    ensures PinsFor(items + more) == PinsFor(items) + PinsFor(more)
  {
    if items == [] {
      assert items + more == more;
    } else {
      assert (items + more)[1..] == items[1..] + more;
      PinsForAppend(items[1..], more);
    }
  }

  /** The index of the first item with the given Id, if there is one. */
  function FirstIndexWithId(items: seq<Camera>, id: string): (r: Option<nat>)
    ensures r.Some? ==> r.value < |items| && items[r.value].id == id
    ensures r.Some? ==> forall j :: 0 <= j < r.value ==> items[j].id != id
    ensures r.None? <==> forall k :: 0 <= k < |items| ==> items[k].id != id
  {
    if items == [] then None
    else if items[0].id == id then Some(0)
    else match FirstIndexWithId(items[1..], id)
      case None => None
      case Some(k) => Some(k + 1)
  }

  /** Select by Id (`FirstOrDefault`): the first item with that Id, or null when none has it. */
  function ItemWithId(items: seq<Camera>, id: string): (r: Camera?)
    ensures r != null ==> exists k :: 0 <= k < |items| && items[k] == r && r.id == id &&
                                      forall j :: 0 <= j < k ==> items[j].id != id
    ensures r == null <==> forall k :: 0 <= k < |items| ==> items[k].id != id
  {
    match FirstIndexWithId(items, id)
    case None => null
    case Some(k) => items[k]
  }

  /** The Id of a possibly-null item, as the page records it. */
  function IdOf(item: Camera?): Option<string> {
    if item == null then None else Some(item.id)
  }

  /** Everything a playback step leaves alone. */
  datatype PanelContext = PanelContext(
    theMap: MapControl?, items: seq<Camera>, selectedItem: Camera?, selected: Camera?,
    snapshotIntervalMs: int, noResults: bool, apiStatus: ApiStatus)

  /** The viewer once `item` has been processed as the new selection. */
  ghost function ViewerOf(item: Camera?): Playback.PanelState
    reads item
  {
    if item == null then Playback.Idle else Playback.Viewing(|item.timeLapse|)
  }

  class LeftPanel {
    var theMap: MapControl?       // the map whose pins mirror the results; null until bound
    var items: seq<Camera>        // the results collection shown in the list view
    var selectedItem: Camera?     // the list view's selected item
    var selected: Camera?         // the view model's selected camera, whose frames are viewed
    var position: int             // the frame view's CurrentPosition
    var moviePlaying: bool        // the "MoviePlaying" view-model entry
    var frameTimerRunning: bool   // FrameTimer started
    var snapshotTimerRunning: bool // SnapshotTimer started
    var snapshotIntervalMs: int   // SnapshotTimer's interval
    var noResults: bool           // the "NoResults" view-model entry
    var apiStatus: ApiStatus      // the "ApiStatus" view-model entry

    /**
     * The viewer's bookkeeping. The frame view exists exactly while a camera is
     * selected and counts that camera's frames.
     */
    function State(): Playback.PanelState
      reads this, selected
    {
      Playback.PanelState(
        selected != null, position, if selected != null then |selected.timeLapse| else 0,
        moviePlaying, frameTimerRunning, snapshotTimerRunning)
    }

    ghost function Context(): PanelContext
      reads this
    {
      PanelContext(theMap, items, selectedItem, selected, snapshotIntervalMs, noResults, apiStatus)
    }

    /** The cursor stays within [-1, Count - 1], and the list selection is always one of the results. */
    ghost predicate Consistent()
      reads this, selected
    {
      && Playback.Valid(State())
      && (selectedItem != null ==> selectedItem in items)
    }

    /**
     * Between events the viewed camera is also the list's selection: every change
     * of the list selection runs the selection-changed handler, which views it.
     */
    ghost predicate Valid()
      reads this, selected
    {
      Consistent() && selected == selectedItem
    }

    /** The list fetched with `response` is on show, with its pins, status and selection by `id`. */
    ghost predicate Shows(id: Option<string>, response: CameraResponse)
      reads this, theMap
    {
      && items == response.cameras
      && theMap != null && theMap.pins == PinsFor(items)
      && apiStatus == response.status
      && noResults == (|items| == 0)
      && selectedItem == (if id.Some? then ItemWithId(items, id.value) else null)
    }

    constructor ()
      ensures Valid()
      ensures theMap == null && items == [] && selectedItem == null && selected == null
      ensures State() == Playback.Idle
      ensures !noResults && apiStatus == Default
    {
      theMap := null;
      items := [];
      selectedItem := null;
      selected := null;
      position := -1;
      moviePlaying := false;
      frameTimerRunning := false;
      snapshotTimerRunning := false;
      snapshotIntervalMs := 0;
      noResults := false;
      apiStatus := Default;
    }

    /** Stops the movie: the movie flag is cleared and the frame timer stopped. */
    method StopMovie()
      requires Consistent()
      modifies this
      ensures Consistent()
      ensures State() == Playback.StopMovie(old(State()))
      ensures Context() == old(Context())
    {
      moviePlaying := false;
      frameTimerRunning := false;
    }

    /** Stops both timers. */
    method StopRefreshing()
      requires Consistent()
      modifies this
      ensures Consistent()
      ensures State() == Playback.StopRefreshing(old(State()))
      ensures Context() == old(Context())
    {
      StopMovie();
      snapshotTimerRunning := false;
    }

    /** Starts the movie when there is a view, rewinding first if the cursor is on the last frame. */
    method StartMovie()
      requires Valid()
      modifies this
      ensures Valid()
      ensures State() == Playback.StartMovie(old(State()))
      ensures Context() == old(Context())
    {
      if selected != null {
        moviePlaying := true;
        if position == |selected.timeLapse| - 1 {
          position := if |selected.timeLapse| > 0 then 0 else -1;
        }
        frameTimerRunning := true;
      }
    }

    /** The play/pause button. */
    method PlayMovieTapped()
      requires Valid()
      modifies this
      ensures Valid()
      ensures State() == Playback.PlayMovieTapped(old(State()))
      ensures Context() == old(Context())
    {
      if moviePlaying {
        StopMovie();
      } else {
        StartMovie();
      }
    }

    /** A frame-timer tick: stop at the end of the reel, otherwise show the next frame. */
    method FrameTimerTick()
      requires Valid()
      modifies this
      ensures Valid()
      ensures State() == Playback.FrameTick(old(State()))
      ensures Context() == old(Context())
    {
      if selected != null {
        if position == |selected.timeLapse| - 1 {
          StopMovie();
        } else {
          position := position + 1;
        }
      }
    }

    /** The part of a snapshot tick before the fetch: is the viewer parked on the newest frame? */
    method OnLastImage() returns (onLastImage: bool)
      ensures onLastImage == Playback.OnLastFrame(State())
      ensures onLastImage ==> selected != null && position == |selected.timeLapse| - 1
    {
      onLastImage := selected != null && position == |selected.timeLapse| - 1;
    }

    /** The part of a snapshot tick after the fetch. */
    method AfterSnapshotFetch(onLastImage: bool)
      requires Valid()
      modifies this
      ensures Valid()
      ensures State() == Playback.AfterSnapshotFetch(old(State()), onLastImage)
      ensures Context() == old(Context())
    {
      if onLastImage && !moviePlaying {
        if selected != null {
          position := |selected.timeLapse| - 1;
        }
      }
    }

    /**
     * A snapshot-timer tick: without a selected camera nothing happens; otherwise
     * the camera's next image is fetched and the cursor follows it only if it was
     * parked on the last frame before the fetch and no movie is playing.
     */
    method SnapshotTimerTick(fetched: Option<Frame>)
      requires Valid()
      modifies this, selected
      ensures Valid()
      ensures State() == Playback.SnapshotTick(old(State()), fetched.Some?)
      ensures selected != null ==> selected.timeLapse == old(selected.timeLapse) + FetchedFrames(fetched)
      ensures Context() == old(Context())
    {
      var camera := selected;
      if camera != null {
        var onLastImage := OnLastImage();
        camera.ReceiveImage(fetched);
        AfterSnapshotFetch(onLastImage);
      }
    }

    /**
     * Handles a new selection: both timers stop and the camera is selected. For a
     * camera, the viewer goes to the last frame, one image is fetched, the viewer
     * goes to the (possibly new) last frame and the snapshot timer starts at the
     * camera's refresh rate.
     */
    method ProcessSelectedItem(item: Camera?, fetched: Option<Frame>)
      requires Consistent()
      modifies this, item
      ensures Consistent()
      ensures item != null ==> item.timeLapse == old(item.timeLapse) + FetchedFrames(fetched)
      ensures State() == ViewerOf(item)
      ensures item != null ==> snapshotIntervalMs == item.refreshRateMs
      ensures item == null ==> snapshotIntervalMs == old(snapshotIntervalMs)
      ensures Context() == old(Context()).(selected := item, snapshotIntervalMs := snapshotIntervalMs)
    {
      StopRefreshing();
      selected := item;
      if item == null {
        position := -1;
      } else {
        position := |item.timeLapse| - 1;
        item.ReceiveImage(fetched);
        position := |item.timeLapse| - 1;
        snapshotIntervalMs := item.refreshRateMs;
        snapshotTimerRunning := true;
      }
    }

    /**
     * The list view's selection-changed handler, entered once the list already
     * shows `newItem`: the new item is processed and both items are reported.
     */
    method SelectionChanged(newItem: Camera?, oldItem: Camera?, fetched: Option<Frame>) returns (e: ItemSelectedEventArgs)
      requires Consistent() && selectedItem == newItem
      modifies this, newItem
      ensures Valid() && selectedItem == newItem
      ensures e == ItemSelectedEventArgs(newItem, oldItem)
      ensures newItem != null ==> newItem.timeLapse == old(newItem.timeLapse) + FetchedFrames(fetched)
      ensures State() == ViewerOf(newItem)
      ensures newItem != null ==> snapshotIntervalMs == newItem.refreshRateMs
      ensures newItem == null ==> snapshotIntervalMs == old(snapshotIntervalMs)
      ensures Context() == old(Context()).(selected := newItem, snapshotIntervalMs := snapshotIntervalMs)
    {
      ProcessSelectedItem(newItem, fetched);
      e := NewItemSelectedEventArgs(Box(newItem), Box(oldItem));
    }

    /**
     * The list view's selected item is set to `item`. Only a real change raises
     * the selection-changed handler, whose ItemSelected event is returned; setting
     * the current selection again does nothing.
     */
    method SetSelectedItem(item: Camera?, fetched: Option<Frame>) returns (raised: Option<ItemSelectedEventArgs>)
      requires Valid()
      requires item == null || item in items
      modifies this, item
      ensures Valid() && selectedItem == item
      ensures item == old(selectedItem) ==> raised == None && unchanged(this)
      ensures item == old(selectedItem) && item != null ==> item.timeLapse == old(item.timeLapse)
      ensures item != old(selectedItem) ==> raised == Some(ItemSelectedEventArgs(item, old(selectedItem)))
      ensures item != old(selectedItem) ==> State() == ViewerOf(item)
      ensures item != old(selectedItem) && item != null ==>
                item.timeLapse == old(item.timeLapse) + FetchedFrames(fetched) && snapshotIntervalMs == item.refreshRateMs
      ensures item == null ==> snapshotIntervalMs == old(snapshotIntervalMs)
      ensures Context() == old(Context()).(selectedItem := item, selected := item, snapshotIntervalMs := snapshotIntervalMs)
    {
      if item == selectedItem {
        return None;
      }
      var oldItem := selectedItem;
      selectedItem := item;
      var e := SelectionChanged(item, oldItem, fetched);
      raised := Some(e);
    }

    /**
     * Keeps the map's pins in step with the results: Reset clears them, Add
     * appends one pin per new item in order, other actions are ignored. With no
     * map bound, any change is a fault.
     */
    method ResultsCollectionChanged(change: CollectionChange) returns (outcome: Outcome<Fault>)
      modifies theMap
      ensures theMap == null ==> outcome == Fail(MapNotBound)
      ensures theMap != null ==> outcome == Pass
      ensures theMap != null && change.Reset? ==> theMap.pins == []
      ensures theMap != null && change.Add? ==> theMap.pins == old(theMap.pins) + PinsFor(change.newItems)
      ensures theMap != null && !change.Reset? && !change.Add? ==> theMap.pins == old(theMap.pins)
    {
      if theMap == null {
        return Fail(MapNotBound);
      }
      match change {
        case Add(newItems) =>
          var i := 0;
          while i < |newItems|
            invariant 0 <= i <= |newItems|
            invariant theMap.pins == old(theMap.pins) + PinsFor(newItems[..i])
          {
            PinsForAppend(newItems[..i], [newItems[i]]);
            assert newItems[..i + 1] == newItems[..i] + [newItems[i]];
            theMap.AddPointOfInterestPin(PinOf(newItems[i]));
            i := i + 1;
          }
          assert newItems[..i] == newItems;
        case Reset =>
          theMap.ClearPointOfInterestPins();
        case _ =>
      }
      outcome := Pass;
    }

    /**
     * How a camera-list fetch replaces the results: the collection is cleared,
     * which drops the list selection (raising the selection-changed handler when
     * there was one) and raises Reset; then the fetched cameras are added, which
     * raises Add.
     */
    method ReplaceResults(cameras: seq<Camera>) returns (outcome: Outcome<Fault>, deselected: Option<ItemSelectedEventArgs>)
      requires Valid()
      modifies this, theMap
      ensures Valid()
      ensures selectedItem == null && State() == Playback.Idle
      ensures deselected == (if old(selectedItem) != null then Some(ItemSelectedEventArgs(null, old(selectedItem))) else None)
      ensures theMap == old(theMap) && snapshotIntervalMs == old(snapshotIntervalMs)
      ensures noResults == old(noResults) && apiStatus == old(apiStatus)
      ensures theMap == null ==> outcome == Fail(MapNotBound) && items == []
      ensures theMap != null ==> outcome == Pass && items == cameras && theMap.pins == PinsFor(cameras)
    {
      deselected := SetSelectedItem(null, None);
      items := [];
      outcome := ResultsCollectionChanged(Reset);
      if outcome.Fail? {
        return;
      }
      items := cameras;
      outcome := ResultsCollectionChanged(Add(cameras));
    }

    /**
     * Refreshes the camera list: both timers stop before the fetch, the fetch
     * replaces the results (dropping the selection), NoResults holds exactly
     * when the list is empty, and when an Id is given the first camera with that
     * Id is selected and viewed, its next image being `fetched`. The
     * ItemSelected events raised on the way are returned in order.
     */
    method Refresh(id: Option<string>, response: CameraResponse, fetched: Option<Frame>)
      returns (outcome: Outcome<Fault>, deselected: Option<ItemSelectedEventArgs>, selection: Option<ItemSelectedEventArgs>)
      requires Valid()
      modifies this, theMap, response.cameras
      ensures Valid()
      ensures theMap == old(theMap)
      ensures outcome.Fail? <==> theMap == null
      ensures theMap == null ==> outcome == Fail(MapNotBound) && items == [] && selectedItem == null
      ensures theMap == null ==> noResults == old(noResults) && apiStatus == old(apiStatus)
      ensures theMap != null ==> Shows(id, response)
      ensures State() == ViewerOf(selectedItem)
      ensures selectedItem != null ==> snapshotIntervalMs == selectedItem.refreshRateMs
      ensures selectedItem == null ==> snapshotIntervalMs == old(snapshotIntervalMs)
      ensures theMap != null && id.Some? && ItemWithId(response.cameras, id.value) != null ==>
                var camera := ItemWithId(response.cameras, id.value);
                camera.timeLapse == old(camera.timeLapse) + FetchedFrames(fetched)
      ensures deselected == (if old(selectedItem) != null then Some(ItemSelectedEventArgs(null, old(selectedItem))) else None)
      ensures selection == (if selectedItem != null then Some(ItemSelectedEventArgs(selectedItem, null)) else None)
    {
      StopRefreshing();
      outcome, deselected := ReplaceResults(response.cameras);
      selection := None;
      if outcome.Fail? {
        return;
      }
      apiStatus := response.status;
      noResults := |items| == 0;
      if id.Some? {
        selection := SetSelectedItem(ItemWithId(items, id.value), fetched);
      }
    }

    /**
     * A tapped pin selects, in the list, the first item with the pin's Id (or
     * nothing), which runs the selection-changed handler when the selection moves.
     */
    method PinSelected(id: string, fetched: Option<Frame>) returns (raised: Option<ItemSelectedEventArgs>)
      requires Valid()
      modifies this, items
      ensures Valid()
      ensures selectedItem == ItemWithId(items, id) && items == old(items)
      ensures selectedItem == old(selectedItem) ==> raised == None && unchanged(this)
      ensures selectedItem != old(selectedItem) ==> raised == Some(ItemSelectedEventArgs(selectedItem, old(selectedItem)))
      ensures selectedItem != old(selectedItem) ==> State() == ViewerOf(selectedItem)
      ensures selectedItem != old(selectedItem) && selectedItem != null ==>
                snapshotIntervalMs == selectedItem.refreshRateMs
      ensures ItemWithId(items, id) != null && selectedItem != old(selectedItem) ==>
                var camera := ItemWithId(items, id);
                camera.timeLapse == old(camera.timeLapse) + FetchedFrames(fetched)
      ensures Context() == old(Context()).(selectedItem := selectedItem, selected := selectedItem, snapshotIntervalMs := snapshotIntervalMs)
    {
      raised := SetSelectedItem(ItemWithId(items, id), fetched);
    }
  }
}
