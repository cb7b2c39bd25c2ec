# TrafficCams: panel, playback and refresh-prompt model

TrafficCams shows traffic cameras on a map, with a list of cameras in a left panel. When a camera
is selected, the panel shows its time-lapse images. A snapshot timer fetches a new image at the
camera's refresh rate, and a play button runs the frames as a movie on a 750 ms frame timer.
The main page tells the user when the camera list no longer matches the map view (the
"PendingRefresh" prompt) and saves that prompt across suspension.

The model covers:

- `playback.dfy` (module `Playback`): the viewer's cursor and timers as a value (`PanelState`), one
  function per handler, and lemmas about runs of frame-timer ticks. The cursor stays in
  [-1, Count - 1]. It never passes the last frame and never wraps, and a playing movie stops by
  itself at the end of the reel.
- `left_panel.dfy` (module `Panel`): the `LeftPanel` class. Its methods update the fields in place,
  as the handlers do, and are proved against the `Playback` functions. It also holds the marker
  synchronisation between the results collection and the map pins, `Refresh`, select-by-Id, and
  the selection-changed event arguments. `Camera` is a class because an image fetch appends to its
  time lapse in place.
- `main_page.dfy` (module `Page`): the refresh-prompt flags as a value (`RefreshFlags`) with one
  function per event, the `MainPage` class whose handlers are proved against them, and page-state
  save/restore.
- `playback_visibility_converter.dfy`, `play_pause_image_converter.dfy`, `plus_one_converter.dfy`:
  the three value converters, over boxed values (`binding.dfy`). PlusOne uses unchecked Int32
  arithmetic.
- `mapping.dfy`: coordinates, bounding boxes, pins and the map's pin list. `wrappers.dfy`: Option,
  Result, Outcome.

Each event handler is one atomic step. The calls into the camera service are parameters. A camera
list fetch is a `CameraResponse` (status and cameras). An image fetch is an `Option<Frame>`, and
the camera appends it (0 or 1 frame). The device location lookup is an `Option<LatLong>`. The map
bounds and orientation an event reports are parameters too.

## Model

| member | source | states |
|---|---|---|
| `Playback.StopMovie` | TrafficCams/LeftPanel.xaml.cs:351-355 | the movie flag is false and the frame timer is stopped; cursor, count and snapshot timer unchanged; validity kept |
| `Playback.StopRefreshing` | TrafficCams/LeftPanel.xaml.cs:371-375 | movie stopped, frame timer and snapshot timer stopped; cursor unchanged; validity kept |
| `Playback.StartMovie` | TrafficCams/LeftPanel.xaml.cs:337-349 | without a view nothing changes; with a view the movie plays and the frame timer runs; a cursor on the last frame first moves to the first frame (or -1 when empty); otherwise the cursor stays; validity kept |
| `Playback.FrameTick` | TrafficCams/LeftPanel.xaml.cs:357-369 | on the last frame the tick is StopMovie with the cursor unchanged; otherwise the cursor advances by exactly one; from a valid state the cursor never decreases and stays at most Count - 1 |
| `Playback.PlayMovieTapped` | TrafficCams/LeftPanel.xaml.cs:330-336 | playing: StopMovie; stopped: StartMovie; with a view the movie flag is flipped |
| `Playback.ReceiveFrame` | TrafficCams/LeftPanel.xaml.cs:179 | the fetch adds exactly one frame when an image arrives for a viewed camera and none otherwise, and changes nothing else |
| `Playback.AfterSnapshotFetch` | TrafficCams/LeftPanel.xaml.cs:181-186 | the cursor moves to the last frame only when the pre-fetch flag held, no movie plays and a view exists; otherwise nothing changes |
| `Playback.SnapshotTick` | TrafficCams/LeftPanel.xaml.cs:166-188 | no selection: nothing changes; the count grows by the fetched frame; a viewer parked on the last frame with no movie follows the new last frame; any other cursor is untouched; timers and movie flag unchanged; validity kept, cursor never moves back |
| `Playback.TicksStayInReel` | TrafficCams/LeftPanel.xaml.cs:357-369 | after any number of frame ticks the state is valid, the cursor lies between its start and Count - 1, and Count is unchanged |
| `Playback.EndOfReel` | TrafficCams/LeftPanel.xaml.cs:359-368 | a playing movie at cursor p stops by itself after exactly Count - p ticks, on the last frame |
| `Playback.ReplayFromLastFrame` | TrafficCams/LeftPanel.xaml.cs:339-368 | starting on the last frame rewinds to frame 0, and Count ticks later the viewer is back on the last frame, stopped |
| `Playback.Viewing` | TrafficCams/LeftPanel.xaml.cs:198-222 | the viewer of a just-selected camera is valid, has a view with all its frames, sits on the last frame, plays no movie, and runs the snapshot timer |
| `Playback.SnapshotTickFollowsOnlyParkedViewer` | TrafficCams/LeftPanel.xaml.cs:171-186 | with 3 frames and a 4th fetched: cursor 2 moves to 3, cursor 0 stays at 0, and cursor 2 during a movie stays at 2 |
| `Panel.Camera.ReceiveImage` | TrafficCams/LeftPanel.xaml.cs:179 | an image fetch appends the received frame, if any, to the camera's time lapse |
| `Panel.NewItemSelectedEventArgs` | TrafficCams/LeftPanel.xaml.cs:41-45 | each item of the event is the camera it was given, and is null exactly when the object was null or not mappable |
| `Panel.PinsFor` | TrafficCams/LeftPanel.xaml.cs:293-305 | one pin per item, in the items' order, each keyed by its item's Id and placed at its position |
| `Panel.PinsForAppend` | TrafficCams/LeftPanel.xaml.cs:293-305 | adding items in two batches gives the same pins as adding them in one |
| `Panel.FirstIndexWithId` | TrafficCams/LeftPanel.xaml.cs:242 | the index found holds the Id and no earlier item does; none is found exactly when no item has the Id |
| `Panel.ItemWithId` | TrafficCams/LeftPanel.xaml.cs:300 | `FirstOrDefault`: the result is the first item with the Id (no earlier item has it), and it is null exactly when no item has the Id |
| `Panel.LeftPanel.constructor` | TrafficCams/LeftPanel.xaml.cs:99-119 | no results, no selection and no map; NoResults and MoviePlaying false, status Default, both timers stopped, cursor -1 |
| `Panel.LeftPanel.StopMovie` | TrafficCams/LeftPanel.xaml.cs:351-355 | the new viewer state is `Playback.StopMovie` of the old one; nothing else changes; the cursor invariant is kept |
| `Panel.LeftPanel.StopRefreshing` | TrafficCams/LeftPanel.xaml.cs:371-375 | the new viewer state is `Playback.StopRefreshing` of the old one; nothing else changes; the cursor invariant is kept |
| `Panel.LeftPanel.StartMovie` | TrafficCams/LeftPanel.xaml.cs:337-349 | the new viewer state is `Playback.StartMovie` of the old one; nothing else changes; the cursor invariant is kept |
| `Panel.LeftPanel.PlayMovieTapped` | TrafficCams/LeftPanel.xaml.cs:330-336 | the new viewer state is `Playback.PlayMovieTapped` of the old one; nothing else changes |
| `Panel.LeftPanel.FrameTimerTick` | TrafficCams/LeftPanel.xaml.cs:357-369 | the new viewer state is `Playback.FrameTick` of the old one; nothing else changes; the cursor invariant is kept |
| `Panel.LeftPanel.OnLastImage` | TrafficCams/LeftPanel.xaml.cs:171-177 | true exactly when a camera is selected and the cursor is on its last frame |
| `Panel.LeftPanel.AfterSnapshotFetch` | TrafficCams/LeftPanel.xaml.cs:181-186 | the new viewer state is `Playback.AfterSnapshotFetch` of the old one and the flag taken before the fetch |
| `Panel.LeftPanel.SnapshotTimerTick` | TrafficCams/LeftPanel.xaml.cs:166-188 | the selected camera's time lapse gains the fetched frame; the new viewer state is `Playback.SnapshotTick` of the old one; nothing else changes |
| `Panel.LeftPanel.ProcessSelectedItem` | TrafficCams/LeftPanel.xaml.cs:195-224 | the item becomes the viewed camera; for a camera, its fetched frame is appended, the viewer is `Playback.Viewing` of its frames (on the last frame, no movie, snapshot timer running) and the interval is its refresh rate; for null, the viewer is idle and the interval kept; list, map, status and NoResults untouched |
| `Panel.LeftPanel.SelectionChanged` | TrafficCams/LeftPanel.xaml.cs:252-273 | entered with the list already showing the new item: the new item is processed with every effect `ProcessSelectedItem` states (frame, viewer, interval, nothing else touched), the viewed camera is then the list selection, and the event reports the new and old items |
| `Panel.LeftPanel.SetSelectedItem` | TrafficCams/LeftPanel.xaml.cs:252-273 | setting the list selection to its current item raises nothing and changes nothing; any other item becomes both the list selection and the viewed camera through `SelectionChanged`, and the raised event carries the new and the previous selection |
| `Panel.LeftPanel.ResultsCollectionChanged` | TrafficCams/LeftPanel.xaml.cs:283-317 | no map: the change is a fault; Reset clears all pins; Add appends exactly the new items' pins after the old ones; other actions leave the pins unchanged |
| `Panel.LeftPanel.ReplaceResults` | TrafficCams/LeftPanel.xaml.cs:237 | the list is replaced by the fetched cameras and the pins equal the new list's pins; the selection is dropped and the viewer is idle, with a deselection event exactly when something was selected; with no map, a fault with the list empty |
| `Panel.LeftPanel.Refresh` | TrafficCams/LeftPanel.xaml.cs:231-246 | the list shows the fetched cameras with matching pins and status; NoResults exactly when the list is empty; with an Id, the selection is the first item with it, or null; the viewed camera is the selection: a found camera gets its fetched frame, sits on its last frame and runs the snapshot timer at its rate; without one the viewer is idle; the deselection and selection events are returned; with no map, a fault, an empty list and no status or NoResults update |
| `Panel.LeftPanel.PinSelected` | TrafficCams/LeftPanel.xaml.cs:298-301 | the list selection becomes the first item with the pin's Id, or null; when that moves the selection, the new item is viewed (fetched frame, last frame, snapshot timer at its rate) and its event is raised; otherwise nothing changes |
| `Mapping.MapControl.AddPointOfInterestPin` | TrafficCams/LeftPanel.xaml.cs:304 | the pin is appended to the map's pins |
| `Mapping.MapControl.ClearPointOfInterestPins` | TrafficCams/LeftPanel.xaml.cs:309 | the map has no pins |
| `Page.AfterSizeChanged` | TrafficCams/MainPage.xaml.cs:96-105 | an unchanged orientation changes nothing; otherwise the no-refresh flag holds exactly when the old or the new orientation is Snapped, and the orientation is remembered; nothing else changes |
| `Page.AfterViewChangeEnded` | TrafficCams/MainPage.xaml.cs:108-131 | the prompt is restored when the retain flag is set, else cleared when the no-refresh flag is set, else (after the initial resize) raised exactly when the box differs from the last one, else unchanged; afterwards the last box is the new box, retain is false, the initial resize has occurred, and no-refresh survives only if the initial resize had not yet occurred |
| `Page.AfterGotoLocation` | TrafficCams/MainPage.xaml.cs:205-258 | a failed location lookup with no position marks the initial resize as done; any position to go to sets the no-refresh flag; nothing else changes |
| `Page.SaveInto` | TrafficCams/MainPage.xaml.cs:334-338 | the page state with the current prompt is stored under "MainPageState"; other keys are kept |
| `Page.RestoreFrom` | TrafficCams/MainPage.xaml.cs:280-285 | the stored page state replaces the current one only when present under "MainPageState" |
| `Page.SaveThenRestore` | TrafficCams/MainPage.xaml.cs:283-284 | restoring what was saved gives back the page state with the prompt it had when saved |
| `Page.RepeatedViewChangeClearsPrompt` | TrafficCams/MainPage.xaml.cs:114-124 | the same box reported twice in a row never leaves the prompt raised |
| `Page.SettledPromptTracksMovement` | TrafficCams/MainPage.xaml.cs:119-128 | after the initial resize, a second view change prompts exactly when its box differs from the first |
| `Page.SnapTransitionDoesNotPrompt` | TrafficCams/MainPage.xaml.cs:99-124 | entering or leaving the snapped view does not prompt on the next view change |
| `Page.NavigationDoesNotPrompt` | TrafficCams/MainPage.xaml.cs:246-256 | going to a location does not prompt on the view change it causes |
| `Page.PromptSurvivesSuspension` | TrafficCams/MainPage.xaml.cs:119-120 | a prompt saved, restored and then retained by a non-new navigation comes back on the first view change |
| `Page.MainPage.constructor` | TrafficCams/MainPage.xaml.cs:79-151 | no prompt, all flags false, no last box, empty page state, and a fresh map with no pins bound to the panel |
| `Page.MainPage.SizeChanged` | TrafficCams/MainPage.xaml.cs:96-105 | the new flags are `AfterSizeChanged` of the old ones; the page state is unchanged |
| `Page.MainPage.ViewChangeEnded` | TrafficCams/MainPage.xaml.cs:108-131 | the page state records the center and zoom; the new flags are `AfterViewChangeEnded` of the old ones and the saved prompt |
| `Page.MainPage.LeftPanelRefreshed` | TrafficCams/MainPage.xaml.cs:154-157 | the page state records the map bounds of the refresh |
| `Page.MainPage.RefreshPanel` | TrafficCams/MainPage.xaml.cs:154-166 | the panel shows the refreshed list, selecting and viewing the Id's camera; the page records the refresh bounds and, when a selection event was raised, the panel selection's Id; the flags are unchanged |
| `Page.MainPage.RefreshPromptTapped` | TrafficCams/MainPage.xaml.cs:134-138 | the panel shows the refreshed list with nothing selected and an idle viewer; the prompt is false; the refresh bounds are recorded, and the saved Id is cleared if something had been selected |
| `Page.MainPage.MapTapped` | TrafficCams/MainPage.xaml.cs:141-148 | with a prompt pending, a refresh as for the prompt (list, idle viewer, bounds and Id recorded), after which the prompt is false; with none, nothing changes anywhere |
| `Page.MainPage.ItemSelected` | TrafficCams/MainPage.xaml.cs:160-166 | the saved selected Id is the new item's Id, or null when there is no new item; nothing else changes |
| `Page.MainPage.GotoLocation` | TrafficCams/MainPage.xaml.cs:205-258 | the target is the given position, else the located one; the new flags are `AfterGotoLocation` of the old ones |
| `Page.MainPage.LoadState` | TrafficCams/MainPage.xaml.cs:280-285 | the page state becomes `RestoreFrom` of the saved states and the old page state |
| `Page.MainPage.SaveState` | TrafficCams/MainPage.xaml.cs:334-338 | the page state takes the current prompt and the result is `SaveInto` of the given states |
| `Page.MainPage.OnNavigatedTo` | TrafficCams/MainPage.xaml.cs:287-316 | the orientation is remembered; a new navigation sets the GotoLocation flags and leaves the panel alone; any other navigation sets the retain flag and, only when saved bounds exist, refreshes the panel with the saved Id: the saved camera, when in the new list, is selected and viewed on its last frame with the snapshot timer at its rate, and the saved Id is kept |
| `Page.MainPage.OnNavigatedFrom` | TrafficCams/MainPage.xaml.cs:318-328 | both panel timers are stopped and nothing else in the panel changes |
| `PlaybackVisibilityConverter.Convert` | TrafficCams/Common/PlaybackVisibilityConverter.cs:9-16 | an Int32 becomes a Visibility that is Visible exactly when the Int32 exceeds 1; any other value is returned unchanged |
| `PlaybackVisibilityConverter.ConvertBack` | TrafficCams/Common/PlaybackVisibilityConverter.cs:18-21 | always fails with NotImplemented |
| `PlaybackVisibilityConverter.ValueAloneDecides` | TrafficCams/Common/PlaybackVisibilityConverter.cs:9-16 | the result does not depend on target type, parameter or language |
| `PlaybackVisibilityConverter.VisibilityMonotone` | TrafficCams/Common/PlaybackVisibilityConverter.cs:13 | a larger count never hides controls that a smaller count shows |
| `PlayPauseImageConverter.Convert` | TrafficCams/Common/PlayPauseImageConverter.cs:8-14 | true gives the pause image path, false the play image path; any other value is returned unchanged |
| `PlayPauseImageConverter.ConvertBack` | TrafficCams/Common/PlayPauseImageConverter.cs:16-19 | always fails with NotImplemented |
| `PlayPauseImageConverter.ShownState` | TrafficCams/Common/PlayPauseImageConverter.cs:11 | only the two button image paths tell a playing state |
| `PlayPauseImageConverter.ImageShowsPlayingState` | TrafficCams/Common/PlayPauseImageConverter.cs:11 | the image for a flag tells that flag back |
| `PlayPauseImageConverter.DistinctStatesDistinctImages` | TrafficCams/Common/PlayPauseImageConverter.cs:11 | the two flags give different images |
| `PlusOneConverter.WrapInt32` | TrafficCams/Common/PlusOneConverter.cs:11 | an in-range value is unchanged, and the result equals its input modulo 2^32 |
| `PlusOneConverter.Convert` | TrafficCams/Common/PlusOneConverter.cs:8-14 | an Int32 n below MaxValue gives n + 1, and MaxValue wraps to MinValue; any other value is returned unchanged |
| `PlusOneConverter.ConvertBack` | TrafficCams/Common/PlusOneConverter.cs:16-19 | always fails with NotImplemented |
| `PlusOneConverter.MinusOne` | TrafficCams/Common/PlusOneConverter.cs:11 | unchecked decrement: n - 1, with MinValue wrapping to MaxValue |
| `PlusOneConverter.MinusOneUndoesConvert` | TrafficCams/Common/PlusOneConverter.cs:11 | subtracting one from the displayed number gives the Int32 back, wrap-around included |
| `PlusOneConverter.ConvertInjective` | TrafficCams/Common/PlusOneConverter.cs:11 | distinct Int32 values convert to distinct values |
| `PlusOneConverter.FrameNumberInRange` | TrafficCams/Common/PlusOneConverter.cs:11 | a cursor on a frame is shown as a number from 1 to Count that does not wrap |

## Left out

- Concurrency. Every handler is one atomic step. Not modelled: the `AsyncLock`, the `lock` blocks, the dispatcher, and `async void` interleaving. The snapshot tick is also available as its two halves around the fetch (`OnLastImage`, `AfterSnapshotFetch`). No interleaving between those halves is explored.
- The camera service (`GetCameras`, `GetCameraImage`) is outside this model. Their results are parameters. `MaxResults` only feeds `GetCameras`, so the results cap and the "more results" status belong to the service and are not modelled.
- `Panel.LeftPanel.ReplaceResults`: the fetch is assumed to clear the results collection (a Reset) and then add the new cameras as one Add batch. `ObservableCollection` may raise one Add per item instead; `PinsForAppend` shows the pins come out the same.
- Clearing the results is assumed to clear the list view's selection, as the list control does when its items go away. Its selection-changed handler runs before the Reset reaches the pin handler. So the list selection is always null or one of the results.
- The frame view comes from XAML binding, which is not part of this model. The model assumes the view exists exactly while a camera is selected and that it counts that camera's frames. Appending a frame does not move the cursor. A newly bound view's starting cursor is not modelled, because `ProcessSelectedItem` moves it to the last frame straight away.
- `RefreshRate * 1000` is a floating-point conversion. A camera carries the resulting whole number of milliseconds instead.
- Timers are modelled only as running/stopped flags plus the snapshot interval. Tick delivery by the `DispatcherTimer` is left out, and so is the frame timer's fixed 750 ms interval: a frame tick is an event.
- The selection-changed handler is serialised by an `AsyncLock` and awaits the image fetch. Each run is modelled as one atomic step inside the assignment that raises it.
- `Panel.LeftPanel.Refresh`: when no map is bound, the fault is modelled as raised on the first Reset, after the collection was cleared. The service code that would show this is outside the model. The `Refreshed` event is not raised in that case.
- The `Refreshed` and `ItemSelected` events are not delivered automatically. Panel methods return the `ItemSelected` events they raise. `Page.MainPage.RefreshPanel` hands those of a refresh to the page's `ItemSelected` handler and then calls `LeftPanelRefreshed`. Events from a list or pin tap (`SetSelectedItem`, `PinSelected`) are returned, but no page method receives them.
- Map rendering and device collaborators are left out: pin highlighting, `SetView`, the current-location pin, `VisualStateManager`, `Geolocator` (its result is a parameter), `GetSessionIdAsync`, and the pins' Tapped-handled flag.
- The one-shot `TheMap_ViewChangeEndedWithRefreshNeeded` handler that `GotoLocation` registers is left out, because it is bookkeeping of the map's delegate list. The refresh it performs is `Refresh`.
- `Page.MainPage.SaveState`: the source stores a reference to the page-state object, so later changes to it show through the saved dictionary. The model stores a copy.
- `Page.MainPage.LoadState`: a stored value that is not a page state (the `as` cast yielding null) is not modelled. Saved dictionaries hold page states only.
- `Page.MainPage.OnNavigatedTo`: `LatLong.TryParse` is the `destination` parameter. Moving the map to the saved center is left out, including its failure when no center was saved. The panel refresh, which the source does not await, is modelled as completing first. It touches the panel and the page state's bounds and selected Id, never the flags it runs beside.
- The source's `BoundingBox` type is not part of this model. Bounding boxes are compared by value, which is what the view-change test needs in order to detect an unchanged view.
- `App.InitialMapResizeHasOccurred` is an application-wide flag. It is modelled as a field of the page.
- UI glue is left out: `GetSharedData` (share-charm file and stream I/O), `MoreResults_Tapped` and `CloseButton_Tapped` (popup geometry), `MappableListView_LayoutUpdated`, the details-view visibility workaround, error-panel dismissal, the search flyout and app-bar handlers (`FindButton_Click`, `LocationButton_Click`, both `Refresh_Click`, `Aerial_Click`, `Traffic_Click`), the first-run marker and the location message dialog.
- `TrafficCams/Flyouts/WebViewFlyout.xaml.cs` is not part of this model. It only wraps web navigation.
- Frame images are opaque bytes with a timestamp. The camera's latest image bytes are not modelled.
