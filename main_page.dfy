/**
 * The main page: a map beside the left panel. The page decides when to prompt
 * the user that the camera list no longer matches the map view (the
 * PendingRefresh flag), from orientation changes, the end of map view changes,
 * navigation, and the page state saved across suspension.
 */
module Page {
  import opened Wrappers
  import opened Mapping
  import Panel
  import Playback

  /** Windows.UI.ViewManagement.ApplicationViewState. */
  datatype ViewState = FullScreenLandscape | Filled | Snapped | FullScreenPortrait

  /** How the page was navigated to. */
  datatype NavigationMode = New | Back | Forward | Refresh

  /** The page state saved when the application is suspended. */
  datatype PageState = PageState(
    mapCenter: Option<LatLong>,
    zoom: real,
    mapBox: Option<BoundingBox>,       // the map bounds of the last panel refresh
    selectedItemId: Option<string>,
    pendingRefresh: bool)

  const EmptyPageState: PageState := PageState(None, 0.0, None, None, false)

  /** The key the page state is saved under. */
  const PageStateKey: string := "MainPageState"

  /** The page's refresh-prompt bookkeeping. */
  datatype RefreshFlags = RefreshFlags(
    priorOrientation: ViewState,
    noRefreshRequired: bool,           // the next view change needs no prompt
    retainRefreshRequired: bool,       // the next view change restores the saved prompt
    lastBox: Option<BoundingBox>,
    initialMapResizeHasOccurred: bool,
    pendingRefresh: bool)

  /**
   * A size change: if the orientation is unchanged nothing happens; otherwise
   * the next view change needs no prompt exactly when the page enters or
   * leaves the snapped view, and the new orientation is remembered.
   */
  function AfterSizeChanged(f: RefreshFlags, orientation: ViewState): (r: RefreshFlags)
    ensures f.priorOrientation == orientation ==> r == f
    ensures r.priorOrientation == orientation
    ensures f.priorOrientation != orientation ==>
              (r.noRefreshRequired <==> f.priorOrientation == Snapped || orientation == Snapped)
    ensures r.(priorOrientation := f.priorOrientation, noRefreshRequired := f.noRefreshRequired) == f
  {
    if f.priorOrientation == orientation then f
    else f.(noRefreshRequired := f.priorOrientation == Snapped || orientation == Snapped,
            priorOrientation := orientation)
  }

  /**
   * The end of a map view change showing `box`. The prompt is restored from the
   * saved page state when that is requested, else suppressed when no refresh is
   * required, else (once the initial resize is over) raised exactly when the
   * view moved, else left alone. Afterwards the box is remembered, the restore
   * request is used up, the initial resize is over, and the suppression is used
   * up only if the initial resize was already over before this event.
   */
  function AfterViewChangeEnded(f: RefreshFlags, box: BoundingBox, savedPending: bool): (r: RefreshFlags)
    ensures f.retainRefreshRequired ==> r.pendingRefresh == savedPending
    ensures !f.retainRefreshRequired && f.noRefreshRequired ==> !r.pendingRefresh
    ensures !f.retainRefreshRequired && !f.noRefreshRequired && f.initialMapResizeHasOccurred ==>
              (r.pendingRefresh <==> f.lastBox != Some(box))
    ensures !f.retainRefreshRequired && !f.noRefreshRequired && !f.initialMapResizeHasOccurred ==>
              r.pendingRefresh == f.pendingRefresh
    ensures r.lastBox == Some(box) && !r.retainRefreshRequired && r.initialMapResizeHasOccurred
    ensures r.noRefreshRequired <==> f.noRefreshRequired && !f.initialMapResizeHasOccurred
    ensures r.priorOrientation == f.priorOrientation
  {
    var pending :=
      if f.retainRefreshRequired then savedPending
      else if f.noRefreshRequired then false
      else if f.initialMapResizeHasOccurred then Some(box) != f.lastBox
      else f.pendingRefresh;
    RefreshFlags(
      f.priorOrientation,
      if f.initialMapResizeHasOccurred then false else f.noRefreshRequired,
      false,
      Some(box),
      true,
      pending)
  }

  /**
   * The flags GotoLocation sets: when no position is given and the device cannot
   * locate itself, the initial resize counts as over; when there is a position
   * to go to, the view change it causes needs no prompt.
   */
  function AfterGotoLocation(f: RefreshFlags, position: Option<LatLong>, located: Option<LatLong>): (r: RefreshFlags)
    ensures position.None? && located.None? ==> r.initialMapResizeHasOccurred
    ensures !(position.None? && located.None?) ==> r.initialMapResizeHasOccurred == f.initialMapResizeHasOccurred
    ensures position.Some? || located.Some? ==> r.noRefreshRequired
    ensures position.None? && located.None? ==> r.noRefreshRequired == f.noRefreshRequired
    ensures r.(noRefreshRequired := f.noRefreshRequired, initialMapResizeHasOccurred := f.initialMapResizeHasOccurred) == f
  {
    var afterLookup := if position.None? && located.None? then f.(initialMapResizeHasOccurred := true) else f;
    if position.Some? || located.Some? then afterLookup.(noRefreshRequired := true) else afterLookup
  }

  /** SaveState: the current prompt is copied into the page state, which is stored under its key. */
  function SaveInto(saved: map<string, PageState>, state: PageState, pending: bool): (r: map<string, PageState>)
    ensures PageStateKey in r && r[PageStateKey] == state.(pendingRefresh := pending)
    ensures forall k :: k in saved && k != PageStateKey ==> k in r && r[k] == saved[k]
  {
    saved[PageStateKey := state.(pendingRefresh := pending)]
  }

  /** LoadState: the page state is replaced only when a saved one is present under its key. */
  function RestoreFrom(saved: Option<map<string, PageState>>, current: PageState): (r: PageState)
    ensures saved.Some? && PageStateKey in saved.value ==> r == saved.value[PageStateKey]
    ensures !(saved.Some? && PageStateKey in saved.value) ==> r == current
  {
    if saved.Some? && PageStateKey in saved.value then saved.value[PageStateKey] else current
  }

  /** Restoring what was saved gives the page state back, with the prompt it had when saved. */
  lemma SaveThenRestore(saved: map<string, PageState>, state: PageState, pending: bool, current: PageState)
    ensures RestoreFrom(Some(SaveInto(saved, state, pending)), current) == state.(pendingRefresh := pending)
  {
  }

  /** The same view reported twice in a row never leaves a prompt behind. */
  lemma RepeatedViewChangeClearsPrompt(f: RefreshFlags, box: BoundingBox, saved1: bool, saved2: bool)
    ensures !AfterViewChangeEnded(AfterViewChangeEnded(f, box, saved1), box, saved2).pendingRefresh
  {
  }

  /** Once the initial resize is over, a moved view prompts and an unmoved one does not. */
  lemma SettledPromptTracksMovement(f: RefreshFlags, box: BoundingBox, next: BoundingBox, saved1: bool, saved2: bool)
    requires !f.retainRefreshRequired && f.initialMapResizeHasOccurred
    ensures AfterViewChangeEnded(AfterViewChangeEnded(f, box, saved1), next, saved2).pendingRefresh <==> next != box
  {
  }

  /** Entering or leaving the snapped view does not prompt on the view change it causes. */
  lemma SnapTransitionDoesNotPrompt(f: RefreshFlags, orientation: ViewState, box: BoundingBox, saved: bool)
    requires !f.retainRefreshRequired && f.priorOrientation != orientation
    requires f.priorOrientation == Snapped || orientation == Snapped
    ensures !AfterViewChangeEnded(AfterSizeChanged(f, orientation), box, saved).pendingRefresh
  {
  }

  /** Going to a location does not prompt on the view change it causes. */
  lemma NavigationDoesNotPrompt(f: RefreshFlags, position: Option<LatLong>, located: Option<LatLong>, box: BoundingBox, saved: bool)
    requires !f.retainRefreshRequired && (position.Some? || located.Some?)
    ensures !AfterViewChangeEnded(AfterGotoLocation(f, position, located), box, saved).pendingRefresh
  {
  }

  /**
   * Suspension keeps the prompt: a prompt saved with the page state and restored
   * on a non-new navigation comes back on the first view change.
   */
  lemma PromptSurvivesSuspension(f: RefreshFlags, saved: map<string, PageState>, state: PageState, current: PageState, box: BoundingBox)
    ensures AfterViewChangeEnded(f.(retainRefreshRequired := true), box,
              RestoreFrom(Some(SaveInto(saved, state, f.pendingRefresh)), current).pendingRefresh).pendingRefresh
            == f.pendingRefresh
  {
    SaveThenRestore(saved, state, f.pendingRefresh, current);
  }

  class MainPage {
    const panel: Panel.LeftPanel
    var priorOrientation: ViewState
    var noRefreshRequiredViewChange: bool
    var retainRefreshRequiredViewChange: bool
    var lastBox: Option<BoundingBox>
    var initialMapResizeHasOccurred: bool  // the application-wide flag of the same name
    var pendingRefresh: bool               // the "PendingRefresh" view-model entry
    var pageState: PageState

    function Flags(): RefreshFlags
      reads this
    {
      RefreshFlags(priorOrientation, noRefreshRequiredViewChange, retainRefreshRequiredViewChange,
                   lastBox, initialMapResizeHasOccurred, pendingRefresh)
    }

    /** The panel is consistent and has the page's map bound to it. */
    ghost predicate Valid()
      reads this, panel, panel.selected
    {
      panel.Valid() && panel.theMap != null
    }

    constructor ()
      ensures Valid() && fresh(panel) && fresh(panel.theMap)
      ensures Flags() == RefreshFlags(FullScreenLandscape, false, false, None, false, false)
      ensures pageState == EmptyPageState
      ensures panel.theMap.pins == [] && panel.items == [] && panel.selected == null
    {
      var leftPanel := new Panel.LeftPanel();
      var theMap := new MapControl();
      leftPanel.theMap := theMap;
      panel := leftPanel;
      priorOrientation := FullScreenLandscape;
      noRefreshRequiredViewChange := false;
      retainRefreshRequiredViewChange := false;
      lastBox := None;
      initialMapResizeHasOccurred := false;
      pendingRefresh := false;
      pageState := EmptyPageState;
    }

    /** The page's size changed; `orientation` is the application view state now. */
    method SizeChanged(orientation: ViewState)
      requires Valid()
      modifies this
      ensures Valid()
      ensures Flags() == AfterSizeChanged(old(Flags()), orientation)
      ensures pageState == old(pageState)
    {
      if priorOrientation == orientation {
        return;
      }
      noRefreshRequiredViewChange := priorOrientation == Snapped || orientation == Snapped;
      priorOrientation := orientation;
    }

    /** A map view change ended with the given center, zoom and bounds. */
    method ViewChangeEnded(center: LatLong, zoom: real, box: BoundingBox)
      requires Valid()
      modifies this
      ensures Valid()
      ensures Flags() == AfterViewChangeEnded(old(Flags()), box, old(pageState).pendingRefresh)
      ensures pageState == old(pageState).(mapCenter := Some(center), zoom := zoom)
    {
      pageState := pageState.(mapCenter := Some(center), zoom := zoom);
      var thisBox := box;
      if retainRefreshRequiredViewChange {
        pendingRefresh := pageState.pendingRefresh;
      } else if noRefreshRequiredViewChange {
        pendingRefresh := false;
      } else if initialMapResizeHasOccurred {
        pendingRefresh := Some(thisBox) != lastBox;
      }
      lastBox := Some(thisBox);
      if initialMapResizeHasOccurred {
        noRefreshRequiredViewChange := false;
      }
      retainRefreshRequiredViewChange := false;
      initialMapResizeHasOccurred := true;
    }

    /** The panel finished a refresh: the map bounds in play are kept in the page state. */
    method LeftPanelRefreshed(targetBounds: BoundingBox)
      requires Valid()
      modifies this
      ensures Valid()
      ensures Flags() == old(Flags())
      ensures pageState == old(pageState).(mapBox := Some(targetBounds))
    {
      pageState := pageState.(mapBox := Some(targetBounds));
    }

    /**
     * The page's Id record once a panel refresh has delivered its ItemSelected
     * events: the Id of the panel's selection if any event was raised (one is
     * raised whenever the selection was or becomes non-null), else unchanged.
     */
    ghost function IdAfterRefresh(before: Panel.Camera?, after: Panel.Camera?, recorded: Option<string>): Option<string> {
      if before != null || after != null then Panel.IdOf(after) else recorded
    }

    /** The refresh prompt was tapped: the panel is refreshed and the prompt goes away. */
    method RefreshPromptTapped(response: Panel.CameraResponse, targetBounds: BoundingBox)
      requires Valid()
      modifies this, panel, panel.theMap, response.cameras
      ensures Valid()
      ensures Flags() == old(Flags()).(pendingRefresh := false)
      ensures panel.Shows(None, response) && panel.State() == Playback.Idle
      ensures pageState == old(pageState).(mapBox := Some(targetBounds),
                selectedItemId := IdAfterRefresh(old(panel.selectedItem), null, old(pageState).selectedItemId))
    {
      RefreshPanel(None, response, None, targetBounds);
      pendingRefresh := false;
    }

    /** The map was tapped: a pending refresh is carried out, otherwise nothing happens. */
    method MapTapped(response: Panel.CameraResponse, targetBounds: BoundingBox)
      requires Valid()
      modifies this, panel, panel.theMap, response.cameras
      ensures Valid()
      ensures old(pendingRefresh) ==> Flags() == old(Flags()).(pendingRefresh := false)
      ensures old(pendingRefresh) ==> panel.Shows(None, response) && panel.State() == Playback.Idle
      ensures old(pendingRefresh) ==>
                pageState == old(pageState).(mapBox := Some(targetBounds),
                  selectedItemId := IdAfterRefresh(old(panel.selectedItem), null, old(pageState).selectedItemId))
      ensures !old(pendingRefresh) ==> unchanged(this) && unchanged(panel) && unchanged(panel.theMap)
    {
      if pendingRefresh {
        RefreshPanel(None, response, None, targetBounds);
        pendingRefresh := false;
      }
    }

    /**
     * The panel is refreshed, selecting `id` if given; the ItemSelected events it
     * raises and then its Refreshed event reach the page's handlers.
     */
    method RefreshPanel(id: Option<string>, response: Panel.CameraResponse, fetched: Option<Panel.Frame>,
                        targetBounds: BoundingBox)
      requires Valid()
      modifies this, panel, panel.theMap, response.cameras
      ensures Valid()
      ensures Flags() == old(Flags())
      ensures panel.Shows(id, response)
      ensures panel.State() == Panel.ViewerOf(panel.selectedItem)
      ensures id.Some? && panel.selectedItem != null ==>
                var camera := panel.selectedItem;
                camera.timeLapse == old(camera.timeLapse) + Panel.FetchedFrames(fetched)
                && panel.snapshotIntervalMs == camera.refreshRateMs
      ensures pageState == old(pageState).(mapBox := Some(targetBounds),
                selectedItemId := IdAfterRefresh(old(panel.selectedItem), panel.selectedItem, old(pageState).selectedItemId))
    {
      var outcome, deselected, selection := panel.Refresh(id, response, fetched);
      if deselected.Some? {
        ItemSelected(deselected.value);
      }
      if selection.Some? {
        ItemSelected(selection.value);
      }
      LeftPanelRefreshed(targetBounds);
    }

    /** The panel selected an item: its Id, or null, is kept in the page state. */
    method ItemSelected(e: Panel.ItemSelectedEventArgs)
      requires Valid()
      modifies this
      ensures Valid()
      ensures Flags() == old(Flags())
      ensures pageState == old(pageState).(selectedItemId := Panel.IdOf(e.newItem))
    {
      pageState := pageState.(selectedItemId := Panel.IdOf(e.newItem));
    }

    /**
     * The flag-setting part of GotoLocation. `located` is what the device's
     * location lookup gives when no position is passed (None when it fails);
     * `target` is where the map is sent, if anywhere.
     */
    method GotoLocation(position: Option<LatLong>, located: Option<LatLong>) returns (target: Option<LatLong>)
      requires Valid()
      modifies this
      ensures Valid()
      ensures target == (if position.Some? then position else located)
      ensures Flags() == AfterGotoLocation(old(Flags()), position, located)
      ensures pageState == old(pageState)
    {
      target := position;
      if target.None? {
        if located.Some? {
          target := located;
        } else {
          initialMapResizeHasOccurred := true;
        }
      }
      if target.Some? {
        noRefreshRequiredViewChange := true;
      }
    }

    /** Restores the page state, but only from a saved state stored under the page's key. */
    method LoadState(saved: Option<map<string, PageState>>)
      requires Valid()
      modifies this
      ensures Valid()
      ensures Flags() == old(Flags())
      ensures pageState == RestoreFrom(saved, old(pageState))
    {
      if saved.Some? && PageStateKey in saved.value {
        pageState := saved.value[PageStateKey];
      }
    }

    /** Saves the page state, with the current prompt, under the page's key. */
    method SaveState(saved: map<string, PageState>) returns (result: map<string, PageState>)
      requires Valid()
      modifies this
      ensures Valid()
      ensures Flags() == old(Flags())
      ensures pageState == old(pageState).(pendingRefresh := pendingRefresh)
      ensures result == SaveInto(saved, old(pageState), pendingRefresh)
    {
      pageState := pageState.(pendingRefresh := pendingRefresh);
      result := saved[PageStateKey := pageState];
    }

    /**
     * Navigation to the page. A new navigation goes to `destination` (or to the
     * device's location). Any other navigation refreshes the panel for the saved
     * bounds, when there are any, selecting and viewing the saved item (whose
     * next image is `fetched`), and asks the next view change to restore the
     * saved prompt.
     */
    method OnNavigatedTo(mode: NavigationMode, destination: Option<LatLong>, orientation: ViewState,
                         located: Option<LatLong>, response: Panel.CameraResponse, fetched: Option<Panel.Frame>,
                         targetBounds: BoundingBox)
      requires Valid()
      modifies this, panel, panel.theMap, response.cameras
      ensures Valid()
      ensures mode == New ==>
                Flags() == AfterGotoLocation(old(Flags()).(priorOrientation := orientation), destination, located)
      ensures mode == New ==> pageState == old(pageState)
      ensures mode == New ==> unchanged(panel) && unchanged(panel.theMap)
      ensures mode != New ==> Flags() == old(Flags()).(priorOrientation := orientation, retainRefreshRequired := true)
      ensures mode != New && old(pageState).mapBox.Some? ==>
                && panel.Shows(old(pageState).selectedItemId, response)
                && panel.selected == panel.selectedItem
                && panel.State() == Panel.ViewerOf(panel.selectedItem)
                && pageState == old(pageState).(mapBox := Some(targetBounds),
                     selectedItemId := IdAfterRefresh(old(panel.selectedItem), panel.selectedItem,
                                                      old(pageState).selectedItemId))
      ensures mode != New && old(pageState).mapBox.Some? && panel.selectedItem != null ==>
                && Playback.OnLastFrame(panel.State()) && panel.State().snapshotTimerRunning
                && panel.snapshotIntervalMs == panel.selectedItem.refreshRateMs
                && pageState.selectedItemId == old(pageState).selectedItemId
      ensures mode != New && old(pageState).mapBox.None? ==>
                unchanged(panel) && unchanged(panel.theMap) && pageState == old(pageState)
    {
      priorOrientation := orientation;
      if mode == New {
        var target := GotoLocation(destination, located);
      } else {
        if pageState.mapBox.Some? {
          RefreshPanel(pageState.selectedItemId, response, fetched, targetBounds);
        }
        retainRefreshRequiredViewChange := true;
      }
    }

    /** Navigation away from the page stops the panel's timers. */
    method OnNavigatedFrom()
      requires Valid()
      modifies panel
      ensures Valid()
      ensures panel.State() == Playback.StopRefreshing(old(panel.State()))
      ensures panel.Context() == old(panel.Context())
    {
      panel.StopRefreshing();
    }
  }
}
