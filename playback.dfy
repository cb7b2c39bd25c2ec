/**
 * The cursor and timer bookkeeping of the panel's time-lapse viewer, as values.
 *
 * The panel shows the frames of the selected camera through a collection view
 * whose cursor (CurrentPosition) runs from -1 ("no current frame") to Count - 1.
 * Two timers move that cursor automatically: the frame timer plays the frames
 * back as a movie, and the snapshot timer fetches new frames and follows the
 * newest one. Each function below is one handler of the panel, taken as an
 * atomic step; the methods of Panel.LeftPanel are proved against them.
 */
module Playback {

  datatype PanelState = PanelState(
    hasView: bool,              // a collection view over the selected camera's frames exists
    position: int,              // its CurrentPosition
    count: int,                 // its Count
    moviePlaying: bool,         // the "MoviePlaying" entry of the view model
    frameTimerRunning: bool,    // FrameTimer started
    snapshotTimerRunning: bool) // SnapshotTimer started

  /**
   * The cursor never leaves [-1, Count - 1]; the movie flag and the frame timer
   * agree; neither timer runs without a view to move.
   */
  predicate Valid(s: PanelState) {
    && 0 <= s.count
    && -1 <= s.position <= s.count - 1
    && (!s.hasView ==> s.position == -1 && s.count == 0)
    && s.moviePlaying == s.frameTimerRunning
    && (s.moviePlaying ==> s.hasView)
    && (s.snapshotTimerRunning ==> s.hasView)
  }

  /** No camera is viewed: no cursor, no frames, both timers stopped. */
  const Idle: PanelState := PanelState(false, -1, 0, false, false, false)

  /**
   * The viewer of a camera just selected, with `frames` frames: parked on the
   * newest frame, no movie, the snapshot timer running.
   */
  function Viewing(frames: nat): (r: PanelState)
    ensures Valid(r) && r.hasView && r.count == frames
    ensures OnLastFrame(r) && !r.moviePlaying && r.snapshotTimerRunning
  {
    PanelState(true, frames - 1, frames, false, false, true)
  }

  /** The viewer is parked on the newest frame. */
  predicate OnLastFrame(s: PanelState) {
    s.hasView && s.position == s.count - 1
  }

  /** The cursor moves to the first frame, or to -1 when there is none. */
  function MoveCurrentToFirst(s: PanelState): PanelState {
    s.(position := if s.count > 0 then 0 else -1)
  }

  /** StopMovie: the movie flag is cleared and the frame timer stopped. */
  function StopMovie(s: PanelState): (r: PanelState)
    ensures !r.moviePlaying && !r.frameTimerRunning
    ensures r.hasView == s.hasView && r.position == s.position && r.count == s.count
    ensures r.snapshotTimerRunning == s.snapshotTimerRunning
    ensures Valid(s) ==> Valid(r)
  {
    s.(moviePlaying := false, frameTimerRunning := false)
  }

  /** StopRefreshing: the movie stops and the snapshot timer stops too. */
  function StopRefreshing(s: PanelState): (r: PanelState)
    ensures !r.moviePlaying && !r.frameTimerRunning && !r.snapshotTimerRunning
    ensures r.hasView == s.hasView && r.position == s.position && r.count == s.count
    ensures Valid(s) ==> Valid(r)
  {
    StopMovie(s).(snapshotTimerRunning := false)
  }

  /**
   * StartMovie: without a view nothing happens; otherwise the movie plays,
   * restarting from the first frame when the cursor sits on the last one.
   */
  function StartMovie(s: PanelState): (r: PanelState)
    ensures !s.hasView ==> r == s
    ensures s.hasView ==> r.moviePlaying && r.frameTimerRunning
    ensures s.hasView && OnLastFrame(s) ==> r.position == (if s.count > 0 then 0 else -1)
    ensures !OnLastFrame(s) ==> r.position == s.position
    ensures r.hasView == s.hasView && r.count == s.count && r.snapshotTimerRunning == s.snapshotTimerRunning
    ensures Valid(s) ==> Valid(r)
  {
    if !s.hasView then s
    else
      var playing := s.(moviePlaying := true);
      var rewound := if playing.position == playing.count - 1 then MoveCurrentToFirst(playing) else playing;
      rewound.(frameTimerRunning := true)
  }

  /**
   * A frame-timer tick: at the end of the reel the movie stops where it is;
   * otherwise the cursor advances by exactly one frame. It never passes the
   * last frame and never wraps around.
   */
  function FrameTick(s: PanelState): (r: PanelState)
    ensures !s.hasView ==> r == s
    ensures OnLastFrame(s) ==> r == StopMovie(s)
    ensures s.hasView && !OnLastFrame(s) ==> r == s.(position := s.position + 1)
    ensures Valid(s) ==> Valid(r) && s.position <= r.position && r.count == s.count
  {
    if !s.hasView then s
    else if s.position == s.count - 1 then StopMovie(s)
    else s.(position := s.position + 1)
  }

  /** The play/pause button: stops a playing movie, starts a stopped one. */
  function PlayMovieTapped(s: PanelState): (r: PanelState)
    ensures s.moviePlaying ==> r == StopMovie(s)
    ensures !s.moviePlaying ==> r == StartMovie(s)
    ensures Valid(s) ==> Valid(r)
    ensures Valid(s) && s.hasView ==> r.moviePlaying == !s.moviePlaying
  {
    if s.moviePlaying then StopMovie(s) else StartMovie(s)
  }

  /** The fetch of a snapshot tick: the selected camera gains 0 or 1 frame; the cursor stays. */
  function ReceiveFrame(s: PanelState, appended: bool): (r: PanelState)
    ensures r.count == s.count + (if s.hasView && appended then 1 else 0)
    ensures r.(count := s.count) == s
    ensures Valid(s) ==> Valid(r)
  {
    if s.hasView && appended then s.(count := s.count + 1) else s
  }

  /**
   * The part of a snapshot tick after the fetch: the cursor jumps to the newest
   * frame only if it was parked on the last frame before the fetch and no movie
   * is playing.
   */
  function AfterSnapshotFetch(s: PanelState, onLastImage: bool): (r: PanelState)
    ensures onLastImage && !s.moviePlaying && s.hasView ==> r == s.(position := s.count - 1)
    ensures !(onLastImage && !s.moviePlaying && s.hasView) ==> r == s
  {
    if onLastImage && !s.moviePlaying && s.hasView then s.(position := s.count - 1) else s
  }

  /**
   * A whole snapshot tick: "on the last image" is read before the fetch, the
   * fetch may add one frame, and the cursor then follows the newest frame or
   * stays where the user left it.
   */
  function SnapshotTick(s: PanelState, appended: bool): (r: PanelState)
    ensures !s.hasView ==> r == s
    ensures r.count == s.count + (if s.hasView && appended then 1 else 0)
    ensures OnLastFrame(s) && !s.moviePlaying ==> r.position == r.count - 1
    ensures !(OnLastFrame(s) && !s.moviePlaying) ==> r.position == s.position
    ensures r.hasView == s.hasView && r.moviePlaying == s.moviePlaying
    ensures r.frameTimerRunning == s.frameTimerRunning && r.snapshotTimerRunning == s.snapshotTimerRunning
    ensures Valid(s) ==> Valid(r) && s.position <= r.position
  {
    AfterSnapshotFetch(ReceiveFrame(s, appended), OnLastFrame(s))
  }

  /** The state after n frame-timer ticks. */
  function Ticks(s: PanelState, n: nat): PanelState
    decreases n
  {
    if n == 0 then s else Ticks(FrameTick(s), n - 1)
  }

  /** However many ticks fire, the cursor stays in range and only moves forward. */
  lemma {:induction false} TicksStayInReel(s: PanelState, n: nat)
    requires Valid(s)
    ensures Valid(Ticks(s, n))
    ensures s.position <= Ticks(s, n).position <= s.count - 1
    ensures Ticks(s, n).count == s.count
    decreases n
  {
    if n > 0 {
      TicksStayInReel(FrameTick(s), n - 1);
    }
  }

  /**
   * End of reel: a playing movie reaches the last frame and stops by itself,
   * after exactly Count - position ticks.
   */
  lemma {:induction false} EndOfReel(s: PanelState)
    requires Valid(s) && s.moviePlaying
    ensures Ticks(s, s.count - s.position) == StopMovie(s.(position := s.count - 1))
    decreases s.count - s.position
  {
    var n := s.count - s.position;
    if s.position == s.count - 1 {
      assert Ticks(s, n) == Ticks(FrameTick(s), 0);
    } else {
      var next := FrameTick(s);
      assert next == s.(position := s.position + 1);
      EndOfReel(next);
      assert Ticks(s, n) == Ticks(next, n - 1);
    }
  }

  /**
   * Replay from the newest frame: starting the movie on the last frame shows
   * every frame from the first one and stops after Count ticks, back on the
   * last frame with the movie stopped.
   */
  lemma ReplayFromLastFrame(s: PanelState)
    requires Valid(s) && !s.moviePlaying && OnLastFrame(s) && s.count > 0
    ensures StartMovie(s).position == 0
    ensures Ticks(StartMovie(s), s.count) == s
  {
    var started := StartMovie(s);
    EndOfReel(started);
  }

  /** Three frames and a tick that fetches a fourth: only a stopped viewer parked on the last frame follows it. */
  lemma SnapshotTickFollowsOnlyParkedViewer()
    ensures SnapshotTick(PanelState(true, 2, 3, false, false, true), true).position == 3
    ensures SnapshotTick(PanelState(true, 0, 3, false, false, true), true).position == 0
    ensures SnapshotTick(PanelState(true, 2, 3, true, true, true), true).position == 2
  {
  }
}
