/**
 * The page's wiring: the Start button runs `startGame`, which resets the
 * session, brings up hand tracking the first time, and runs the first tick;
 * each detection cycle feeds the paddle positions to the game.
 */
module AirJuggler {
  import opened Optional
  import opened Geometry
  import opened HandTracking
  import opened Leaderboard
  import opened JugglerGame

  /** The overlay text when the camera or the model could not be set up. */
  const CameraRequired: string := "Camera access required to play!"

  /** The game, the hand feed, and `window.handTrackingInitialized`. */
  class App {
    const game: Game
    const tracker: Tracker
    var trackingInitialized: bool

    constructor (width: real, height: real, store: Store)
      ensures game.width == width && game.height == height && game.store == store
      ensures game.State() == GameState([], [], 0, false, None, 0.0, false) && game.Valid()
      ensures !tracker.hasDetector && !tracker.hasVideo && !tracker.isDetecting && !tracker.hasCallback
      ensures !trackingInitialized
    {
      game := new Game(width, height, store);
      tracker := new Tracker();
      trackingInitialized := false;
    }

    /**
     * The one-time hand-tracking block of `startGame`: while tracking is not
     * set up, run the setup and, when it succeeds, start detection and
     * remember that tracking is up. The result says whether tracking is up.
     */
    method EnsureTracking(videoPresent: bool, acquired: bool) returns (ready: bool)
      modifies this, tracker
      ensures ready == trackingInitialized
      ensures trackingInitialized == (old(trackingInitialized) || (videoPresent && acquired))
      ensures old(trackingInitialized) ==>
        tracker.hasDetector == old(tracker.hasDetector) && tracker.hasVideo == old(tracker.hasVideo) &&
        tracker.hasCallback == old(tracker.hasCallback) && tracker.isDetecting == old(tracker.isDetecting)
      ensures !old(trackingInitialized) ==> tracker.hasCallback && tracker.hasVideo == videoPresent
      ensures !old(trackingInitialized) ==> tracker.isDetecting == (old(tracker.isDetecting) || ready)
      ensures !old(trackingInitialized) ==> tracker.hasDetector == (old(tracker.hasDetector) || ready)
    {
      if !trackingInitialized {
        var ok := tracker.Setup(videoPresent, acquired);
        if !ok {
          return false;
        }
        var _ := tracker.StartDetection();
        trackingInitialized := true;
      }
      ready := trackingInitialized;
    }

    /**
     * `startGame`. `videoPresent` says whether the page has its video
     * element, `acquired` whether the camera and the model came up, `now`
     * and `date` are the clock. After the reset, a failed tracking setup ends
     * the game at once, which records the score of 0, and leaves the camera
     * message. Otherwise the first tick is taken, which only moves the
     * countdown.
     */
    method StartGame(videoPresent: bool, acquired: bool, now: int, m: MathLib, date: string)
      returns (message: Option<string>)
      modifies this, game, game.store, tracker
      ensures game.Valid()
      ensures trackingInitialized == (old(trackingInitialized) || (videoPresent && acquired))
      ensures trackingInitialized ==> message.None? && game.store.saved == old(game.store.saved)
      ensures trackingInitialized ==>
        game.State() == Restarted(old(game.State()), game.width).(countdown := CountdownTime - FrameTime)
      ensures !trackingInitialized ==> message == Some(CameraRequired)
      ensures !trackingInitialized ==>
        game.State() == Restarted(old(game.State()), game.width).(gameOver := true)
      ensures !trackingInitialized ==>
        game.store.saved == Some(SaveList(old(game.store.Entries()), Entry(0, date)))
      ensures old(trackingInitialized) ==>
        tracker.hasDetector == old(tracker.hasDetector) && tracker.hasVideo == old(tracker.hasVideo) &&
        tracker.hasCallback == old(tracker.hasCallback) && tracker.isDetecting == old(tracker.isDetecting)
      ensures !old(trackingInitialized) ==> tracker.hasCallback && tracker.hasVideo == videoPresent
      ensures !old(trackingInitialized) ==>
        tracker.hasDetector == (old(tracker.hasDetector) || trackingInitialized)
      ensures !old(trackingInitialized) ==>
        tracker.isDetecting == (old(tracker.isDetecting) || trackingInitialized)
    {
      game.Reset();
      ghost var restarted := game.State();
      var ready := EnsureTracking(videoPresent, acquired);
      if !ready {
        var _ := game.EndGame(date);
        return Some(CameraRequired);
      }
      message := game.GameLoop(now, m, date);
      FirstTick(restarted, now, m, game.width, game.height);
    }

    /** A detection cycle with this output reaches the game's callback. */
    predicate Delivers(estimate: Option<seq<Hand>>)
      reads tracker
    {
      tracker.isDetecting && tracker.hasCallback && estimate.Some? && HandPositions(estimate.value).Some?
    }

    /**
     * One detection cycle given the detector's output: the delivered
     * positions, if any, replace the game's paddles. The result says whether
     * another cycle was scheduled.
     */
    method DetectionCycle(estimate: Option<seq<Hand>>) returns (rescheduled: bool)
      modifies game
      ensures rescheduled == tracker.isDetecting
      ensures Delivers(estimate) ==>
        game.State() == old(game.State()).(hands := HandPositions(estimate.value).value)
      ensures !Delivers(estimate) ==> game.State() == old(game.State())
    {
      var delivered;
      delivered, rescheduled := tracker.DetectHands(estimate);
      if delivered.Some? {
        game.ReceiveHands(delivered.value);
      }
    }
  }
}
