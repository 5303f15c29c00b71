/**
 * The hand feed: every detected hand is reduced to one paddle position, the
 * mirrored centre of its palm, and a detection cycle runs only while the
 * tracker's `isDetecting` flag is set.
 */
module HandTracking {
  import opened Optional
  import opened Geometry

  /** One landmark of a detected hand, in video pixels. */
  datatype Keypoint = Keypoint(x: real, y: real)

  /** One hand as the detector reports it: its landmark list. */
  datatype Hand = Hand(keypoints: seq<Keypoint>)

  /** The wrist and the bases of the four fingers, in the detector's numbering. */
  const PalmIndices: seq<nat> := [0, 5, 9, 13, 17]

  /** The webcam frame width that mirroring reflects about. */
  const VideoWidth: real := 640.0

  /** The hand has every landmark the palm centre reads. */
  predicate HasPalm(hand: Hand) {
    17 < |hand.keypoints|
  }

  /** The five palm landmarks, in the order of `PalmIndices`. */
  function PalmBase(hand: Hand): (r: seq<Keypoint>)
    requires HasPalm(hand)
    ensures |r| == |PalmIndices|
    ensures forall i :: 0 <= i < |r| ==> r[i] == hand.keypoints[PalmIndices[i]]
  {
    seq(|PalmIndices|, i requires 0 <= i < |PalmIndices| => hand.keypoints[PalmIndices[i]])
  }

  /** `reduce((sum, kp) => sum + kp.x, 0)`: a left fold from zero. */
  function SumX(kps: seq<Keypoint>): real {
    if kps == [] then 0.0 else SumX(kps[..|kps| - 1]) + kps[|kps| - 1].x
  }

  /** The same fold over the `y` coordinates. */
  function SumY(kps: seq<Keypoint>): real {
    if kps == [] then 0.0 else SumY(kps[..|kps| - 1]) + kps[|kps| - 1].y
  }

  /** Reflection about the vertical centre line of the video, for the selfie view. */
  function Mirror(x: real): (r: real)
    ensures r + x == VideoWidth
  {
    VideoWidth - x
  }

  /** The paddle position of one hand: the mean palm landmark, with `x` mirrored. */
  function PalmCenter(hand: Hand): Point
    requires HasPalm(hand)
  {
    var base := PalmBase(hand);
    var avgX := SumX(base) / (|base| as real);
    var avgY := SumY(base) / (|base| as real);
    Point(Mirror(avgX), avgY)
  }

  /**
   * The `hands.map(...)` of a detection cycle. A hand without all the palm
   * landmarks makes `kp.x` throw, which aborts the whole list: `None`.
   */
  function HandPositions(hands: seq<Hand>): (r: Option<seq<Point>>)
    ensures r.Some? <==> forall i :: 0 <= i < |hands| ==> HasPalm(hands[i])
    ensures r.Some? ==> |r.value| == |hands|
    ensures r.Some? ==> forall i :: 0 <= i < |hands| ==> r.value[i] == PalmCenter(hands[i])
  {
    if forall i :: 0 <= i < |hands| ==> HasPalm(hands[i]) then
      Some(seq(|hands|, i requires 0 <= i < |hands| => PalmCenter(hands[i])))
    else
      None
  }

  /** The palm centre written out: the plain mean of the five landmarks, `x` mirrored. */
  lemma PalmCenterIsMean(hand: Hand)
    requires HasPalm(hand)
    ensures var k := hand.keypoints;
      PalmCenter(hand) ==
        Point(VideoWidth - (k[0].x + k[5].x + k[9].x + k[13].x + k[17].x) / 5.0,
              (k[0].y + k[5].y + k[9].y + k[13].y + k[17].y) / 5.0)
  {
    var base := PalmBase(hand);
    FiveSums(base);
    assert base[0] == hand.keypoints[0] && base[1] == hand.keypoints[5] && base[2] == hand.keypoints[9];
    assert base[3] == hand.keypoints[13] && base[4] == hand.keypoints[17];
  }

  /** The two folds over five landmarks, written out. */
  lemma FiveSums(s: seq<Keypoint>)
    requires |s| == 5
    ensures SumX(s) == s[0].x + s[1].x + s[2].x + s[3].x + s[4].x
    ensures SumY(s) == s[0].y + s[1].y + s[2].y + s[3].y + s[4].y
  {
    assert s[..4][..3] == s[..3] && s[..3][..2] == s[..2] && s[..2][..1] == s[..1] && s[..1][..0] == [];
    assert SumX(s[..1]) == s[0].x && SumY(s[..1]) == s[0].y;
    assert SumX(s[..2]) == s[0].x + s[1].x && SumY(s[..2]) == s[0].y + s[1].y;
    assert SumX(s[..3]) == s[0].x + s[1].x + s[2].x && SumY(s[..3]) == s[0].y + s[1].y + s[2].y;
    assert SumX(s[..4]) == s[0].x + s[1].x + s[2].x + s[3].x;
    assert SumY(s[..4]) == s[0].y + s[1].y + s[2].y + s[3].y;
  }

  /** Only the five palm landmarks influence a hand's paddle position. */
  lemma OnlyPalmMatters(a: Hand, b: Hand)
    requires HasPalm(a) && HasPalm(b)
    requires forall i :: 0 <= i < |PalmIndices| ==> a.keypoints[PalmIndices[i]] == b.keypoints[PalmIndices[i]]
    ensures PalmCenter(a) == PalmCenter(b)
  {
    assert PalmBase(a) == PalmBase(b);
  }

  /** Mirroring twice gives the original coordinate. */
  lemma MirrorInvolution(x: real)
    ensures Mirror(Mirror(x)) == x
  {
  }

  /** A palm whose landmarks all lie within the frame's width yields a paddle within it. */
  lemma PalmCenterInFrame(hand: Hand)
    requires HasPalm(hand)
    requires forall i :: 0 <= i < |PalmIndices| ==>
      0.0 <= hand.keypoints[PalmIndices[i]].x <= VideoWidth
    ensures 0.0 <= PalmCenter(hand).x <= VideoWidth
  {
    PalmCenterIsMean(hand);
    var k := hand.keypoints;
    assert k[PalmIndices[0]] == k[0] && k[PalmIndices[1]] == k[5] && k[PalmIndices[2]] == k[9];
    assert k[PalmIndices[3]] == k[13] && k[PalmIndices[4]] == k[17];
  }

  /**
   * The module-level state of the hand feed. The detector, the video element
   * and the callback are reduced to whether each is set; the callback the
   * game registers is its `receiveHands`.
   */
  class Tracker {
    var hasDetector: bool
    var hasVideo: bool
    var isDetecting: bool
    var hasCallback: bool

    /** Everything unset, as the module starts. */
    constructor ()
      ensures !hasDetector && !hasVideo && !isDetecting && !hasCallback
    {
      hasDetector, hasVideo, isDetecting, hasCallback := false, false, false, false;
    }

    /**
     * The state changes of `setupHandTracking`. The video element and the
     * callback are stored first; the detector is stored only when the camera
     * and the model both came up (`acquired`), and only then is the result
     * true. A missing video element makes the setup throw and fail too.
     */
    method Setup(videoPresent: bool, acquired: bool) returns (ok: bool)
      modifies this
      ensures ok <==> videoPresent && acquired
      ensures hasVideo == videoPresent && hasCallback
      ensures hasDetector == (old(hasDetector) || ok)
      ensures isDetecting == old(isDetecting)
    {
      hasVideo := videoPresent;
      hasCallback := true;
      ok := videoPresent && acquired;
      if ok {
        hasDetector := true;
      }
    }

    /**
     * `startDetection`: without a detector or a video it does nothing;
     * otherwise it raises the flag and starts the first cycle (`started`).
     */
    method StartDetection() returns (started: bool)
      modifies this
      ensures started <==> old(hasDetector) && old(hasVideo)
      ensures isDetecting == (old(isDetecting) || started)
      ensures hasDetector == old(hasDetector) && hasVideo == old(hasVideo) && hasCallback == old(hasCallback)
    {
      if !hasDetector || !hasVideo {
        return false;
      }
      isDetecting := true;
      started := true;
    }

    /** `stopDetection`: lowers the flag, so the next cycle stops at once. */
    method StopDetection()
      modifies this
      ensures !isDetecting
      ensures hasDetector == old(hasDetector) && hasVideo == old(hasVideo) && hasCallback == old(hasCallback)
    {
      isDetecting := false;
    }

    /**
     * One run of `detectHands`, given what `estimateHands` produced (`None`
     * when it failed). A lowered flag returns at once: nothing delivered and
     * no next cycle. Otherwise any error is swallowed and the next cycle is
     * always scheduled; the positions reach the callback only when there is
     * one and every hand had a palm.
     */
    method DetectHands(estimate: Option<seq<Hand>>) returns (delivered: Option<seq<Point>>, rescheduled: bool)
      ensures rescheduled == isDetecting
      ensures delivered.Some? <==>
        isDetecting && hasCallback && estimate.Some? && HandPositions(estimate.value).Some?
      ensures delivered.Some? ==> delivered == HandPositions(estimate.value)
      ensures delivered.Some? ==> |delivered.value| == |estimate.value|
    {
      delivered := None;
      if !isDetecting {
        return delivered, false;
      }
      if estimate.Some? {
        var positions := HandPositions(estimate.value);
        if positions.Some? && hasCallback {
          delivered := positions;
        }
      }
      rescheduled := true;
    }
  }
}
