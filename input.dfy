/** The pure decisions of the viewer's input handlers: how a drag step moves the pan and when a
  * drag counts as significant, how a finished touch is classified as a swipe, which zoom a delayed
  * single tap goes to, which command a key stands for, and which configured zoom level the
  * current zoom is nearest to. */
module Input {
  import opened Transform

  /** A horizontal touch movement longer than this is a swipe (swipeData.minSwipeDistance). */
  const MinSwipeDistance: real := 50.0
  /** Two taps closer than this many milliseconds form a double tap; also the tap-timer delay. */
  const TapWindowMs: int := 300
  /** A mouse drag that strays further than this from its first point on either axis is significant. */
  const MouseDragThreshold: real := 5.0
  /** The same threshold for touch drags. */
  const TouchDragThreshold: real := 10.0

  /** One pointer-move step of a drag at zoom `zoom`: the pointer's movement, in image units. */
  function DragStep(pan: real, zoom: real, from: real, to: real): (r: real)
    requires zoom > 0.0
    ensures to == from ==> r == pan
    ensures r > pan <==> to > from
    ensures r < pan <==> to < from
  {
    pan + (to - from) / zoom
  }

  /** The pan after a run of pointer moves at a constant zoom, each move going from the previous
    * pointer position (the first from `from`) to the next. */
  function PanAfterMoves(pan: real, zoom: real, from: real, moves: seq<real>): real
    requires zoom > 0.0
    decreases |moves|
  {
    if moves == [] then pan
    else PanAfterMoves(DragStep(pan, zoom, from, moves[0]), zoom, moves[0], moves[1..])
  }

  /** The steps telescope: after any run of moves the pan has moved by the distance from the first
    * pointer position to the last, divided by the zoom. */
  lemma {:induction false} PanTelescopes(pan: real, zoom: real, from: real, moves: seq<real>)
    requires zoom > 0.0 && moves != []
    ensures PanAfterMoves(pan, zoom, from, moves) == pan + (moves[|moves| - 1] - from) / zoom
    decreases |moves|
  {
    var next := DragStep(pan, zoom, from, moves[0]);
    if |moves| == 1 {
      assert moves[1..] == [];
    } else {
      PanTelescopes(next, zoom, moves[0], moves[1..]);
      assert moves[1..][|moves[1..]| - 1] == moves[|moves| - 1];
      SumOfQuotients(moves[0] - from, moves[|moves| - 1] - moves[0], zoom);
    }
  }

  lemma SumOfQuotients(a: real, b: real, z: real)
    requires z > 0.0
    ensures a / z + b / z == (a + b) / z
  {
  }

  /** Whether p lies further than `threshold` from `origin` on either axis. */
  predicate Beyond(origin: Point, p: Point, threshold: real)
  {
    Abs(p.x - origin.x) > threshold || Abs(p.y - origin.y) > threshold
  }

  /** The "significant drag" flag after a run of moves: each move sets it when it lies beyond the
    * threshold from the drag's first point, and nothing clears it. */
  function SignificantAfter(flag: bool, origin: Point, moves: seq<Point>, threshold: real): bool
    decreases |moves|
  {
    if moves == [] then flag
    else SignificantAfter(flag || Beyond(origin, moves[0], threshold), origin, moves[1..], threshold)
  }

  /** The flag is set exactly when it was already set or some move strayed beyond the threshold. */
  lemma {:induction false} SignificantIffSomeMoveBeyond(flag: bool, origin: Point, moves: seq<Point>, threshold: real)
    ensures SignificantAfter(flag, origin, moves, threshold)
        <==> flag || exists i :: 0 <= i < |moves| && Beyond(origin, moves[i], threshold)
    decreases |moves|
  {
    if moves != [] {
      var flag' := flag || Beyond(origin, moves[0], threshold);
      SignificantIffSomeMoveBeyond(flag', origin, moves[1..], threshold);
      if exists i :: 0 <= i < |moves[1..]| && Beyond(origin, moves[1..][i], threshold) {
        var i :| 0 <= i < |moves[1..]| && Beyond(origin, moves[1..][i], threshold);
        assert Beyond(origin, moves[i + 1], threshold);
      }
      if exists i :: 0 <= i < |moves| && Beyond(origin, moves[i], threshold) {
        var i :| 0 <= i < |moves| && Beyond(origin, moves[i], threshold);
        if i > 0 {
          assert Beyond(origin, moves[1..][i - 1], threshold);
        }
      }
    }
  }

  /** How a touch that ends is read: a swipe to the previous or next image, or not a swipe. */
  datatype Swipe = NoSwipe | SwipePrevious | SwipeNext

  /** The swipe test of the touch-end handler. An end x of exactly 0 is the "no move recorded"
    * sentinel, so a touch that ends at the screen's left edge is never a swipe. */
  function ClassifySwipe(start: Point, end: Point, zoomed: bool): (s: Swipe)
    ensures s != NoSwipe <==>
      end.x != 0.0 && !zoomed && Abs(end.x - start.x) > Abs(end.y - start.y) && Abs(end.x - start.x) > MinSwipeDistance
    ensures s == SwipePrevious ==> end.x - start.x > MinSwipeDistance
    ensures s == SwipeNext ==> start.x - end.x > MinSwipeDistance
  {
    if end.x != 0.0 && !zoomed then
      var dx := end.x - start.x;
      var dy := end.y - start.y;
      if Abs(dx) > Abs(dy) && Abs(dx) > MinSwipeDistance then
        if dx > 0.0 then SwipePrevious else SwipeNext
      else NoSwipe
    else NoSwipe
  }

  /** What the delayed single-tap timer does to the zoom: reset it, or zoom about the tap. */
  datatype TapZoom = TapReset | TapZoomTo(level: real)

  /** In fullscreen a tap steps the zoom up by 0.5 up to 3 and resets at 3; in the window it goes
    * 1 → 2 → 3 → reset, with thresholds at 1.5 and 2.5. */
  function TapZoomTarget(fullscreen: bool, zoom: real): (t: TapZoom)
    ensures t.TapReset? <==> zoom >= (if fullscreen then 3.0 else 2.5)
    ensures t.TapZoomTo? ==> zoom < t.level <= MaxZoom
    ensures fullscreen && t.TapZoomTo? ==> t.level <= zoom + 0.5
    ensures !fullscreen && t.TapZoomTo? ==> t.level == 2.0 || t.level == 3.0
    ensures fullscreen && zoom < 3.0 ==> t == TapZoomTo(Min(MaxZoom, zoom + 0.5))
    ensures !fullscreen && 1.5 <= zoom < 2.5 ==> t == TapZoomTo(3.0)
    ensures !fullscreen && zoom < 1.5 ==> t == TapZoomTo(2.0)
  {
    if fullscreen then
      if zoom >= 3.0 then TapReset else TapZoomTo(Min(3.0, zoom + 0.5))
    else if zoom >= 2.5 then TapReset
    else if zoom >= 1.5 then TapZoomTo(3.0)
    else TapZoomTo(2.0)
  }

  /** The zoom after one delayed single tap at zoom `zoom`. */
  function AfterTap(fullscreen: bool, zoom: real): real
  {
    match TapZoomTarget(fullscreen, zoom)
    case TapReset => 1.0
    case TapZoomTo(level) => level
  }

  /** The zoom after `n` delayed single taps in a row. */
  function AfterTaps(fullscreen: bool, zoom: real, n: nat): real
    decreases n
  {
    if n == 0 then zoom else AfterTaps(fullscreen, AfterTap(fullscreen, zoom), n - 1)
  }

  /** In the window, taps from 1 go 1 → 2 → 3 → 1: three taps come back to the unzoomed image. */
  lemma WindowTapCycle()
    ensures AfterTap(false, 1.0) == 2.0 && AfterTap(false, 2.0) == 3.0 && AfterTap(false, 3.0) == 1.0
    ensures AfterTaps(false, 1.0, 3) == 1.0
  {
  }

  /** In fullscreen, taps from 1 go 1 → 1.5 → 2 → 2.5 → 3 → 1: five taps come back to 1. */
  lemma FullscreenTapCycle()
    ensures AfterTap(true, 1.0) == 1.5 && AfterTap(true, 1.5) == 2.0 && AfterTap(true, 2.0) == 2.5
    ensures AfterTap(true, 2.5) == 3.0 && AfterTap(true, 3.0) == 1.0
    ensures AfterTaps(true, 1.0, 5) == 1.0
  {
  }

  /** From any zoom, a run of taps in fullscreen climbs in steps of 0.5, is capped at 3, and resets to
    * 1 at the latest once it has stood at 3: enough taps always come back to the unzoomed image. */
  lemma {:induction false} FullscreenTapsReset(zoom: real, n: nat)
    requires zoom > 0.0 && zoom + 0.5 * (n as real) >= 3.0
    ensures exists k :: 0 < k <= n + 1 && AfterTaps(true, zoom, k) == 1.0
    decreases n
  {
    if zoom >= 3.0 {
      assert AfterTaps(true, zoom, 1) == AfterTaps(true, 1.0, 0) == 1.0;
    } else {
      var next := AfterTap(true, zoom);
      assert next == Min(MaxZoom, zoom + 0.5);
      if next >= 3.0 {
        assert AfterTaps(true, zoom, 2) == AfterTaps(true, next, 1) == AfterTaps(true, 1.0, 0) == 1.0;
      } else {
        assert n >= 1;
        FullscreenTapsReset(next, n - 1);
        var k :| 0 < k <= n && AfterTaps(true, next, k) == 1.0;
        assert AfterTaps(true, zoom, k + 1) == AfterTaps(true, next, k);
      }
    }
  }

  /** In the window, from any zoom, at most three taps come back to 1. */
  lemma WindowTapsReset(zoom: real)
    requires zoom > 0.0
    ensures exists k :: 0 < k <= 3 && AfterTaps(false, zoom, k) == 1.0
  {
    if zoom >= 2.5 {
      assert AfterTaps(false, zoom, 1) == 1.0;
    } else if zoom >= 1.5 {
      assert AfterTaps(false, zoom, 2) == AfterTaps(false, 3.0, 1) == 1.0;
    } else {
      assert AfterTaps(false, zoom, 3) == AfterTaps(false, 2.0, 2) == AfterTaps(false, 3.0, 1) == 1.0;
    }
  }

  /** A second touch strictly between 0 and 300 ms after the recorded tap time is a double tap. */
  predicate IsDoubleTap(lastTapTime: int, now: int)
  {
    0 < now - lastTapTime < TapWindowMs
  }

  /** The command a key press stands for. */
  datatype KeyCommand = Ignore | Previous | Next | ToggleFullscreen | ZoomIn | ZoomOut | RotateRight | ZoomReset | ToggleAutoplay

  /** The command and whether the browser's default action is suppressed. */
  datatype KeyResponse = KeyResponse(command: KeyCommand, preventDefault: bool)

  /** The key switch of the keyboard handler, given the fullscreen flag and the zoom, rotate and
    * autoplay options. */
  function KeyAction(key: string, fullscreen: bool, zoomOption: bool, rotateOption: bool, autoplayOption: bool): (r: KeyResponse)
    ensures r.command == Previous <==> key == "ArrowLeft"
    ensures r.command == Next <==> key == "ArrowRight"
    ensures r.command == ToggleFullscreen <==> key == "f" || key == "F" || (key == "Escape" && fullscreen)
    ensures r.command == ZoomIn <==> key == "+" && zoomOption
    ensures r.command == ZoomOut <==> key == "-" && zoomOption
    ensures r.command == ZoomReset <==> key == "0" && zoomOption
    ensures r.command == RotateRight <==> (key == "r" || key == "R") && rotateOption
    ensures r.command == ToggleAutoplay <==> key == " " && autoplayOption
    ensures r.preventDefault <==> r.command != Ignore && key != "Escape"
  {
    match key
    case "ArrowLeft" => KeyResponse(Previous, true)
    case "ArrowRight" => KeyResponse(Next, true)
    case "Escape" => KeyResponse(if fullscreen then ToggleFullscreen else Ignore, false)
    case "f" => KeyResponse(ToggleFullscreen, true)
    case "F" => KeyResponse(ToggleFullscreen, true)
    case "+" => if zoomOption then KeyResponse(ZoomIn, true) else KeyResponse(Ignore, false)
    case "-" => if zoomOption then KeyResponse(ZoomOut, true) else KeyResponse(Ignore, false)
    case "r" => if rotateOption then KeyResponse(RotateRight, true) else KeyResponse(Ignore, false)
    case "R" => if rotateOption then KeyResponse(RotateRight, true) else KeyResponse(Ignore, false)
    case "0" => if zoomOption then KeyResponse(ZoomReset, true) else KeyResponse(Ignore, false)
    case " " => if autoplayOption then KeyResponse(ToggleAutoplay, true) else KeyResponse(Ignore, false)
    case _ => KeyResponse(Ignore, false)
  }

  /** The index of the configured zoom level nearest to `zoom`, scanning left to right and moving
    * only on a strictly smaller distance, so ties keep the earlier index. */
  function Nearest(levels: seq<real>, zoom: real): (k: nat)
    requires |levels| > 0
    ensures k < |levels|
    decreases |levels|
  {
    if |levels| == 1 then 0
    else
      var k := Nearest(levels[..|levels| - 1], zoom);
      if Abs(levels[|levels| - 1] - zoom) < Abs(levels[k] - zoom) then |levels| - 1 else k
  }

  /** Nearest is the first index at which the distance to `zoom` is smallest. */
  lemma {:induction false} NearestIsFirstClosest(levels: seq<real>, zoom: real)
    requires |levels| > 0
    ensures forall j :: 0 <= j < |levels| ==> Abs(levels[Nearest(levels, zoom)] - zoom) <= Abs(levels[j] - zoom)
    ensures forall j :: 0 <= j < Nearest(levels, zoom) ==> Abs(levels[j] - zoom) > Abs(levels[Nearest(levels, zoom)] - zoom)
    decreases |levels|
  {
    if |levels| > 1 {
      var init := levels[..|levels| - 1];
      NearestIsFirstClosest(init, zoom);
      forall j | 0 <= j < |init| ensures init[j] == levels[j] { }
    }
  }

  /** The search loop of the image-click handler. */
  method NearestLevelIndex(levels: seq<real>, zoom: real) returns (idx: nat)
    requires |levels| > 0
    ensures idx == Nearest(levels, zoom)
    ensures idx < |levels|
    ensures forall j :: 0 <= j < |levels| ==> Abs(levels[idx] - zoom) <= Abs(levels[j] - zoom)
    ensures forall j :: 0 <= j < idx ==> Abs(levels[j] - zoom) > Abs(levels[idx] - zoom)
  {
    idx := 0;
    var minDiff := Abs(levels[0] - zoom);
    var i := 1;
    assert levels[..1] == [levels[0]];
    while i < |levels|
      invariant 1 <= i <= |levels|
      invariant idx == Nearest(levels[..i], zoom)
      invariant minDiff == Abs(levels[idx] - zoom)
    {
      var diff := Abs(levels[i] - zoom);
      assert levels[..i + 1][..i] == levels[..i];
      if diff < minDiff {
        minDiff := diff;
        idx := i;
      }
      i := i + 1;
    }
    assert levels[..i] == levels;
    NearestIsFirstClosest(levels, zoom);
  }
}
