# LiteGallery viewer state machine in Dafny

LiteGallery is a browser image carousel. One `LiteGallery` object owns a `state` record, which holds:

- the current image index;
- the fullscreen flag;
- the zoom level and its zoomed flag;
- the pan (`translateX`/`translateY`);
- the rotation;
- the autoplay interval handle;
- the drag flags.

It also keeps a few instance fields for touch input: the last tap time, the pending single-tap timer, and the swipe start and end points. Every user action is one method that changes this state step by step:

- navigation;
- wheel, button, key and click zoom;
- zooming about a point;
- rotation;
- autoplay;
- the fullscreen flag;
- mouse drags;
- touch swipes, taps and double taps.

This project models that state machine as a Dafny class and proves what each handler does to the state.

The model has four modules:

- `Transform` (transform.dfy) covers the arithmetic:
  - JavaScript's truncating `%`, which the rotation uses, and the zoom clamp to [0.5, 3].
  - The CSS transform list `rotate(r) scale(z) translate(tx, ty)` written after every change, with its meaning as a map on points. The map is exact for quarter turns.
  - Why a drag step and an anchored zoom move the image the way they do.
- `Input` (input.dfy) holds the pure decisions of the input handlers:
  - a drag step and the "significant drag" test;
  - the swipe test;
  - the zoom a delayed single tap goes to;
  - the key switch;
  - the nearest configured zoom level, both as a specification function and as the handler's search loop.
- `Viewer` (gallery.dfy) holds the class `LiteGallery` itself. Its fields mirror `this.state`, `lastTapTime`, `tapTimeout`, `swipeData` and the drag-tracking fields. Each handler is a method with a `modifies` frame naming exactly the fields it writes. The class invariant `Valid()` holds after every method:
  - the index is in range;
  - the zoom is positive, and `isZoomed` means "zoom ≠ 1";
  - the rotation is strictly between -360 and 360;
  - `isPlaying` holds exactly when an interval handle is stored, and at most one interval is live.
- `Scenarios` (scenarios.dfy) calls the handlers in sequence and proves the state they end in.

The browser's part comes in as parameters:

- pointer coordinates and timestamps;
- the image's bounding rectangle;
- whether a fullscreen element exists after a change notification;
- whether the native exit call threw;
- the handle a new interval gets.

Each timer callback the code schedules is a method the environment calls when the timer fires:

- `AutoplayTick` for the autoplay interval;
- `ExpireRecentlyDragged` for the 300 ms reset of `recentlyDragged`;
- `FireTapTimer` for the single-tap timer.

`showImage` does not reduce indices modulo the image count: it sends every negative index to the last image and every index past the end to the first (js/lite-gallery.js:403-407). For a step of one from a valid index both rules agree (`NeighbourWraps`). For a jump further out they differ (`FarIndexIsNotWrapped`).

## Model

| member | source | states |
|---|---|---|
| Transform.JsRem | js/lite-gallery.js:917 | JavaScript's `%` by a positive divisor: the remainder lies strictly between -n and n, takes the sign of the dividend, and completes the dividend with the quotient truncated toward zero |
| Transform.JsRemUnique | js/lite-gallery.js:917 | these properties determine the truncated remainder: any value having them is JsRem |
| Transform.JsRemSameAngle | js/lite-gallery.js:917 | reducing a rotation with JavaScript's `%` keeps the angle modulo 360 |
| Transform.ClampZoom | js/lite-gallery.js:555 | `Math.max(0.5, Math.min(3, z))` lies in [0.5, 3], keeps values inside it, and sends values below or above it to the nearer bound |
| Transform.PlaceView | js/lite-gallery.js:940-942 | the list `rotate scale translate` adds the pan to an image point first, in image units, then scales, then rotates |
| Transform.RotateQuarterAdds | js/lite-gallery.js:941 | a quarter-turn rotation distributes over adding offsets |
| Transform.PanStepMovesImage | js/lite-gallery.js:1073-1077 | adding (dx, dy)/zoom to the pan moves every image point on screen by (dx, dy) turned by the image's rotation |
| Transform.AnchorCompensation | js/lite-gallery.js:646-662 | the two-step pan correction of zoomAtPosition equals (anchor − centre)·(1/target − 1/current) |
| Transform.AnchoredZoomKeepsPoint | js/lite-gallery.js:631-662 | with that correction, the image point under the anchor stays at the anchor when the zoom changes (for a rotation of whole turns, measured from a fixed origin at the rectangle's centre) |
| Transform.AnchoredZoomDriftsWhenPanned | js/lite-gallery.js:631-662 | on a panned image the reported rectangle's centre is origin + zoom·pan, so the point under the anchor ends at anchor + pan·(target − current), not at the anchor |
| Transform.AnchoredZoomDriftsWhenRotated | js/lite-gallery.js:631-662 | at rotation 90 the correction, added in unrotated axes, moves the point under an anchor `a` px right of the centre to (a·target/current, a·(1 − target/current)); the second coordinate is non-zero whenever a ≠ 0 and the zoom changes (zoom 1 → 2, a = 100: (200, −100) instead of (100, 0)) |
| Input.DragStep | js/lite-gallery.js:1073-1077 | one drag step leaves the pan unchanged for a move of zero and moves it in the direction of the pointer |
| Input.PanTelescopes | js/lite-gallery.js:1069-1081 | after any run of moves at a constant zoom, the pan has moved by (last position − start position)/zoom |
| Input.SignificantIffSomeMoveBeyond | js/lite-gallery.js:1082-1089 | the significant flag after a run of moves holds exactly when it held before or some move lay beyond the threshold from the first point on either axis |
| Input.ClassifySwipe | js/lite-gallery.js:1187-1197 | a touch end is a swipe exactly when the end x is not 0, the image is not zoomed, \|dx\| > \|dy\| and \|dx\| > 50; a rightward swipe goes to the previous image and a leftward one to the next |
| Input.TapZoomTarget | js/lite-gallery.js:1247-1266 | a tap resets at zoom ≥ 3 in fullscreen and at ≥ 2.5 in the window; otherwise the exact target: min(3, zoom + 0.5) in fullscreen, 3 in the window from 1.5 up to 2.5, and 2 below 1.5 |
| Input.WindowTapCycle | js/lite-gallery.js:1257-1265 | in the window, taps from 1 go 1 → 2 → 3 → 1, so three taps return to 1 |
| Input.FullscreenTapCycle | js/lite-gallery.js:1247-1256 | in fullscreen, taps from 1 go 1 → 1.5 → 2 → 2.5 → 3 → 1, so five taps return to 1 |
| Input.WindowTapsReset | js/lite-gallery.js:1257-1265 | from any positive zoom in the window, at most three taps reach zoom 1 |
| Input.FullscreenTapsReset | js/lite-gallery.js:1247-1256 | in fullscreen, from a zoom z with z + 0.5·n ≥ 3, some k of at most n + 1 taps reaches zoom 1 |
| Input.KeyAction | js/lite-gallery.js:1000-1049 | for every command, exactly which key and option state give it (both directions: arrows, Escape only in fullscreen, f/F, `+`/`-`/`0` only with zoom, r/R only with rotate, space only with autoplay), and that the default action is suppressed exactly for a recognised key other than Escape |
| Input.NearestIsFirstClosest | js/lite-gallery.js:324-333 | Nearest picks an index whose distance to the zoom is minimal, and every earlier index is strictly further |
| Input.NearestLevelIndex | js/lite-gallery.js:324-333 | the search loop returns Nearest: the first index of minimal distance |
| Viewer.NormalizeIndex | js/lite-gallery.js:403-407 | the index rule keeps in-range indices, sends negative ones to the last image and too-large ones to the first |
| Viewer.NeighbourWraps | js/lite-gallery.js:472-481 | one step forward or back from a valid index is wrap-around modulo the image count |
| Viewer.FarIndexIsNotWrapped | js/lite-gallery.js:403-407 | index 7 of five images shows image 0, whereas 7 mod 5 is 2 |
| Viewer.LiteGallery.constructor | js/lite-gallery.js:31-79 | the initial state record: first image, zoom 1, no pan, no rotation, not playing, no drag, no tap recorded |
| Viewer.LiteGallery.ShowImage | js/lite-gallery.js:399-412 | the index becomes NormalizeIndex(index), and zoom, pan and rotation are reset |
| Viewer.LiteGallery.NextImage | js/lite-gallery.js:472-474 | the index advances modulo the count (the last image goes to the first); zoom, pan and rotation are reset |
| Viewer.LiteGallery.PrevImage | js/lite-gallery.js:479-481 | the index steps back modulo the count (the first image goes to the last); zoom, pan and rotation are reset |
| Viewer.LiteGallery.ResetZoom | js/lite-gallery.js:720-728 | from any state the zoom is 1, not zoomed, and the pan is 0; the result does not depend on the prior state, so a second call changes nothing |
| Viewer.LiteGallery.Zoom | js/lite-gallery.js:550-622 | the new zoom is ClampZoom(zoom + delta); the pan is reset exactly when the new zoom is 1 and is otherwise kept |
| Viewer.LiteGallery.ZoomAtPosition | js/lite-gallery.js:631-662 | the zoom becomes the target and the pan gains AnchorShift on each axis; the pan is kept even when the target is 1 |
| Viewer.LiteGallery.ZoomToLevel | js/lite-gallery.js:860-868 | the zoom becomes the level; the pan is dropped at level 1 and otherwise kept |
| Viewer.LiteGallery.HandleImageClick | js/lite-gallery.js:305-350 | nothing changes without the zoom option (the listener is not registered) or during or just after a drag; otherwise, from the nearest configured level k, the zoom resets when k is the last index (or no levels exist), else it becomes level k+1 about the click point and `zoomLevelIndex` becomes k+1 |
| Viewer.LiteGallery.Rotate | js/lite-gallery.js:916-917 | the rotation becomes JsRem(rotation + degrees, 360): same angle modulo 360, magnitude below 360 |
| Viewer.LiteGallery.StartAutoplay | js/lite-gallery.js:947-955 | any previous interval is cleared, so exactly the new interval is live and stored |
| Viewer.LiteGallery.StopAutoplay | js/lite-gallery.js:966-972 | no interval stays live, the handle is null and autoplay is off |
| Viewer.LiteGallery.ToggleAutoplay | js/lite-gallery.js:983-989 | the playing flag flips, with the matching interval state |
| Viewer.LiteGallery.AutoplayTick | js/lite-gallery.js:953-955 | each interval tick advances to the next image modulo the count |
| Viewer.LiteGallery.ExitFullscreen | js/lite-gallery.js:504-520 | the flag changes only when the native call throws, and then it is forced off |
| Viewer.LiteGallery.ToggleFullscreen | js/lite-gallery.js:484-502 | windowed: the enter request is issued and the flag is left alone; fullscreen: exit is requested, as ExitFullscreen |
| Viewer.LiteGallery.HandleFullscreenChange | js/lite-gallery.js:524-543 | the flag follows the presence of a fullscreen element, and leaving fullscreen resets the zoom |
| Viewer.LiteGallery.HandleKeyboardNavigation | js/lite-gallery.js:994-1050 | keys are ignored, changing nothing, unless focus is inside or fullscreen is on; otherwise the response is KeyAction's and the command runs as RunKeyCommand states |
| Viewer.LiteGallery.RunKeyCommand | js/lite-gallery.js:1000-1049 | per command, its effect and what stays unchanged: the arrows move the index modulo the count and reset zoom, pan and rotation; f/Escape change only the fullscreen flag; `+`/`-` change only zoom and pan (by the Zoom rule); r changes only the rotation; `0` only zoom and pan; space only the autoplay state |
| Viewer.LiteGallery.HandleDragStart | js/lite-gallery.js:1054-1066 | only a zoomed image starts a drag, recording the start and initial points and clearing the significant flag |
| Viewer.LiteGallery.HandleDragMove | js/lite-gallery.js:1069-1091 | without a drag nothing changes; otherwise the pan takes one DragStep per axis, the start point follows the pointer, and the flag is set when the pointer lies more than 5 px from the initial point |
| Viewer.LiteGallery.HandleDragEnd | js/lite-gallery.js:1095-1111 | the drag ends; only a significant drag sets `recentlyDragged` and schedules its reset |
| Viewer.LiteGallery.ExpireRecentlyDragged | js/lite-gallery.js:1104-1106 | a scheduled reset clears `recentlyDragged` |
| Viewer.LiteGallery.HandleTouchStart | js/lite-gallery.js:1114-1150 | only a single touch counts: it records the swipe start and clears the swipe end; a touch 1–299 ms after the recorded tap toggles fullscreen and clears the record, any other touch becomes the record; on a zoomed image a drag starts |
| Viewer.LiteGallery.RecordTap | js/lite-gallery.js:1124-1137 | the double-tap test and its effect on the tap record and the fullscreen flag |
| Viewer.LiteGallery.BeginTouchDrag | js/lite-gallery.js:1139-1149 | the drag start of a touch on a zoomed image |
| Viewer.LiteGallery.HandleTouchMove | js/lite-gallery.js:1154-1182 | a single touch updates the swipe end; while dragging the pan takes one DragStep per axis, and the flag is set beyond 10 px from the initial touch |
| Viewer.LiteGallery.HandleTouchEnd | js/lite-gallery.js:1185-1236 | a swipe (ClassifySwipe) navigates, clears the tap record and cancels a pending tap; any other touch end stops the drag, always sets `recentlyDragged`, and schedules the tap timer when a tap is recorded and none is pending |
| Viewer.LiteGallery.FireTapTimer | js/lite-gallery.js:1237-1271 | once 300 ms have passed since the recorded tap, with no drag going on or just ended and a single changed touch, the zoom goes to TapZoomTarget about the tap point or resets; the timer handle is cleared in every case |
| Viewer.DragThrough | js/lite-gallery.js:1069-1091 | a run of mouse moves during a drag pans by (last − start)/zoom on each axis, and the significant flag ends set exactly when some move lay more than 5 px from the drag's first point |
| Viewer.Create | js/lite-gallery.js:61-96 | no viewer exists without images; otherwise it starts on the first image with zoom 1 and no rotation, and plays exactly when autoplay is configured |
| Scenarios.WrapAround | js/lite-gallery.js:472-481 | with five images, next from the last image shows image 0, and previous from there shows image 4 |
| Scenarios.NearestDefaultLevels | js/lite-gallery.js:26 | in the default levels [1, 1.5, 2, 3], each level is its own nearest level |
| Scenarios.ClickAtDefaultLevel | js/lite-gallery.js:319-345 | outside a drag, a click at a default level moves 1 → 1.5 → 2 → 3 → 1 |
| Scenarios.ClickCycle | js/lite-gallery.js:319-345 | with levels [1, 1.5, 2, 3], four clicks from 1 give 1.5, 2, 3, 1 |
| Scenarios.FourQuarterTurns | js/lite-gallery.js:916-917 | four rotations by 90 from 0 give 90, 180, 270, 0 |
| Scenarios.TurnLeft | js/lite-gallery.js:916-917 | rotating by -90 from 0 gives -90 (the sign of the dividend is kept), not 270 |
| Scenarios.SwipeLeft | js/lite-gallery.js:1187-1220 | a 70 px leftward swipe shows the next image, clears the tap record and leaves no tap pending |
| Scenarios.DragSuppressesClick | js/lite-gallery.js:1069-1110 | a 20 px drag at zoom 2 pans by 10 and suppresses the next click; after the reset a click zooms to 3 |
| Scenarios.FullscreenRoundTrip | js/lite-gallery.js:484-543 | entering waits for the change notification; leaving resets a 1.5 zoom to 1 |
| Scenarios.SingleTapZooms | js/lite-gallery.js:1226-1271 | a single tap schedules the tap timer; after the drag suppression expires the tap zooms to 2 |
| Scenarios.DoubleTap | js/lite-gallery.js:1114-1137 | a second touch 200 ms after the first requests fullscreen and clears the tap record |
| Scenarios.AutoplayThenSpace | js/lite-gallery.js:91-96 | autoplay configured at construction plays; one tick advances to image 1, and the space key stops it with no interval left live |

## Left out

- DOM construction, styling, thumbnails, the counter and the scale/rotation text are left out: they are presentation only. The hint, notification, help and navigation-indicator fade timers are left out for the same reason.
- The zoom-level indicator (js/lite-gallery.js:765-858) is left out. `createZoomLevelIndicator` is never called in the file, so its step-click handler, the only caller of `zoomToLevel`, is unreachable. `updateZoomLevelIndicator` returns at once without an indicator. `ZoomToLevel` is still modelled as a method.
- Asynchronous image loading (`new Image()`, `onload`, `onerror`) and `preloadImages` are left out: they are browser I/O and change no viewer state. The code has no check for stale image loads, and none is modelled.
- The native Fullscreen API and its vendor-prefixed fallbacks are left out; they are foreign calls. `ToggleFullscreen` returns which request it issued. Whether an element is in fullscreen, and whether the exit call threw, arrive as parameters.
- Timer delays are left out. Only the autoplay interval, the `recentlyDragged` reset and the single-tap timer are state. Their callbacks are methods the environment calls. The order in which timers fire is the caller's to choose.
- Viewer.LiteGallery.StartAutoplay: the autoplay speed is not modelled; a tick is whatever `AutoplayTick` is called for.
- Floating point is not modelled; zoom and pan are exact reals. Repeated ±0.1 steps, compared with `!== 1` (js/lite-gallery.js:559, 618), behave differently in IEEE doubles. The model makes no claim about rounding.
- Configured zoom levels are required to be positive. A level of 0 makes the JavaScript divide by zero in `zoomAtPosition`.
- An empty `zoomLevels` list is modelled. The JavaScript's first difference is NaN, the search loop is skipped, index 0 counts as the last index, and the zoom resets.
- The drag-tracking initial points are `Option`s, because they are undefined until the first drag of their kind. A comparison with an undefined point is false in JavaScript, so such a move never counts as significant.
- Transform.AnchoredZoomKeepsPoint: it holds only for rotations that are a whole number of turns and with the rectangle's centre as a fixed origin. The code does not keep the point for a rotated or a panned image: `AnchoredZoomDriftsWhenRotated` and `AnchoredZoomDriftsWhenPanned` state where the point goes instead. A rectangle centre moved by rotation about an off-centre pan is not modelled.
- Transform.PlaceView: the transform list is given a meaning only for rotations by whole quarter turns, the only angles the viewer produces.
- Viewer.LiteGallery.ExitFullscreen: when the native call throws, the flag is forced off and the zoom is not reset. The code does this too; no change notification follows on that path.
- `zoomLevelIndex` is written by the click handler and never reset or read, as in the code.
- `significantTouchMoveOccurred` is written but never read, as in the code.
- The wheel handler, the toolbar buttons, the previous/next buttons (js/lite-gallery.js:199, 205), the exit-fullscreen button (js/lite-gallery.js:169) and the thumbnail clicks (js/lite-gallery.js:291) are left out as listeners. They only call `zoom(±0.1)`, `resetZoom`, `rotate(90)`, `prevImage`, `nextImage`, `toggleFullscreen`, `toggleAutoplay`, `exitFullscreen` or `showImage(index)`, which are modelled as `Zoom`, `ResetZoom`, `Rotate`, `PrevImage`, `NextImage`, `ToggleFullscreen`, `ToggleAutoplay`, `ExitFullscreen` and `ShowImage`.
- `destroy` is left out. It clears the interval and the tap timer but not the `tapTimeout` field, and it tears down the DOM.
- Duplicate listener registration (js/lite-gallery.js:353-359 and 365-373) is left out: each event is dispatched once.
- The ineffective `removeEventListener(...bind(this))` calls are left out.
- examples.js is not part of this model; it is demo wiring only.
- Viewer.Create: a `new LiteGallery` call without images still returns an object. That object has no images and was never initialised. The model returns no viewer for that case.
