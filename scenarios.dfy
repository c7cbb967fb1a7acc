/** Event sequences a user produces, with the handlers called in order and the state they end in
  * proved. */
module Scenarios {
  import opened Transform
  import opened Input
  import opened Viewer

  const DefaultLevels: seq<real> := [1.0, 1.5, 2.0, 3.0]

  method NewGallery(imageCount: nat, autoplay: bool) returns (g: LiteGallery)
    requires imageCount > 0
    ensures fresh(g) && g.Valid()
    ensures g.imageCount == imageCount && g.zoomLevels == DefaultLevels
    ensures g.zoomOption && g.rotateOption && g.autoplayOption == autoplay
    ensures g.currentIndex == 0 && g.zoomLevel == 1.0 && g.rotationDegree == 0
    ensures g.translateX == 0.0 && g.translateY == 0.0
    ensures !g.isFullscreen && !g.isDragging && !g.recentlyDragged && g.pendingDragResets == 0
    ensures g.lastTapTime == 0 && g.tapTimeout == None && g.swipeEnd == Point(0.0, 0.0)
    ensures g.isPlaying == autoplay
  {
    var h := Create(imageCount, DefaultLevels, true, true, autoplay, 1);
    g := h;
  }

  /** Where each default level sits in the nearest-level search. */
  lemma NearestDefaultLevels()
    ensures Nearest(DefaultLevels, 1.0) == 0 && Nearest(DefaultLevels, 1.5) == 1
    ensures Nearest(DefaultLevels, 2.0) == 2 && Nearest(DefaultLevels, 3.0) == 3
  {
  }

  /** Five images: show the last, step forward onto the first, step back onto the last again. */
  method WrapAround() returns (shown: int, next: int, back: int)
    ensures shown == 4 && next == 0 && back == 4
  {
    var g := NewGallery(5, false);
    g.ShowImage(4);
    shown := g.currentIndex;
    g.NextImage();
    next := g.currentIndex;
    g.PrevImage();
    back := g.currentIndex;
  }

  /** One image click, outside any drag, on a gallery with the default levels at one of them. */
  method ClickAtDefaultLevel(g: LiteGallery)
    requires g.Valid() && g.zoomOption && g.zoomLevels == DefaultLevels && !g.isDragging && !g.recentlyDragged
    requires g.zoomLevel == 1.0 || g.zoomLevel == 1.5 || g.zoomLevel == 2.0 || g.zoomLevel == 3.0
    modifies g`zoomLevel, g`isZoomed, g`translateX, g`translateY, g`zoomLevelIndex
    ensures g.Valid()
    ensures old(g.zoomLevel) == 1.0 ==> g.zoomLevel == 1.5
    ensures old(g.zoomLevel) == 1.5 ==> g.zoomLevel == 2.0
    ensures old(g.zoomLevel) == 2.0 ==> g.zoomLevel == 3.0
    ensures old(g.zoomLevel) == 3.0 ==> g.zoomLevel == 1.0
  {
    NearestDefaultLevels();
    g.HandleImageClick(400.0, 300.0, Rect(0.0, 0.0, 800.0, 600.0));
  }

  /** With levels [1, 1.5, 2, 3], four clicks from 1 go through 1.5, 2 and 3 and back to 1. */
  method ClickCycle() returns (z1: real, z2: real, z3: real, z4: real)
    ensures z1 == 1.5 && z2 == 2.0 && z3 == 3.0 && z4 == 1.0
  {
    var g := NewGallery(3, false);
    ClickAtDefaultLevel(g);
    z1 := g.zoomLevel;
    ClickAtDefaultLevel(g);
    z2 := g.zoomLevel;
    ClickAtDefaultLevel(g);
    z3 := g.zoomLevel;
    ClickAtDefaultLevel(g);
    z4 := g.zoomLevel;
  }

  /** Four quarter turns to the right come back to 0. */
  method FourQuarterTurns() returns (r1: int, r2: int, r3: int, r4: int)
    ensures r1 == 90 && r2 == 180 && r3 == 270 && r4 == 0
  {
    var g := NewGallery(1, false);
    g.Rotate(90);
    r1 := g.rotationDegree;
    g.Rotate(90);
    r2 := g.rotationDegree;
    g.Rotate(90);
    r3 := g.rotationDegree;
    g.Rotate(90);
    r4 := g.rotationDegree;
  }

  /** A counter-clockwise turn from 0 keeps its sign: the angle is -90, not 270. */
  method TurnLeft() returns (r: int)
    ensures r == -90
  {
    var g := NewGallery(1, false);
    g.Rotate(-90);
    r := g.rotationDegree;
  }

  /** A finger moving 70 px to the left and 5 px down on an unzoomed image shows the next image and
    * leaves no tap pending. */
  method SwipeLeft() returns (index: int, tapPending: bool, lastTap: int)
    ensures index == 1 && !tapPending && lastTap == 0
  {
    var g := NewGallery(3, false);
    var _ := g.HandleTouchStart(1, Point(100.0, 200.0), 1000, false);
    g.HandleTouchMove(1, Point(30.0, 205.0));
    g.HandleTouchEnd(1, Point(30.0, 205.0));
    index := g.currentIndex;
    tapPending := g.tapTimeout.Some?;
    lastTap := g.lastTapTime;
  }

  /** A significant mouse drag on a zoomed image makes the click that ends it do nothing; once the
    * 300 ms reset has fired, a click advances the zoom again. */
  method DragSuppressesClick() returns (afterDrag: real, suppressed: real, afterReset: real, pan: real)
    ensures afterDrag == 2.0 && suppressed == 2.0 && afterReset == 3.0
    ensures pan == 10.0
  {
    var g := NewGallery(3, false);
    var rect := Rect(0.0, 0.0, 800.0, 600.0);
    g.Zoom(1.0);
    g.HandleDragStart(Point(10.0, 10.0));
    g.HandleDragMove(Point(30.0, 10.0));
    pan := g.translateX;
    g.HandleDragEnd();
    afterDrag := g.zoomLevel;
    g.HandleImageClick(400.0, 300.0, rect);
    suppressed := g.zoomLevel;
    g.ExpireRecentlyDragged();
    ClickAtDefaultLevel(g);
    afterReset := g.zoomLevel;
  }

  /** Entering fullscreen waits for the change notification; leaving it resets the zoom. */
  method FullscreenRoundTrip() returns (enter: FullscreenCall, flagAfterRequest: bool, flagAfterChange: bool,
                                        zoomed: real, exit: FullscreenCall, flagAfterExit: bool, zoomAfterExit: real)
    ensures enter == RequestEnter && !flagAfterRequest && flagAfterChange
    ensures zoomed == 1.5 && exit == RequestExit && !flagAfterExit && zoomAfterExit == 1.0
  {
    var g := NewGallery(2, false);
    enter := g.ToggleFullscreen(false);
    flagAfterRequest := g.isFullscreen;
    g.HandleFullscreenChange(true);
    flagAfterChange := g.isFullscreen;
    g.Zoom(0.5);
    zoomed := g.zoomLevel;
    exit := g.ToggleFullscreen(false);
    g.HandleFullscreenChange(false);
    flagAfterExit := g.isFullscreen;
    zoomAfterExit := g.zoomLevel;
  }

  /** A single tap in the window: the touch end suppresses clicks and schedules the tap timer; the
    * suppression is lifted first (it was scheduled first with the same delay), and the tap then
    * zooms to 2. Had the tap timer fired while the suppression was still on, nothing would zoom. */
  method SingleTapZooms() returns (pending: bool, early: real, zoom: real, cleared: bool)
    ensures pending && early == 1.0 && zoom == 2.0 && cleared
  {
    var g := NewGallery(2, false);
    var rect := Rect(0.0, 0.0, 800.0, 600.0);
    var _ := g.HandleTouchStart(1, Point(400.0, 300.0), 1000, false);
    g.HandleTouchEnd(1, Point(400.0, 300.0));
    pending := g.tapTimeout.Some?;
    early := g.zoomLevel;
    g.ExpireRecentlyDragged();
    g.FireTapTimer(1300, rect);
    zoom := g.zoomLevel;
    cleared := g.tapTimeout == None;
  }

  /** Two taps 200 ms apart toggle fullscreen instead of zooming. */
  method DoubleTap() returns (first: FullscreenCall, second: FullscreenCall, lastTap: int)
    ensures first == NoCall && second == RequestEnter && lastTap == 0
  {
    var g := NewGallery(2, false);
    first := g.HandleTouchStart(1, Point(400.0, 300.0), 1000, false);
    g.HandleTouchEnd(1, Point(400.0, 300.0));
    second := g.HandleTouchStart(1, Point(400.0, 300.0), 1200, false);
    lastTap := g.lastTapTime;
  }

  /** Autoplay enabled at construction: one tick advances, the space key stops it. */
  method AutoplayThenSpace() returns (playing: bool, afterTick: int, response: KeyResponse, stopped: bool)
    ensures playing && afterTick == 1 && response == KeyResponse(ToggleAutoplay, true) && stopped
  {
    var g := NewGallery(3, true);
    playing := g.isPlaying;
    g.AutoplayTick();
    afterTick := g.currentIndex;
    response := g.HandleKeyboardNavigation(" ", true, false, 2);
    stopped := !g.isPlaying && g.liveIntervals == {};
  }
}
