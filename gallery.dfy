/** The viewer state machine of LiteGallery: the `state` record and the tap, swipe and drag fields
  * of one gallery instance, and every method that changes them. The browser's part (pointer
  * coordinates, timestamps, the image's bounding rectangle, whether a fullscreen element exists,
  * whether the native exit call threw, the handles of new timers) arrives as parameters; timer
  * callbacks are methods of their own that the environment calls when the timer fires. */
module Viewer {
  import opened Transform
  import opened Input

  datatype Option<T> = None | Some(value: T)

  /** What a pending single-tap timer captured from its touchend event: how many touches changed,
    * and where the first of them was. */
  datatype PendingTap = PendingTap(changedTouches: nat, at: Point)

  /** The native fullscreen call a method issued. */
  datatype FullscreenCall = NoCall | RequestEnter | RequestExit

  /** showImage's index rule: any negative index goes to the last image and any index past the end
    * to the first. Indices further out are not taken modulo the count. */
  function NormalizeIndex(index: int, count: nat): (r: nat)
    requires count > 0
    ensures r < count
    ensures 0 <= index < count ==> r == index
    ensures index < 0 ==> r == count - 1
    ensures index >= count ==> r == 0
  {
    if index < 0 then count - 1 else if index >= count then 0 else index
  }

  /** For a step of one from a valid index the rule is wrap-around modulo the count. */
  lemma NeighbourWraps(i: int, count: nat)
    requires 0 <= i < count
    ensures NormalizeIndex(i + 1, count) == (i + 1) % count
    ensures NormalizeIndex(i - 1, count) == (i - 1) % count
  {
  }

  /** For larger jumps it is not: index 7 of five images shows the first image, not the third. */
  lemma FarIndexIsNotWrapped()
    ensures NormalizeIndex(7, 5) == 0 && 7 % 5 == 2
  {
  }

  class LiteGallery {
    // options
    const imageCount: nat
    const zoomLevels: seq<real>
    const zoomOption: bool
    const rotateOption: bool
    const autoplayOption: bool

    // this.state
    var currentIndex: int
    var isFullscreen: bool
    var isZoomed: bool
    var zoomLevel: real
    var zoomLevelIndex: int
    var rotationDegree: int
    var isPlaying: bool
    var autoplayTimer: Option<int>
    var isDragging: bool
    var recentlyDragged: bool
    var dragStartX: real
    var dragStartY: real
    var translateX: real
    var translateY: real

    // touch tracking and swipeData
    var lastTapTime: int
    var tapTimeout: Option<PendingTap>
    var swipeStart: Point
    var swipeEnd: Point

    // significant-movement tracking; the initial points are undefined until the first drag
    var dragInitial: Option<Point>
    var significantDragOccurred: bool
    var touchInitial: Option<Point>
    var significantTouchMoveOccurred: bool

    // the browser's timers owned by this gallery: live autoplay intervals, and the number of
    // scheduled callbacks that will clear recentlyDragged
    var liveIntervals: set<int>
    var pendingDragResets: nat

    ghost predicate Valid()
      reads this
    {
      && imageCount > 0
      && (forall i :: 0 <= i < |zoomLevels| ==> zoomLevels[i] > 0.0)
      && 0 <= currentIndex < imageCount
      && zoomLevel > 0.0
      && isZoomed == (zoomLevel != 1.0)
      && (zoomLevelIndex == 0 || 0 < zoomLevelIndex < |zoomLevels|)
      && -360 < rotationDegree < 360
      && (isPlaying <==> autoplayTimer.Some?)
      && (autoplayTimer.Some? ==> autoplayTimer.value > 0)
      && liveIntervals == (if autoplayTimer.Some? then {autoplayTimer.value} else {})
      && (recentlyDragged ==> pendingDragResets > 0)
    }

    /** The state fields as the constructor sets them, before init() shows the first image. */
    constructor (imageCount: nat, zoomLevels: seq<real>, zoomOption: bool, rotateOption: bool, autoplayOption: bool)
      requires imageCount > 0
      requires forall i :: 0 <= i < |zoomLevels| ==> zoomLevels[i] > 0.0
      ensures Valid()
      ensures this.imageCount == imageCount && this.zoomLevels == zoomLevels
      ensures this.zoomOption == zoomOption && this.rotateOption == rotateOption && this.autoplayOption == autoplayOption
      ensures currentIndex == 0 && !isFullscreen && zoomLevel == 1.0 && zoomLevelIndex == 0 && rotationDegree == 0
      ensures !isPlaying && autoplayTimer == None && liveIntervals == {}
      ensures !isDragging && !recentlyDragged && pendingDragResets == 0
      ensures translateX == 0.0 && translateY == 0.0
      ensures lastTapTime == 0 && tapTimeout == None
      ensures swipeStart == Point(0.0, 0.0) && swipeEnd == Point(0.0, 0.0)
      ensures dragInitial == None && touchInitial == None
    {
      this.imageCount := imageCount;
      this.zoomLevels := zoomLevels;
      this.zoomOption := zoomOption;
      this.rotateOption := rotateOption;
      this.autoplayOption := autoplayOption;
      currentIndex := 0;
      isFullscreen := false;
      isZoomed := false;
      zoomLevel := 1.0;
      zoomLevelIndex := 0;
      rotationDegree := 0;
      isPlaying := false;
      autoplayTimer := None;
      isDragging := false;
      recentlyDragged := false;
      dragStartX, dragStartY := 0.0, 0.0;
      translateX, translateY := 0.0, 0.0;
      lastTapTime := 0;
      tapTimeout := None;
      swipeStart, swipeEnd := Point(0.0, 0.0), Point(0.0, 0.0);
      dragInitial := None;
      significantDragOccurred := false;
      touchInitial := None;
      significantTouchMoveOccurred := false;
      liveIntervals := {};
      pendingDragResets := 0;
    }

    // ---------------------------------------------------------------- navigation

    method ShowImage(index: int)
      requires Valid()
      modifies this`currentIndex, this`zoomLevel, this`isZoomed, this`translateX, this`translateY, this`rotationDegree
      ensures Valid()
      ensures currentIndex == NormalizeIndex(index, imageCount)
      ensures zoomLevel == 1.0 && !isZoomed && translateX == 0.0 && translateY == 0.0
      ensures rotationDegree == 0
    {
      var i := index;
      if i < 0 {
        i := imageCount - 1;
      } else if i >= imageCount {
        i := 0;
      }
      currentIndex := i;
      ResetZoom();
      rotationDegree := 0;
    }

    method NextImage()
      requires Valid()
      modifies this`currentIndex, this`zoomLevel, this`isZoomed, this`translateX, this`translateY, this`rotationDegree
      ensures Valid()
      ensures currentIndex == (old(currentIndex) + 1) % imageCount
      ensures old(currentIndex) == imageCount - 1 ==> currentIndex == 0
      ensures zoomLevel == 1.0 && !isZoomed && translateX == 0.0 && translateY == 0.0
      ensures rotationDegree == 0
    {
      NeighbourWraps(currentIndex, imageCount);
      ShowImage(currentIndex + 1);
    }

    method PrevImage()
      requires Valid()
      modifies this`currentIndex, this`zoomLevel, this`isZoomed, this`translateX, this`translateY, this`rotationDegree
      ensures Valid()
      ensures currentIndex == (old(currentIndex) - 1) % imageCount
      ensures old(currentIndex) == 0 ==> currentIndex == imageCount - 1
      ensures zoomLevel == 1.0 && !isZoomed && translateX == 0.0 && translateY == 0.0
      ensures rotationDegree == 0
    {
      NeighbourWraps(currentIndex, imageCount);
      ShowImage(currentIndex - 1);
    }

    // ---------------------------------------------------------------- zoom

    method ResetZoom()
      requires Valid()
      modifies this`zoomLevel, this`isZoomed, this`translateX, this`translateY
      ensures Valid()
      ensures zoomLevel == 1.0 && !isZoomed && translateX == 0.0 && translateY == 0.0
    {
      zoomLevel := 1.0;
      isZoomed := false;
      translateX := 0.0;
      translateY := 0.0;
    }

    /** Wheel, toolbar and keyboard zoom: step, clamp to [0.5, 3], and drop the pan on reaching 1. */
    method Zoom(delta: real)
      requires Valid()
      modifies this`zoomLevel, this`isZoomed, this`translateX, this`translateY
      ensures Valid()
      ensures zoomLevel == ClampZoom(old(zoomLevel) + delta)
      ensures isZoomed <==> zoomLevel != 1.0
      ensures zoomLevel == 1.0 ==> translateX == 0.0 && translateY == 0.0
      ensures zoomLevel != 1.0 ==> translateX == old(translateX) && translateY == old(translateY)
    {
      var newZoom := zoomLevel + delta;
      newZoom := Max(0.5, Min(3.0, newZoom));
      zoomLevel := newZoom;
      isZoomed := newZoom != 1.0;
      if !isZoomed {
        if newZoom == 1.0 {
          translateX := 0.0;
          translateY := 0.0;
        }
      }
    }

    /** Zoom to `target` about the client point (clientX, clientY), correcting the pan so that the
      * image point under it stays put. The pan is kept (and corrected) even when target is 1. */
    method ZoomAtPosition(target: real, clientX: real, clientY: real, rect: Rect)
      requires Valid() && target > 0.0
      modifies this`zoomLevel, this`isZoomed, this`translateX, this`translateY
      ensures Valid()
      ensures zoomLevel == target && (isZoomed <==> target != 1.0)
      ensures translateX == old(translateX) + AnchorShift(clientX, rect.Center().x, old(zoomLevel), target)
      ensures translateY == old(translateY) + AnchorShift(clientY, rect.Center().y, old(zoomLevel), target)
    {
      var center := rect.Center();
      var currentZoom := zoomLevel;
      var pointXBeforeZoom := (clientX - center.x) / currentZoom + center.x;
      var pointYBeforeZoom := (clientY - center.y) / currentZoom + center.y;
      zoomLevel := target;
      isZoomed := target != 1.0;
      var pointXAfterZoom := (pointXBeforeZoom - center.x) * target + center.x;
      var pointYAfterZoom := (pointYBeforeZoom - center.y) * target + center.y;
      AnchorCompensation(clientX, center.x, currentZoom, target);
      AnchorCompensation(clientY, center.y, currentZoom, target);
      translateX := translateX + (clientX - pointXAfterZoom) / target;
      translateY := translateY + (clientY - pointYAfterZoom) / target;
    }

    /** Jump to a zoom level without moving the image; the pan is dropped when the level is 1. */
    method ZoomToLevel(level: real)
      requires Valid() && level > 0.0
      modifies this`zoomLevel, this`isZoomed, this`translateX, this`translateY
      ensures Valid()
      ensures zoomLevel == level && (isZoomed <==> level != 1.0)
      ensures level == 1.0 ==> translateX == 0.0 && translateY == 0.0
      ensures level != 1.0 ==> translateX == old(translateX) && translateY == old(translateY)
    {
      zoomLevel := level;
      isZoomed := level != 1.0;
      if !isZoomed {
        translateX := 0.0;
        translateY := 0.0;
      }
    }

    /** The image-click handler, registered only when the zoom option is on: ignored during or just
      * after a drag; otherwise find the configured level nearest the current zoom, reset at the last
      * level and go to the next level about the click point otherwise. With no levels configured the
      * search yields NaN and index 0, which counts as the last index, so the zoom resets. */
    method HandleImageClick(clientX: real, clientY: real, rect: Rect)
      requires Valid()
      modifies this`zoomLevel, this`isZoomed, this`translateX, this`translateY, this`zoomLevelIndex
      ensures Valid()
      ensures !zoomOption || old(isDragging || recentlyDragged) ==> unchanged(this)
      ensures zoomOption && !old(isDragging || recentlyDragged) && |zoomLevels| == 0 ==>
        zoomLevel == 1.0 && translateX == 0.0 && translateY == 0.0 && zoomLevelIndex == old(zoomLevelIndex)
      ensures zoomOption && !old(isDragging || recentlyDragged) && |zoomLevels| > 0 ==>
        var k := Nearest(zoomLevels, old(zoomLevel));
        if k == |zoomLevels| - 1 then
          zoomLevel == 1.0 && translateX == 0.0 && translateY == 0.0 && zoomLevelIndex == old(zoomLevelIndex)
        else
          && zoomLevel == zoomLevels[k + 1] && zoomLevelIndex == k + 1
          && translateX == old(translateX) + AnchorShift(clientX, rect.Center().x, old(zoomLevel), zoomLevels[k + 1])
          && translateY == old(translateY) + AnchorShift(clientY, rect.Center().y, old(zoomLevel), zoomLevels[k + 1])
    {
      if !zoomOption || isDragging || recentlyDragged {
        return;
      }
      if |zoomLevels| == 0 {
        ResetZoom();
      } else {
        var k := NearestLevelIndex(zoomLevels, zoomLevel);
        if k >= |zoomLevels| - 1 {
          ResetZoom();
        } else {
          var nextIndex := k + 1;
          zoomLevelIndex := nextIndex;
          ZoomAtPosition(zoomLevels[nextIndex], clientX, clientY, rect);
        }
      }
    }

    // ---------------------------------------------------------------- rotation

    method Rotate(degrees: int)
      requires Valid()
      modifies this`rotationDegree
      ensures Valid()
      ensures rotationDegree == JsRem(old(rotationDegree) + degrees, 360)
      ensures rotationDegree % 360 == (old(rotationDegree) + degrees) % 360
    {
      JsRemSameAngle(rotationDegree + degrees);
      rotationDegree := JsRem(rotationDegree + degrees, 360);
    }

    // ---------------------------------------------------------------- autoplay

    /** Start autoplay with the interval handle the browser returned (always positive): the
      * previous interval, if any, is cleared first, so at most one stays live. */
    method StartAutoplay(handle: int)
      requires Valid() && handle > 0
      modifies this`isPlaying, this`autoplayTimer, this`liveIntervals
      ensures Valid()
      ensures isPlaying && autoplayTimer == Some(handle) && liveIntervals == {handle}
    {
      if autoplayTimer.Some? {
        liveIntervals := liveIntervals - {autoplayTimer.value};
      }
      isPlaying := true;
      autoplayTimer := Some(handle);
      liveIntervals := liveIntervals + {handle};
    }

    method StopAutoplay()
      requires Valid()
      modifies this`isPlaying, this`autoplayTimer, this`liveIntervals
      ensures Valid()
      ensures !isPlaying && autoplayTimer == None && liveIntervals == {}
    {
      if autoplayTimer.Some? {
        liveIntervals := liveIntervals - {autoplayTimer.value};
        autoplayTimer := None;
      }
      isPlaying := false;
    }

    method ToggleAutoplay(handle: int)
      requires Valid() && handle > 0
      modifies this`isPlaying, this`autoplayTimer, this`liveIntervals
      ensures Valid()
      ensures isPlaying == !old(isPlaying)
      ensures isPlaying ==> autoplayTimer == Some(handle) && liveIntervals == {handle}
      ensures !isPlaying ==> autoplayTimer == None && liveIntervals == {}
    {
      if isPlaying {
        StopAutoplay();
      } else {
        StartAutoplay(handle);
      }
    }

    /** The autoplay interval fires: advance to the next image. */
    method AutoplayTick()
      requires Valid() && isPlaying
      modifies this`currentIndex, this`zoomLevel, this`isZoomed, this`translateX, this`translateY, this`rotationDegree
      ensures Valid()
      ensures currentIndex == (old(currentIndex) + 1) % imageCount
      ensures zoomLevel == 1.0 && translateX == 0.0 && translateY == 0.0 && rotationDegree == 0
    {
      NextImage();
    }

    // ---------------------------------------------------------------- fullscreen

    /** Exit fullscreen through the native API. The flag is left to the change notification, except
      * that a native call that throws forces it off (the zoom is not reset on that path). */
    method ExitFullscreen(nativeThrows: bool)
      requires Valid()
      modifies this`isFullscreen
      ensures Valid()
      ensures isFullscreen == (old(isFullscreen) && !nativeThrows)
    {
      if nativeThrows {
        isFullscreen := false;
      }
    }

    /** Request fullscreen when windowed, exit otherwise. Entering never changes the flag here. */
    method ToggleFullscreen(exitThrows: bool) returns (call: FullscreenCall)
      requires Valid()
      modifies this`isFullscreen
      ensures Valid()
      ensures !old(isFullscreen) ==> call == RequestEnter && !isFullscreen
      ensures old(isFullscreen) ==> call == RequestExit && isFullscreen == !exitThrows
    {
      if !isFullscreen {
        call := RequestEnter;
      } else {
        call := RequestExit;
        ExitFullscreen(exitThrows);
      }
    }

    /** The browser's fullscreen-change notification: the flag follows whether any element is in
      * fullscreen, and leaving fullscreen resets the zoom. */
    method HandleFullscreenChange(fullscreenElementPresent: bool)
      requires Valid()
      modifies this`isFullscreen, this`zoomLevel, this`isZoomed, this`translateX, this`translateY
      ensures Valid()
      ensures isFullscreen == fullscreenElementPresent
      ensures !fullscreenElementPresent ==> zoomLevel == 1.0 && !isZoomed && translateX == 0.0 && translateY == 0.0
      ensures fullscreenElementPresent ==>
        zoomLevel == old(zoomLevel) && translateX == old(translateX) && translateY == old(translateY)
    {
      isFullscreen := fullscreenElementPresent;
      if !isFullscreen {
        ResetZoom();
      }
    }

    // ---------------------------------------------------------------- keyboard

    /** The document keydown handler: keys count only while focus is inside the gallery or it is in
      * fullscreen; the command then runs on this gallery. */
    method HandleKeyboardNavigation(key: string, focusInside: bool, exitThrows: bool, handle: int)
      returns (response: KeyResponse)
      requires Valid() && handle > 0
      modifies this`currentIndex, this`zoomLevel, this`isZoomed, this`translateX, this`translateY,
               this`rotationDegree, this`isFullscreen, this`isPlaying, this`autoplayTimer, this`liveIntervals
      ensures Valid()
      ensures response == (if focusInside || old(isFullscreen)
                           then KeyAction(key, old(isFullscreen), zoomOption, rotateOption, autoplayOption)
                           else KeyResponse(Ignore, false))
      ensures response.command.Ignore? ==> unchanged(this)
      ensures response.command.Previous? ==> currentIndex == (old(currentIndex) - 1) % imageCount
      ensures response.command.Next? ==> currentIndex == (old(currentIndex) + 1) % imageCount
      ensures response.command.Previous? || response.command.Next? ==>
        && zoomLevel == 1.0 && !isZoomed && translateX == 0.0 && translateY == 0.0 && rotationDegree == 0
        && unchanged(this`isFullscreen, this`isPlaying, this`autoplayTimer, this`liveIntervals)
      ensures response.command.ToggleFullscreen? ==>
        && isFullscreen == (old(isFullscreen) && !exitThrows)
        && unchanged(this`currentIndex, this`zoomLevel, this`isZoomed, this`translateX, this`translateY, this`rotationDegree)
        && unchanged(this`isPlaying, this`autoplayTimer, this`liveIntervals)
      ensures response.command.ZoomIn? ==> zoomLevel == ClampZoom(old(zoomLevel) + 0.1)
      ensures response.command.ZoomOut? ==> zoomLevel == ClampZoom(old(zoomLevel) - 0.1)
      ensures response.command.ZoomIn? || response.command.ZoomOut? ==>
        && (isZoomed <==> zoomLevel != 1.0)
        && (zoomLevel == 1.0 ==> translateX == 0.0 && translateY == 0.0)
        && (zoomLevel != 1.0 ==> translateX == old(translateX) && translateY == old(translateY))
        && unchanged(this`currentIndex, this`rotationDegree, this`isFullscreen)
        && unchanged(this`isPlaying, this`autoplayTimer, this`liveIntervals)
      ensures response.command.RotateRight? ==>
        && rotationDegree == JsRem(old(rotationDegree) + 90, 360)
        && unchanged(this`currentIndex, this`zoomLevel, this`isZoomed, this`translateX, this`translateY, this`isFullscreen)
        && unchanged(this`isPlaying, this`autoplayTimer, this`liveIntervals)
      ensures response.command.ZoomReset? ==>
        && zoomLevel == 1.0 && !isZoomed && translateX == 0.0 && translateY == 0.0
        && unchanged(this`currentIndex, this`rotationDegree, this`isFullscreen)
        && unchanged(this`isPlaying, this`autoplayTimer, this`liveIntervals)
      ensures response.command.ToggleAutoplay? ==>
        && isPlaying == !old(isPlaying)
        && (isPlaying ==> autoplayTimer == Some(handle) && liveIntervals == {handle})
        && (!isPlaying ==> autoplayTimer == None && liveIntervals == {})
        && unchanged(this`currentIndex, this`zoomLevel, this`isZoomed, this`translateX, this`translateY)
        && unchanged(this`rotationDegree, this`isFullscreen)
    {
      if !focusInside && !isFullscreen {
        return KeyResponse(Ignore, false);
      }
      response := KeyAction(key, isFullscreen, zoomOption, rotateOption, autoplayOption);
      RunKeyCommand(response.command, exitThrows, handle);
    }

    /** The switch of the keydown handler: each command calls the method the key is bound to, and
      * nothing outside that method's fields changes. */
    method RunKeyCommand(command: KeyCommand, exitThrows: bool, handle: int)
      requires Valid() && handle > 0
      modifies this`currentIndex, this`zoomLevel, this`isZoomed, this`translateX, this`translateY,
               this`rotationDegree, this`isFullscreen, this`isPlaying, this`autoplayTimer, this`liveIntervals
      ensures Valid()
      ensures command.Ignore? ==> unchanged(this)
      ensures command.Previous? ==> currentIndex == (old(currentIndex) - 1) % imageCount
      ensures command.Next? ==> currentIndex == (old(currentIndex) + 1) % imageCount
      ensures command.Previous? || command.Next? ==>
        && zoomLevel == 1.0 && !isZoomed && translateX == 0.0 && translateY == 0.0 && rotationDegree == 0
        && unchanged(this`isFullscreen, this`isPlaying, this`autoplayTimer, this`liveIntervals)
      ensures command.ToggleFullscreen? ==>
        && isFullscreen == (old(isFullscreen) && !exitThrows)
        && unchanged(this`currentIndex, this`zoomLevel, this`isZoomed, this`translateX, this`translateY, this`rotationDegree)
        && unchanged(this`isPlaying, this`autoplayTimer, this`liveIntervals)
      ensures command.ZoomIn? ==> zoomLevel == ClampZoom(old(zoomLevel) + 0.1)
      ensures command.ZoomOut? ==> zoomLevel == ClampZoom(old(zoomLevel) - 0.1)
      ensures command.ZoomIn? || command.ZoomOut? ==>
        && (isZoomed <==> zoomLevel != 1.0)
        && (zoomLevel == 1.0 ==> translateX == 0.0 && translateY == 0.0)
        && (zoomLevel != 1.0 ==> translateX == old(translateX) && translateY == old(translateY))
        && unchanged(this`currentIndex, this`rotationDegree, this`isFullscreen)
        && unchanged(this`isPlaying, this`autoplayTimer, this`liveIntervals)
      ensures command.RotateRight? ==>
        && rotationDegree == JsRem(old(rotationDegree) + 90, 360)
        && unchanged(this`currentIndex, this`zoomLevel, this`isZoomed, this`translateX, this`translateY, this`isFullscreen)
        && unchanged(this`isPlaying, this`autoplayTimer, this`liveIntervals)
      ensures command.ZoomReset? ==>
        && zoomLevel == 1.0 && !isZoomed && translateX == 0.0 && translateY == 0.0
        && unchanged(this`currentIndex, this`rotationDegree, this`isFullscreen)
        && unchanged(this`isPlaying, this`autoplayTimer, this`liveIntervals)
      ensures command.ToggleAutoplay? ==>
        && isPlaying == !old(isPlaying)
        && (isPlaying ==> autoplayTimer == Some(handle) && liveIntervals == {handle})
        && (!isPlaying ==> autoplayTimer == None && liveIntervals == {})
        && unchanged(this`currentIndex, this`zoomLevel, this`isZoomed, this`translateX, this`translateY)
        && unchanged(this`rotationDegree, this`isFullscreen)
    {
      match command {
        case Ignore =>
        case Previous => PrevImage();
        case Next => NextImage();
        case ToggleFullscreen => var _ := ToggleFullscreen(exitThrows);
        case ZoomIn => Zoom(0.1);
        case ZoomOut => Zoom(-0.1);
        case RotateRight => Rotate(90);
        case ZoomReset => ResetZoom();
        case ToggleAutoplay => ToggleAutoplay(handle);
      }
    }

    // ---------------------------------------------------------------- mouse drag

    /** mousedown: a drag starts only on a zoomed image. */
    method HandleDragStart(at: Point)
      requires Valid()
      modifies this`isDragging, this`dragStartX, this`dragStartY, this`dragInitial, this`significantDragOccurred
      ensures Valid()
      ensures !old(isZoomed) ==> unchanged(this)
      ensures old(isZoomed) ==>
        && isDragging && dragStartX == at.x && dragStartY == at.y
        && dragInitial == Some(at) && !significantDragOccurred
    {
      if !isZoomed {
        return;
      }
      isDragging := true;
      dragStartX := at.x;
      dragStartY := at.y;
      dragInitial := Some(at);
      significantDragOccurred := false;
    }

    /** mousemove: while dragging, pan by the pointer's movement since the last move, in image units,
      * and note whether the pointer has strayed more than 5 px from where the drag began. */
    method HandleDragMove(at: Point)
      requires Valid()
      modifies this`translateX, this`translateY, this`dragStartX, this`dragStartY, this`significantDragOccurred
      ensures Valid()
      ensures !old(isDragging) ==> unchanged(this)
      ensures old(isDragging) ==>
        && translateX == DragStep(old(translateX), zoomLevel, old(dragStartX), at.x)
        && translateY == DragStep(old(translateY), zoomLevel, old(dragStartY), at.y)
        && dragStartX == at.x && dragStartY == at.y
        && significantDragOccurred ==
             (old(significantDragOccurred) || (dragInitial.Some? && Beyond(dragInitial.value, at, MouseDragThreshold)))
    {
      if !isDragging {
        return;
      }
      var dx := at.x - dragStartX;
      var dy := at.y - dragStartY;
      translateX := translateX + dx / zoomLevel;
      translateY := translateY + dy / zoomLevel;
      dragStartX := at.x;
      dragStartY := at.y;
      if dragInitial.Some? {
        var init := dragInitial.value;
        if Abs(at.x - init.x) > 5.0 || Abs(at.y - init.y) > 5.0 {
          significantDragOccurred := true;
        }
      }
    }

    /** mouseup / mouseleave: the drag ends; a significant drag suppresses clicks until a 300 ms
      * timer clears recentlyDragged. */
    method HandleDragEnd()
      requires Valid()
      modifies this`isDragging, this`recentlyDragged, this`pendingDragResets, this`significantDragOccurred
      ensures Valid()
      ensures !isDragging && !significantDragOccurred
      ensures old(significantDragOccurred) ==> recentlyDragged && pendingDragResets == old(pendingDragResets) + 1
      ensures !old(significantDragOccurred) ==>
        recentlyDragged == old(recentlyDragged) && pendingDragResets == old(pendingDragResets)
    {
      isDragging := false;
      if significantDragOccurred {
        recentlyDragged := true;
        pendingDragResets := pendingDragResets + 1;
      }
      significantDragOccurred := false;
    }

    /** One of the scheduled 300 ms callbacks that clear recentlyDragged fires. */
    method ExpireRecentlyDragged()
      requires Valid() && pendingDragResets > 0
      modifies this`recentlyDragged, this`pendingDragResets
      ensures Valid()
      ensures !recentlyDragged && pendingDragResets == old(pendingDragResets) - 1
    {
      recentlyDragged := false;
      pendingDragResets := pendingDragResets - 1;
    }

    // ---------------------------------------------------------------- touch

    /** touchstart with `touchCount` touches, the first at `at`: record the swipe start, detect a
      * double tap (which toggles fullscreen), and start a drag on a zoomed image. */
    method HandleTouchStart(touchCount: nat, at: Point, now: int, exitThrows: bool) returns (call: FullscreenCall)
      requires Valid()
      modifies this`swipeStart, this`swipeEnd, this`lastTapTime, this`isFullscreen, this`isDragging,
               this`dragStartX, this`dragStartY, this`touchInitial, this`significantTouchMoveOccurred
      ensures Valid()
      ensures touchCount != 1 ==> unchanged(this) && call == NoCall
      ensures touchCount == 1 ==> swipeStart == at && swipeEnd == Point(0.0, 0.0)
      ensures touchCount == 1 && IsDoubleTap(old(lastTapTime), now) ==>
        && lastTapTime == 0
        && call == (if old(isFullscreen) then RequestExit else RequestEnter)
        && isFullscreen == (old(isFullscreen) && !exitThrows)
      ensures touchCount == 1 && !IsDoubleTap(old(lastTapTime), now) ==>
        lastTapTime == now && call == NoCall && isFullscreen == old(isFullscreen)
      ensures touchCount == 1 && old(isZoomed) ==>
        && isDragging && dragStartX == at.x && dragStartY == at.y
        && touchInitial == Some(at) && !significantTouchMoveOccurred
      ensures touchCount == 1 && !old(isZoomed) ==>
        && isDragging == old(isDragging) && dragStartX == old(dragStartX) && dragStartY == old(dragStartY)
        && touchInitial == old(touchInitial) && significantTouchMoveOccurred == old(significantTouchMoveOccurred)
    {
      call := NoCall;
      if touchCount == 1 {
        swipeStart := at;
        swipeEnd := Point(0.0, 0.0);
        call := RecordTap(now, exitThrows);
        if isZoomed {
          BeginTouchDrag(at);
        }
      }
    }

    /** The double-tap test of touchstart: a tap within 300 ms of the recorded one toggles fullscreen
      * and clears the record; any other tap becomes the record. */
    method RecordTap(now: int, exitThrows: bool) returns (call: FullscreenCall)
      requires Valid()
      modifies this`lastTapTime, this`isFullscreen
      ensures Valid()
      ensures IsDoubleTap(old(lastTapTime), now) ==>
        && lastTapTime == 0
        && call == (if old(isFullscreen) then RequestExit else RequestEnter)
        && isFullscreen == (old(isFullscreen) && !exitThrows)
      ensures !IsDoubleTap(old(lastTapTime), now) ==>
        lastTapTime == now && call == NoCall && isFullscreen == old(isFullscreen)
    {
      var timeSince := now - lastTapTime;
      if timeSince < 300 && timeSince > 0 {
        call := ToggleFullscreen(exitThrows);
        lastTapTime := 0;
      } else {
        call := NoCall;
        lastTapTime := now;
      }
    }

    /** The drag start of touchstart on a zoomed image. */
    method BeginTouchDrag(at: Point)
      requires Valid()
      modifies this`isDragging, this`dragStartX, this`dragStartY, this`touchInitial, this`significantTouchMoveOccurred
      ensures Valid()
      ensures isDragging && dragStartX == at.x && dragStartY == at.y
      ensures touchInitial == Some(at) && !significantTouchMoveOccurred
    {
      isDragging := true;
      dragStartX := at.x;
      dragStartY := at.y;
      touchInitial := Some(at);
      significantTouchMoveOccurred := false;
    }

    /** touchmove with `touchCount` (at least one) touches, the first at `at`: track the swipe end
      * for a single touch, and pan while dragging, noting moves more than 10 px from the start. */
    method HandleTouchMove(touchCount: nat, at: Point)
      requires Valid() && touchCount >= 1
      modifies this`swipeEnd, this`translateX, this`translateY, this`dragStartX, this`dragStartY,
               this`significantTouchMoveOccurred
      ensures Valid()
      ensures swipeEnd == (if touchCount == 1 then at else old(swipeEnd))
      ensures !old(isDragging) ==>
        && translateX == old(translateX) && translateY == old(translateY)
        && dragStartX == old(dragStartX) && dragStartY == old(dragStartY)
        && significantTouchMoveOccurred == old(significantTouchMoveOccurred)
      ensures old(isDragging) ==>
        && translateX == DragStep(old(translateX), zoomLevel, old(dragStartX), at.x)
        && translateY == DragStep(old(translateY), zoomLevel, old(dragStartY), at.y)
        && dragStartX == at.x && dragStartY == at.y
        && significantTouchMoveOccurred ==
             (old(significantTouchMoveOccurred) || (touchInitial.Some? && Beyond(touchInitial.value, at, TouchDragThreshold)))
    {
      if touchCount == 1 {
        swipeEnd := at;
      }
      if !isDragging {
        return;
      }
      var dx := at.x - dragStartX;
      var dy := at.y - dragStartY;
      translateX := translateX + dx / zoomLevel;
      translateY := translateY + dy / zoomLevel;
      dragStartX := at.x;
      dragStartY := at.y;
      if touchInitial.Some? {
        var init := touchInitial.value;
        if Abs(at.x - init.x) > 10.0 || Abs(at.y - init.y) > 10.0 {
          significantTouchMoveOccurred := true;
        }
      }
    }

    /** touchend, with `changedTouches` changed touches, the first at `at`. A horizontal swipe on an
      * unzoomed image navigates and cancels tap handling. Otherwise the drag ends, clicks are
      * suppressed for 300 ms (always, drag or not), and a single-tap timer is scheduled when a tap
      * time is recorded and none is pending. */
    method HandleTouchEnd(changedTouches: nat, at: Point)
      requires Valid()
      modifies this`currentIndex, this`zoomLevel, this`isZoomed, this`translateX, this`translateY,
               this`rotationDegree, this`lastTapTime, this`tapTimeout, this`isDragging, this`recentlyDragged,
               this`pendingDragResets
      ensures Valid()
      ensures var s := ClassifySwipe(old(swipeStart), old(swipeEnd), old(isZoomed));
        s != NoSwipe ==>
          && currentIndex == (if s == SwipePrevious then (old(currentIndex) - 1) % imageCount
                              else (old(currentIndex) + 1) % imageCount)
          && zoomLevel == 1.0 && translateX == 0.0 && translateY == 0.0 && rotationDegree == 0
          && lastTapTime == 0 && tapTimeout == None
          && isDragging == old(isDragging) && recentlyDragged == old(recentlyDragged)
          && pendingDragResets == old(pendingDragResets)
      ensures ClassifySwipe(old(swipeStart), old(swipeEnd), old(isZoomed)) == NoSwipe ==>
        && currentIndex == old(currentIndex) && zoomLevel == old(zoomLevel)
        && translateX == old(translateX) && translateY == old(translateY) && rotationDegree == old(rotationDegree)
        && lastTapTime == old(lastTapTime)
        && !isDragging && recentlyDragged && pendingDragResets == old(pendingDragResets) + 1
        && tapTimeout == (if old(lastTapTime) != 0 && old(tapTimeout) == None
                          then Some(PendingTap(changedTouches, at)) else old(tapTimeout))
    {
      if swipeEnd.x != 0.0 && !isZoomed {
        var deltaX := swipeEnd.x - swipeStart.x;
        var deltaY := swipeEnd.y - swipeStart.y;
        if Abs(deltaX) > Abs(deltaY) {
          if Abs(deltaX) > MinSwipeDistance {
            if deltaX > 0.0 {
              PrevImage();
            } else {
              NextImage();
            }
            lastTapTime := 0;
            if tapTimeout.Some? {
              tapTimeout := None;
            }
            return;
          }
        }
      }
      isDragging := false;
      recentlyDragged := true;
      pendingDragResets := pendingDragResets + 1;
      if lastTapTime != 0 && tapTimeout == None {
        tapTimeout := Some(PendingTap(changedTouches, at));
      }
    }

    /** The single-tap timer fires at time `now`, with the image at `rect`. If no second tap came
      * within 300 ms and no drag is going on or just ended, the tap zooms (or resets) about the
      * captured touch. The timer handle is cleared in every case. */
    method FireTapTimer(now: int, rect: Rect)
      requires Valid() && tapTimeout.Some?
      modifies this`zoomLevel, this`isZoomed, this`translateX, this`translateY, this`tapTimeout
      ensures Valid()
      ensures tapTimeout == None
      ensures var tap := old(tapTimeout).value;
        var fires := now - old(lastTapTime) >= TapWindowMs && !old(isDragging) && !old(recentlyDragged)
                     && tap.changedTouches == 1;
        && (!fires ==> zoomLevel == old(zoomLevel) && translateX == old(translateX) && translateY == old(translateY))
        && (fires ==>
              match TapZoomTarget(old(isFullscreen), old(zoomLevel))
              case TapReset => zoomLevel == 1.0 && translateX == 0.0 && translateY == 0.0
              case TapZoomTo(t) =>
                && zoomLevel == t
                && translateX == old(translateX) + AnchorShift(tap.at.x, rect.Center().x, old(zoomLevel), t)
                && translateY == old(translateY) + AnchorShift(tap.at.y, rect.Center().y, old(zoomLevel), t))
    {
      var tap := tapTimeout.value;
      var timeSince := now - lastTapTime;
      if timeSince >= 300 {
        if !isDragging && !recentlyDragged && tap.changedTouches == 1 {
          if isFullscreen {
            if zoomLevel >= 3.0 {
              ResetZoom();
            } else {
              var newZoom := Min(3.0, zoomLevel + 0.5);
              ZoomAtPosition(newZoom, tap.at.x, tap.at.y, rect);
            }
          } else {
            if zoomLevel >= 2.5 {
              ResetZoom();
            } else if zoomLevel >= 1.5 {
              ZoomAtPosition(3.0, tap.at.x, tap.at.y, rect);
            } else {
              ZoomAtPosition(2.0, tap.at.x, tap.at.y, rect);
            }
          }
        }
      }
      tapTimeout := None;
    }
  }

  /** The x coordinates of a run of pointer positions. */
  function Xs(ps: seq<Point>): (xs: seq<real>)
    ensures |xs| == |ps| && forall i :: 0 <= i < |ps| ==> xs[i] == ps[i].x
  {
    seq(|ps|, i requires 0 <= i < |ps| => ps[i].x)
  }

  /** The y coordinates of a run of pointer positions. */
  function Ys(ps: seq<Point>): (ys: seq<real>)
    ensures |ys| == |ps| && forall i :: 0 <= i < |ps| ==> ys[i] == ps[i].y
  {
    seq(|ps|, i requires 0 <= i < |ps| => ps[i].y)
  }

  /** A mouse drag in progress receives the moves `moves` one mousemove event at a time. The pan
    * telescopes to the distance from the pointer's position before the run to its last position,
    * divided by the zoom, and the drag has become significant exactly when it was already or some
    * move strayed more than 5 px from the drag's first point. */
  method DragThrough(g: LiteGallery, moves: seq<Point>)
    requires g.Valid() && g.isDragging && g.dragInitial.Some?
    modifies g`translateX, g`translateY, g`dragStartX, g`dragStartY, g`significantDragOccurred
    ensures g.Valid()
    ensures g.translateX == PanAfterMoves(old(g.translateX), g.zoomLevel, old(g.dragStartX), Xs(moves))
    ensures g.translateY == PanAfterMoves(old(g.translateY), g.zoomLevel, old(g.dragStartY), Ys(moves))
    ensures moves != [] ==>
      && g.translateX == old(g.translateX) + (moves[|moves| - 1].x - old(g.dragStartX)) / g.zoomLevel
      && g.translateY == old(g.translateY) + (moves[|moves| - 1].y - old(g.dragStartY)) / g.zoomLevel
      && g.dragStartX == moves[|moves| - 1].x && g.dragStartY == moves[|moves| - 1].y
    ensures g.significantDragOccurred <==>
      old(g.significantDragOccurred) || exists i :: 0 <= i < |moves| && Beyond(g.dragInitial.value, moves[i], MouseDragThreshold)
  {
    var i := 0;
    while i < |moves|
      invariant 0 <= i <= |moves|
      invariant g.Valid() && g.isDragging && g.dragInitial == old(g.dragInitial) && g.zoomLevel == old(g.zoomLevel)
      invariant PanAfterMoves(g.translateX, g.zoomLevel, g.dragStartX, Xs(moves[i..]))
             == PanAfterMoves(old(g.translateX), g.zoomLevel, old(g.dragStartX), Xs(moves))
      invariant PanAfterMoves(g.translateY, g.zoomLevel, g.dragStartY, Ys(moves[i..]))
             == PanAfterMoves(old(g.translateY), g.zoomLevel, old(g.dragStartY), Ys(moves))
      invariant SignificantAfter(g.significantDragOccurred, g.dragInitial.value, moves[i..], MouseDragThreshold)
             == SignificantAfter(old(g.significantDragOccurred), g.dragInitial.value, moves, MouseDragThreshold)
      invariant i > 0 ==> g.dragStartX == moves[i - 1].x && g.dragStartY == moves[i - 1].y
    {
      assert Xs(moves[i..])[1..] == Xs(moves[i + 1..]);
      assert Ys(moves[i..])[1..] == Ys(moves[i + 1..]);
      assert moves[i..][1..] == moves[i + 1..];
      g.HandleDragMove(moves[i]);
      i := i + 1;
    }
    assert moves[i..] == [];
    SignificantIffSomeMoveBeyond(old(g.significantDragOccurred), g.dragInitial.value, moves, MouseDragThreshold);
    if moves != [] {
      PanTelescopes(old(g.translateX), g.zoomLevel, old(g.dragStartX), Xs(moves));
      PanTelescopes(old(g.translateY), g.zoomLevel, old(g.dragStartY), Ys(moves));
    }
  }

  /** new LiteGallery(...): with no images the constructor reports an error and stops, leaving no
    * working viewer; otherwise init() shows the first image and starts autoplay when enabled, with
    * the interval handle the browser returns. */
  method Create(imageCount: nat, zoomLevels: seq<real>, zoomOption: bool, rotateOption: bool, autoplayOption: bool,
                autoplayHandle: int) returns (g: LiteGallery?)
    requires forall i :: 0 <= i < |zoomLevels| ==> zoomLevels[i] > 0.0
    requires autoplayHandle > 0
    ensures g == null <==> imageCount == 0
    ensures g != null ==>
      && fresh(g) && g.Valid()
      && g.imageCount == imageCount && g.zoomLevels == zoomLevels
      && g.zoomOption == zoomOption && g.rotateOption == rotateOption && g.autoplayOption == autoplayOption
      && g.currentIndex == 0 && g.zoomLevel == 1.0 && g.translateX == 0.0 && g.translateY == 0.0
      && g.rotationDegree == 0 && !g.isFullscreen && !g.isDragging && !g.recentlyDragged
      && g.lastTapTime == 0 && g.tapTimeout == None && g.pendingDragResets == 0
      && g.dragInitial == None && g.touchInitial == None
      && g.swipeStart == Point(0.0, 0.0) && g.swipeEnd == Point(0.0, 0.0)
      && g.isPlaying == autoplayOption
      && (autoplayOption ==> g.autoplayTimer == Some(autoplayHandle))
  {
    if imageCount == 0 {
      return null;
    }
    g := new LiteGallery(imageCount, zoomLevels, zoomOption, rotateOption, autoplayOption);
    g.ShowImage(0);
    if autoplayOption {
      g.StartAutoplay(autoplayHandle);
    }
  }
}
