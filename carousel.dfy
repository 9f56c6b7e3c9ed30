/**
 * The testimonial/project carousel of js/app.js: a slide index, the drag
 * gesture that moves it, the track offset it renders, the dot row, and an
 * autoplay interval that is either scheduled or not.
 *
 * Pixel quantities are integers. The eased animation between two offsets is
 * not modelled: a render records the offset the track ends at and whether it
 * gets there animated (a non-zero duration) or at once.
 */
module Carousel {
  import opened Wrap

  /** What releasing a drag does to the index. */
  datatype Release = ToPrev | ToNext | SnapBack

  function Abs(x: int): nat
  {
    if x < 0 then -x else x
  }

  /**
   * The release rule of `onPointerUp`, with the threshold `width * 0.15`
   * scaled by 100: a drag right past 15% of the width goes back a slide, one
   * left past it goes forward, anything shorter snaps back.
   */
  function DragRelease(deltaX: int, width: nat): (r: Release)
    ensures r == ToPrev <==> deltaX * 100 > width * 15
    ensures r == ToNext <==> -deltaX * 100 > width * 15
    ensures r == SnapBack <==> Abs(deltaX) * 100 <= width * 15
  {
    if deltaX * 100 > width * 15 then ToPrev
    else if deltaX * 100 < -(width * 15) then ToNext
    else SnapBack
  }

  /** The index a release leaves on `n` slides. */
  function Released(index: int, n: int, r: Release): (i: int)
    requires 0 <= index < n
    ensures 0 <= i < n
    ensures r == SnapBack ==> i == index
    ensures r == ToPrev ==> Succ(i, n) == index
    ensures r == ToNext ==> Pred(i, n) == index
  {
    match r
    case ToPrev => Pred(index, n)
    case ToNext => Succ(index, n)
    case SnapBack => index
  }

  /** The observable state of a carousel, for stating what each operation changes. */
  datatype View = View(
    index: int, width: nat,
    isPointerDown: bool, startX: int, currentX: int, deltaX: int,
    offset: int, animated: bool, transitionNone: bool,
    dots: seq<bool>, hasTimer: bool, live: nat)

  class Carousel {
    const slideCount: nat
    const autoplay: bool
    const transitionMs: nat

    var index: int
    var width: nat
    var isPointerDown: bool
    var startX: int
    var currentX: int
    var deltaX: int
    /** Where the track's translation ends up once the current render completes. */
    var offset: int
    /** Whether the last render eases to `offset` rather than jumping there. */
    var animated: bool
    /** The track's CSS transition is switched off (during a drag). */
    var transitionNone: bool
    /** `aria-selected` of each dot. */
    var dots: seq<bool>
    /** `autoTimer !== null`. */
    var hasTimer: bool
    /** The intervals the browser is running for this carousel. */
    ghost var liveIntervals: nat

    ghost predicate Valid()
      reads this
    {
      && slideCount >= 1
      && 0 <= index < slideCount
      && dots == Markers(slideCount, index)
      && deltaX == currentX - startX
      && liveIntervals == (if hasTimer then 1 else 0)
    }

    ghost function Snapshot(): View
      reads this
    {
      View(index, width, isPointerDown, startX, currentX, deltaX,
           offset, animated, transitionNone, dots, hasTimer, liveIntervals)
    }

    /** The page builds one carousel per `[data-carousel]` element, then renders and starts autoplay. */
    constructor (n: nat, w: nat, autoplay: bool, transitionMs: nat, reducedMotion: bool)
      requires n >= 1
      ensures Valid()
      ensures slideCount == n && this.autoplay == autoplay && this.transitionMs == transitionMs
      ensures Snapshot() == View(0, w, false, 0, 0, 0, 0, transitionMs != 0, false,
                                 Markers(n, 0), autoplay && !reducedMotion,
                                 if autoplay && !reducedMotion then 1 else 0)
    {
      slideCount, this.autoplay, this.transitionMs := n, autoplay, transitionMs;
      index, width := 0, w;
      isPointerDown, startX, currentX, deltaX := false, 0, 0, 0;
      offset, animated, transitionNone := 0, false, false;
      dots := Markers(n, 0);
      hasTimer, liveIntervals := false, 0;
      new;
      Update();
      StartAutoplay(reducedMotion);
    }

    /** `setTransform(x, duration)`: any earlier animation is cancelled; zero duration jumps. */
    method SetTransform(x: int, duration: nat)
      requires Valid()
      modifies this
      ensures Valid()
      ensures Snapshot() == old(Snapshot()).(offset := x, animated := duration != 0)
    {
      offset := x;
      animated := duration != 0;
    }

    /** `update()`: mark the current dot and animate the track to the current slide. */
    method Update()
      requires 0 <= index < slideCount && deltaX == currentX - startX
      requires liveIntervals == (if hasTimer then 1 else 0)
      modifies this
      ensures Valid()
      ensures Snapshot() == old(Snapshot()).(dots := Markers(slideCount, index),
                                             offset := -index * width,
                                             animated := transitionMs != 0)
    {
      dots := Markers(slideCount, index);
      SetTransform(-index * width, transitionMs);
    }

    method Next()
      requires Valid()
      modifies this
      ensures Valid()
      ensures index == Succ(old(index), slideCount)
      ensures Snapshot() == old(Snapshot()).(index := index, dots := Markers(slideCount, index),
                                             offset := -index * width,
                                             animated := transitionMs != 0)
    {
      index := (index + 1) % slideCount;
      Update();
    }

    method Prev()
      requires Valid()
      modifies this
      ensures Valid()
      ensures index == Pred(old(index), slideCount)
      ensures Snapshot() == old(Snapshot()).(index := index, dots := Markers(slideCount, index),
                                             offset := -index * width,
                                             animated := transitionMs != 0)
    {
      index := (index - 1 + slideCount) % slideCount;
      Update();
    }

    /** `goTo(i)`: only the dot buttons call it, each with its own position. */
    method GoTo(i: int)
      requires Valid() && 0 <= i < slideCount
      modifies this
      ensures Valid()
      ensures Snapshot() == old(Snapshot()).(index := i, dots := Markers(slideCount, i),
                                             offset := -i * width,
                                             animated := transitionMs != 0)
    {
      index := i;
      Update();
    }

    /** `snap()`: jump, without animating, to the current slide. */
    method Snap()
      requires Valid()
      modifies this
      ensures Valid()
      ensures Snapshot() == old(Snapshot()).(offset := -index * width, animated := false)
    {
      SetTransform(-index * width, 0);
    }

    /** The window resize handler: re-measure the viewport and re-snap. */
    method Resize(w: nat)
      requires Valid()
      modifies this
      ensures Valid()
      ensures Snapshot() == old(Snapshot()).(width := w, offset := -index * w, animated := false)
    {
      width := w;
      Snap();
    }

    /** The viewport's keydown handler. */
    method OnKeyDown(key: string)
      requires Valid()
      modifies this
      ensures Valid()
      ensures key == "ArrowRight" ==> index == Succ(old(index), slideCount)
      ensures key == "ArrowLeft" ==> index == Pred(old(index), slideCount)
      ensures key == "ArrowRight" || key == "ArrowLeft" ==>
        Snapshot() == old(Snapshot()).(index := index, dots := Markers(slideCount, index),
                                       offset := -index * width,
                                       animated := transitionMs != 0)
      ensures key != "ArrowRight" && key != "ArrowLeft" ==> Snapshot() == old(Snapshot())
    {
      if key == "ArrowRight" {
        Next();
      } else if key == "ArrowLeft" {
        Prev();
      }
    }

    method OnPointerDown(x: int)
      requires Valid()
      modifies this
      ensures Valid()
      ensures Snapshot() == old(Snapshot()).(isPointerDown := true, startX := x, currentX := x,
                                             deltaX := 0, transitionNone := true,
                                             hasTimer := false, live := 0)
    {
      isPointerDown, startX, currentX, deltaX := true, x, x, 0;
      PauseAutoplay();
      transitionNone := true;
    }

    /** The track follows the pointer one to one while it is down; otherwise nothing happens. */
    method OnPointerMove(x: int)
      requires Valid()
      modifies this
      ensures Valid()
      ensures !old(isPointerDown) ==> Snapshot() == old(Snapshot())
      ensures old(isPointerDown) ==>
        Snapshot() == old(Snapshot()).(currentX := x, deltaX := x - startX,
                                       offset := -index * width + (x - startX), animated := false)
    {
      if !isPointerDown {
        return;
      }
      currentX := x;
      deltaX := currentX - startX;
      offset := -index * width + deltaX;
      animated := false;
    }

    /**
     * Pointer up, cancel or leave: end the drag, move by the release rule or
     * snap back, and restart autoplay. Nothing happens when no pointer is down.
     */
    method OnPointerUp(reducedMotion: bool)
      requires Valid()
      modifies this
      ensures Valid()
      ensures !old(isPointerDown) ==> Snapshot() == old(Snapshot())
      ensures old(isPointerDown) ==>
        var r := DragRelease(old(deltaX), old(width));
        var i := Released(old(index), slideCount, r);
        && index == i
        && !isPointerDown && !transitionNone
        && offset == -i * width
        && animated == (r != SnapBack && transitionMs != 0)
        && dots == Markers(slideCount, i)
        && width == old(width) && startX == old(startX) && currentX == old(currentX)
        && deltaX == old(deltaX)
        && hasTimer == (if autoplay && !reducedMotion then true else old(hasTimer))
    {
      if !isPointerDown {
        return;
      }
      isPointerDown := false;
      transitionNone := false;
      var r := DragRelease(deltaX, width);
      if r == ToPrev {
        Prev();
      } else if r == ToNext {
        Next();
      } else {
        Snap();
      }
      StartAutoplay(reducedMotion);
    }

    /** Schedules one interval, after clearing any earlier one, unless autoplay is off or motion is reduced. */
    method StartAutoplay(reducedMotion: bool)
      requires Valid()
      modifies this
      ensures Valid()
      ensures !autoplay || reducedMotion ==> Snapshot() == old(Snapshot())
      ensures autoplay && !reducedMotion ==>
        Snapshot() == old(Snapshot()).(hasTimer := true, live := 1)
    {
      if !autoplay || reducedMotion {
        return;
      }
      PauseAutoplay();
      hasTimer := true;
      liveIntervals := liveIntervals + 1;
    }

    method PauseAutoplay()
      requires Valid()
      modifies this
      ensures Valid()
      ensures Snapshot() == old(Snapshot()).(hasTimer := false, live := 0)
    {
      if hasTimer {
        liveIntervals := liveIntervals - 1;
        hasTimer := false;
      }
    }

    /** The autoplay interval firing: one step forward; the interval keeps running. */
    method AutoplayTick()
      requires Valid() && hasTimer
      modifies this
      ensures Valid()
      ensures index == Succ(old(index), slideCount) && hasTimer
      ensures Snapshot() == old(Snapshot()).(index := index, dots := Markers(slideCount, index),
                                             offset := -index * width,
                                             animated := transitionMs != 0)
    {
      Next();
    }
  }

  /**
   * Three slides, 300 px wide, at the first slide: a 40 px drag to the right
   * snaps back, a 60 px one wraps to the last slide.
   */
  method DragScenario() returns (short: int, long: int)
    ensures short == 0 && long == 2
  {
    var c := new Carousel(3, 300, true, 600, false);
    c.OnPointerDown(100);
    c.OnPointerMove(140);
    c.OnPointerUp(false);
    short := c.index;
    c.OnPointerDown(100);
    c.OnPointerMove(160);
    c.OnPointerUp(false);
    long := c.index;
  }

  /** `next` then `prev` leaves the index where it was. */
  method RoundTrip(n: nat, start: nat) returns (after: int)
    requires 0 <= start < n
    ensures after == start
  {
    var c := new Carousel(n, 320, false, 600, false);
    c.GoTo(start);
    c.Next();
    c.Prev();
    after := c.index;
  }

  /** `n` autoplay ticks on `n` slides bring the carousel back to the slide it started on. */
  method FullCycleScenario(n: nat, start: nat) returns (after: int)
    requires 0 <= start < n
    ensures after == start
  {
    var c := new Carousel(n, 320, true, 600, false);
    c.GoTo(start);
    var k := 0;
    while k < n
      invariant c.Valid() && c.slideCount == n && c.hasTimer
      invariant 0 <= k <= n && c.index == SuccN(start, n, k)
    {
      c.AutoplayTick();
      k := k + 1;
    }
    FullCycle(start, n);
    after := c.index;
  }
}
