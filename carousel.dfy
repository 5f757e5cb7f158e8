/**
 * The two carousels of the storefront's home page: the hero slider with its
 * autoplay timer, and the partner strip moved by buttons, swipes and drags.
 * Timer callbacks are the methods that the browser would call later; a
 * timer handle is a number and the set of running timers is a field.
 */
module Carousel {
  import opened Js

  /** The slide after `i` among `n`: `(i + 1) % n`. */
  function Forward(i: nat, n: nat): (j: nat)
    requires n > 0
    ensures j < n
    ensures i + 1 < n ==> j == i + 1
    ensures i + 1 == n ==> j == 0
  {
    (i + 1) % n
  }

  /** The slide before `i` among `n`: `(i - 1 + n) % n`, never negative for `i >= 0`. */
  function Back(i: nat, n: nat): (j: nat)
    requires n > 0
    ensures j < n
    ensures 0 < i <= n ==> j == i - 1
    ensures i == 0 ==> j == n - 1
  {
    (i - 1 + n) % n
  }

  /** Going back undoes going forward, and the other way round, on every slide. */
  lemma BackUndoesForward(i: nat, n: nat)
    requires 0 < n && i < n
    ensures Back(Forward(i, n), n) == i
    ensures Forward(Back(i, n), n) == i
  {
  }

  datatype Swipe = NoSwipe | Ahead | Behind

  const SWIPE_THRESHOLD := 50

  /** A touch that starts at `startX` and ends at `endX`: left by more than 50 goes ahead, right by more than 50 back. */
  function SwipeOf(startX: int, endX: int): (s: Swipe)
    ensures s == Ahead <==> startX - endX > SWIPE_THRESHOLD
    ensures s == Behind <==> endX - startX > SWIPE_THRESHOLD
    ensures s == NoSwipe <==> -SWIPE_THRESHOLD <= startX - endX <= SWIPE_THRESHOLD
  {
    var diff := startX - endX;
    if diff > SWIPE_THRESHOLD || -diff > SWIPE_THRESHOLD then (if diff > 0 then Ahead else Behind)
    else NoSwipe
  }

  /** The hero slider. Listeners exist only for a slider that has slides. */
  class HeroCarousel {
    const slideCount: nat
    var currentSlide: nat
    var isPlaying: bool
    var interval: Option<nat>
    /** The autoplay timers the browser is running. */
    var live: set<nat>
    var nextHandle: nat

    /** At most one timer runs, and it is the one `interval` holds. */
    predicate OneTimer()
      reads this
    {
      (interval.None? ==> live == {}) &&
      (interval.Some? ==> live == {interval.value}) &&
      (forall h :: h in live ==> h < nextHandle)
    }

    /** One timer at most, and none while paused. */
    predicate Valid()
      reads this
    {
      OneTimer() && (!isPlaying ==> interval.None?)
    }

    /** The constructor and `init`: autoplay starts only when there are slides. */
    constructor (slideCount: nat)
      ensures Valid() && this.slideCount == slideCount
      ensures currentSlide == 0 && isPlaying
      ensures slideCount > 0 <==> interval.Some?
    {
      this.slideCount := slideCount;
      currentSlide := 0;
      isPlaying := true;
      interval := None;
      live := {};
      nextHandle := 0;
      new;
      if slideCount > 0 {
        StartAutoPlay();
      }
    }

    /** `showSlide(index)`. */
    method ShowSlide(index: nat)
      modifies this`currentSlide
      ensures currentSlide == index
    {
      currentSlide := index;
    }

    /** `nextSlide`, also what the autoplay timer runs. */
    method NextSlide()
      requires slideCount > 0
      modifies this`currentSlide
      ensures currentSlide == Forward(old(currentSlide), slideCount) && currentSlide < slideCount
    {
      ShowSlide(Forward(currentSlide, slideCount));
    }

    method PrevSlide()
      requires slideCount > 0
      modifies this`currentSlide
      ensures currentSlide == Back(old(currentSlide), slideCount) && currentSlide < slideCount
    {
      ShowSlide(Back(currentSlide, slideCount));
    }

    /** `clearInterval`, also `pauseAutoPlay` and `destroy`: the held timer stops and `interval` is null. */
    method ClearInterval()
      requires OneTimer()
      modifies this`interval, this`live
      ensures Valid() && interval.None? && live == {}
    {
      if interval.Some? {
        live := live - {interval.value};
        interval := None;
      }
    }

    /** `startAutoPlay` as written: a new timer replaces the held handle without stopping the old one. */
    method StartAutoPlayAsWritten()
      modifies this`interval, this`live, this`nextHandle
      ensures !old(isPlaying) ==> unchanged(this)
      ensures old(isPlaying) ==> interval == Some(old(nextHandle)) && live == old(live) + {old(nextHandle)}
                                 && nextHandle == old(nextHandle) + 1
    {
      if !isPlaying {
        return;
      }
      live := live + {nextHandle};
      interval := Some(nextHandle);
      nextHandle := nextHandle + 1;
    }

    /** `startAutoPlay` stopping the held timer first, which keeps a single timer running. */
    method StartAutoPlay()
      requires Valid()
      modifies this`interval, this`live, this`nextHandle
      ensures Valid()
      ensures !old(isPlaying) ==> unchanged(this)
      ensures old(isPlaying) ==> interval == Some(old(nextHandle)) && live == {old(nextHandle)}
    {
      if !isPlaying {
        return;
      }
      ClearInterval();
      live := {nextHandle};
      interval := Some(nextHandle);
      nextHandle := nextHandle + 1;
    }

    /** `resumeAutoPlay` as written, on `mouseleave`. */
    method ResumeAutoPlayAsWritten()
      modifies this`interval, this`live, this`nextHandle
      ensures !old(isPlaying) ==> unchanged(this)
      ensures old(isPlaying) ==> live == old(live) + {old(nextHandle)}
    {
      if isPlaying {
        StartAutoPlayAsWritten();
      }
    }

    method ResumeAutoPlay()
      requires Valid()
      modifies this`interval, this`live, this`nextHandle
      ensures Valid()
      ensures isPlaying <==> interval.Some?
    {
      if isPlaying {
        StartAutoPlay();
      }
    }

    method RestartAutoPlay()
      requires Valid()
      modifies this`interval, this`live, this`nextHandle
      ensures Valid()
      ensures isPlaying <==> interval.Some?
    {
      ClearInterval();
      if isPlaying {
        StartAutoPlay();
      }
    }

    /** `goToSlide(index)`: show it and restart the timer. */
    method GoToSlide(index: nat)
      requires Valid()
      modifies this`currentSlide, this`interval, this`live, this`nextHandle
      ensures Valid() && currentSlide == index
      ensures isPlaying <==> interval.Some?
    {
      ShowSlide(index);
      RestartAutoPlay();
    }

    /** `toggleAutoPlay`: the flag flips; playing starts a timer, pausing stops it. */
    method ToggleAutoPlay()
      requires Valid()
      modifies this`isPlaying, this`interval, this`live, this`nextHandle
      ensures Valid() && isPlaying == !old(isPlaying)
      ensures isPlaying ==> interval.Some?
      ensures !isPlaying ==> interval.None? && live == {}
    {
      isPlaying := !isPlaying;
      if isPlaying {
        StartAutoPlay();
      } else {
        ClearInterval();
      }
    }
  }

  /**
   * The pointer enters the slider (pause), an indicator is clicked (restart),
   * the pointer leaves (resume): as written, two timers are left running.
   */
  method AutoPlayLeak() returns (timers: nat)
    ensures timers == 2
  {
    var c := new HeroCarousel(4);
    c.ClearInterval();
    c.GoToSlide(2);
    c.ResumeAutoPlayAsWritten();
    timers := |c.live|;
  }

  /** The same events with the corrected start leave one timer. */
  method AutoPlaySingle() returns (timers: nat)
    ensures timers == 1
  {
    var c := new HeroCarousel(4);
    c.ClearInterval();
    c.GoToSlide(2);
    c.ResumeAutoPlay();
    timers := |c.live|;
  }

  /** The partner strip's step back: below the first item it wraps to the last unique one. */
  function PrevIndex(i: int, totalItems: int): (j: int)
    ensures i > 0 ==> j == i - 1
    ensures i <= 0 ==> j == totalItems - 1
  {
    if i - 1 < 0 then totalItems - 1 else i - 1
  }

  datatype DragResult = NotDragging | SnappedBack | WentBack | WentAhead

  /** The partner strip. */
  class PartnershipsCarousel {
    var currentIndex: int
    var itemWidth: int
    var totalItems: int
    var isAnimating: bool
    var isDragging: bool
    var startX: int
    var currentX: int

    constructor ()
      ensures currentIndex == 0 && itemWidth == 0 && totalItems == 0
      ensures !isAnimating && !isDragging && startX == 0 && currentX == 0
    {
      currentIndex := 0;
      itemWidth := 0;
      totalItems := 0;
      isAnimating := false;
      isDragging := false;
      startX := 0;
      currentX := 0;
    }

    /**
     * `calculateDimensions`: the items are shown twice for a seamless loop,
     * so half of them are unique; a width that is not positive falls back to 140.
     */
    method CalculateDimensions(itemCount: nat, offsetWidth: int, margin: int)
      modifies this`itemWidth, this`totalItems
      ensures itemCount == 0 ==> itemWidth == old(itemWidth) && totalItems == old(totalItems)
      ensures itemCount > 0 ==> totalItems == itemCount / 2 && 2 * totalItems <= itemCount < 2 * totalItems + 2
      ensures itemCount > 0 ==> itemWidth == if offsetWidth + margin <= 0 then 140 + margin else offsetWidth + margin
    {
      if itemCount == 0 {
        return;
      }
      itemWidth := offsetWidth + margin;
      totalItems := itemCount / 2;
      if itemWidth <= 0 {
        itemWidth := 140 + margin;
      }
    }

    predicate Ready()
      reads this
    {
      !isAnimating && itemWidth != 0
    }

    /** `goToNext`: ignored while animating or before the width is known. */
    method GoToNext() returns (wrapScheduled: bool)
      modifies this`currentIndex, this`isAnimating
      ensures !old(Ready()) ==> !wrapScheduled && currentIndex == old(currentIndex) && isAnimating == old(isAnimating)
      ensures old(Ready()) ==> isAnimating && currentIndex == old(currentIndex) + 1
                               && (wrapScheduled <==> currentIndex >= totalItems)
    {
      if isAnimating || itemWidth == 0 {
        return false;
      }
      isAnimating := true;
      currentIndex := currentIndex + 1;
      wrapScheduled := currentIndex >= totalItems;
    }

    /** `goToPrev`: ignored while animating or before the width is known; below 0 it wraps. */
    method GoToPrev()
      modifies this`currentIndex, this`isAnimating
      ensures !old(Ready()) ==> currentIndex == old(currentIndex) && isAnimating == old(isAnimating)
      ensures old(Ready()) ==> isAnimating && currentIndex == PrevIndex(old(currentIndex), totalItems)
    {
      if isAnimating || itemWidth == 0 {
        return;
      }
      isAnimating := true;
      currentIndex := currentIndex - 1;
      if currentIndex < 0 {
        currentIndex := totalItems - 1;
      }
    }

    /** The timer `goToNext` sets when it passed the last unique item: back to the start. */
    method WrapToStart()
      modifies this`currentIndex
      ensures currentIndex == 0
    {
      currentIndex := 0;
    }

    /** The timer both moves set: the strip accepts moves again. */
    method AnimationDone()
      modifies this`isAnimating
      ensures !isAnimating
    {
      isAnimating := false;
    }

    /** `startDrag`: a mouse button other than the main one is ignored. */
    method StartDrag(isMouse: bool, button: int, x: int)
      modifies this`isDragging, this`startX, this`currentX
      ensures isMouse && button != 0 ==> unchanged(this)
      ensures !(isMouse && button != 0) ==> isDragging && startX == x && currentX == x
    {
      if isMouse && button != 0 {
        return;
      }
      isDragging := true;
      startX := x;
      currentX := x;
    }

    /** `drag`: follows the pointer only during a drag. */
    method Drag(x: int)
      modifies this`currentX
      ensures currentX == if isDragging then x else old(currentX)
    {
      if isDragging {
        currentX := x;
      }
    }

    /**
     * `endDrag`: a drag of more than 50 to the right goes back, to the left
     * goes ahead, the way a swipe over the same distance does; a shorter
     * drag snaps back and leaves the index alone.
     */
    method EndDrag() returns (r: DragResult)
      modifies this`isDragging, this`currentIndex, this`isAnimating
      ensures !old(isDragging) ==> r == NotDragging && unchanged(this)
      ensures old(isDragging) ==> !isDragging
      ensures old(isDragging) ==> (r == SnappedBack <==> SwipeOf(startX, currentX) == NoSwipe)
      ensures old(isDragging) ==> (r == WentBack <==> SwipeOf(startX, currentX) == Behind)
      ensures old(isDragging) ==> (r == WentAhead <==> SwipeOf(startX, currentX) == Ahead)
      ensures r == SnappedBack ==> currentIndex == old(currentIndex) && isAnimating == old(isAnimating)
      ensures r == WentBack && old(Ready()) ==> currentIndex == PrevIndex(old(currentIndex), totalItems)
      ensures r == WentAhead && old(Ready()) ==> currentIndex == old(currentIndex) + 1
      ensures (r == WentBack || r == WentAhead) && !old(Ready()) ==> currentIndex == old(currentIndex)
    {
      if !isDragging {
        return NotDragging;
      }
      isDragging := false;
      var deltaX := currentX - startX;
      var distance := if deltaX < 0 then -deltaX else deltaX;
      if distance > SWIPE_THRESHOLD {
        if deltaX > 0 {
          GoToPrev();
          r := WentBack;
        } else {
          var _ := GoToNext();
          r := WentAhead;
        }
      } else {
        r := SnappedBack;
      }
    }
  }
}
