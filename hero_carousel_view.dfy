/**
 * The React hero slider: four slides, and the state updaters its buttons,
 * indicators and five-second timer apply to the current index.
 */
module HeroCarouselView {
  import Carousel
  import opened Js

  /** The slide titles; the first slide is an image without text. */
  const SLIDE_TITLES := [
    "",
    "İnovasyonu Benimseyen, Kaliteyi Yaşayan",
    "Çeşitlilik Mükemmelliği, Kalite Güvencesi",
    "Doğanın Gücü, Teknolojinin Avantajı"]

  const SLIDE_COUNT := |SLIDE_TITLES|

  type SlideIndex = i: nat | i < 4

  /** `(prev) => (prev + 1) % slides.length`. */
  function NextSlide(prev: SlideIndex): (next: SlideIndex)
    ensures SLIDE_COUNT == 4
    ensures prev < 3 ==> next == prev + 1
    ensures prev == 3 ==> next == 0
  {
    Carousel.Forward(prev, SLIDE_COUNT)
  }

  /** `(prev) => (prev - 1 + slides.length) % slides.length`. */
  function PrevSlide(prev: SlideIndex): (next: SlideIndex)
    ensures prev > 0 ==> next == prev - 1
    ensures prev == 0 ==> next == 3
  {
    Carousel.Back(prev, SLIDE_COUNT)
  }

  /** `goToSlide(index)`: the index itself, which the other arrow's step leads back to. */
  function GoToSlide(index: SlideIndex): (next: SlideIndex)
    ensures next == index
    ensures NextSlide(PrevSlide(next)) == index
  {
    Carousel.BackUndoesForward(index, SLIDE_COUNT);
    index
  }

  /** Each of the arrows undoes the other. */
  lemma ArrowsUndo(i: SlideIndex)
    ensures PrevSlide(NextSlide(i)) == i
    ensures NextSlide(PrevSlide(i)) == i
  {
    Carousel.BackUndoesForward(i, SLIDE_COUNT);
  }

  // ----- the auto-advance effect -----

  /**
   * What the auto-advance `useEffect` has left behind: the intervals still
   * live, the handle the next `setInterval` returns, the handle the pending
   * cleanup will clear (`None` when the last run returned no cleanup), and
   * the `isPaused` value the effect last ran with (`None` before the first run).
   */
  datatype Timers = Timers(live: set<nat>, nextHandle: nat, cleanup: Option<nat>, deps: Option<bool>)

  /** Mounting: no interval yet, and the effect has not run. */
  const MOUNTED := Timers({}, 0, None, None)

  /** The pending cleanup accounts for every live interval, and one is live iff the effect last ran unpaused. */
  predicate Tracked(t: Timers) {
    t.live == (if t.cleanup.Some? then {t.cleanup.value} else {})
    && (t.cleanup.Some? ==> t.cleanup.value < t.nextHandle)
    && (t.deps.None? ==> t.cleanup.None?)
    && (t.deps.Some? ==> (t.cleanup.Some? <==> !t.deps.value))
  }

  /**
   * One commit of the component with the current `isPaused`. The effect runs
   * only when its dependency changed: first the previous run's cleanup
   * clears its interval, then a new interval starts unless paused.
   */
  function Commit(t: Timers, isPaused: bool): (r: Timers)
    ensures t.deps == Some(isPaused) ==> r == t
    ensures r.deps == Some(isPaused)
    ensures Tracked(t) ==> Tracked(r)
  {
    if t.deps == Some(isPaused) then t
    else
      var cleared := if t.cleanup.Some? then t.live - {t.cleanup.value} else t.live;
      if isPaused then Timers(cleared, t.nextHandle, None, Some(true))
      else Timers(cleared + {t.nextHandle}, t.nextHandle + 1, Some(t.nextHandle), Some(false))
  }

  /** Unmounting runs the pending cleanup. */
  function Unmount(t: Timers): (r: Timers)
    ensures Tracked(t) ==> r.live == {}
  {
    if t.cleanup.Some? then t.(live := t.live - {t.cleanup.value}, cleanup := None) else t
  }

  /** The commits of a run of renders, the `isPaused` value of each in turn. */
  function Renders(t: Timers, paused: seq<bool>): Timers
    decreases |paused|
  {
    if paused == [] then t else Commit(Renders(t, paused[..|paused| - 1]), paused[|paused| - 1])
  }

  /**
   * However the pause state toggles, at most one interval is ever live, one
   * is live exactly when the last render was not paused, and unmounting
   * leaves none.
   */
  lemma {:induction false} RendersKeepOneTimer(paused: seq<bool>)
    ensures |Renders(MOUNTED, paused).live| <= 1
    ensures paused != [] ==> (Renders(MOUNTED, paused).live != {} <==> !paused[|paused| - 1])
    ensures Unmount(Renders(MOUNTED, paused)).live == {}
  {
    RendersTracked(paused);
    var r := Renders(MOUNTED, paused);
    if r.cleanup.Some? {
      assert r.live == {r.cleanup.value};
    }
  }

  lemma {:induction false} RendersTracked(paused: seq<bool>)
    ensures Tracked(Renders(MOUNTED, paused))
    ensures paused != [] ==> Renders(MOUNTED, paused).deps == Some(paused[|paused| - 1])
    decreases |paused|
  {
    if paused != [] {
      RendersTracked(paused[..|paused| - 1]);
    }
  }
}
