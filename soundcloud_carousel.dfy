/**
  The SoundCloud carousel's navigation: a window of `perView` cards sliding
  over `n` items, its start `index` kept in `[0, maxIndex]`, wrap-around
  next/previous steps, and an `animating` lock that blocks navigation until
  the slide's `transitionend` or, after a wrap snap, a 60 ms timer.
 */
module SoundcloudCarousel {
  import opened Wrappers
  import opened Modular

  /** Cards per view at a window width; `None` is server-side rendering (no `window`). */
  function GetPerView(width: Option<int>): (perView: nat)
    ensures perView in {1, 2, 4}
    ensures width.None? ==> perView == 4
    ensures width.Some? ==> (perView == 1 <==> width.value < 640)
    ensures width.Some? ==> (perView == 2 <==> 640 <= width.value < 1024)
    ensures width.Some? ==> (perView == 4 <==> width.value >= 1024)
  {
    match width
    case None => 4
    case Some(w) => if w < 640 then 1 else if w < 1024 then 2 else 4
  }

  /** The greatest window start that still shows a full window: `max(0, n - perView)`. */
  function MaxIndex(n: nat, perView: nat): (m: nat)
    ensures m + perView >= n
    ensures m == 0 || m + perView == n
  {
    if n > perView then n - perView else 0
  }

  /** The clamp effect's update: brings `i` into `[0, maxIndex]`, leaving it alone when inside. */
  function ClampIndex(i: int, maxIndex: nat): (r: nat)
    ensures r <= maxIndex
    ensures 0 <= i <= maxIndex ==> r == i
    ensures i < 0 ==> r == 0
    ensures i > maxIndex ==> r == maxIndex
  {
    if i < 0 then 0 else if i > maxIndex then maxIndex else i
  }

  /** The index after `goNext` is accepted: one step on, or back to 0 from the last window. */
  function NextIndex(index: nat, maxIndex: nat): (r: nat)
    ensures r <= maxIndex
    ensures index >= maxIndex ==> r == 0
    ensures index < maxIndex ==> r == index + 1
  {
    if index >= maxIndex then 0 else index + 1
  }

  /** The index after `goPrev` is accepted: one step back, or on to the last window from 0. */
  function PrevIndex(index: nat, maxIndex: nat): (r: nat)
    ensures index <= maxIndex ==> r <= maxIndex
    ensures index == 0 ==> r == maxIndex
    ensures 0 < index <= maxIndex ==> r == index - 1
  {
    if index <= 0 then maxIndex else index - 1
  }

  /** From any window, going next then previous returns to it, and so does previous then next. */
  lemma NextPrevInverse(index: nat, maxIndex: nat)
    requires index <= maxIndex
    ensures PrevIndex(NextIndex(index, maxIndex), maxIndex) == index
    ensures NextIndex(PrevIndex(index, maxIndex), maxIndex) == index
  {
  }

  /** `maxIndex + 1` next steps visit every window once and come back to the start. */
  function Iterate(index: nat, maxIndex: nat, k: nat): (r: nat)
    requires index <= maxIndex
    ensures r <= maxIndex
  {
    if k == 0 then index else NextIndex(Iterate(index, maxIndex, k - 1), maxIndex)
  }

  lemma {:induction false} IterateNextIsRotation(index: nat, maxIndex: nat, k: nat)
    requires index <= maxIndex
    ensures Iterate(index, maxIndex, k) == (index + k) % (maxIndex + 1)
  {
    if k > 0 {
      IterateNextIsRotation(index, maxIndex, k - 1);
      ModSuccessor(index + k - 1, maxIndex + 1);
    }
  }

  /** What the component renders. */
  datatype View = Nothing | StaticGrid | Track(controlsEnabled: bool)

  /** No items: nothing; no more items than fit: a static grid without controls; otherwise
      the sliding track, its buttons enabled exactly when navigation is possible. */
  function Render(n: nat, perView: nat, animating: bool): (v: View)
    ensures v == Nothing <==> n == 0
    ensures v == StaticGrid <==> 0 < n <= perView
    ensures v.Track? ==> (v.controlsEnabled <==> !animating)
  {
    if n == 0 then Nothing
    else if n <= perView then StaticGrid
    else Track(!animating)
  }

  /** The component's state. `n` is the number of items; `pendingUnlocks` counts the
      60 ms unlock timers scheduled and not yet fired; `listening` says whether the element
      that holds the grid or the track carries the `transitionend` listener. That listener is
      attached once, by an effect that runs after the first render only, and only if the track
      was rendered then. The grid and the track are the same element to React, so a switch
      between them keeps the listener; only an empty list removes the element. */
  class Carousel {
    var n: nat
    var perView: nat
    var index: int
    var animating: bool
    var pendingUnlocks: nat
    var listening: bool

    /** The index always names a full window, and a listener needs a rendered element. */
    ghost predicate Valid()
      reads this
    {
      0 <= index <= MaxIndex(n, perView) && (listening ==> n > 0)
    }

    /** Navigation is possible exactly when the rendered view is the track with its buttons
        enabled. */
    function CanNavigate(): (can: bool)
      reads this
      ensures can <==> Render(n, perView, animating) == Track(true)
    {
      n > perView && !animating
    }

    /** The first render uses four per view, so the listener is attached only to a track of
        more than four items. */
    constructor (items: nat)
      ensures Valid()
      ensures n == items && perView == 4 && index == 0 && !animating && pendingUnlocks == 0
      ensures listening <==> items > 4
    {
      n := items;
      perView := 4;
      index := 0;
      animating := false;
      pendingUnlocks := 0;
      listening := items > 4;
    }

    /** The resize listener sets `perView`; the clamp effect then pulls `index` back in range. */
    method Resize(width: Option<int>)
      requires Valid()
      modifies this
      ensures perView == GetPerView(width)
      ensures index == ClampIndex(old(index), MaxIndex(n, perView))
      ensures Valid()
      ensures n == old(n) && animating == old(animating) && pendingUnlocks == old(pendingUnlocks)
      ensures listening == old(listening)
    {
      perView := GetPerView(width);
      index := ClampIndex(index, MaxIndex(n, perView));
    }

    /** New `items`: the item count changes and the clamp effect runs. An empty list renders
        nothing, which removes the element and its listener. */
    method SetItems(items: nat)
      modifies this
      ensures n == items
      ensures index == ClampIndex(old(index), MaxIndex(n, perView))
      ensures Valid()
      ensures perView == old(perView) && animating == old(animating)
      ensures pendingUnlocks == old(pendingUnlocks)
      ensures listening <==> old(listening) && items > 0
    {
      n := items;
      index := ClampIndex(index, MaxIndex(n, perView));
      listening := listening && items > 0;
    }

    /** `goNext`: nothing unless navigation is possible; otherwise locks and steps on,
        snapping back to 0 (and scheduling the unlock timer) from the last window. */
    method GoNext()
      requires Valid()
      modifies this
      ensures Valid()
      ensures !old(CanNavigate()) ==> index == old(index) && animating == old(animating)
                                      && pendingUnlocks == old(pendingUnlocks)
      ensures old(CanNavigate()) ==> index == NextIndex(old(index), MaxIndex(n, perView)) && animating
      ensures old(CanNavigate()) ==>
                pendingUnlocks == old(pendingUnlocks) + (if old(index) >= MaxIndex(n, perView) then 1 else 0)
      ensures n == old(n) && perView == old(perView) && listening == old(listening)
    {
      if !CanNavigate() {
        return;
      }
      if index >= MaxIndex(n, perView) {
        animating := true;
        SnapTo(0);
        pendingUnlocks := pendingUnlocks + 1;
        return;
      }
      animating := true;
      index := index + 1;
    }

    /** `goPrev`: nothing unless navigation is possible; otherwise locks and steps back,
        snapping to the last window (and scheduling the unlock timer) from 0. */
    method GoPrev()
      requires Valid()
      modifies this
      ensures Valid()
      ensures !old(CanNavigate()) ==> index == old(index) && animating == old(animating)
                                      && pendingUnlocks == old(pendingUnlocks)
      ensures old(CanNavigate()) ==> index == PrevIndex(old(index), MaxIndex(n, perView)) && animating
      ensures old(CanNavigate()) ==>
                pendingUnlocks == old(pendingUnlocks) + (if old(index) <= 0 then 1 else 0)
      ensures n == old(n) && perView == old(perView) && listening == old(listening)
    {
      if !CanNavigate() {
        return;
      }
      if index <= 0 {
        animating := true;
        SnapTo(MaxIndex(n, perView));
        pendingUnlocks := pendingUnlocks + 1;
        return;
      }
      animating := true;
      index := index - 1;
    }

    /** `snapTo`: jumps to `next` without the slide transition. */
    method SnapTo(next: int)
      modifies this`index
      ensures index == next
    {
      index := next;
    }

    /** The ArrowRight/ArrowLeft listener, installed only while there is more than one window. */
    method OnKey(key: string)
      requires Valid()
      modifies this
      ensures Valid()
      ensures n == old(n) && perView == old(perView) && listening == old(listening)
      ensures (key != "ArrowRight" && key != "ArrowLeft") || n <= perView ==>
                index == old(index) && animating == old(animating) && pendingUnlocks == old(pendingUnlocks)
      ensures key == "ArrowRight" && old(CanNavigate()) ==>
                index == NextIndex(old(index), MaxIndex(n, perView)) && animating
      ensures key == "ArrowLeft" && old(CanNavigate()) ==>
                index == PrevIndex(old(index), MaxIndex(n, perView)) && animating
      ensures (key == "ArrowRight" || key == "ArrowLeft") && !old(CanNavigate()) ==>
                index == old(index) && animating == old(animating) && pendingUnlocks == old(pendingUnlocks)
    {
      if n <= perView {
        return;
      }
      if key == "ArrowRight" {
        GoNext();
      }
      if key == "ArrowLeft" {
        GoPrev();
      }
    }

    /** The end of a slide clears the lock, but only through the listener: an element first
        rendered as the grid, or rendered again after an empty list, has none, and the lock stays. */
    method TransitionEnd()
      modifies this`animating
      ensures old(listening) ==> !animating
      ensures !old(listening) ==> animating == old(animating)
    {
      if listening {
        animating := false;
      }
    }

    /** A scheduled 60 ms unlock timer fires and clears the lock; with none pending nothing happens. */
    method UnlockTimerFires()
      modifies this`animating, this`pendingUnlocks
      ensures old(pendingUnlocks) > 0 ==> !animating && pendingUnlocks == old(pendingUnlocks) - 1
      ensures old(pendingUnlocks) == 0 ==> animating == old(animating) && pendingUnlocks == 0
    {
      if pendingUnlocks > 0 {
        animating := false;
        pendingUnlocks := pendingUnlocks - 1;
      }
    }
  }

  /** Three items on a narrow screen: the first render shows the static grid, so no listener
      is attached; after the resize the track appears, and the first step locks the carousel
      for good, with no timer pending and no listener to unlock it. */
  method NarrowSmallListFreezes() returns (c: Carousel)
    ensures c.Valid() && c.n == 3 && c.perView == 1
    ensures c.animating && !c.listening && c.pendingUnlocks == 0
    ensures !c.CanNavigate()
  {
    c := new Carousel(3);
    c.Resize(Some(500));
    c.GoNext();
    c.TransitionEnd();
  }

  /** Five items shrunk to three on a narrow screen: the grid and then the track reuse the
      element that got the listener at mount, so the end of the slide still unlocks. */
  method ReusedTrackKeepsListener() returns (c: Carousel)
    ensures c.Valid() && c.n == 3 && c.perView == 1 && c.listening
    ensures !c.animating && c.CanNavigate()
  {
    c := new Carousel(5);
    c.SetItems(3);
    c.Resize(Some(500));
    c.GoNext();
    c.TransitionEnd();
  }
}
