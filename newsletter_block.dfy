/**
  The site footer's logic: which footer link marks the current page, and the
  back-to-top button's visibility, refreshed at most once per animation frame
  from the scroll position.
 */
module NewsletterBlock {
  import TopNav

  /** The footer's page links, in order. */
  const FooterNav: seq<TopNav.NavItem> := [
    TopNav.NavItem("HOME", "/"), TopNav.NavItem("BIO", "/bio"), TopNav.NavItem("MUSIC", "/music"),
    TopNav.NavItem("VIDEO", "/video"), TopNav.NavItem("BOOKING", "/booking")]

  /** The scroll offset, in pixels, beyond which the button shows. */
  const BackToTopThreshold: real := 400.0

  /** On any footer page, reached with or without a trailing slash, exactly that page's
      footer link is marked current. */
  lemma ExactlyOneFooterItemActive(k: nat, trailingSlash: bool)
    requires k < |FooterNav|
    ensures var p := FooterNav[k].href + (if trailingSlash then "/" else "");
            forall i :: 0 <= i < |FooterNav| ==> (TopNav.IsActivePath(p, FooterNav[i].href) <==> (i == k))
  {
    var p := FooterNav[k].href + (if trailingSlash then "/" else "");
    StripsToHref(k, trailingSlash);
    forall i | 0 <= i < |FooterNav|
      ensures TopNav.IsActivePath(p, FooterNav[i].href) <==> (i == k)
    {
      ActiveAgainst(p, i, k);
    }
  }

  /** A footer href, with or without a trailing slash, strips back to the href. */
  lemma StripsToHref(k: nat, trailingSlash: bool)
    requires k < |FooterNav|
    ensures TopNav.StripSlash(FooterNav[k].href + (if trailingSlash then "/" else "")) == FooterNav[k].href
  {
    var h := FooterNav[k].href;
    if trailingSlash {
      assert (h + "/")[..|h + "/"| - 1] == h;
    } else {
      assert h + "" == h;
      KeptHref(k);
    }
  }

  /** A path that strips to the `k`th href marks the `i`th link exactly when `i` is `k`. */
  lemma ActiveAgainst(p: string, i: nat, k: nat)
    requires i < |FooterNav| && k < |FooterNav|
    requires TopNav.StripSlash(p) == FooterNav[k].href
    ensures TopNav.IsActivePath(p, FooterNav[i].href) <==> (i == k)
  {
    var h := FooterNav[i].href;
    KeptHref(i);
    DistinctHrefs(i, k);
    assert TopNav.IsActivePath(p, h) == (TopNav.StripSlash(p) == TopNav.StripSlash(h));
  }

  /** A footer href has no slash for `StripSlash` to remove. */
  lemma KeptHref(i: nat)
    requires i < |FooterNav|
    ensures TopNav.StripSlash(FooterNav[i].href) == FooterNav[i].href
  {
    var h := FooterNav[i].href;
    assert h == "/" || h[|h| - 1] != '/';
  }

  /** The footer hrefs are pairwise distinct. */
  lemma DistinctHrefs(i: nat, k: nat)
    requires i < |FooterNav| && k < |FooterNav|
    ensures FooterNav[i].href == FooterNav[k].href <==> (i == k)
  {
    if i != k {
      var a, b := FooterNav[i].href, FooterNav[k].href;
      assert |a| != |b| || a[1] != b[1];
    }
  }

  /** The footer's state. `framePending` says that the frame-id ref is set; `frameQueued` says
      that the frame it names is still scheduled. Cancelling a frame unschedules it but leaves
      the ref set. */
  class Footer {
    var showBackToTop: bool
    var framePending: bool
    var frameQueued: bool
    var listening: bool

    /** A scheduled frame always has its id in the ref. */
    ghost predicate Valid()
      reads this
    {
      frameQueued ==> framePending
    }

    /** The ref is set but no frame will ever clear it: every scroll returns early. */
    predicate Stuck()
      reads this
    {
      framePending && !frameQueued
    }

    /** Mounting installs the listener and runs the handler once, which requests a frame. */
    constructor ()
      ensures Valid()
      ensures !showBackToTop && framePending && frameQueued && listening
    {
      showBackToTop := false;
      framePending := true;
      frameQueued := true;
      listening := true;
    }

    /** A scroll event: while the ref is set it does nothing, otherwise it requests a frame. */
    method HandleScroll()
      requires listening && Valid()
      modifies this`framePending, this`frameQueued
      ensures Valid() && framePending
      ensures old(framePending) ==> frameQueued == old(frameQueued)
      ensures !old(framePending) ==> frameQueued
      ensures showBackToTop == old(showBackToTop) && listening == old(listening)
    {
      if framePending {
        return;
      }
      framePending := true;
      frameQueued := true;
    }

    /** The scheduled frame runs: the ref clears and the button follows the scroll offset. */
    method FrameRuns(scrollY: real)
      requires frameQueued && Valid()
      modifies this`framePending, this`frameQueued, this`showBackToTop
      ensures Valid() && !framePending && !frameQueued
      ensures showBackToTop <==> scrollY > BackToTopThreshold
    {
      framePending := false;
      frameQueued := false;
      showBackToTop := scrollY > BackToTopThreshold;
    }

    /** Unmounting cancels the scheduled frame and removes the listener; the ref keeps the id. */
    method Unmount()
      requires Valid()
      modifies this`frameQueued, this`listening
      ensures Valid() && !frameQueued && !listening
      ensures framePending == old(framePending)
    {
      frameQueued := false;
      listening := false;
    }

    /** The mount effect run again on the same component, whose refs survive: the listener is
        installed and the handler runs once. */
    method Mount()
      requires Valid()
      modifies this`framePending, this`frameQueued, this`listening
      ensures Valid() && listening && framePending
      ensures Stuck() <==> old(Stuck())
      ensures showBackToTop == old(showBackToTop)
    {
      listening := true;
      HandleScroll();
    }
  }

  /** A development mount that runs the effect, its cleanup and the effect again: the first
      frame is cancelled with its id left in the ref, so the footer is stuck and the button
      stays hidden whatever the scrolling. */
  method MountUnmountMount() returns (f: Footer)
    ensures f.Valid() && f.listening && f.Stuck() && !f.showBackToTop
  {
    f := new Footer();
    f.Unmount();
    f.Mount();
  }

  /** Once stuck, a scroll leaves the footer stuck and the button as it was. */
  method ScrollWhileStuck(f: Footer)
    requires f.Valid() && f.listening && f.Stuck()
    modifies f
    ensures f.Valid() && f.Stuck() && f.showBackToTop == old(f.showBackToTop)
  {
    f.HandleScroll();
  }
}
