/**
  The site header's logic: the class-list helper `cx`, the trailing-slash
  insensitive `isActivePath`, and the mobile menu's `open` flag together
  with the body-scroll lock it holds while open.
 */
module TopNav {
  import opened Wrappers
  import opened Text

  datatype NavItem = NavItem(name: string, href: string)

  /** The header's page links, in order. */
  const Nav: seq<NavItem> := [
    NavItem("HOME", "/"), NavItem("BIO", "/bio"), NavItem("MUSIC", "/music"),
    NavItem("VIDEO", "/video"), NavItem("BOOKING", "/booking")]

  /** `usePathname() || "/"`: a missing or empty pathname reads as the home page. */
  function Pathname(raw: Option<string>): (p: string)
    ensures p != ""
    ensures raw.Some? && raw.value != "" ==> p == raw.value
    ensures raw.None? || raw.value == "" ==> p == "/"
  {
    if raw.Some? && raw.value != "" then raw.value else "/"
  }

  // ---------------------------------------------------------------------------
  // cx
  // ---------------------------------------------------------------------------

  /** A `cx` argument: a class string, or `false`/`null`/`undefined` as `None`. */
  type ClassArg = Option<string>

  /** A truthy `cx` argument: a string that is not empty. */
  predicate Truthy(x: ClassArg) { x.Some? && x.value != "" }

  /** `classes.filter(Boolean)`: the non-empty strings, in order. Every kept class is a
      truthy argument and every truthy argument is kept; `KeptAppend` fixes the order. */
  function Kept(classes: seq<ClassArg>): (kept: seq<string>)
    ensures |kept| <= |classes|
    ensures forall k :: 0 <= k < |kept| ==> kept[k] != ""
  {
    if classes == [] then []
    else
      var rest := Kept(classes[1..]);
      if Truthy(classes[0]) then [classes[0].value] + rest else rest
  }

  /** The kept classes are exactly the truthy arguments' strings: each kept class comes from an
      argument, and every truthy argument is kept. */
  lemma {:induction false} KeptMembers(classes: seq<ClassArg>)
    ensures forall k :: 0 <= k < |Kept(classes)| ==> Some(Kept(classes)[k]) in classes
    ensures forall k :: 0 <= k < |classes| && Truthy(classes[k]) ==> classes[k].value in Kept(classes)
  {
    if classes != [] {
      var rest := Kept(classes[1..]);
      KeptMembers(classes[1..]);
      forall k | 0 <= k < |rest| ensures Some(rest[k]) in classes {
        assert Some(rest[k]) in classes[1..];
      }
      forall k | 1 <= k < |classes| && Truthy(classes[k]) ensures classes[k].value in rest {
        assert classes[k] == classes[1..][k - 1];
      }
    }
  }

  /** `cx(...classes)`: the kept classes joined by single spaces. It is empty when nothing is
      kept, and otherwise starts with the first truthy argument. */
  function Cx(classes: seq<ClassArg>): (r: string)
    ensures Kept(classes) == [] ==> r == ""
    ensures Kept(classes) != [] ==> Kept(classes)[0] <= r
  {
    Join(Kept(classes), " ")
  }

  /** Dropped arguments contribute nothing. */
  lemma {:induction false} KeptSkipsDropped(a: seq<ClassArg>, b: seq<ClassArg>, x: ClassArg)
    requires !Truthy(x)
    ensures Kept(a + [x] + b) == Kept(a + b)
  {
    if a == [] {
      assert (a + [x] + b)[1..] == b;
      assert a + b == b;
    } else {
      KeptSkipsDropped(a[1..], b, x);
      assert (a + [x] + b)[1..] == a[1..] + [x] + b;
      assert (a + b)[1..] == a[1..] + b;
    }
  }

  /** Filtering distributes over concatenation. */
  lemma {:induction false} KeptConcat(a: seq<ClassArg>, b: seq<ClassArg>)
    ensures Kept(a + b) == Kept(a) + Kept(b)
  {
    if a != [] {
      KeptConcat(a[1..], b);
      assert (a + b)[1..] == a[1..] + b;
    } else {
      assert a + b == b;
    }
  }

  /** One more argument at the end adds its class at the end when it is truthy, and nothing
      otherwise: with `Kept([]) == []` this pins the kept classes down, in argument order. */
  lemma KeptAppend(a: seq<ClassArg>, x: ClassArg)
    ensures Kept(a + [x]) == Kept(a) + (if Truthy(x) then [x.value] else [])
  {
    KeptConcat(a, [x]);
    assert [x][1..] == [];
  }

  /** Joining two lists is joining their joins, with one separator between two non-empty lists. */
  lemma {:induction false} JoinConcat(x: seq<string>, y: seq<string>, sep: string)
    ensures Join(x + y, sep) ==
              if x == [] then Join(y, sep) else if y == [] then Join(x, sep)
              else Join(x, sep) + sep + Join(y, sep)
  {
    if x == [] {
      assert x + y == y;
    } else if y == [] {
      assert x + y == x;
    } else if |x| == 1 {
      assert (x + y)[1..] == y;
      assert Join(x + y, sep) == x[0] + sep + Join(y, sep);
    } else {
      JoinConcat(x[1..], y, sep);
      var a, b := Join(x[1..], sep), Join(y, sep);
      assert (x + y)[1..] == x[1..] + y;
      assert Join(x + y, sep) == x[0] + sep + (a + sep + b);
      assert Join(x, sep) == x[0] + sep + a;
      assert x[0] + sep + (a + sep + b) == (x[0] + sep + a) + sep + b;
    }
  }

  /** `cx` of two argument lists side by side is their two class strings joined by one
      space, or just the non-empty one. */
  lemma CxConcat(a: seq<ClassArg>, b: seq<ClassArg>)
    ensures Cx(a + b) == if Kept(a) == [] then Cx(b) else if Kept(b) == [] then Cx(a)
                         else Cx(a) + " " + Cx(b)
  {
    KeptConcat(a, b);
    JoinConcat(Kept(a), Kept(b), " ");
  }

  /** `cx` yields the empty string exactly when no argument is a non-empty string. */
  lemma CxEmptyIffNothingKept(classes: seq<ClassArg>)
    ensures Cx(classes) == "" <==> forall k :: 0 <= k < |classes| ==> !Truthy(classes[k])
  {
    var kept := Kept(classes);
    KeptMembers(classes);
    if kept != [] {
      assert kept[0] <= Cx(classes) && kept[0] != "";
      var i :| 0 <= i < |classes| && classes[i] == Some(kept[0]);
      assert Truthy(classes[i]);
    }
  }

  /** When no class contains a space, splitting the result on spaces recovers the kept
      classes, in order. */
  lemma CxSplitsBack(classes: seq<ClassArg>)
    requires Kept(classes) != []
    requires forall k :: 0 <= k < |classes| && classes[k].Some? ==> ' ' !in classes[k].value
    ensures Split(Cx(classes), ' ') == Kept(classes)
  {
    var kept := Kept(classes);
    KeptMembers(classes);
    forall k | 0 <= k < |kept| ensures ' ' !in kept[k] {
      var i :| 0 <= i < |classes| && classes[i] == Some(kept[k]);
    }
    SplitJoin(kept, ' ');
  }

  // ---------------------------------------------------------------------------
  // isActivePath
  // ---------------------------------------------------------------------------

  /** A trailing slash that `StripSlash` removes: one that is not the whole string. */
  predicate EndsInSlash(s: string) { |s| > 1 && s[|s| - 1] == '/' }

  /** `s.length > 1 ? s.replace(/\/$/, "") : s`: one trailing slash goes, unless it is all of `s`. */
  function StripSlash(s: string): (r: string)
    ensures EndsInSlash(s) ==> s == r + "/"
    ensures !EndsInSlash(s) ==> r == s
  {
    if EndsInSlash(s) then s[..|s| - 1] else s
  }

  /** The link to `href` is the current page at `pathname` exactly when the two are equal or
      one is the other plus a trailing slash, that other not ending in a removable slash itself. */
  function IsActivePath(pathname: string, href: string): (active: bool)
    ensures active <==> pathname == href || (EndsInSlash(pathname) && pathname == href + "/" && !EndsInSlash(href))
                        || (EndsInSlash(href) && href == pathname + "/" && !EndsInSlash(pathname))
  {
    SameAfterStrip(pathname, href);
    StripSlash(pathname) == StripSlash(href)
  }

  /** Two strings strip to the same text exactly when they are equal or differ by one
      trailing slash on the longer one. */
  lemma SameAfterStrip(a: string, b: string)
    ensures StripSlash(a) == StripSlash(b) <==>
              a == b || (EndsInSlash(a) && a == b + "/" && !EndsInSlash(b))
              || (EndsInSlash(b) && b == a + "/" && !EndsInSlash(a))
  {
    var p, q := StripSlash(a), StripSlash(b);
    if EndsInSlash(a) && a == b + "/" {
      assert a[..|a| - 1] == b;
    }
    if EndsInSlash(b) && b == a + "/" {
      assert b[..|b| - 1] == a;
    }
    if p == q {
      if EndsInSlash(a) && EndsInSlash(b) {
        assert a == p + "/" && b == q + "/";
      } else if EndsInSlash(a) {
        assert a == b + "/";
      } else if EndsInSlash(b) {
        assert b == a + "/";
      }
    }
  }

  /** Active-path matching is an equivalence: reflexive, symmetric and transitive. */
  lemma IsActivePathIsEquivalence(a: string, b: string, c: string)
    ensures IsActivePath(a, a)
    ensures IsActivePath(a, b) ==> IsActivePath(b, a)
    ensures IsActivePath(a, b) && IsActivePath(b, c) ==> IsActivePath(a, c)
  {
    if IsActivePath(a, b) && IsActivePath(b, c) {
      assert StripSlash(a) == StripSlash(b) == StripSlash(c);
    }
  }

  /** "/bio/" is the BIO page. */
  lemma TrailingSlashIsActive()
    ensures IsActivePath("/bio/", "/bio")
    ensures !IsActivePath("/biography", "/bio")
  {
    assert "/bio/" == "/bio" + "/";
    assert "/biography" != "/bio" + "/";
  }

  /** The home link is active only at "/" and at "//", the single slash being kept. */
  lemma HomeActiveOnlyAtRoot(pathname: string)
    ensures IsActivePath(pathname, "/") <==> pathname == "/" || pathname == "//"
  {
    assert "/" + "/" == "//";
  }

  // ---------------------------------------------------------------------------
  // The mobile menu
  // ---------------------------------------------------------------------------

  /** The menu flag and `document.body.style.overflow`; `saved` is the overflow the
      scroll-lock effect captured when the menu opened, held until it closes. */
  class Menu {
    var open: bool
    var bodyOverflow: string
    var saved: Option<string>

    /** Open exactly while an overflow is saved, and the body is locked while open. */
    ghost predicate Valid()
      reads this
    {
      (open <==> saved.Some?) && (open ==> bodyOverflow == "hidden")
    }

    /** Mounted with the menu closed; the body's overflow is whatever the page had. */
    constructor (bodyOverflow: string)
      ensures Valid()
      ensures !open && this.bodyOverflow == bodyOverflow && saved == None
    {
      open := false;
      this.bodyOverflow := bodyOverflow;
      saved := None;
    }

    /** `setOpen(v)` and the effect it triggers: opening saves the overflow and locks the
        body, closing runs the cleanup that restores the saved value; setting the flag to
        what it already is re-renders nothing. */
    method SetOpen(v: bool)
      requires Valid()
      modifies this
      ensures Valid()
      ensures open == v
      ensures v == old(open) ==> bodyOverflow == old(bodyOverflow) && saved == old(saved)
      ensures v && !old(open) ==> saved == Some(old(bodyOverflow))
      ensures !v && old(open) ==> bodyOverflow == old(saved).value
    {
      if v == open {
        return;
      }
      if v {
        saved := Some(bodyOverflow);
        bodyOverflow := "hidden";
      } else {
        bodyOverflow := saved.value;
        saved := None;
      }
      open := v;
    }

    /** The hamburger button flips the flag. */
    method Toggle()
      requires Valid()
      modifies this
      ensures Valid()
      ensures open == !old(open)
      ensures open ==> saved == Some(old(bodyOverflow))
      ensures !open ==> bodyOverflow == old(saved).value
    {
      SetOpen(!open);
    }

    /** `close`, used by the brand link, every nav link and the backdrop. */
    method Close()
      requires Valid()
      modifies this
      ensures Valid()
      ensures !open
      ensures old(open) ==> bodyOverflow == old(saved).value
      ensures !old(open) ==> bodyOverflow == old(bodyOverflow) && saved == old(saved)
    {
      SetOpen(false);
    }

    /** The window's keydown listener: Escape closes an open menu; any other key, or Escape
        on a closed menu, changes nothing. */
    method KeyDown(key: string)
      requires Valid()
      modifies this
      ensures Valid()
      ensures key == "Escape" ==> !open
      ensures key == "Escape" && old(open) ==> bodyOverflow == old(saved).value
      ensures key != "Escape" || !old(open) ==>
                open == old(open) && bodyOverflow == old(bodyOverflow) && saved == old(saved)
    {
      if key == "Escape" {
        SetOpen(false);
      }
    }

    /** Unmounting while open runs the effect's cleanup, which restores the saved overflow. */
    method Unmount()
      requires Valid()
      modifies this`bodyOverflow, this`saved
      ensures old(open) ==> bodyOverflow == old(saved).value
      ensures !old(open) ==> bodyOverflow == old(bodyOverflow)
      ensures saved == None
    {
      if open {
        bodyOverflow := saved.value;
      }
      saved := None;
    }
  }

  /** Opening the menu and closing it again, by any route, leaves the page's overflow as it was. */
  method OpenThenClose(m: Menu, byEscape: bool)
    requires m.Valid() && !m.open
    modifies m
    ensures m.Valid() && !m.open
    ensures m.bodyOverflow == old(m.bodyOverflow)
  {
    m.Toggle();
    assert m.open && m.bodyOverflow == "hidden";
    if byEscape {
      m.KeyDown("Escape");
    } else {
      m.Close();
    }
  }
}
