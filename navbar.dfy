/** The navigation bar: a background that changes once the page is scrolled, the
    highlighted link of the section in view, and the mobile menu. */
module Navbar {

  datatype NavLink = NavLink(text: string, href: string)

  const NavLinks: seq<NavLink> := [
    NavLink("Home", "#home"), NavLink("About", "#about"), NavLink("Skills", "#skills"),
    NavLink("Projects", "#projects"), NavLink("Contact", "#contact")]

  /** Vertical scroll offset above which the bar takes its solid style. */
  const ScrollThreshold: real := 50.0

  predicate Scrolled(scrollY: real)
  {
    scrollY > ScrollThreshold
  }

  /** `href.slice(1)`: everything after the first character, `''` for `''`. */
  function Slice1(s: string): (r: string)
    ensures |s| > 0 ==> [s[0]] + r == s
    ensures |s| == 0 ==> r == ""
  {
    if |s| == 0 then "" else s[1..]
  }

  /** The highlight test of both menus. */
  predicate IsActive(activeSection: string, href: string)
  {
    activeSection == Slice1(href)
  }

  /** For an href that starts with `#`, the link is highlighted exactly when the
      href is `#` followed by the active section. */
  lemma ActiveIffHashOfSection(active: string, href: string)
    requires |href| > 0 && href[0] == '#'
    ensures IsActive(active, href) <==> href == "#" + active
  {
    assert [href[0]] + Slice1(href) == href;
    if href == "#" + active {
      assert Slice1(href) == href[1..] == active;
    }
  }

  /** Every link's href is `#` and its section id, and no two are the same, so
      at most one link is highlighted at a time; the initial section `home`
      highlights Home. */
  lemma AtMostOneActive(active: string, i: nat, j: nat)
    requires i < j < |NavLinks|
    ensures !(IsActive(active, NavLinks[i].href) && IsActive(active, NavLinks[j].href))
    ensures IsActive("home", NavLinks[0].href)
  {
    ActiveIffHashOfSection(active, NavLinks[i].href);
    ActiveIffHashOfSection(active, NavLinks[j].href);
    assert NavLinks[i].href != NavLinks[j].href;
  }

  /** One IntersectionObserver entry. */
  datatype Entry = Entry(targetId: string, isIntersecting: bool)

  /** The active section after a batch: each intersecting entry in turn sets it,
      so the last one wins; with none it stays. */
  function LastIntersecting(entries: seq<Entry>, current: string): string
    decreases |entries|
  {
    if entries == [] then current
    else
      var last := entries[|entries| - 1];
      if last.isIntersecting then last.targetId else LastIntersecting(entries[..|entries| - 1], current)
  }

  /** The batch result is the current section when no entry intersects, and
      otherwise the id of the last intersecting entry: one that intersects with
      no intersecting entry after it. */
  lemma {:induction false} LastIntersectingWins(entries: seq<Entry>, current: string)
    ensures (forall i | 0 <= i < |entries| :: !entries[i].isIntersecting) ==> LastIntersecting(entries, current) == current
    ensures (exists i | 0 <= i < |entries| :: entries[i].isIntersecting) ==>
      exists i | 0 <= i < |entries| ::
        entries[i].isIntersecting && LastIntersecting(entries, current) == entries[i].targetId
        && forall j | i < j < |entries| :: !entries[j].isIntersecting
    decreases |entries|
  {
    if entries != [] {
      var n := |entries| - 1;
      var init := entries[..n];
      LastIntersectingWins(init, current);
      if !entries[n].isIntersecting {
        if exists i | 0 <= i < |entries| :: entries[i].isIntersecting {
          var i :| 0 <= i < |entries| && entries[i].isIntersecting;
          assert init[i].isIntersecting;
          var k :| 0 <= k < |init| && init[k].isIntersecting && LastIntersecting(init, current) == init[k].targetId
            && forall j | k < j < |init| :: !init[j].isIntersecting;
          assert entries[k] == init[k];
        }
        if forall i | 0 <= i < |entries| :: !entries[i].isIntersecting {
          assert forall i | 0 <= i < |init| :: !init[i].isIntersecting by {
            forall i | 0 <= i < |init|
              ensures !init[i].isIntersecting
            {
              assert init[i] == entries[i];
            }
          }
        }
      }
    }
  }

  /** What a nav click asks the browser to do. */
  datatype Action = Navigate(path: string) | ScrollTo(href: string) | ScrollLater(delay: nat, href: string)

  /** `handleNavClick`: on the home page scroll straight to the section;
      elsewhere go home first and scroll 100 ms later. */
  function NavActions(path: string, href: string): (acts: seq<Action>)
    ensures |acts| > 0 && (acts[|acts| - 1] == ScrollTo(href) || acts[|acts| - 1] == ScrollLater(100, href))
    ensures acts[0] == Navigate("/") <==> path != "/"
    ensures forall k | 0 <= k < |acts| :: acts[k].Navigate? ==> acts[k].path == "/" && k < |acts| - 1
  {
    if path != "/" then [Navigate("/"), ScrollLater(100, href)] else [ScrollTo(href)]
  }

  /** The admin link's text in both menus: "Dashboard" when signed in. */
  function AdminLabel(signedIn: bool): (text: string)
    ensures text == "Dashboard" <==> signedIn
  {
    if signedIn then "Dashboard" else "Admin"
  }

  class NavigationBar {
    var scrolled: bool
    var mobileOpen: bool
    var activeSection: string
    var path: string
    /** Whether section observers are connected. */
    var observing: bool

    /** Mounting on `path`: the observer effect connects only on `'/'`. */
    constructor (p: string)
      ensures !scrolled && !mobileOpen && activeSection == "home" && path == p
      ensures observing <==> p == "/"
    {
      scrolled, mobileOpen, activeSection := false, false, "home";
      path := p;
      observing := p == "/";
    }

    method OnScroll(scrollY: real)
      modifies this
      ensures scrolled == Scrolled(scrollY)
      ensures mobileOpen == old(mobileOpen) && activeSection == old(activeSection)
      ensures path == old(path) && observing == old(observing)
    {
      scrolled := scrollY > 50.0;
    }

    /** The observer callback; nothing is observed off the home page. */
    method OnIntersect(entries: seq<Entry>)
      modifies this
      ensures activeSection == (if old(observing) then LastIntersecting(entries, old(activeSection)) else old(activeSection))
      ensures scrolled == old(scrolled) && mobileOpen == old(mobileOpen)
      ensures path == old(path) && observing == old(observing)
    {
      if !observing {
        return;
      }
      var i := 0;
      while i < |entries|
        invariant 0 <= i <= |entries|
        invariant activeSection == LastIntersecting(entries[..i], old(activeSection))
        invariant scrolled == old(scrolled) && mobileOpen == old(mobileOpen)
        invariant path == old(path) && observing == old(observing)
      {
        assert entries[..i + 1][..i] == entries[..i];
        if entries[i].isIntersecting {
          activeSection := entries[i].targetId;
        }
        i := i + 1;
      }
      assert entries[..i] == entries;
    }

    /** The route changes: the observer effect disconnects and reconnects only on
        `'/'`. */
    method OnLocation(p: string)
      modifies this
      ensures path == p && (observing <==> p == "/")
      ensures scrolled == old(scrolled) && mobileOpen == old(mobileOpen) && activeSection == old(activeSection)
    {
      path := p;
      observing := p == "/";
    }

    /** `handleNavClick`: the menu closes whatever happens next. */
    method NavClick(href: string) returns (acts: seq<Action>)
      modifies this
      ensures !mobileOpen && acts == NavActions(old(path), href)
      ensures scrolled == old(scrolled) && activeSection == old(activeSection)
      ensures path == old(path) && observing == old(observing)
    {
      mobileOpen := false;
      if path != "/" {
        acts := [Navigate("/"), ScrollLater(100, href)];
      } else {
        acts := [ScrollTo(href)];
      }
    }

    method Toggle()
      modifies this
      ensures mobileOpen == !old(mobileOpen)
      ensures scrolled == old(scrolled) && activeSection == old(activeSection)
      ensures path == old(path) && observing == old(observing)
    {
      mobileOpen := !mobileOpen;
    }

    /** The admin link in the mobile menu. */
    method MobileAdminClick()
      modifies this
      ensures !mobileOpen
      ensures scrolled == old(scrolled) && activeSection == old(activeSection)
      ensures path == old(path) && observing == old(observing)
    {
      mobileOpen := false;
    }
  }
}
