/**
 * The site navigation: the mobile menu's open/closed state, closed by the
 * close callback, by a mousedown outside both the menu and its button and
 * by every route change; the body-scroll lock that follows it; and the
 * exact-match active-item rule. DOM queries and `contains` become boolean
 * parameters of the mousedown handler; `document.body.style.overflow` is a
 * field.
 */
module Navigation {
  import opened Counting

  const HomePath := "/"

  /** The desktop and mobile items after Home, in display order. */
  const NavItemPaths: seq<string> := ["/about", "/projects", "/skills", "/services"]

  /** The body's overflow style while the menu is open. */
  const ScrollLocked := "hidden"

  class Navigation {
    var isMenuOpen: bool
    var pathname: string
    /** `document.body.style.overflow` as this component leaves it. */
    var bodyOverflow: string
    var mounted: bool

    /** The scroll lock is on exactly while the mounted menu is open. */
    predicate Valid(): (r: bool)
      reads this
      ensures r ==> (bodyOverflow == ScrollLocked <==> mounted && isMenuOpen)
      ensures r && !mounted ==> bodyOverflow == ""
    {
      bodyOverflow == (if mounted && isMenuOpen then ScrollLocked else "")
    }

    /** First render and its effects: closed menu, body scrollable. */
    constructor (pathname: string)
      ensures Valid()
      ensures mounted && !isMenuOpen && this.pathname == pathname && bodyOverflow == ""
    {
      isMenuOpen := false;
      this.pathname := pathname;
      bodyOverflow := "";
      mounted := true;
    }

    /** The overflow effect, run after each change of `isMenuOpen`. */
    method SyncOverflow()
      requires mounted
      modifies this
      ensures Valid()
      ensures isMenuOpen == old(isMenuOpen) && pathname == old(pathname) && mounted
    {
      if isMenuOpen {
        bodyOverflow := ScrollLocked;
      } else {
        bodyOverflow := "";
      }
    }

    /** `toggleMenu` */
    method ToggleMenu()
      requires mounted
      modifies this
      ensures Valid()
      ensures isMenuOpen == !old(isMenuOpen) && pathname == old(pathname) && mounted
    {
      isMenuOpen := !isMenuOpen;
      SyncOverflow();
    }

    /** `closeMenu` */
    method CloseMenu()
      requires mounted
      modifies this
      ensures Valid()
      ensures !isMenuOpen && bodyOverflow == "" && pathname == old(pathname) && mounted
    {
      isMenuOpen := false;
      SyncOverflow();
    }

    /**
     * The document mousedown listener. It closes the menu only when the menu
     * is open, both the menu and its button are in the document, and the
     * target lies in neither; otherwise nothing changes.
     */
    method OnMouseDown(menuPresent: bool, buttonPresent: bool, targetInMenu: bool, targetInButton: bool)
      requires mounted && Valid()
      modifies this
      ensures Valid()
      ensures pathname == old(pathname) && mounted
      ensures isMenuOpen == (old(isMenuOpen) && !(menuPresent && buttonPresent && !targetInMenu && !targetInButton))
    {
      if isMenuOpen {
        if menuPresent && buttonPresent && !targetInMenu && !targetInButton {
          CloseMenu();
        }
      }
    }

    /** A navigation: when the pathname changes, the route effect closes the menu. */
    method RouteChange(newPath: string)
      requires mounted && Valid()
      modifies this
      ensures Valid()
      ensures pathname == newPath && mounted
      ensures isMenuOpen == (old(isMenuOpen) && newPath == old(pathname))
    {
      if newPath != pathname {
        pathname := newPath;
        CloseMenu();
      }
    }

    /** Unmounting: the overflow effect's cleanup restores scrolling. */
    method Unmount()
      requires mounted
      modifies this
      ensures Valid()
      ensures !mounted && bodyOverflow == "" && isMenuOpen == old(isMenuOpen) && pathname == old(pathname)
    {
      bodyOverflow := "";
      mounted := false;
    }
  }

  /** `isActive`: exact equality with the current pathname; no prefix or trailing-slash matching. */
  predicate IsActive(pathname: string, path: string): (b: bool)
    ensures b ==> |pathname| == |path| && forall i :: 0 <= i < |path| ==> pathname[i] == path[i]
    ensures !b ==> pathname != path
  {
    pathname == path
  }

  /** Every item the bar renders, Home first. */
  function ItemPaths(): seq<string> {
    [HomePath] + NavItemPaths
  }

  /** Which items are highlighted for `pathname`, in display order. */
  function ActiveFlags(pathname: string): (r: seq<bool>)
    ensures |r| == |ItemPaths()|
    ensures forall i :: 0 <= i < |ItemPaths()| ==> (r[i] <==> IsActive(pathname, ItemPaths()[i]))
  {
    seq(|ItemPaths()|, i requires 0 <= i < |ItemPaths()| => IsActive(pathname, ItemPaths()[i]))
  }

  // ---------------------------------------------------------------- lemmas

  lemma ItemPathsDistinct()
    ensures forall i, j :: 0 <= i < j < |ItemPaths()| ==> ItemPaths()[i] != ItemPaths()[j]
  {
    assert ItemPaths() == ["/", "/about", "/projects", "/skills", "/services"];
  }

  /**
   * At most one item is active, and one is exactly when the pathname is an
   * item's path.
   */
  lemma ActiveAtMostOne(pathname: string)
    ensures CountTrue(ActiveFlags(pathname)) <= 1
    ensures CountTrue(ActiveFlags(pathname)) == 1 <==> pathname in ItemPaths()
  {
    var flags := ActiveFlags(pathname);
    if k :| 0 <= k < |ItemPaths()| && ItemPaths()[k] == pathname {
      ItemPathsDistinct();
      CountTrueSingle(flags, k);
    }
  }

  /** A project page, being no item's exact path, activates nothing. */
  lemma ProjectPageActivatesNothing()
    ensures CountTrue(ActiveFlags("/projects/mitmui")) == 0
  {
    ActiveAtMostOne("/projects/mitmui");
    assert ItemPaths() == ["/", "/about", "/projects", "/skills", "/services"];
  }
}
