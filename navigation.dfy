/**
 * The navigation bar (src/components/Navigation.tsx): the menu of each role,
 * the active-link test and the mobile menu's open flag.
 */
module Navigation {
  import opened Wrappers
  import opened Collections
  import opened Roles

  datatype MenuItem = MenuItem(href: string, caption: string, icon: string)

  const HomeItem := MenuItem("/", "Home", "🏠")

  /** The hrefs serve as React keys, so no two entries may share one. */
  predicate DistinctHrefs(items: seq<MenuItem>)
  {
    forall i, j :: 0 <= i < j < |items| ==> items[i].href != items[j].href
  }

  /** The links of a menu, in menu order. */
  function Hrefs(items: seq<MenuItem>): (hs: seq<string>)
    ensures |hs| == |items|
    ensures forall i :: 0 <= i < |items| ==> hs[i] == items[i].href
  {
    if items == [] then [] else [items[0].href] + Hrefs(items[1..])
  }

  /** Some entry of the menu links to `href`. */
  predicate Links(items: seq<MenuItem>, href: string)
  {
    href in Hrefs(items)
  }

  /** `getMenuItems`. */
  function MenuItems(role: Role): (items: seq<MenuItem>)
    ensures |items| >= 1 && items[0] == HomeItem
    ensures DistinctHrefs(items)
    ensures |items| == match role
                       case Sales => 3
                       case Pm => 4
                       case Dev => 3
                       case Unrecognised(_) => 1
    ensures role.Unrecognised? ==> items == [HomeItem]
    ensures role == Sales ==> Hrefs(items) == ["/", "/upload", "/history"]
    ensures role == Pm ==> Hrefs(items) == ["/", "/summaries", "/tasks", "/dashboard"]
    ensures role == Dev ==> Hrefs(items) == ["/", "/tasks", "/dashboard"]
  {
    match role
    case Sales =>
      [ HomeItem,
        MenuItem("/upload", "Upload Audio", "📤"),
        MenuItem("/history", "Upload History", "📋") ]
    case Pm =>
      [ HomeItem,
        MenuItem("/summaries", "AI Summaries", "📊"),
        MenuItem("/tasks", "Task Management", "✅"),
        MenuItem("/dashboard", "Dashboard", "📈") ]
    case Dev =>
      [ HomeItem,
        MenuItem("/tasks", "My Tasks", "✅"),
        MenuItem("/dashboard", "Dashboard", "📈") ]
    case Unrecognised(_) =>
      [ HomeItem ]
  }

  /** The props' defaults: role `sales` and name `User` when omitted. */
  function ResolveProps(userRole: Option<Role>, userName: Option<string>): (props: (Role, string))
    ensures props.0 == (if userRole.Some? then userRole.value else Sales)
    ensures props.1 == (if userName.Some? then userName.value else "User")
  {
    (match userRole case Some(r) => r case None => Sales,
     match userName case Some(n) => n case None => "User")
  }

  /** `isActive`: the entry is highlighted when it names the current path. */
  predicate IsActive(pathname: string, path: string)
  {
    pathname == path
  }

  /** The highlighted entries of a menu. */
  function ActiveItems(items: seq<MenuItem>, pathname: string): seq<MenuItem>
  {
    Filter(items, (it: MenuItem) => IsActive(pathname, it.href))
  }

  /**
   * In a menu with distinct hrefs at most one entry is highlighted, and one
   * is exactly when the current path is one of the menu's links.
   */
  lemma {:induction false} AtMostOneActive(items: seq<MenuItem>, pathname: string)
    requires DistinctHrefs(items)
    ensures |ActiveItems(items, pathname)| <= 1
    ensures |ActiveItems(items, pathname)| == 1 <==> Links(items, pathname)
  {
    if items != [] {
      var rest := items[1..];
      assert DistinctHrefs(rest) by {
        forall i, j | 0 <= i < j < |rest| ensures rest[i].href != rest[j].href {
          assert rest[i] == items[i + 1] && rest[j] == items[j + 1];
        }
      }
      AtMostOneActive(rest, pathname);
      if items[0].href == pathname {
        FilterKeepsNone(rest, (it: MenuItem) => IsActive(pathname, it.href));
      }
    }
  }

  /** Each role's bar highlights at most one entry. */
  lemma MenuHighlightsAtMostOne(role: Role, pathname: string)
    ensures |ActiveItems(MenuItems(role), pathname)| <= 1
    ensures pathname == "/" ==> ActiveItems(MenuItems(role), pathname) == [HomeItem]
  {
    AtMostOneActive(MenuItems(role), pathname);
    if pathname == "/" {
      assert MenuItems(role)[0] == HomeItem;
    }
  }

  /** The mobile menu's open flag (`isMenuOpen`). */
  class MenuState {
    var isMenuOpen: bool

    constructor ()
      ensures !isMenuOpen
    {
      isMenuOpen := false;
    }

    /** The hamburger button (line 82). */
    method ToggleMenu()
      modifies this
      ensures isMenuOpen == !old(isMenuOpen)
    {
      isMenuOpen := !isMenuOpen;
    }

    /** Clicking an entry of the mobile menu (line 117). */
    method SelectMobileItem()
      modifies this
      ensures !isMenuOpen
    {
      isMenuOpen := false;
    }

    /** The entries of the mobile menu: none while it is closed. */
    function MobileItems(role: Role): (items: seq<MenuItem>)
      reads this
      ensures items == [] <==> !isMenuOpen
      ensures items != [] ==> items == MenuItems(role)
    {
      if isMenuOpen then MenuItems(role) else []
    }
  }
}
