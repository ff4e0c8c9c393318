/**
  The bottom navigation bar: three buttons, one per route, highlighted when the current
  pathname belongs to their route. The home route matches only itself; the others match by
  raw string prefix.
 */
module BottomNavigation {
  import opened Text

  datatype NavigationItem = NavigationItem(path: string, caption: string)

  /** `navigationItems`, in display order. */
  const NavigationItems: seq<NavigationItem> := [
    NavigationItem("/", "Accueil"),
    NavigationItem("/map", "Carte"),
    NavigationItem("/profile", "Profil")
  ]

  /** `isActive(path)` with `location.pathname` = `pathname`. */
  function IsActive(pathname: string, path: string): bool {
    if path == "/" then pathname == "/" else StartsWith(pathname, path)
  }

  /** The look of one button. */
  datatype ButtonView = ButtonView(caption: string, color: string, fontWeight: string)

  const ActiveColor := "#1976d2"
  const InactiveColor := "#757575"

  /** The buttons `navigationItems.map` renders for a pathname. */
  function Render(pathname: string): (r: seq<ButtonView>)
    ensures |r| == |NavigationItems|
    ensures forall i :: 0 <= i < |r| ==>
              r[i].caption == NavigationItems[i].caption &&
              r[i].color == (if IsActive(pathname, NavigationItems[i].path)
                             then ActiveColor else InactiveColor) &&
              r[i].fontWeight == (if IsActive(pathname, NavigationItems[i].path)
                                  then "600" else "400")
  {
    seq(|NavigationItems|, i requires 0 <= i < |NavigationItems| =>
      var active := IsActive(pathname, NavigationItems[i].path);
      ButtonView(NavigationItems[i].caption,
                 if active then ActiveColor else InactiveColor,
                 if active then "600" else "400"))
  }

  /** The route a click on button `i` navigates to. */
  function OnClick(i: nat): (path: string)
    requires i < |NavigationItems|
    ensures path == NavigationItems[i].path
  {
    NavigationItems[i].path
  }

  /** The home button is active exactly on "/". */
  lemma HomeActiveIffExact(pathname: string)
    ensures IsActive(pathname, "/") <==> pathname == "/"
  {
  }

  /** Any other route is active on every pathname that extends it as a string, so a route
      that merely shares the prefix counts: "/mapping" activates the map button. */
  lemma PrefixRule(pathname: string, i: nat)
    requires 1 <= i < |NavigationItems|
    ensures IsActive(pathname, NavigationItems[i].path) <==>
              exists rest :: pathname == NavigationItems[i].path + rest
    ensures IsActive("/mapping", "/map")
  {
    var p := NavigationItems[i].path;
    if IsActive(pathname, p) {
      assert pathname == p + pathname[|p|..];
    }
    assert "/mapping" == "/map" + "ping";
  }

  /** Whatever the pathname, two different buttons are never both active. */
  lemma AtMostOneActive(pathname: string, i: nat, j: nat)
    requires i < |NavigationItems| && j < |NavigationItems| && i != j
    ensures !(IsActive(pathname, NavigationItems[i].path) &&
              IsActive(pathname, NavigationItems[j].path))
  {
    var p := NavigationItems[i].path;
    if i != 0 && j != 0 && IsActive(pathname, p) {
      assert pathname[1] == pathname[..|p|][1] == p[1];
    }
  }

  /** After a click on button `i`, exactly that button is active. */
  lemma ClickActivatesOnlyItself(i: nat, j: nat)
    requires i < |NavigationItems| && j < |NavigationItems|
    ensures IsActive(OnClick(i), NavigationItems[j].path) <==> i == j
  {
    var p := NavigationItems[i].path;
    assert IsActive(p, p) by {
      assert p[..|p|] == p;
    }
    if i != j {
      AtMostOneActive(p, i, j);
    }
  }
}
