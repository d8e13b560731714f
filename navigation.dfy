// The header navigation of src/lib/data/navigation.js.

module Navigation {
  import opened Wrappers
  import opened Strs

  /** A header link; None is a match type left out, which means startsWith. */
  datatype NavItem = NavItem(caption: string, href: string, matchType: Option<string>, disabled: bool)

  const NavItems: seq<NavItem> := [
    NavItem("Home", "/", Some("exact"), false),
    NavItem("Test Manager", "/test-manager", Some("startsWith"), true),
    NavItem("Benchmarks", "/benchmarks/gtc", Some("startsWith"), false),
    NavItem("Admin Tools", "/admin-tools", Some("startsWith"), true)
  ]

  /** isNavItemActive. */
  predicate IsNavItemActive(item: NavItem, pathname: string) {
    if item.matchType.GetOr("startsWith") == "exact" then pathname == item.href else IsPrefix(item.href, pathname)
  }

  /**
   * An exact item is active only on its own href; any other item (no match
   * type, or one other than exact) is active exactly on paths it prefixes.
   */
  lemma ActiveMeaning(item: NavItem, pathname: string)
    ensures item.matchType == Some("exact") ==> (IsNavItemActive(item, pathname) <==> pathname == item.href)
    ensures item.matchType != Some("exact") ==> (IsNavItemActive(item, pathname) <==> item.href <= pathname)
  {
    if item.matchType != Some("exact") {
      assert IsPrefix(item.href, pathname) <==> item.href <= pathname;
    }
  }

  /** Every item is active on its own href. */
  lemma ActiveOnOwnHref(item: NavItem)
    ensures IsNavItemActive(item, item.href)
  {
    assert item.href[..|item.href|] == item.href;
  }

  /** Home is active only on `/`, Benchmarks below its href; Test Manager and Admin Tools are disabled. */
  lemma NavTable(items: seq<NavItem>, pathname: string)
    requires items == NavItems
    ensures items[0].caption == "Home" && (IsNavItemActive(items[0], pathname) <==> pathname == "/")
    ensures IsNavItemActive(items[2], pathname) <==> "/benchmarks/gtc" <= pathname
    ensures forall i :: 0 <= i < |items| ==> (items[i].disabled <==> i == 1 || i == 3)
  {
    ActiveMeaning(items[2], pathname);
  }
}
