/** The navigation bar (src/components/Navigation.tsx): the item list for signed-in users
    and visitors, what a click on an item does, and which item is highlighted. */
module NavigationBar {
  import opened Wrappers
  import opened Types

  /** An item's id: a page, or the logout entry, which is not a page. */
  datatype NavId = PageItem(page: PageType) | LogoutItem

  /** The one action an item can carry. */
  datatype NavAction = LogoutAction

  /** An entry of the bar; the icon is presentation and is left out. */
  datatype NavItem = NavItem(id: NavId, caption: string, action: Option<NavAction>)

  /** What a click asks of the rest of the app, in order. */
  datatype Effect = CallLogout | NavigateTo(page: PageType)

  const PublicNavItems: seq<NavItem> := [
    NavItem(PageItem(Home), "Home", None),
    NavItem(PageItem(Gallery), "Gallery", None),
    NavItem(PageItem(Builder), "Create Tool", None)
  ]

  /** The entries after the public ones. */
  function AuthNavItems(isAuthenticated: bool): seq<NavItem> {
    if isAuthenticated then
      [NavItem(PageItem(Profile), "Profile", None), NavItem(LogoutItem, "Logout", Some(LogoutAction))]
    else
      [NavItem(PageItem(Login), "Login", None)]
  }

  /** `allNavItems`. */
  function NavItems(isAuthenticated: bool): (r: seq<NavItem>)
    ensures |r| == if isAuthenticated then 5 else 4
    ensures r[..3] == PublicNavItems
  {
    PublicNavItems + AuthNavItems(isAuthenticated)
  }

  function Ids(items: seq<NavItem>): (r: seq<NavId>)
    ensures |r| == |items|
    ensures forall k :: 0 <= k < |items| ==> r[k] == items[k].id
  {
    if items == [] then [] else [items[0].id] + Ids(items[1..])
  }

  predicate Distinct<T(==)>(s: seq<T>) {
    forall i, j :: 0 <= i < j < |s| ==> s[i] != s[j]
  }

  /** The list starts with home, gallery and builder; a signed-in user gets profile and
      then logout after them, a visitor gets login only; login is there exactly for a
      visitor, profile and logout exactly for a signed-in user; no id repeats. */
  lemma NavItemsShape(isAuthenticated: bool)
    ensures var ids := Ids(NavItems(isAuthenticated));
      && ids[..3] == [PageItem(Home), PageItem(Gallery), PageItem(Builder)]
      && (isAuthenticated ==> ids[3..] == [PageItem(Profile), LogoutItem])
      && (!isAuthenticated ==> ids[3..] == [PageItem(Login)])
      && (PageItem(Login) in ids <==> !isAuthenticated)
      && (PageItem(Profile) in ids <==> isAuthenticated)
      && (LogoutItem in ids <==> isAuthenticated)
      && PageItem(Publish) !in ids
      && Distinct(ids)
  {
    var ids := Ids(NavItems(isAuthenticated));
    if isAuthenticated {
      assert ids == [PageItem(Home), PageItem(Gallery), PageItem(Builder), PageItem(Profile), LogoutItem];
    } else {
      assert ids == [PageItem(Home), PageItem(Gallery), PageItem(Builder), PageItem(Login)];
    }
  }

  /** `handleLogout`: sign out, then ask for the home view. */
  function HandleLogout(): seq<Effect> {
    [CallLogout, NavigateTo(Home)]
  }

  /** An item the bar can hold: an item without an action is a page link. */
  predicate WellFormed(item: NavItem) {
    item.action.Some? || item.id.PageItem?
  }

  /** `handleNavClick`: an item's action if it has one, and then nothing else; otherwise a
      request for the item's page. */
  function HandleNavClick(item: NavItem): (r: seq<Effect>)
    requires WellFormed(item)
    ensures item.action.Some? ==> r == HandleLogout()
    ensures item.action.None? ==> r == [NavigateTo(item.id.page)]
  {
    if item.action.Some? then
      match item.action.value
      case LogoutAction => HandleLogout()
    else [NavigateTo(item.id.page)]
  }

  /** Every listed item can be clicked; the logout entry signs out and goes home, and any
      other entry asks for its own page and never signs out. */
  lemma NavClickOnListedItems(isAuthenticated: bool)
    ensures forall item :: item in NavItems(isAuthenticated) ==> WellFormed(item)
    ensures forall item :: item in NavItems(isAuthenticated) && item.id == LogoutItem ==>
      HandleNavClick(item) == [CallLogout, NavigateTo(Home)]
    ensures forall item :: item in NavItems(isAuthenticated) && item.id.PageItem? ==>
      HandleNavClick(item) == [NavigateTo(item.id.page)]
  {
  }

  /** The logo button. */
  const LogoTarget: PageType := Home

  /** `currentPage === item.id`. */
  predicate Highlighted(item: NavItem, currentPage: PageType) {
    item.id == PageItem(currentPage)
  }

  /** The logout entry is never highlighted, at most one entry is, and exactly one is
      whenever the current page has an entry. */
  lemma HighlightRule(isAuthenticated: bool, currentPage: PageType)
    ensures forall item: NavItem :: item.id == LogoutItem ==> !Highlighted(item, currentPage)
    ensures var items := NavItems(isAuthenticated);
      forall i, j :: 0 <= i < j < |items| ==> !(Highlighted(items[i], currentPage) && Highlighted(items[j], currentPage))
    ensures var items := NavItems(isAuthenticated);
      PageItem(currentPage) in Ids(items) ==> exists i :: 0 <= i < |items| && Highlighted(items[i], currentPage)
  {
    NavItemsShape(isAuthenticated);
    var items := NavItems(isAuthenticated);
    if PageItem(currentPage) in Ids(items) {
      var i :| 0 <= i < |items| && Ids(items)[i] == PageItem(currentPage);
      assert Highlighted(items[i], currentPage);
    }
  }
}
