/*
 * The navigation bar: its links (an Admin link for admins only), the name
 * and role shown for the signed-in user, the theme toggle's label and
 * signing out.
 */
module Layout {
  import opened Js
  import opened Browser
  import opened QueryClient
  import UseAuth
  import Admin

  datatype NavItem = NavItem(caption: string, href: string)

  const BaseNavItems := [
    NavItem("Home", "/"),
    NavItem("Explore", "/blog"),
    NavItem("Write", "/editor"),
    NavItem("Bookmarks", "/bookmarks"),
    NavItem("Profile", "/profile")]

  const AdminItem := NavItem("Admin", "/admin")

  /** `navItems`: the five fixed links, and the Admin link pushed last for a signed-in admin. */
  method NavItems(isAuthenticated: bool, user: Json) returns (items: seq<NavItem>)
    ensures |items| >= |BaseNavItems| && items[..|BaseNavItems|] == BaseNavItems
    ensures |items| == |BaseNavItems| + 1 <==> isAuthenticated && Admin.IsAdmin(user)
    ensures |items| <= |BaseNavItems| + 1
    ensures |items| > |BaseNavItems| ==> items[|BaseNavItems|] == AdminItem
  {
    items := BaseNavItems;
    if isAuthenticated && Admin.IsAdmin(user) {
      items := items + [AdminItem];
    }
  }

  /** Every link has a distinct target, the Admin link included. */
  lemma NavTargetsDistinct()
    ensures var all := BaseNavItems + [AdminItem];
            forall i, j :: 0 <= i < j < |all| ==> all[i].href != all[j].href
  {
  }

  /** `user?.full_name || user?.username || "User"` */
  function DisplayName(user: Json): (r: Json)
    ensures Truthy(r)
  {
    OrElse(Prop(user, "full_name"), OrElse(Prop(user, "username"), JStr("User")))
  }

  /** The full name when it is truthy, else the username when it is, else "User". */
  lemma DisplayNameChoice(user: Json)
    ensures TruthyOpt(Prop(user, "full_name")) ==> DisplayName(user) == Prop(user, "full_name").value
    ensures !TruthyOpt(Prop(user, "full_name")) && TruthyOpt(Prop(user, "username")) ==> DisplayName(user) == Prop(user, "username").value
    ensures !TruthyOpt(Prop(user, "full_name")) && !TruthyOpt(Prop(user, "username")) ==> DisplayName(user) == JStr("User")
  {
  }

  /** `user?.role && <Badge>`: the role badge shows for a truthy role. */
  predicate ShowsRoleBadge(user: Json) {
    TruthyOpt(Prop(user, "role"))
  }

  /** `user?.role ?? "reader"`: the role in the mobile menu. */
  function MobileRole(user: Json): Json {
    Coalesce(Prop(user, "role"), JStr("reader"))
  }

  /**
   * The mobile role is the user's role whenever one is set, and "reader"
   * otherwise; a user with a badge shows the badge's role there too.
   */
  lemma MobileRoleDefaultsToReader(user: Json)
    ensures Present(Prop(user, "role")) ==> MobileRole(user) == Prop(user, "role").value
    ensures !Present(Prop(user, "role")) ==> MobileRole(user) == JStr("reader")
    ensures ShowsRoleBadge(user) ==> MobileRole(user) == Prop(user, "role").value
  {
  }

  /** The theme toggle's title and label: the theme it switches to. */
  function ThemeLabel(theme: string): string {
    if theme == "dark" then "Light mode" else "Dark mode"
  }

  /** "Light mode" is offered exactly in the dark theme, and "Dark mode" in any other. */
  lemma ThemeLabelNamesOtherTheme(theme: string)
    ensures ThemeLabel(theme) == "Light mode" <==> theme == "dark"
    ensures ThemeLabel(theme) == "Dark mode" <==> theme != "dark"
  {
  }

  /** `logOut()`: both session keys removed and the browser sent to the home page. */
  method LogOut(w: Window)
    modifies w`localStorage, w`pathname, w`navigations
    ensures w.localStorage == old(w.localStorage) - {TokenKey, UserKey}
    ensures w.navigations == old(w.navigations) + ["/"] && w.pathname == "/"
  {
    w.RemoveItem(TokenKey);
    w.RemoveItem(UserKey);
    w.Navigate("/");
  }

  /** After signing out there is no session and no stored user, and every other stored item is kept. */
  lemma LoggedOutHasNoSession(storage: map<string, string>, parse: string -> Option<Json>)
    ensures !UseAuth.IsAuthenticated(ItemOf(storage - {TokenKey, UserKey}, TokenKey))
    ensures UseAuth.StoredUser(ItemOf(storage - {TokenKey, UserKey}, UserKey), parse) == JNull
    ensures forall k :: k != TokenKey && k != UserKey ==> ItemOf(storage - {TokenKey, UserKey}, k) == ItemOf(storage, k)
  {
  }
}
