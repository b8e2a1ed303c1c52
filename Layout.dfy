/**
 * The sidebar shell around signed-in pages: the menu chosen by role and the
 * sign-out button.
 */
module Layout {
  import opened Wrappers
  import opened Auth
  import opened App

  /**
   * One sidebar entry: its label (`caption`, since `label` is a Dafny keyword) and
   * its path, which also serves as the list key. The icon is left out.
   */
  datatype MenuItem = MenuItem(caption: string, path: string)

  const AdminMenu: seq<MenuItem> := [
    MenuItem("Dashboard", "/"),
    MenuItem("Products", "/products"),
    MenuItem("Users", "/users"),
    MenuItem("Create Admin", "/admin/create"),
    MenuItem("Settings", "/settings")
  ]

  const ShopperMenu: seq<MenuItem> := [
    MenuItem("Dashboard", "/"),
    MenuItem("Shop", "/shop"),
    MenuItem("Orders", "/orders"),
    MenuItem("Profile", "/profile")
  ]

  /** The paths of a menu, in order. */
  function Paths(items: seq<MenuItem>): (ps: seq<string>)
    ensures |ps| == |items|
    ensures forall i :: 0 <= i < |items| ==> ps[i] == items[i].path
  {
    seq(|items|, i requires 0 <= i < |items| => items[i].path)
  }

  /** No path occurs twice. */
  predicate DistinctPaths(items: seq<MenuItem>)
  {
    forall i, j :: 0 <= i < j < |items| ==> items[i].path != items[j].path
  }

  /** `menuItems`: the admin menu for an admin, the shopper menu otherwise (also with nobody signed in). */
  function MenuItems(user: Option<User>): (items: seq<MenuItem>)
    ensures IsAdmin(user) ==> Paths(items) == ["/", "/products", "/users", "/admin/create", "/settings"]
    ensures !IsAdmin(user) ==> Paths(items) == ["/", "/shop", "/orders", "/profile"]
    ensures |items| > 0 && items[0] == MenuItem("Dashboard", RootPath)
    ensures DistinctPaths(items)
    ensures AdminCreatePath in Paths(items) <==> IsAdmin(user)
  {
    if IsAdmin(user) then AdminMenu else ShopperMenu
  }

  /**
   * The menu agrees with the route guard: for a signed-in user every entry
   * leads to a rendered page, and the "/admin/create" entry, offered only to
   * admins, is the page the guard lets through.
   */
  lemma MenuAgreesWithRoutes(user: Option<User>, item: MenuItem)
    requires user.Some? && item in MenuItems(user)
    ensures Route(false, user, item.path).Render?
    ensures item.path == AdminCreatePath ==> Route(false, user, item.path) == Render(CreateAdmin, true)
  {
  }

  /**
   * `handleSignOut`: sign out first, and navigate to "/login" only when the
   * sign-out did not throw (a thrown error leaves the handler before
   * `navigate`). `navigated` is the path navigated to, if any.
   */
  method HandleSignOut(store: AuthStore, reply: Reply<()>) returns (outcome: Outcome, navigated: Option<string>)
    modifies store
    ensures store.ErrorOnlyWhenIdle()
    ensures reply.Resolved? ==>
      outcome == Completed && navigated == Some(LoginPath) && store.user == None && !store.loading && store.error == None
    ensures reply.Rejected? ==>
      outcome == Threw(reply.thrown) && navigated == None &&
      store.user == old(store.user) && !store.loading && store.error == Some(SignOutFailed)
    // after a completed sign-out the guard shows the login page at the new path
    ensures navigated.Some? ==> Route(store.loading, store.user, navigated.value) == Render(Login, false)
  {
    outcome := store.SignOut(reply);
    if outcome.Completed? {
      navigated := Some(LoginPath);
    } else {
      navigated := None;
    }
  }
}
