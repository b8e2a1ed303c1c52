/**
 * The route guard of the application shell: from the session store's
 * `loading` flag and `user` and the requested path it decides whether the
 * spinner, a page or a redirect is shown.
 */
module App {
  import opened Wrappers
  import opened Auth

  const RootPath := "/"
  const LoginPath := "/login"
  const AdminCreatePath := "/admin/create"

  datatype Page = Login | CreateAdmin | AdminDashboard | UserDashboard

  /** What the shell shows: the spinner, a page (inside the sidebar layout or not), or a redirect. */
  datatype View = Spinner | Render(page: Page, inLayout: bool) | Redirect(to: string)

  /**
   * The shown element. "/login" and "/admin/create" are matched exactly and
   * take precedence over the catch-all route that matches every other path.
   */
  function Route(loading: bool, user: Option<User>, path: string): (v: View)
    ensures v.Spinner? <==> loading
    ensures !loading && path == LoginPath ==>
      (user.None? ==> v == Render(Login, false)) && (user.Some? ==> v == Redirect(RootPath))
    ensures !loading && path == AdminCreatePath ==>
      (v == Render(CreateAdmin, true) <==> IsAdmin(user)) && (!IsAdmin(user) ==> v == Redirect(RootPath))
    ensures !loading && path != LoginPath && path != AdminCreatePath ==>
      (user.None? ==> v == Redirect(LoginPath)) &&
      (user.Some? ==> v == Render(if IsAdmin(user) then AdminDashboard else UserDashboard, true))
  {
    if loading then Spinner
    else if path == LoginPath then
      if user.None? then Render(Login, false) else Redirect(RootPath)
    else if path == AdminCreatePath then
      if IsAdmin(user) then Render(CreateAdmin, true) else Redirect(RootPath)
    else if user.Some? then
      Render(if IsAdmin(user) then AdminDashboard else UserDashboard, true)
    else Redirect(LoginPath)
  }

  /** The admin pages are rendered for admins only. */
  lemma AdminPagesNeedAdmin(loading: bool, user: Option<User>, path: string)
    ensures Route(loading, user, path) in {Render(CreateAdmin, true), Render(AdminDashboard, true)} ==> IsAdmin(user)
    ensures IsAdmin(user) && !loading ==> Route(loading, user, path) != Render(UserDashboard, true)
  {
  }

  /** The layout, and with it the sidebar, is shown only to a signed-in user; Login only to nobody. */
  lemma LayoutNeedsUser(loading: bool, user: Option<User>, path: string)
    ensures Route(loading, user, path).Render? && Route(loading, user, path).inLayout ==> user.Some?
    ensures Route(loading, user, path) == Render(Login, false) <==> !loading && user.None? && path == LoginPath
  {
  }

  /** Redirects only ever lead to "/" or "/login". */
  lemma RedirectTargets(loading: bool, user: Option<User>, path: string)
    ensures Route(loading, user, path).Redirect? ==> Route(loading, user, path).to in {RootPath, LoginPath}
  {
  }

  /** The view after following at most `steps` redirects (the guard is not loading). */
  function Settle(user: Option<User>, path: string, steps: nat): View
    decreases steps
  {
    var v := Route(false, user, path);
    if v.Redirect? && steps > 0 then Settle(user, v.to, steps - 1) else v
  }

  /**
   * Following redirects ends on a rendered page within two steps, and with
   * nobody signed in that page is Login.
   */
  lemma SettlesWithinTwoRedirects(user: Option<User>, path: string)
    ensures Settle(user, path, 2).Render?
    ensures user.None? ==> Settle(user, path, 2) == Render(Login, false)
    ensures user.Some? ==> Settle(user, path, 2).inLayout
  {
  }

  /** The user a fresh store holds after `initialize` received these replies. */
  function RestoredUser(session: Reply<AuthUser>, profile: Reply<User>): (u: Option<User>)
    ensures u.Some? <==> session.Resolved? && session.data.Some? && Succeeds(profile) && profile.data.Some?
    ensures u.Some? ==> u == profile.data
  {
    if session.Resolved? && session.data.Some? && Succeeds(profile) && profile.data.Some? then profile.data else None
  }

  /**
   * Mounting the shell on a fresh session store: the first render happens
   * while `loading` is still true, then the effect runs `initialize` and the
   * shell renders again. `session` and `profile` are the replies that
   * `initialize` receives.
   */
  method Mount(path: string, session: Reply<AuthUser>, profile: Reply<User>)
    returns (first: View, second: View)
    ensures first == Spinner
    ensures !second.Spinner?
    // the second render is the guard applied to the user `initialize` restored, if any
    ensures second == Route(false, RestoredUser(session, profile), path)
    // with no stored session nobody is signed in: the login page or a redirect towards it
    ensures session.Resolved? && session.data.None? ==>
      (second == Render(Login, false) <==> path == LoginPath) && (path != LoginPath ==> second.Redirect?)
    // a restored admin session reaches the admin pages
    ensures session.Resolved? && session.data.Some? && Succeeds(profile) && IsAdmin(profile.data) ==>
      if path == LoginPath then second == Redirect(RootPath)
      else second == Render(if path == AdminCreatePath then CreateAdmin else AdminDashboard, true)
  {
    var store := new AuthStore();
    first := Route(store.loading, store.user, path);
    store.Initialize(session, profile);
    second := Route(store.loading, store.user, path);
  }
}
