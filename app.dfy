/**
 * The application shell: restoring the signed-in user from browser storage
 * at start-up, logging out, and the route table that decides, from the user
 * held in memory, whether a path renders its page or redirects.
 */
module App {
  import opened Wrappers

  /** A user profile, as stored under the `user` storage key and as listed by the admin endpoint. */
  datatype Profile = Profile(id: int, name: string, email: string, role: string, status: string, createdAt: string)

  const AdminRole := "Admin"
  const UserRole := "User"

  datatype Path =
    | LoginPath
    | SignupPath
    | ForgotPasswordPath
    | ResetPasswordPath(resetToken: string)
    | HomePath
    | AdminPath
    | RootPath

  datatype Page =
    | LoginPage
    | SignupPage
    | ForgotPasswordPage
    | ResetPasswordPage(resetToken: string)
    | HomePage
    | AdminDashboardPage

  /** What a route element does: render its page, or navigate elsewhere. */
  datatype Decision = Render(page: Page) | Redirect(to: Path)

  /** The page a path is registered for; the root path has none. */
  function PageAt(p: Path): Option<Page> {
    match p
    case LoginPath => Some(LoginPage)
    case SignupPath => Some(SignupPage)
    case ForgotPasswordPath => Some(ForgotPasswordPage)
    case ResetPasswordPath(t) => Some(ResetPasswordPage(t))
    case HomePath => Some(HomePage)
    case AdminPath => Some(AdminDashboardPage)
    case RootPath => None
  }

  /** `user && user.role === 'Admin'` */
  predicate IsAdmin(user: Option<Profile>) {
    user.Some? && user.value.role == AdminRole
  }

  // ---------------------------------------------------------------------
  // The route table
  // ---------------------------------------------------------------------

  /** The `<Routes>` table: the decision for one path, given the in-memory user. */
  function Route(user: Option<Profile>, p: Path): (d: Decision)
    ensures d.Render? ==> PageAt(p) == Some(d.page)
    ensures d.Redirect? ==> d.to == LoginPath || d.to == HomePath
    ensures d.Redirect? && d.to == HomePath ==> user.Some?
    ensures d.Redirect? && user.None? ==> d.to == LoginPath
    ensures p == RootPath ==> d.Redirect?
  {
    match p
    case LoginPath => if user.None? then Render(LoginPage) else Redirect(HomePath)
    case SignupPath => if user.None? then Render(SignupPage) else Redirect(HomePath)
    case ForgotPasswordPath => Render(ForgotPasswordPage)
    case ResetPasswordPath(t) => Render(ResetPasswordPage(t))
    case HomePath => if user.Some? then Render(HomePage) else Redirect(LoginPath)
    case AdminPath => if IsAdmin(user) then Render(AdminDashboardPage) else Redirect(LoginPath)
    case RootPath => Redirect(if user.Some? then HomePath else LoginPath)
  }

  lemma LoginAndSignupOnlyWhenSignedOut(user: Option<Profile>)
    ensures Route(user, LoginPath).Render? <==> user.None?
    ensures Route(user, SignupPath).Render? <==> user.None?
    ensures user.Some? ==> Route(user, LoginPath) == Redirect(HomePath) && Route(user, SignupPath) == Redirect(HomePath)
  {
  }

  lemma PasswordPagesAlwaysRender(user: Option<Profile>, resetToken: string)
    ensures Route(user, ForgotPasswordPath) == Render(ForgotPasswordPage)
    ensures Route(user, ResetPasswordPath(resetToken)) == Render(ResetPasswordPage(resetToken))
  {
  }

  lemma HomeOnlyWhenSignedIn(user: Option<Profile>)
    ensures Route(user, HomePath).Render? <==> user.Some?
    ensures user.None? ==> Route(user, HomePath) == Redirect(LoginPath)
  {
  }

  lemma AdminOnlyForAdminRole(user: Option<Profile>)
    ensures Route(user, AdminPath).Render? <==> user.Some? && user.value.role == AdminRole
    ensures !IsAdmin(user) ==> Route(user, AdminPath) == Redirect(LoginPath)
    ensures user.Some? && !IsAdmin(user) ==> Landing(user, AdminPath) == HomePage
    ensures user.None? ==> Landing(user, AdminPath) == LoginPage
  {
  }

  lemma RootNeverRenders(user: Option<Profile>)
    ensures Route(user, RootPath).Redirect?
    ensures Route(user, RootPath).to == HomePath <==> user.Some?
    ensures Landing(user, RootPath) == if user.Some? then HomePage else LoginPage
  {
  }

  // ---------------------------------------------------------------------
  // The three-level access table, written column by column
  // ---------------------------------------------------------------------

  /** The three access levels a session can have. */
  datatype Access = Anonymous | AuthenticatedUser | AuthenticatedAdmin

  function AccessOf(user: Option<Profile>): Access {
    if user.None? then Anonymous
    else if user.value.role == AdminRole then AuthenticatedAdmin
    else AuthenticatedUser
  }

  /** The access table written column by column: one rule per access level. */
  function AccessTable(a: Access, p: Path): Decision {
    match a
    case Anonymous =>
      if p in {HomePath, AdminPath, RootPath} then Redirect(LoginPath)
      else Render(PageAt(p).value)
    case AuthenticatedUser =>
      if p in {LoginPath, SignupPath, RootPath} then Redirect(HomePath)
      else if p == AdminPath then Redirect(LoginPath)
      else Render(PageAt(p).value)
    case AuthenticatedAdmin =>
      if p in {LoginPath, SignupPath, RootPath} then Redirect(HomePath)
      else Render(PageAt(p).value)
  }

  /** The route table agrees with the access table on every path and session. */
  lemma RouteFollowsAccessTable(user: Option<Profile>, p: Path)
    ensures Route(user, p) == AccessTable(AccessOf(user), p)
  {
  }

  // ---------------------------------------------------------------------
  // Following redirects
  // ---------------------------------------------------------------------

  /** Follows at most `hops` redirects from `p`; None if the chain is longer. */
  function Follow(user: Option<Profile>, p: Path, hops: nat): Option<Page>
    decreases hops
  {
    match Route(user, p)
    case Render(page) => Some(page)
    case Redirect(q) => if hops == 0 then None else Follow(user, q, hops - 1)
  }

  /** No redirect loops: every path settles on a page within two redirects. */
  lemma TwoRedirectsSuffice(user: Option<Profile>, p: Path)
    ensures Follow(user, p, 2).Some?
  {
  }

  /** The page a visit to `p` finally shows, and only to a session allowed to see it. */
  function Landing(user: Option<Profile>, p: Path): (page: Page)
    ensures Route(user, p).Render? ==> page == Route(user, p).page
    ensures Route(user, PathOf(page)) == Render(page)
    ensures page == HomePage ==> user.Some?
    ensures page == AdminDashboardPage ==> IsAdmin(user)
    ensures page == LoginPage || page == SignupPage ==> user.None?
  {
    TwoRedirectsSuffice(user, p);
    LandingIsRendered(user, p, 2);
    Follow(user, p, 2).value
  }

  /** The path a page is registered under. */
  function PathOf(page: Page): Path {
    match page
    case LoginPage => LoginPath
    case SignupPage => SignupPath
    case ForgotPasswordPage => ForgotPasswordPath
    case ResetPasswordPage(t) => ResetPasswordPath(t)
    case HomePage => HomePath
    case AdminDashboardPage => AdminPath
  }

  /** A page reached by following redirects is one its own path renders. */
  lemma {:induction false} LandingIsRendered(user: Option<Profile>, p: Path, hops: nat)
    ensures Follow(user, p, hops).Some? ==> Route(user, PathOf(Follow(user, p, hops).value)) == Render(Follow(user, p, hops).value)
    decreases hops
  {
    match Route(user, p)
    case Render(page) =>
      assert PageAt(p) == Some(page);
      assert PathOf(page) == p;
    case Redirect(q) =>
      if hops > 0 {
        LandingIsRendered(user, q, hops - 1);
      }
  }

  // ---------------------------------------------------------------------
  // Session restore and logout
  // ---------------------------------------------------------------------

  /** The truthiness test `token && ...` applies to the stored token: absent or empty is falsy. */
  predicate HasToken(token: Option<string>) {
    token.Some? && token.value != ""
  }

  /** The user the start-up effect restores into an empty session. */
  function RestoredUser(token: Option<string>, stored: Option<Profile>): (user: Option<Profile>)
    ensures user.Some? <==> HasToken(token) && stored.Some?
    ensures user.Some? ==> user == stored
  {
    if HasToken(token) && stored.Some? then stored else None
  }

  /** A session whose in-memory user, if any, is the stored profile under a non-empty token. */
  ghost predicate IsBacked(token: Option<string>, storedUser: Option<Profile>, user: Option<Profile>) {
    user.Some? ==> HasToken(token) && storedUser == user
  }

  /**
   * What `Session.Backed` buys: while it holds, a session whose token is
   * missing or empty has no user, so the route table treats it as anonymous
   * even though it never reads the token.
   */
  lemma NoTokenMeansAnonymous(token: Option<string>, storedUser: Option<Profile>, user: Option<Profile>, p: Path)
    requires IsBacked(token, storedUser, user) && !HasToken(token)
    ensures user.None?
    ensures Route(user, p) == Route(None, p)
  {
  }

  /**
   * Browser storage (the `token` and `user` keys) and the `user` state the
   * route table reads. The route table never consults the token.
   */
  class Session {
    var token: Option<string>
    var storedUser: Option<Profile>
    var user: Option<Profile>

    /** The in-memory user, when there is one, is backed by both storage entries. */
    ghost predicate Backed()
      reads this
    {
      IsBacked(token, storedUser, user)
    }

    /** Mounting the app: storage is whatever the browser holds; the user starts out null. */
    constructor (token: Option<string>, storedUser: Option<Profile>)
      ensures this.token == token && this.storedUser == storedUser
      ensures user == None && Backed()
    {
      this.token := token;
      this.storedUser := storedUser;
      this.user := None;
    }

    /** The start-up effect: set the user only when both storage entries are present. */
    method Restore()
      modifies this
      ensures token == old(token) && storedUser == old(storedUser)
      ensures user == if HasToken(token) && storedUser.Some? then storedUser else old(user)
      ensures old(user) == None ==> user == RestoredUser(token, storedUser)
      ensures old(Backed()) ==> Backed()
    {
      if HasToken(token) && storedUser.Some? {
        user := storedUser;
      }
    }

    /** `handleLogout`: remove both keys and forget the user, whatever the prior state. */
    method Logout()
      modifies this
      ensures token == None && storedUser == None && user == None
      ensures Backed()
    {
      token := None;
      storedUser := None;
      user := None;
    }

    /** The route decision for the current render; reads the in-memory user only. */
    method Decide(p: Path) returns (d: Decision)
      ensures d == Route(user, p)
    {
      d := Route(user, p);
    }
  }

  // ---------------------------------------------------------------------
  // Reloading the browser on a path
  // ---------------------------------------------------------------------

  /**
   * As written: the user is restored by an effect that runs after the first
   * render, so the first render decides the path with no user; a redirect it
   * issues moves the location before the restored user is seen.
   */
  function ReloadLanding(token: Option<string>, stored: Option<Profile>, p: Path): (page: Page)
    ensures page == HomePage ==> RestoredUser(token, stored).Some?
    ensures page != AdminDashboardPage
  {
    var restored := RestoredUser(token, stored);
    match Route(None, p)
    case Render(_) => Landing(restored, p)
    case Redirect(q) => Landing(restored, q)
  }

  /** An admin with a stored session who reloads the admin panel ends up on the home page. */
  lemma AdminReloadOfAdminPanelLandsOnHome(admin: Profile, token: string)
    requires admin.role == AdminRole && token != ""
    ensures Route(Some(admin), AdminPath) == Render(AdminDashboardPage)
    ensures ReloadLanding(Some(token), Some(admin), AdminPath) == HomePage
  {
  }

  /** Restoring the user before the first render (in the state's initial value). */
  function ReloadLandingRestoredFirst(token: Option<string>, stored: Option<Profile>, p: Path): (page: Page)
    ensures Route(RestoredUser(token, stored), p).Render? ==> page == Route(RestoredUser(token, stored), p).page
    ensures p == AdminPath && IsAdmin(RestoredUser(token, stored)) ==> page == AdminDashboardPage
  {
    Landing(RestoredUser(token, stored), p)
  }

  /** The two differ exactly on an admin's reload of the admin panel. */
  lemma ReloadDiffersOnlyOnAdminPanel(token: Option<string>, stored: Option<Profile>, p: Path)
    ensures ReloadLanding(token, stored, p) != ReloadLandingRestoredFirst(token, stored, p)
            <==> p == AdminPath && IsAdmin(RestoredUser(token, stored))
  {
  }
}
