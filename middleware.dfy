/** The edge request gate of `middleware.ts`: it runs before every page, reads the
    `authToken` cookie, resolves it to a role through the identity service and the
    document store, and either lets the request through or redirects it.

    The two REST calls are not performed here: `Backend` carries what they answer.
    With the answers fixed, the gate is a total function of the path and the cookie. */
module EdgeGate {
  import opened Common

  /** What `accounts:lookup` answers for a token: a non-2xx status, a 2xx body whose
      `users` array holds these `localId`s, or an exception (network, JSON). */
  datatype IdentityResponse =
    | IdentityNotOk
    | IdentityOk(localIds: seq<string>)
    | IdentityThrew

  /** What the read of `users/<uid>` answers: a non-2xx status, a 2xx body whose
      `fields.role.stringValue` is present or absent, or an exception. */
  datatype DocumentResponse =
    | DocumentNotOk
    | DocumentOk(roleValue: Option<string>)
    | DocumentThrew

  /** The environment of one request: the two configuration variables (an empty
      string stands for an unset variable) and the answers of the two services. */
  datatype Backend = Backend(
    apiKey: string,
    projectId: string,
    lookup: string -> IdentityResponse,
    readUser: string -> DocumentResponse)

  datatype Decision = Next | Redirect(to: string)

  const LoginPath: string := "/login"
  const SignupPath: string := "/signup"
  const RootPath: string := "/"
  const DashboardPath: string := "/dashboard"
  const AdminPath: string := "/admin"
  const SuperAdminPath: string := "/super-admin"

  predicate IsPublic(path: string) {
    path == LoginPath || path == SignupPath || path == RootPath
  }

  /** The four places the gate ever redirects to. */
  predicate IsRedirectTarget(p: string) {
    p == LoginPath || p == DashboardPath || p == AdminPath || p == SuperAdminPath
  }

  /** The uid the identity service reports, if the lookup succeeded and `users[0]`
      exists (reading it from an empty array throws, which is caught). */
  function IdentityUid(r: IdentityResponse): Option<string> {
    match r
    case IdentityOk(ids) => if |ids| > 0 then Some(ids[0]) else None
    case _ => None
  }

  /** `getUserRoleFromFirestore`: `None` stands for the `null` it returns. */
  function ResolveRole(token: string, b: Backend): (role: Option<string>)
    ensures role.Some? ==> role.value != ""
    ensures role.Some? <==>
      token != "" && b.apiKey != "" && b.projectId != "" &&
      IdentityUid(b.lookup(token)).Some? &&
      b.readUser(IdentityUid(b.lookup(token)).value).DocumentOk?
  {
    if token == "" then None
    else if b.apiKey == "" || b.projectId == "" then None
    else
      match IdentityUid(b.lookup(token))
      case None => None
      case Some(uid) =>
        match b.readUser(uid)
        case DocumentOk(value) =>
          // `role || "user"`: an absent or empty stringValue means "user"
          if value.None? || value.value == "" then Some(UserRole) else Some(value.value)
        case _ => None
  }

  /** The cookie's token, if the cookie is present and non-empty (`!token`). */
  function TokenOf(cookie: Option<string>): (token: Option<string>)
    ensures token.Some? <==> cookie.Some? && cookie.value != ""
    ensures token.Some? ==> token == cookie
  {
    if cookie.Some? && cookie.value != "" then cookie else None
  }

  /** `middleware`: the decision for one request. */
  function Gate(path: string, cookie: Option<string>, b: Backend): (d: Decision)
    ensures d.Redirect? ==> IsRedirectTarget(d.to)
    ensures d.Redirect? && d.to != LoginPath ==> !IsPublic(path) && TokenOf(cookie).Some?
  {
    if IsPublic(path) then Next
    else if TokenOf(cookie).None? then Redirect(LoginPath)
    else
      match ResolveRole(TokenOf(cookie).value, b)
      case None => Redirect(LoginPath)
      case Some(role) => RoutePolicy(path, role)
  }

  /** The role-based part of `middleware`, once a role has been resolved. */
  function RoutePolicy(path: string, role: string): (d: Decision)
    ensures d.Redirect? ==> d.to != LoginPath && IsRedirectTarget(d.to)
  {
    if StartsWith(path, AdminPath) && role != AdminRole then
      if role == SuperAdminRole then Redirect(SuperAdminPath) else Redirect(DashboardPath)
    else if StartsWith(path, SuperAdminPath) && role != SuperAdminRole then
      if role == AdminRole then Redirect(AdminPath) else Redirect(DashboardPath)
    else if path == DashboardPath && role == AdminRole then Redirect(AdminPath)
    else if path == DashboardPath && role == SuperAdminRole then Redirect(SuperAdminPath)
    else Next
  }

  // ---------------------------------------------------------------------------
  // Properties of the gate

  lemma PublicPathsPass(path: string, cookie: Option<string>, b: Backend)
    requires IsPublic(path)
    ensures Gate(path, cookie, b) == Next
  {
  }

  lemma MissingTokenGoesToLogin(path: string, cookie: Option<string>, b: Backend)
    requires !IsPublic(path)
    requires cookie.None? || cookie == Some("")
    ensures Gate(path, cookie, b) == Redirect(LoginPath)
  {
  }

  /** Each failure of role resolution yields `null`: no role is ever made up. */
  lemma ResolutionFailuresGiveNoRole(token: string, b: Backend)
    ensures token == "" ==> ResolveRole(token, b).None?
    ensures b.apiKey == "" || b.projectId == "" ==> ResolveRole(token, b).None?
    ensures !b.lookup(token).IdentityOk? ==> ResolveRole(token, b).None?
    ensures b.lookup(token) == IdentityOk([]) ==> ResolveRole(token, b).None?
    ensures forall uid ::
      (IdentityUid(b.lookup(token)) == Some(uid) && !b.readUser(uid).DocumentOk? ==> ResolveRole(token, b).None?)
  {
  }

  /** A resolved role is the stored one, or "user" when the stored one is absent or empty. */
  lemma ResolvedRoleIsStoredRole(token: string, b: Backend, uid: string)
    requires token != "" && b.apiKey != "" && b.projectId != ""
    requires IdentityUid(b.lookup(token)) == Some(uid)
    requires b.readUser(uid).DocumentOk?
    ensures var v := b.readUser(uid).roleValue;
      ResolveRole(token, b) == Some(if v.None? || v.value == "" then UserRole else v.value)
  {
  }

  /** Fail-closed: whenever no role can be resolved, a non-public path goes to /login. */
  lemma UnresolvedRoleGoesToLogin(path: string, token: string, b: Backend)
    requires !IsPublic(path) && token != ""
    requires ResolveRole(token, b).None?
    ensures Gate(path, Some(token), b) == Redirect(LoginPath)
  {
  }

  /** The admin guard: raw prefix "/admin", admits only "admin". */
  lemma AdminAreaPolicy(path: string, role: string)
    requires StartsWith(path, AdminPath)
    ensures RoutePolicy(path, role) ==
      if role == AdminRole then Next
      else if role == SuperAdminRole then Redirect(SuperAdminPath)
      else Redirect(DashboardPath)
  {
    assert !StartsWith(path, SuperAdminPath) by {
      assert path[1] == 'a';
    }
  }

  /** The super-admin guard: prefix "/super-admin", admits only "super_admin". */
  lemma SuperAdminAreaPolicy(path: string, role: string)
    requires StartsWith(path, SuperAdminPath)
    ensures RoutePolicy(path, role) ==
      if role == SuperAdminRole then Next
      else if role == AdminRole then Redirect(AdminPath)
      else Redirect(DashboardPath)
  {
    assert !StartsWith(path, AdminPath) by {
      assert path[1] == 's';
    }
  }

  /** "/dashboard" sends each privileged role to its own home and admits every other role. */
  lemma DashboardPolicy(role: string)
    ensures RoutePolicy(DashboardPath, role) ==
      if role == AdminRole then Redirect(AdminPath)
      else if role == SuperAdminRole then Redirect(SuperAdminPath)
      else Next
  {
    assert !StartsWith(DashboardPath, AdminPath) by { assert DashboardPath[1] != AdminPath[1]; }
    assert !StartsWith(DashboardPath, SuperAdminPath) by { assert DashboardPath[1] != SuperAdminPath[1]; }
  }

  /** A path outside "/admin…", "/super-admin…" and "/dashboard" passes for every resolved role. */
  lemma OtherPathsPass(path: string, role: string)
    requires !StartsWith(path, AdminPath) && !StartsWith(path, SuperAdminPath)
    requires path != DashboardPath
    ensures RoutePolicy(path, role) == Next
  {
  }

  /** No redirect loops: following a redirect with the same cookie and the same
      service answers is let through. */
  lemma RedirectTargetPasses(path: string, cookie: Option<string>, b: Backend)
    requires Gate(path, cookie, b).Redirect?
    ensures Gate(Gate(path, cookie, b).to, cookie, b) == Next
  {
    var t := Gate(path, cookie, b).to;
    if t != LoginPath {
      var role := ResolveRole(TokenOf(cookie).value, b).value;
      if t == DashboardPath {
        DashboardPolicy(role);
      } else if t == AdminPath {
        AdminAreaPolicy(t, role);
      } else {
        SuperAdminAreaPolicy(t, role);
      }
    }
  }

  /** The admin guard has no segment boundary: "/administrator" is guarded too. */
  lemma AdministratorIsGuarded(b: Backend, token: string)
    requires ResolveRole(token, b) == Some(UserRole)
    ensures Gate("/administrator", Some(token), b) == Redirect(DashboardPath)
  {
    assert StartsWith("/administrator", AdminPath);
  }

  /** Role strings other than the two privileged ones are treated like "user". */
  lemma UnknownRoleActsAsUser(path: string, role: string)
    requires !IsPrivileged(role)
    ensures RoutePolicy(path, role) == RoutePolicy(path, UserRole)
  {
  }

  /** A super_admin can never reach a page under "/admin". */
  lemma SuperAdminLockedOutOfAdminArea(path: string, token: string, b: Backend)
    requires StartsWith(path, AdminPath)
    requires ResolveRole(token, b) == Some(SuperAdminRole)
    ensures Gate(path, Some(token), b) == Redirect(SuperAdminPath)
  {
    assert |path| >= |AdminPath|;
    assert !IsPublic(path) by { assert path[1] == 'a'; }
    AdminAreaPolicy(path, SuperAdminRole);
  }
}
