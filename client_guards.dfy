/** The role checks the pages run in the browser, on top of the edge gate. Each
    page has its own: they differ from each other and from `EdgeGate.Gate`, and the
    lemmas at the end of this module state where.

    A guard is the effect that calls `router.push`: `Some(p)` is a push to `p`. */
module ClientGuards {
  import opened Common
  import EdgeGate
  import AdminDashboard

  /** app/profile/page.tsx: once loaded, no account goes to /login. */
  function ProfileGuard(s: Session): (to: Option<string>)
    ensures to.Some? <==> !s.loading && s.user.None?
    ensures to.Some? ==> to.value == "/login"
  {
    if !s.loading && s.user.None? then Some("/login") else None
  }

  /** app/admin/page.tsx: once loaded, no account goes to /login and any role but
      the two privileged ones to /dashboard; admin and super_admin stay. */
  function AdminDashboardGuard(s: Session): (to: Option<string>)
    ensures s.loading ==> to.None?
    ensures !s.loading && s.user.None? ==> to == Some("/login")
    ensures !s.loading && s.user.Some? ==> (to.None? <==> IsPrivileged(s.role))
    ensures to.Some? ==> to.value == "/login" || to.value == "/dashboard"
  {
    if s.loading then None
    else if s.user.None? then Some("/login")
    else if !IsPrivileged(s.role) then Some("/dashboard")
    else None
  }

  /** app/super-admin/page.tsx: once loaded, no account goes to /login; a role other
      than super_admin goes to /admin if it is admin, to /dashboard otherwise. */
  function SuperAdminDashboardGuard(s: Session): (to: Option<string>)
    ensures s.loading ==> to.None?
    ensures !s.loading && s.user.None? ==> to == Some("/login")
    ensures !s.loading && s.user.Some? ==>
      to == (if IsSuperAdmin(s.role) then None
             else if s.role == AdminRole then Some("/admin")
             else Some("/dashboard"))
  {
    if s.loading then None
    else if s.user.None? then Some("/login")
    else if !IsSuperAdmin(s.role) then
      (if s.role == AdminRole then Some("/admin") else Some("/dashboard"))
    else None
  }

  /** app/super-admin/roles/page.tsx and app/super-admin/users/page.tsx (the same
      code twice): once loaded, no account goes to /login and any role but
      super_admin, admin included, to /dashboard. */
  function RegistryGuard(s: Session): (to: Option<string>)
    ensures s.loading ==> to.None?
    ensures !s.loading && s.user.None? ==> to == Some("/login")
    ensures !s.loading && s.user.Some? ==> (to.None? <==> IsSuperAdmin(s.role))
    ensures to.Some? ==> to.value == "/login" || to.value == "/dashboard"
  {
    if s.loading then None
    else if s.user.None? then Some("/login")
    else if !IsSuperAdmin(s.role) then Some("/dashboard")
    else None
  }

  /** app/super-admin/audit-logs/page.tsx: once loaded, no account or any role but
      super_admin, admin included, goes to /login. */
  function AuditLogsGuard(s: Session): (to: Option<string>)
    ensures to.Some? <==> !s.loading && (s.user.None? || !IsSuperAdmin(s.role))
    ensures to.Some? ==> to.value == "/login"
  {
    if !s.loading && (s.user.None? || !IsSuperAdmin(s.role)) then Some("/login") else None
  }

  /** The render guards nest: what renders for super_admin only also renders for
      the privileged pair, they differ only on "admin", and role "user" or an
      unknown role sees neither. */
  lemma RenderGuardsNest(role: string)
    ensures IsSuperAdmin(role) ==> IsPrivileged(role)
    ensures IsPrivileged(role) && !IsSuperAdmin(role) <==> role == AdminRole
    ensures !IsPrivileged(role) <==> role != AdminRole && role != SuperAdminRole
  {
  }

  // ---------------------------------------------------------------------------
  // Where the guards agree and where they differ

  /** While the auth context loads no guard pushes; once loaded, every guard sends
      a visitor without an account to /login. */
  lemma GuardsAgreeWithoutAccount(s: Session)
    ensures s.loading ==>
      ProfileGuard(s).None? && AdminDashboardGuard(s).None? && SuperAdminDashboardGuard(s).None? &&
      RegistryGuard(s).None? && AuditLogsGuard(s).None?
    ensures !s.loading && s.user.None? ==>
      ProfileGuard(s) == Some("/login") && AdminDashboardGuard(s) == Some("/login") &&
      SuperAdminDashboardGuard(s) == Some("/login") && RegistryGuard(s) == Some("/login") &&
      AuditLogsGuard(s) == Some("/login")
  {
  }

  /** Once the auth context has loaded, the admin dashboard's listeners run exactly
      when its guard lets the visitor stay; while it loads they already run for a
      signed-in admin or super_admin. */
  lemma DataFollowsAdminGuard(s: Session)
    ensures !s.loading ==> (AdminDashboard.Subscribed(s) <==> AdminDashboardGuard(s).None?)
    ensures s.loading ==> AdminDashboardGuard(s).None? && (AdminDashboard.Subscribed(s) <==> s.user.Some? && IsPrivileged(s.role))
  {
  }

  /** A signed-in admin is sent three different ways by the three super-admin guards. */
  lemma AdminSentThreeWays(s: Session)
    requires !s.loading && s.user.Some? && s.role == AdminRole
    ensures SuperAdminDashboardGuard(s) == Some("/admin")
    ensures RegistryGuard(s) == Some("/dashboard")
    ensures AuditLogsGuard(s) == Some("/login")
  {
  }

  /** The admin dashboard admits super_admin, but the edge gate never lets a
      super_admin reach it. */
  lemma SuperAdminAdmittedOnlyByClient(s: Session, token: string, b: EdgeGate.Backend)
    requires !s.loading && s.user.Some? && s.role == SuperAdminRole
    requires EdgeGate.ResolveRole(token, b) == Some(SuperAdminRole)
    ensures AdminDashboardGuard(s).None?
    ensures EdgeGate.Gate("/admin", Some(token), b) == EdgeGate.Redirect("/super-admin")
  {
    EdgeGate.SuperAdminLockedOutOfAdminArea("/admin", token, b);
  }

  /** On the super-admin pages the gate and the client agree on who gets in: when
      the client sees the role the gate resolved, the gate lets a "/super-admin…"
      request through exactly when the registry and audit-log guards stay put. */
  lemma GateAndRegistryAgree(path: string, token: string, b: EdgeGate.Backend, s: Session)
    requires StartsWith(path, EdgeGate.SuperAdminPath)
    requires !s.loading && s.user.Some?
    requires EdgeGate.ResolveRole(token, b) == Some(s.role)
    ensures EdgeGate.Gate(path, Some(token), b) == EdgeGate.Next <==> RegistryGuard(s).None?
    ensures EdgeGate.Gate(path, Some(token), b) == EdgeGate.Next <==> AuditLogsGuard(s).None?
  {
    assert |path| >= |EdgeGate.SuperAdminPath|;
    assert !EdgeGate.IsPublic(path) by { assert path[1] == 's'; }
    EdgeGate.SuperAdminAreaPolicy(path, s.role);
  }
}
