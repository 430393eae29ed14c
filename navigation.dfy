/** Which navigation item is highlighted for the current path, in the four layout
    components of app/components/layout. The admin components need a "/" after an
    item's href (or the href itself); the super-admin components accept any path
    that starts with the href, except for the "/super-admin" root, which must match
    exactly. Every mobile menu matches exactly. */
module Navigation {
  import opened Common

  const AdminHome: string := "/admin"
  const AdminNewsletters: string := "/admin/newsletters"
  const AdminAnalytics: string := "/admin/analytics"
  const AdminProfile: string := "/admin/profile"

  const SuperAdminHome: string := "/super-admin"
  const SuperAdminUsers: string := "/super-admin/users"
  const SuperAdminRoles: string := "/super-admin/roles"
  const SuperAdminAuditLogs: string := "/super-admin/audit-logs"

  /** The hrefs of `navItems` in each component. */
  const AdminNavbarItems: set<string> := {AdminHome, AdminNewsletters, AdminAnalytics}
  const AdminSidebarItems: set<string> := {AdminHome, AdminNewsletters, AdminAnalytics, AdminProfile}
  const SuperAdminNavbarItems: set<string> := {SuperAdminHome, SuperAdminUsers, SuperAdminRoles, SuperAdminAuditLogs}
  const SuperAdminSidebarItems: set<string> := {SuperAdminHome, SuperAdminUsers, SuperAdminRoles}

  /** `isActive` of AdminNavbar (desktop) and AdminSidebar. */
  predicate AdminActive(path: string, href: string) {
    path == href || StartsWith(path, href + "/")
  }

  /** `isActive` of SuperAdminNavbar (desktop) and SuperAdminSidebar. */
  predicate SuperAdminActive(path: string, href: string) {
    path == href || (StartsWith(path, href) && href != SuperAdminHome)
  }

  /** `isActive` of both mobile menus. */
  predicate MobileActive(path: string, href: string) {
    path == href
  }

  lemma PrefixTransitive(a: string, b: string, c: string)
    requires a <= b && b <= c
    ensures a <= c
  {
    assert c[..|a|] == b[..|a|];
  }

  // ---------------------------------------------------------------------------
  // The admin components

  /** An item is highlighted when the path is its href or lies below it, the next
      character after the href being "/". */
  lemma AdminActiveMeansBelow(path: string, href: string)
    ensures AdminActive(path, href) <==>
      path == href || (|path| > |href| && path[..|href|] == href && path[|href|] == '/')
  {
    if |path| > |href| && path[..|href|] == href && path[|href|] == '/' {
      assert path[..|href| + 1] == href + "/";
    }
  }

  /** Whatever is highlighted in a mobile menu is highlighted on the desktop bar. */
  lemma MobileImpliesDesktop(path: string, href: string)
    ensures MobileActive(path, href) ==> AdminActive(path, href) && SuperAdminActive(path, href)
  {
  }

  /** "Dashboard" is highlighted wherever any admin item is: on /admin and every
      page below it, so on an item's page two items are highlighted. */
  lemma DashboardActiveWithEveryItem(path: string, href: string)
    requires href in AdminSidebarItems && AdminActive(path, href)
    ensures AdminActive(path, AdminHome)
    ensures href != AdminHome ==> StartsWith(path, AdminHome + "/")
  {
    if href != AdminHome {
      assert AdminHome + "/" <= href;
      if path != href {
        PrefixTransitive(href, href + "/", path);
      }
      PrefixTransitive(AdminHome + "/", href, path);
    }
  }

  /** On /admin/profile exactly "Dashboard" and "Profile" are highlighted. */
  lemma ProfilePageHighlights()
    ensures forall h :: h in AdminSidebarItems ==> (AdminActive(AdminProfile, h) <==> h == AdminHome || h == AdminProfile)
  {
    assert AdminProfile[..7] == AdminHome + "/";
    assert AdminProfile[7] == 'p';
  }

  /** A path that shares a prefix with an href without the "/" boundary does not
      highlight it: /administrator highlights nothing, /admin/newsletters-x only
      "Dashboard". */
  lemma NoBoundaryNoHighlight()
    ensures forall h :: h in AdminSidebarItems ==> !AdminActive("/administrator", h)
    ensures forall h :: h in AdminNavbarItems ==> (AdminActive("/admin/newsletters-x", h) <==> h == AdminHome)
  {
    assert "/administrator"[6] == 'i';
    assert "/admin/newsletters-x"[18] == '-';
    assert "/admin/newsletters-x"[7] == 'n';
    assert "/admin/newsletters-x"[..7] == AdminHome + "/";
    forall h | h in AdminSidebarItems ensures !AdminActive("/administrator", h) {
      if AdminActive("/administrator", h) {
        DashboardActiveWithEveryItem("/administrator", h);
      }
    }
  }

  /** Outside /admin, that is unless Dashboard itself is highlighted, no item of the
      admin sidebar or navbar is. */
  lemma AdminSidebarQuietOutsideAdmin(path: string)
    requires !AdminActive(path, AdminHome)
    ensures forall h :: h in AdminSidebarItems ==> !AdminActive(path, h)
    ensures forall h :: h in AdminNavbarItems ==> !AdminActive(path, h)
  {
    forall h | h in AdminSidebarItems ensures !AdminActive(path, h) {
      if AdminActive(path, h) {
        DashboardActiveWithEveryItem(path, h);
      }
    }
  }

  // ---------------------------------------------------------------------------
  // The super-admin components

  /** "System" and "Overview" are highlighted only on /super-admin itself. */
  lemma SuperAdminHomeExact(path: string)
    ensures SuperAdminActive(path, SuperAdminHome) <==> path == SuperAdminHome
  {
  }

  /** The other items are highlighted on any path that starts with their href,
      with no "/" boundary: /super-admin/usersX highlights "Users". */
  lemma SuperAdminItemsByPrefix(path: string, href: string)
    requires href in SuperAdminNavbarItems && href != SuperAdminHome
    ensures SuperAdminActive(path, href) <==> StartsWith(path, href)
    ensures SuperAdminActive(SuperAdminUsers + "X", SuperAdminUsers)
  {
  }

  /** At most one item of the super-admin navbar, and so of its sidebar, is
      highlighted on any path. */
  lemma AtMostOneSuperAdminItem(path: string, h1: string, h2: string)
    requires h1 in SuperAdminNavbarItems && h2 in SuperAdminNavbarItems
    requires SuperAdminActive(path, h1) && SuperAdminActive(path, h2)
    ensures h1 == h2
  {
    if h1 == SuperAdminHome || h2 == SuperAdminHome {
      assert path == SuperAdminHome;
    } else {
      assert SuperAdminActive(path, SuperAdminUsers) ==> path[13] == 'u';
      assert SuperAdminActive(path, SuperAdminRoles) ==> path[13] == 'r';
      assert SuperAdminActive(path, SuperAdminAuditLogs) ==> path[13] == 'a';
    }
  }

  /** The audit-log page has no sidebar entry: there no sidebar item is
      highlighted, while the navbar highlights "Audit Logs" alone. */
  lemma AuditLogsHasNoSidebarItem()
    ensures forall h :: h in SuperAdminSidebarItems ==> !SuperAdminActive(SuperAdminAuditLogs, h)
    ensures forall h :: h in SuperAdminNavbarItems ==> (SuperAdminActive(SuperAdminAuditLogs, h) <==> h == SuperAdminAuditLogs)
  {
    assert SuperAdminAuditLogs[13] == 'a';
  }
}
