# NewsletterMS access control and content pages, in Dafny

This project models the role-based core of NewsletterMS, a newsletter publishing
web application with three roles: `user`, `admin` and `super_admin`. It covers:

- **The edge gate** (`EdgeGate`, from `middleware.ts`). It runs in front of every
  page. It reads the `authToken` cookie and resolves the token to a role through
  the identity service and the `users` document. Then it lets the request through
  or redirects it to `/login`, `/dashboard`, `/admin` or `/super-admin`. The two
  REST calls are inputs: a `Backend` value carries the two configuration variables
  and the answers the two services give.
- **The client-side guards** of the pages (`ClientGuards`). These are the
  `router.push` effects and the "render nothing unless" checks. Lemmas state where
  they agree with each other and with the gate, and where they do not.
- **The user and audit-log collections** (`UserStore`) as the profile, roles and
  users pages change them. A class holds the `users` table and the `auditLogs`
  list. Each handler is a method, specified by a pure transition on the table.
- **The dashboards**:
  - `AdminDashboard`: the greeting, and the status tally of the newsletters
    listener, a loop.
  - `SuperAdminDashboard`: the four counts and the "Requests" card.
- **The audit-log page** (`AuditLogsPage`): the 50 newest entries, newest first.
- **The profile page** (`ProfilePage`), **the roles page** (`RolesPage`) and
  **the users page** (`UsersPage`): the request status, the listeners that fill
  the request and user lists, and the role changes offered per row.
- **The content library** (`NewsletterList`): the search and status filter.
- **The two "new newsletter" editors** (`Slug`, `NewsletterEditor`):
  - `generateSlug`;
  - the title/slug form state, as a class;
  - the document `handleSubmit` writes.
- **Navigation highlighting** (`Navigation`): the `isActive` tests of the admin
  and super-admin navbars and sidebars.

The gate and the pages' own guards do not agree on `super_admin` under `/admin`:

- The gate admits only `admin` under `/admin` and sends `super_admin` to
  `/super-admin` (middleware.ts:80-84; `EdgeGate.AdminAreaPolicy`,
  `EdgeGate.SuperAdminLockedOutOfAdminArea`).
- The admin dashboard's client guard admits both `admin` and `super_admin`
  (app/admin/page.tsx:51), and so do its data listeners (app/admin/page.tsx:59).
  Behind the gate that branch is never reached
  (`ClientGuards.SuperAdminAdmittedOnlyByClient`).
- The super-admin dashboard links to `/admin/newsletters`, which the gate never lets a
  `super_admin` reach.

The route prefixes are plain `startsWith` tests with no "/" boundary, so
`/administrator` is guarded as admin area (`EdgeGate.AdministratorIsGuarded`).

## Model

| member | source | states |
|---|---|---|
| EdgeGate.IdentityUid | middleware.ts:32 | The uid is `users[0].localId` of a successful lookup. An empty `users` array gives no uid, since the read throws and the throw is caught. |
| EdgeGate.IsPublic | middleware.ts:64 | Exactly "/login", "/signup" and "/" are public. |
| EdgeGate.TokenOf | middleware.ts:60-69 | The cookie counts as a token exactly when it is present and non-empty (`!token`), and the token is the cookie's value. |
| EdgeGate.ResolveRole | middleware.ts:6-57 | A role is resolved exactly when the token is non-empty, both config variables are set, the lookup answers 2xx with at least one user, and that user's document read answers 2xx. A resolved role is never empty. |
| EdgeGate.Gate | middleware.ts:59-99 | Every redirect goes to one of /login, /dashboard, /admin, /super-admin. A redirect anywhere but /login happens only for a non-public path with a token present. |
| EdgeGate.RoutePolicy | middleware.ts:80-98 | Once a role is resolved, the role-based rules never redirect to /login. They only redirect to one of the three homes. |
| EdgeGate.PublicPathsPass | middleware.ts:63-66 | /login, /signup and / pass whatever the cookie. |
| EdgeGate.MissingTokenGoesToLogin | middleware.ts:68-71 | A non-public path with no cookie, or an empty one, goes to /login. |
| EdgeGate.ResolutionFailuresGiveNoRole | middleware.ts:7-56 | Each failure yields no role. The failures are: empty token, missing config, a non-2xx or throwing lookup, an empty users array, a non-2xx or throwing document read. |
| EdgeGate.ResolvedRoleIsStoredRole | middleware.ts:47-51 | The resolved role is the stored `role.stringValue`, or "user" when that is absent or empty. |
| EdgeGate.UnresolvedRoleGoesToLogin | middleware.ts:74-78 | Fail-closed: no resolved role on a non-public path gives a redirect to /login. |
| EdgeGate.AdminAreaPolicy | middleware.ts:80-84 | Under the raw prefix "/admin", only "admin" passes. super_admin goes to /super-admin and every other role to /dashboard. |
| EdgeGate.SuperAdminAreaPolicy | middleware.ts:86-90 | Under "/super-admin", only super_admin passes. admin goes to /admin and every other role to /dashboard. |
| EdgeGate.DashboardPolicy | middleware.ts:92-96 | /dashboard sends admin to /admin and super_admin to /super-admin, and admits every other role. |
| EdgeGate.OtherPathsPass | middleware.ts:80-98 | A path outside the three guarded groups passes for every resolved role. |
| EdgeGate.RedirectTargetPasses | middleware.ts:59-98 | No redirect loops: the target of any redirect passes the gate with the same cookie and the same service answers. |
| EdgeGate.AdministratorIsGuarded | middleware.ts:81 | "/administrator" counts as admin area, since there is no segment boundary. |
| EdgeGate.UnknownRoleActsAsUser | middleware.ts:80-98 | Any role string other than admin and super_admin is routed exactly like "user". |
| EdgeGate.SuperAdminLockedOutOfAdminArea | middleware.ts:80-84 | A super_admin is redirected to /super-admin from every path under "/admin". |
| ClientGuards.ProfileGuard | app/profile/page.tsx:17-21 | Once loading ends, a visitor without an account is pushed to /login, and only then. |
| ClientGuards.AdminDashboardGuard | app/admin/page.tsx:47-55 | Nothing is pushed while loading. No account goes to /login. A signed-in account stays exactly when its role is admin or super_admin, and otherwise goes to /dashboard. |
| ClientGuards.SuperAdminDashboardGuard | app/super-admin/page.tsx:25-34 | No account goes to /login. A signed-in account stays if super_admin; admin goes to /admin and anything else to /dashboard. |
| ClientGuards.RegistryGuard | app/super-admin/roles/page.tsx:23-28 | Roles and users pages: no account goes to /login. A signed-in account stays exactly when super_admin, and otherwise goes to /dashboard. |
| ClientGuards.AuditLogsGuard | app/super-admin/audit-logs/page.tsx:25-28 | Once loaded, the visitor is pushed to /login exactly when there is no account or the role is not super_admin. |
| Common.IsPrivileged | app/admin/newsletters/page.tsx:28 | The render guard of the content library and the admin editor: the role is admin or super_admin. |
| Common.IsSuperAdmin | app/super-admin/page.tsx:39 | The role is super_admin. It is the render guard of the users page, the super-admin dashboard and the super-admin editor. It is also the test that starts the queries of the super-admin dashboard and the roles, users and audit-log pages. |
| ClientGuards.RenderGuardsNest | app/admin/newsletters/page.tsx:28 | The super_admin-only render guard implies the admin-or-super_admin one. They differ only on "admin". Any other role renders neither. |
| ClientGuards.DataFollowsAdminGuard | app/admin/page.tsx:47-59 | Once loaded, the dashboard's listeners run exactly when its guard lets the visitor stay. While loading, they already run for a signed-in admin or super_admin. |
| ClientGuards.GuardsAgreeWithoutAccount | app/super-admin/roles/page.tsx:23-28 | All five guards wait while loading. All five send a visitor without an account to /login. |
| ClientGuards.AdminSentThreeWays | app/super-admin/page.tsx:27-33 | A signed-in admin is sent to /admin, /dashboard and /login by the dashboard, registry and audit-log guards respectively. |
| ClientGuards.SuperAdminAdmittedOnlyByClient | app/admin/page.tsx:47-55 | The admin dashboard's guard admits super_admin, while the gate redirects super_admin away from /admin. |
| ClientGuards.GateAndRegistryAgree | app/super-admin/users/page.tsx:24-29 | Under "/super-admin", and for the role the gate resolved, the gate lets a request through exactly when the registry and audit-log guards stay put. |
| UserStore.WithAdminRequest | app/profile/page.tsx:43-45 | The table after `updateDoc` sets `adminRequest: true` on that user. |
| UserStore.WithRole | app/super-admin/roles/page.tsx:68-71 | The table after `updateDoc` sets the role and clears `adminRequest`. The users page writes the same update (app/super-admin/users/page.tsx:64-67). |
| UserStore.WithoutAdminRequest | app/super-admin/roles/page.tsx:82-84 | The table after `updateDoc` clears `adminRequest` and keeps the role. |
| UserStore.Pending | app/super-admin/roles/page.tsx:33-37 | The uids of the query: `adminRequest` is true and the role is "user". |
| UserStore.Entry | app/super-admin/roles/page.tsx:51-59 | The audit document `logAudit` writes: the action, the details, and the actor's email and uid, both absent without an account. |
| UserStore.ApprovedDetails | app/super-admin/roles/page.tsx:72 | The ADMIN_APPROVED detail text: "Approved admin request for <email> (<uid>)". |
| UserStore.RejectedDetails | app/super-admin/roles/page.tsx:85 | The ADMIN_REJECTED detail text: "Rejected admin request for <email> (<uid>)". |
| UserStore.RoleChangeDetails | app/super-admin/users/page.tsx:68 | The ROLE_CHANGE detail text: "Changed role of <email> (<uid>) to <target>". |
| UserStore.UserStore.RequestAdmin | app/profile/page.tsx:40-49 | Without an account, nothing changes. Otherwise the account's `adminRequest` is set when the write succeeds. No audit entry is written. |
| UserStore.UserStore.UpdateThenLog | app/super-admin/roles/page.tsx:51-63 | The shared write: the user update is applied if written. The audit entry is appended only after it, and only if its own write succeeds; a failed audit write keeps the update. |
| UserStore.UserStore.Approve | app/super-admin/roles/page.tsx:65-77 | Declined confirmation: nothing changes. Otherwise, if the update is written (a missing uid throws): role becomes admin, the request is cleared, and an ADMIN_APPROVED entry with the exact details text is appended. |
| UserStore.UserStore.Reject | app/super-admin/roles/page.tsx:79-90 | Likewise: only the request flag is cleared, and an ADMIN_REJECTED entry is appended. |
| UserStore.UserStore.UpdateRole | app/super-admin/users/page.tsx:60-74 | Likewise: the role is set to the target and the request is cleared. A ROLE_CHANGE entry naming the target is appended. |
| UserStore.RequestTouchesOnlyFlag | app/profile/page.tsx:43-45 | A request sets that user's flag and changes no other field and no other user. |
| UserStore.RequestIdempotent | app/profile/page.tsx:43-45 | Requesting twice equals requesting once. |
| UserStore.RequestMakesPending | app/profile/page.tsx:43-45 | A "user" who requests is added to the roles page's pending list. Nobody else is added. |
| UserStore.ApproveClearsRequest | app/super-admin/roles/page.tsx:68-71 | Approval makes the user admin and removes exactly that user from the pending list. |
| UserStore.RejectClearsRequest | app/super-admin/roles/page.tsx:82-84 | Rejection keeps the role and removes exactly that user from the pending list. |
| UserStore.RoleChangeFrame | app/super-admin/users/page.tsx:64-67 | A role change rewrites one record to (same email, target role, no request, same creation time). Every other user is unchanged. |
| ProfilePage.OnUserSnapshot | app/profile/page.tsx:25-30 | An existing document sets the status to pending when `adminRequest` is truthy and to none otherwise. A missing document keeps the status. |
| ProfilePage.Action | app/profile/page.tsx:106-136 | A "user" sees the request button, or "Reviewing" while a request is pending. Any other role sees the notice. |
| ProfilePage.StatusFromDocument | app/profile/page.tsx:25-30 | An existing document sets the status to pending exactly when `adminRequest` is set, and never to "rejected". |
| ProfilePage.NeverRejected | app/profile/page.tsx:14-30 | The declared "rejected" status is unreachable from the initial state. |
| ProfilePage.RequestOfferedOnlyToUsers | app/profile/page.tsx:106-136 | "Request Access" shows exactly for role "user" without a pending request. The privileges notice shows exactly for every other role. |
| ProfilePage.RequestShowsReviewing | app/profile/page.tsx:23-49 | After a "user" requests, the next snapshot shows "Reviewing", and the roles page lists that user. |
| UsersPage.OfferedTargets | app/super-admin/users/page.tsx:129-155 | The buttons per row: "user" gets admin; "admin" gets user and super_admin; any other role gets none. |
| UsersPage.OnUsersSnapshot | app/super-admin/users/page.tsx:31-44 | No listener runs and nothing changes unless the role is super_admin. Otherwise a snapshot lists exactly the users whose document has `createdAt` and loading ends: `orderBy("createdAt")` leaves out documents without that field. |
| UsersPage.RoleChangeKeepsList | app/super-admin/users/page.tsx:64-67 | A role change leaves the listed users unchanged. |
| UsersPage.IsProtected | app/super-admin/users/page.tsx:153-155 | A super_admin row shows "Protected" instead of buttons. |
| UsersPage.OfferedTransitions | app/super-admin/users/page.tsx:129-155 | Exactly user→admin, admin→user and admin→super_admin are offered. A super_admin row is protected and offers nothing. |
| UsersPage.OfferedChangesKeepSuperAdmins | app/super-admin/users/page.tsx:129-155 | No offered change removes the role of any super_admin. |
| RolesPage.OnRequestsSnapshot | app/super-admin/roles/page.tsx:31-49 | No listener runs and nothing changes unless the role is super_admin. Otherwise a snapshot lists exactly the users with `adminRequest` true and role "user", and loading ends. |
| RolesPage.DecisionLeavesList | app/super-admin/roles/page.tsx:65-90 | After an approval or a rejection, the next snapshot lists the same requests less the decided one. |
| RolesPage.RequestAppearsInList | app/profile/page.tsx:43-45 | A request by a "user" appears in the roles page's next snapshot. |
| AdminDashboard.Greeting | app/admin/page.tsx:40-43 | Morning before 12, afternoon from 12 to 17, evening from 18 on, each in both directions. |
| AdminDashboard.OnNewsletterSnapshot | app/admin/page.tsx:58-85 | Without a signed-in admin or super_admin nothing changes, since the listener is never registered. Otherwise the loop's draft, published and scheduled counts equal the number of documents with each status. Recent activity is the first four documents. The subscriber count and loading flag are kept. |
| AdminDashboard.OnSubscriptionSnapshot | app/admin/page.tsx:58-100 | Without a signed-in admin or super_admin nothing changes. Otherwise a snapshot sets only the subscriber count; an error keeps it. Loading ends either way. |
| AdminDashboard.Subscribed | app/admin/page.tsx:59 | The listeners start only for a signed-in admin or super_admin. |
| AdminDashboard.CountStatus | app/admin/page.tsx:66-71 | The number of snapshot documents whose status is exactly the given one. |
| AdminDashboard.TallyBound | app/admin/page.tsx:66-72 | The three counts sum to at most the snapshot size. They sum to exactly the size iff every status is one of the three. |
| AdminDashboard.UntalliedCountsNowhere | app/admin/page.tsx:68-71 | A document with any other status changes no count. |
| SuperAdminDashboard.FetchStats | app/super-admin/page.tsx:37-66 | Nothing happens unless the role is super_admin. Otherwise all four counts are set together, or all are kept when a read throws, and fetching ends. |
| SuperAdminDashboard.UserCounts | app/super-admin/page.tsx:45-53 | What the four counts count in a table: all users, those with `adminRequest` true, those with role "admin", and the newsletters. |
| SuperAdminDashboard.ShowsAlertDot | app/super-admin/page.tsx:126 | The pulsing dot shows exactly when some request is pending. |
| SuperAdminDashboard.RequestsLabel | app/super-admin/page.tsx:135 | "Action Required" exactly when requests are pending, "All Clear" exactly when none are. |
| SuperAdminDashboard.DotMatchesLabel | app/super-admin/page.tsx:126-135 | The alert dot shows exactly when the label reads "Action Required". |
| SuperAdminDashboard.PendingCountCoversList | app/super-admin/page.tsx:45-51 | The dashboard's pending count (any role with the flag) is at least the roles page's list (role "user" only). The admin count is at most the user count. |
| AuditLogsPage.Insert | app/super-admin/audit-logs/page.tsx:36 | Inserting into a newest-first list keeps it newest first and adds exactly that entry. |
| AuditLogsPage.SortNewestFirst | app/super-admin/audit-logs/page.tsx:33-37 | `orderBy("timestamp", "desc")`: newest first, and a permutation of the collection. |
| AuditLogsPage.LaterIsOlder | app/super-admin/audit-logs/page.tsx:36 | In a newest-first list, a later entry is never newer than an earlier one. |
| AuditLogsPage.PrefixIsNewestFirst | app/super-admin/audit-logs/page.tsx:36-37 | Taking the first k of a newest-first list (`limit`) keeps it newest first, and the list is the prefix plus the rest. |
| AuditLogsPage.DroppedAreOlder | app/super-admin/audit-logs/page.tsx:36-37 | No entry past the limit is newer than any entry within it. |
| AuditLogsPage.ShownLogsAreNewest | app/super-admin/audit-logs/page.tsx:33-44 | The page shows min(n, 50) entries, newest first, all from the collection, and all of them when n ≤ 50. Every left-out entry is no newer than any shown one. |
| AuditLogsPage.ShownLogs | app/super-admin/audit-logs/page.tsx:33-44 | The answer of `orderBy("timestamp", "desc")` with `limit(50)`: the collection sorted newest first, cut at 50. |
| AuditLogsPage.FetchLogs | app/super-admin/audit-logs/page.tsx:30-53 | Nothing happens unless the role is super_admin. Otherwise the list becomes the shown logs, or is kept when the query throws, and loading ends. |
| AuditLogsPage.FailedFetchShowsNothing | app/super-admin/audit-logs/page.tsx:21-49 | A failed first fetch leaves an empty list and ends loading. |
| Common.Lower | app/admin/newsletters/page.tsx:52 | `toLowerCase`, character by character, of the same length. |
| Common.LowerIdempotent | app/admin/newsletters/page.tsx:52 | Lower-casing twice equals lower-casing once. |
| Slug.SkipRun | app/admin/newsletters/new/page.tsx:38 | What is left after a run of non-[a-z0-9] characters is a suffix that is empty or starts with [a-z0-9]. |
| Slug.Dashify | app/admin/newsletters/new/page.tsx:38 | `replace(/[^a-z0-9]+/g, "-")` leaves only [a-z0-9-] with no "--". It is empty iff its input is, and it starts with the input's first character or "-". |
| Slug.TrimDashes | app/admin/newsletters/new/page.tsx:38 | `replace(/(^-\|-$)+/g, "")` on such a string gives a slug: [a-z0-9-], no "--", no "-" at either end. |
| Slug.GenerateSlug | app/admin/newsletters/new/page.tsx:37-39 | Every output is a slug: only [a-z0-9-], never "--", never a leading or trailing "-". |
| Slug.DashifyKeepsAlnums | app/admin/newsletters/new/page.tsx:38 | Removing the "-" from the dashed text gives the [a-z0-9] characters of the input, in order. |
| Slug.TrimKeepsNonDashes | app/admin/newsletters/new/page.tsx:38 | Trimming the ends removes "-" only. |
| Slug.SlugKeepsAlnums | app/admin/newsletters/new/page.tsx:37-39 | A slug without its "-" is exactly the [a-z0-9] characters of the lower-cased title, in order. |
| Slug.SlugIdempotent | app/admin/newsletters/new/page.tsx:37-39 | generateSlug(generateSlug(x)) == generateSlug(x). |
| NewsletterEditor.NextSlug | app/admin/newsletters/new/page.tsx:41-44 | The slug after a title edit: the admin editor always regenerates it; the super-admin editor only while it is empty (app/super-admin/newsletters/new/page.tsx:38-42). |
| NewsletterEditor.ListPath | app/admin/newsletters/new/page.tsx:70 | After saving, the admin editor goes to /admin/newsletters and the super-admin editor to /super-admin/newsletters (app/super-admin/newsletters/new/page.tsx:68). |
| NewsletterEditor.NewsletterForm.constructor | app/admin/newsletters/new/page.tsx:16-22 | The form starts empty, with status "draft" and no image. |
| NewsletterEditor.NewsletterForm.TitleChange | app/admin/newsletters/new/page.tsx:41-44 | The title is set. The admin editor regenerates the slug; the super-admin editor regenerates it only while empty. Nothing else changes. |
| NewsletterEditor.NewsletterForm.SlugChange | app/admin/newsletters/new/page.tsx:109 | A manual slug edit is kept as typed, and nothing else changes. |
| NewsletterEditor.NewsletterForm.ImageChange | app/admin/newsletters/new/page.tsx:29-35 | The first chosen file becomes the image. An empty choice keeps the previous one. |
| NewsletterEditor.NewsletterForm.Submit | app/admin/newsletters/new/page.tsx:46-75 | Submission requires the `required` inputs: title and content, plus the slug in the admin editor, so a created document never has them empty. A document is created iff the upload (when an image was chosen) and the write succeed. It carries the form fields and the author. `heroImageUrl` is the upload URL or "". `publishedAt` is set iff status is "published". The page then goes to its own list. |
| NewsletterEditor.AdminSlugFollowsTitle | app/admin/newsletters/new/page.tsx:41-44 | In the admin editor, after any title edits the slug is the slug of the last title, so manual edits are lost. |
| NewsletterEditor.SuperAdminSlugFreezes | app/super-admin/newsletters/new/page.tsx:38-43 | In the super-admin editor a non-empty slug never changes on a title edit. From an empty form it freezes at the first title giving a non-empty slug. |
| NewsletterEditor.TitleEditGivesSlug | app/super-admin/newsletters/new/page.tsx:38-43 | A title edit leaves either the previous slug or a well-formed slug, always the latter in the admin editor. |
| NewsletterList.MatchesSearch | app/admin/newsletters/page.tsx:52 | The lower-cased title contains the lower-cased search term. |
| NewsletterList.MatchesStatus | app/admin/newsletters/page.tsx:53 | The filter is "all" or equals the status. |
| NewsletterList.ShowsEmptyState | app/admin/newsletters/page.tsx:160 | "No newsletters found." shows when nothing passes the filter and loading has ended. |
| NewsletterList.Filtered | app/admin/newsletters/page.tsx:51-55 | The filter never lengthens the list. |
| NewsletterList.FilteredMembers | app/admin/newsletters/page.tsx:51-55 | An item is shown iff it is in the list, its lower-cased title contains the lower-cased term, and the filter is "all" or equals its status. |
| NewsletterList.FilteredIsSubsequence | app/admin/newsletters/page.tsx:51 | The result keeps the fetched order: it is a subsequence of the list. |
| NewsletterList.EmptySearchShowsAll | app/admin/newsletters/page.tsx:52-53 | An empty search with "all" shows the whole list. |
| NewsletterList.SearchIgnoresCase | app/admin/newsletters/page.tsx:52 | Terms that lower-case alike give the same result. |
| NewsletterList.AllCoversEveryStatus | app/admin/newsletters/page.tsx:53 | "all" contains every item of a single-status result and is at least as long. It includes matching "scheduled" items, which the select offers no filter for. |
| NewsletterList.EmptyStateMeansNoMatch | app/admin/newsletters/page.tsx:160 | The empty-state block shows iff loading has ended and no item matches. |
| Navigation.AdminActive | app/components/layout/AdminNavbar.tsx:40 | `isActive` of the admin navbar and sidebar (AdminSidebar.tsx:29): the path is the href or starts with the href and "/". |
| Navigation.SuperAdminActive | app/components/layout/SuperAdminNavbar.tsx:41 | `isActive` of the super-admin navbar and sidebar (SuperAdminSidebar.tsx:28): the path is the href, or starts with it when the href is not "/super-admin". |
| Navigation.MobileActive | app/components/layout/AdminNavbar.tsx:116 | `isActive` of both mobile menus (SuperAdminNavbar.tsx:117): the path is the href. |
| Navigation.AdminActiveMeansBelow | app/components/layout/AdminNavbar.tsx:40 | An admin item is highlighted iff the path is its href, or continues it with "/". |
| Navigation.MobileImpliesDesktop | app/components/layout/AdminNavbar.tsx:40-116 | An item highlighted in a mobile menu (exact match) is highlighted on the desktop bar. |
| Navigation.DashboardActiveWithEveryItem | app/components/layout/AdminSidebar.tsx:13-29 | "Dashboard" is highlighted wherever any admin item is. |
| Navigation.ProfilePageHighlights | app/components/layout/AdminSidebar.tsx:13-29 | On /admin/profile exactly "Dashboard" and "Profile" are highlighted. |
| Navigation.NoBoundaryNoHighlight | app/components/layout/AdminNavbar.tsx:16-40 | /administrator highlights no item. /admin/newsletters-x highlights "Dashboard" only. |
| Navigation.AdminSidebarQuietOutsideAdmin | app/components/layout/AdminSidebar.tsx:12-29 | Outside /admin and its subpaths, no admin item is highlighted. |
| Navigation.SuperAdminHomeExact | app/components/layout/SuperAdminNavbar.tsx:41 | "System"/"Overview" is highlighted only on /super-admin exactly. |
| Navigation.SuperAdminItemsByPrefix | app/components/layout/SuperAdminNavbar.tsx:15-41 | The other super-admin items are highlighted on any path that starts with their href, with no boundary. |
| Navigation.AtMostOneSuperAdminItem | app/components/layout/SuperAdminNavbar.tsx:15-41 | No two super-admin items are highlighted on the same path. |
| Navigation.AuditLogsHasNoSidebarItem | app/components/layout/SuperAdminSidebar.tsx:12-28 | On /super-admin/audit-logs no sidebar item is highlighted. The navbar highlights "Audit Logs" alone. |

## Left out

- The REST `fetch` calls, JSON parsing and environment reads of the gate are not performed. `Backend` carries their answers, and an empty string stands for an unset variable.
- The gate's `matcher` regular expression in `middleware.ts:101-105` (which paths the gate runs on) is not modelled. The gate is modelled as running on the path it is given.
- The Firestore SDK (listeners, queries, `getCountFromServer`, `serverTimestamp`) is not modelled as such:
  - snapshots and counts are parameters;
  - a server timestamp is an `int`;
  - snapshots are taken in the order given. The admin dashboard's `orderBy("updatedAt", "desc")` is not modelled, so `AdminDashboard.OnNewsletterSnapshot` keeps the first four documents given, not provably the four most recently updated. The users page's `orderBy("createdAt", "desc")` is modelled only as the filter it implies (documents without `createdAt` are left out): `UsersPage.OnUsersSnapshot` lists a set of uids, not their order. Ordering is modelled for the audit log only.
- The order in which listener callbacks and async handlers interleave (races, unsubscription) is not modelled. Each callback is one atomic step.
- Documents with equal timestamps are not ordered as the Firestore query orders them. The query breaks such ties by document id. `AuditLogsPage.Insert` and `AuditLogsPage.SortNewestFirst` put the later-listed of two tied documents first instead.
- Firestore's rejection of `undefined` field values is not modelled. With no signed-in account, `user?.uid` is `undefined`, so `addDoc` would likely reject the write. The model still builds the record, with a `None` field: a `UserStore.Entry` with `None` for `performedByUid`, or a `NewsletterEditor.NewsletterDoc` with `None` for `authorId`.
- The Cloudinary upload is a parameter: its URL, or `None` when it throws.
- The browser's `confirm`, `alert` and `console` calls are not modelled. A confirmation is a boolean, and an alert is a `Failed`/`UpdateFailed` outcome.
- `toLowerCase` is modelled on ASCII letters only. Non-ASCII case mappings (for example the Kelvin sign) are not modelled.
- Common.Lower: states ASCII lower-casing, not full Unicode `toLowerCase`.
- A `null` role is modelled as any string other than the three role names. An undefined `localId` in a lookup answer is not distinguished from a present one.
- `handleDelete` of the content library, the content and status inputs of the editors (plain field setters), the image preview URL and `isSubmitting` are not modelled.
- Menu and dropdown open/close toggles of the navbars are not modelled, as UI state.
- JSX layout, dates shown with `toLocaleDateString`, and the pages outside this core are not modelled. Those pages are the user dashboard, the public newsletter pages, community, analytics, the admin and super-admin profile pages, `UserNavbar` and both `layout.tsx` files.
- AdminDashboard.Greeting: the hour is a parameter; reading the local clock is left out.
