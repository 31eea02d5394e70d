// Role-filtered navigation (src/hooks/useAdminRoutes.ts over the table in
// src/lib/adminRoutes.ts): a route is shown when it is public or the
// signed-in role ranks at least as high as the route requires, and the
// shown routes are grouped by section. Icons and labels' rendering are
// left out; each route keeps its path, label text, section and required role.

module AdminRoutes {
  import opened Common

  datatype Role = User | Editor | Admin | SuperAdmin | Enterprise

  datatype Access = PublicAccess | Needs(role: Role)

  datatype Section = PublicSection | UserSection | AdminSection | SuperAdminSection

  datatype AdminRoute = AdminRoute(path: string, name: string, section: Section, requiredRole: Access)

  function RoleName(role: Role): string {
    match role
    case User => "user"
    case Editor => "editor"
    case Admin => "admin"
    case SuperAdmin => "super_admin"
    case Enterprise => "enterprise"
  }

  /** `roleHierarchy[role || 'public']`: `enterprise` ranks with `admin`, and no role ranks as public. */
  function Level(role: Option<Role>): (n: nat)
    ensures n <= 4
    ensures n == 0 <==> role.None?
  {
    match role
    case None => 0
    case Some(User) => 1
    case Some(Editor) => 2
    case Some(Admin) => 3
    case Some(SuperAdmin) => 4
    case Some(Enterprise) => 3
  }

  /** `adminRoutes`. */
  const Routes: seq<AdminRoute> := [
    AdminRoute("/", "Home", PublicSection, PublicAccess),
    AdminRoute("/gallery", "Gallery", PublicSection, PublicAccess),
    AdminRoute("/dashboard", "Dashboard", UserSection, Needs(User)),
    AdminRoute("/my-ads", "My Ads", UserSection, Needs(User)),
    AdminRoute("/admin/users", "Users", AdminSection, Needs(Admin)),
    AdminRoute("/admin/analytics", "Analytics", AdminSection, Needs(Admin)),
    AdminRoute("/admin/settings", "Settings", AdminSection, Needs(Admin)),
    AdminRoute("/admin/system", "System", SuperAdminSection, Needs(SuperAdmin))
  ]

  /** The section a required role belongs to. */
  function SectionOf(access: Access): Section {
    match access
    case PublicAccess => PublicSection
    case Needs(User) => UserSection
    case Needs(Admin) => AdminSection
    case Needs(SuperAdmin) => SuperAdminSection
    case Needs(_) => AdminSection
  }

  /** The table: eight routes, distinct paths, each in the section of its role; only `/` and `/gallery` are public and only `/admin/system` needs `super_admin`. */
  lemma RouteTable()
    ensures |Routes| == 8
    ensures forall i, j :: 0 <= i < j < |Routes| ==> Routes[i].path != Routes[j].path
    ensures forall k :: 0 <= k < |Routes| ==> SectionOf(Routes[k].requiredRole) == Routes[k].section
    ensures forall k :: 0 <= k < |Routes| ==> (Routes[k].requiredRole.PublicAccess? <==> Routes[k].path in {"/", "/gallery"})
    ensures forall k :: 0 <= k < |Routes| ==> (Routes[k].requiredRole == Needs(SuperAdmin) <==> Routes[k].path == "/admin/system")
  {
  }

  predicate Visible(route: AdminRoute, role: Option<Role>) {
    route.requiredRole.PublicAccess? || Level(role) >= Level(Some(route.requiredRole.role))
  }

  /** `adminRoutes.filter(...)` for the current role, in table order. */
  function VisibleRoutes(routes: seq<AdminRoute>, role: Option<Role>): (r: seq<AdminRoute>)
    ensures forall x :: x in r <==> x in routes && Visible(x, role)
    ensures |r| <= |routes|
    ensures IsFilter(r, routes, (x: AdminRoute) => Visible(x, role))
  {
    if |routes| == 0 then []
    else
      var rest := VisibleRoutes(routes[1..], role);
      FilterCons((x: AdminRoute) => Visible(x, role), routes, rest);
      assert forall x :: x in routes <==> x == routes[0] || x in routes[1..];
      if Visible(routes[0], role) then [routes[0]] + rest else rest
  }

  /** A role that ranks higher never sees fewer routes. */
  lemma VisibilityMonotone(routes: seq<AdminRoute>, lower: Option<Role>, higher: Option<Role>)
    requires Level(lower) <= Level(higher)
    ensures forall x :: x in VisibleRoutes(routes, lower) ==> x in VisibleRoutes(routes, higher)
  {
  }

  function InSection(routes: seq<AdminRoute>, section: Section): (r: seq<AdminRoute>)
    ensures forall x :: x in r <==> x in routes && x.section == section
    ensures IsFilter(r, routes, (x: AdminRoute) => x.section == section)
  {
    if |routes| == 0 then []
    else
      var rest := InSection(routes[1..], section);
      FilterCons((x: AdminRoute) => x.section == section, routes, rest);
      assert forall x :: x in routes <==> x == routes[0] || x in routes[1..];
      if routes[0].section == section then [routes[0]] + rest else rest
  }

  datatype BySection = BySection(publicRoutes: seq<AdminRoute>, userRoutes: seq<AdminRoute>,
                                 adminRoutes: seq<AdminRoute>, superAdminRoutes: seq<AdminRoute>)

  /** `routesBySection`. */
  function RoutesBySection(visible: seq<AdminRoute>): (r: BySection)
    ensures multiset(r.publicRoutes) + multiset(r.userRoutes) + multiset(r.adminRoutes) + multiset(r.superAdminRoutes)
         == multiset(visible)
    ensures forall x :: x in r.publicRoutes ==> x.section == PublicSection
    ensures forall x :: x in r.userRoutes ==> x.section == UserSection
    ensures forall x :: x in r.adminRoutes ==> x.section == AdminSection
    ensures forall x :: x in r.superAdminRoutes ==> x.section == SuperAdminSection
    ensures Subsequence(r.publicRoutes, visible) && Subsequence(r.userRoutes, visible)
         && Subsequence(r.adminRoutes, visible) && Subsequence(r.superAdminRoutes, visible)
  {
    SectionsPartition(visible);
    BySection(InSection(visible, PublicSection), InSection(visible, UserSection),
              InSection(visible, AdminSection), InSection(visible, SuperAdminSection))
  }

  /** The four sections together hold every route exactly once. */
  lemma {:induction false} SectionsPartition(routes: seq<AdminRoute>)
    ensures multiset(InSection(routes, PublicSection)) + multiset(InSection(routes, UserSection))
          + multiset(InSection(routes, AdminSection)) + multiset(InSection(routes, SuperAdminSection))
         == multiset(routes)
  {
    var p, u := InSection(routes, PublicSection), InSection(routes, UserSection);
    var a, s := InSection(routes, AdminSection), InSection(routes, SuperAdminSection);
    forall x
      ensures (multiset(p) + multiset(u) + multiset(a) + multiset(s))[x] == multiset(routes)[x]
    {
      assert multiset(p)[x] == if x.section == PublicSection then multiset(routes)[x] else 0;
      assert multiset(u)[x] == if x.section == UserSection then multiset(routes)[x] else 0;
      assert multiset(a)[x] == if x.section == AdminSection then multiset(routes)[x] else 0;
      assert multiset(s)[x] == if x.section == SuperAdminSection then multiset(routes)[x] else 0;
    }
  }

  /** Visibility depends on the rank alone: `enterprise` sees what `admin` sees. */
  lemma {:induction false} SameLevelSameRoutes(routes: seq<AdminRoute>, a: Option<Role>, b: Option<Role>)
    requires Level(a) == Level(b)
    ensures VisibleRoutes(routes, a) == VisibleRoutes(routes, b)
  {
    if |routes| > 0 {
      SameLevelSameRoutes(routes[1..], a, b);
    }
  }

  /** The top rank sees every route, in table order. */
  lemma {:induction false} SuperAdminSeesAll(routes: seq<AdminRoute>)
    ensures VisibleRoutes(routes, Some(SuperAdmin)) == routes
  {
    if |routes| > 0 {
      SuperAdminSeesAll(routes[1..]);
      assert routes == [routes[0]] + routes[1..];
    }
  }
}
