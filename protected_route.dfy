// The route guard (src/components/ProtectedRoute.tsx): while the session
// loads only a skeleton shows; a missing user is sent to `/auth`; a user
// whose role ranks below the required one is sent to `/`; otherwise the
// page renders. A user without a role skips the role check.

module ProtectedRoute {
  import opened Common
  import opened AdminRoutes

  datatype Outcome = Skeleton | RedirectToAuth | AccessDenied(toast: string) | RenderChildren

  /** The guard's own hierarchy, which has no public level. */
  function GuardLevel(role: Role): (n: nat)
    ensures 1 <= n <= 4
  {
    match role
    case User => 1
    case Editor => 2
    case Admin => 3
    case SuperAdmin => 4
    case Enterprise => 3
  }

  /** The guard ranks every role exactly as the navigation filter does. */
  lemma GuardAgreesWithNavigation(role: Role)
    ensures GuardLevel(role) == Level(Some(role))
  {
  }

  /** The decision `ProtectedRoute` renders. `requireAuth` defaults to true at the call site. */
  function Guard(loading: bool, requireAuth: bool, hasUser: bool, requiredRole: Option<Role>, role: Option<Role>)
    : (r: Outcome)
    ensures loading <==> r == Skeleton
    ensures !loading && requireAuth && !hasUser <==> r == RedirectToAuth
    ensures r.AccessDenied? <==>
      !loading && !(requireAuth && !hasUser) && requiredRole.Some? && role.Some?
      && GuardLevel(role.value) < GuardLevel(requiredRole.value)
    ensures r.AccessDenied? ==> r.toast == "You need " + RoleName(requiredRole.value) + " role to access this page."
  {
    if loading then Skeleton
    else if requireAuth && !hasUser then RedirectToAuth
    else if requiredRole.Some? && role.Some? && GuardLevel(role.value) < GuardLevel(requiredRole.value) then
      AccessDenied("You need " + RoleName(requiredRole.value) + " role to access this page.")
    else RenderChildren
  }

  /** A signed-in user without a role is never refused for rank. */
  lemma NullRoleSkipsCheck(requireAuth: bool, requiredRole: Option<Role>)
    ensures Guard(false, requireAuth, true, requiredRole, None) == RenderChildren
  {
  }

  /** Raising a user's rank never turns a rendered page into a refusal. */
  lemma GuardMonotone(requireAuth: bool, hasUser: bool, requiredRole: Option<Role>, lower: Role, higher: Role)
    requires GuardLevel(lower) <= GuardLevel(higher)
    requires Guard(false, requireAuth, hasUser, requiredRole, Some(lower)) == RenderChildren
    ensures Guard(false, requireAuth, hasUser, requiredRole, Some(higher)) == RenderChildren
  {
  }

  /** `enterprise` passes wherever `admin` passes, and the other way round. */
  lemma EnterpriseIsAdmin(requireAuth: bool, hasUser: bool, requiredRole: Option<Role>)
    ensures Guard(false, requireAuth, hasUser, requiredRole, Some(Enterprise)).RenderChildren?
        <==> Guard(false, requireAuth, hasUser, requiredRole, Some(Admin)).RenderChildren?
  {
  }
}
