/** The route guard around every signed-in page. */
module ProtectedRoute {
  import opened Wrappers
  import opened Models

  datatype Outcome = ShowLoading | RedirectTo(path: string) | RenderChildren

  /** The page each role is sent to when it opens a page of the other role. */
  function HomeOf(role: Role): string {
    match role
    case Admin => "/admin"
    case CustomerRole => "/dashboard"
  }

  /** The guard's decision from the auth state and the page's required role. */
  function Guard(loading: bool, user: Option<Customer>, requiredRole: Option<Role>): (o: Outcome)
    ensures loading ==> o == ShowLoading
    ensures !loading && user.None? ==> o == RedirectTo("/login")
    ensures o == RenderChildren <==>
              !loading && user.Some? && (requiredRole.None? || requiredRole.value == user.value.role)
    ensures !loading && user.Some? && requiredRole.Some? && requiredRole.value != user.value.role ==>
              o == RedirectTo(HomeOf(user.value.role))
  {
    if loading then ShowLoading
    else if user.None? then RedirectTo("/login")
    else if requiredRole.Some? && user.value.role != requiredRole.value then
      if user.value.role == Admin then RedirectTo("/admin") else RedirectTo("/dashboard")
    else RenderChildren
  }

  /**
   * A mismatched role is sent to its own home; a guard requiring that
   * role renders the children, so if `/admin` and `/dashboard` are guarded
   * by their own roles the redirect does not loop.
   */
  lemma RedirectSettles(user: Customer, requiredRole: Option<Role>)
    requires Guard(false, Some(user), requiredRole).RedirectTo?
    ensures Guard(false, Some(user), requiredRole).path == HomeOf(user.role)
    ensures Guard(false, Some(user), Some(user.role)) == RenderChildren
  {
  }

  /** Nobody without the required role sees the page, whatever the loading state. */
  lemma GuardIsSafe(loading: bool, user: Option<Customer>, role: Role)
    ensures Guard(loading, user, Some(role)) == RenderChildren ==> user.Some? && user.value.role == role
  {
  }
}
