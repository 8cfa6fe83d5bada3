/** The route guard around each dashboard. */
module PrivateRoute {
  import opened Wrappers

  datatype User = User(role: string)

  datatype Decision = ShowLoading | RedirectTo(path: string) | RenderChildren

  /** The guard: the loading screen while loading, the login page without a
      user, the user's own dashboard for a user of another role, the
      children otherwise. The auth context offers no `loading`, so the guard
      reads it as undefined and is always called with `loading` false: the
      loading screen never shows, and a missing user goes to the login page. */
  function Guard(loading: bool, user: Option<User>, role: string): (r: Decision)
    ensures loading ==> r == ShowLoading
    ensures !loading && user.None? ==> r == RedirectTo("/login")
    ensures !loading && user.Some? && user.value.role != role ==> r == RedirectTo("/" + user.value.role)
    ensures r == RenderChildren <==> !loading && user.Some? && user.value.role == role
  {
    if loading then ShowLoading
    else if user.None? then RedirectTo("/login")
    else if user.value.role != role then RedirectTo("/" + user.value.role)
    else RenderChildren
  }

  /** A user of another role is never sent to the route they were refused. */
  lemma RedirectLeavesRoute(user: User, role: string)
    requires user.role != role
    ensures Guard(false, Some(user), role) != RedirectTo("/" + role)
  {
    var a, b := "/" + user.role, "/" + role;
    assert a[1..] == user.role && b[1..] == role;
  }
}
