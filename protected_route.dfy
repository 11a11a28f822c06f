/** The route gate. Its effect decides where to navigate, and its render
    decides what to show. Both read the authentication state: `isLoading`,
    the user (`isAuthenticated` is `!!user`), and the optional list of
    roles the route admits. */
module ProtectedRoute {

  import opened Wrappers
  import opened AuthContext

  datatype Screen = LoadingView | Nothing | Children

  /** The route admits the user: no role list, or the user's role is listed. */
  predicate Admits(user: User, allowedRoles: Option<seq<Role>>) {
    allowedRoles.None? || user.role in allowedRoles.value
  }

  /** The effect: to "/login" when loading is over and nobody is signed in,
      to "/unauthorized" when the signed-in user's role is not admitted,
      nowhere otherwise. */
  function Navigation(isLoading: bool, user: Option<User>, allowedRoles: Option<seq<Role>>): (nav: Option<string>)
    ensures isLoading ==> nav == None
    ensures !isLoading && user.None? ==> nav == Some("/login")
    ensures !isLoading && user.Some? ==> (nav == Some("/unauthorized") <==> !Admits(user.value, allowedRoles))
    ensures nav.Some? ==> nav.value in {"/login", "/unauthorized"}
  {
    if !isLoading && user.None? then Some("/login")
    else if !isLoading && user.Some? && allowedRoles.Some? && user.value.role !in allowedRoles.value then Some("/unauthorized")
    else None
  }

  /** The render: the loading view while loading; nothing for a visitor or
      an unadmitted role; the children otherwise. */
  function Render(isLoading: bool, user: Option<User>, allowedRoles: Option<seq<Role>>): (screen: Screen)
    ensures isLoading <==> screen == LoadingView
    ensures screen == Children <==> !isLoading && user.Some? && Admits(user.value, allowedRoles)
  {
    if isLoading then LoadingView
    else if user.None? then Nothing
    else if allowedRoles.Some? && user.value.role !in allowedRoles.value then Nothing
    else Children
  }

  /** The effect and the render agree: the gate navigates away exactly when
      it renders nothing, and never while it shows the loading view or the
      children. */
  lemma NavigatesIffNothing(isLoading: bool, user: Option<User>, allowedRoles: Option<seq<Role>>)
    ensures Navigation(isLoading, user, allowedRoles).Some? <==> Render(isLoading, user, allowedRoles) == Nothing
  {
  }

  /** A route without a role list admits every signed-in user. */
  lemma OpenRouteAdmitsEveryone(user: User)
    ensures Render(false, Some(user), None) == Children
    ensures Navigation(false, Some(user), None) == None
  {
  }
}
