/**
 * The route guard of the client (client/components/ProtectedRoute.tsx): what it renders
 * for a loading flag, a signed-in user or none, and the optional role constraints; and the
 * three guards built from it.
 */
module ProtectedRoute {
  import opened Wrappers
  import Auth

  /** What the guard renders. */
  datatype Screen = Spinner | LoginForm | Denied(message: string) | Children

  /** `array.join(sep)`. */
  function Join(items: seq<string>, sep: string): (r: string)
    ensures items == [] ==> r == ""
    ensures |items| == 1 ==> r == items[0]
  {
    if items == [] then "" else if |items| == 1 then items[0] else items[0] + sep + Join(items[1..], sep)
  }

  function RequiredRoleMessage(role: string): string {
    "Access denied. This page requires " + role + " role privileges."
  }

  function AnyRoleMessage(roles: seq<string>): string {
    "Access denied. This page requires one of the following roles: " + Join(roles, ", ") + "."
  }

  /** `requiredRole && user.role !== requiredRole`: an empty role is no constraint. */
  predicate FailsRequiredRole(role: string, requiredRole: Option<string>) {
    requiredRole.Some? && requiredRole.value != "" && role != requiredRole.value
  }

  /** `requireAnyRole && !requireAnyRole.includes(user.role)`: an empty list admits nobody. */
  predicate FailsAnyRole(role: string, requireAnyRole: Option<seq<string>>) {
    requireAnyRole.Some? && role !in requireAnyRole.value
  }

  /**
   * `ProtectedRoute`: the spinner while loading, then the login form without a user, then a denial
   * for the required role, then a denial for the role list, and otherwise the protected content.
   */
  function Decide(loading: bool, user: Option<Auth.User>, requiredRole: Option<string>,
                  requireAnyRole: Option<seq<string>>): (r: Screen)
    ensures loading ==> r == Spinner
    ensures !loading && user.None? ==> r == LoginForm
    ensures r == Children <==>
      !loading && user.Some? && !FailsRequiredRole(user.value.role, requiredRole)
      && !FailsAnyRole(user.value.role, requireAnyRole)
    ensures r.Denied? <==>
      !loading && user.Some? && (FailsRequiredRole(user.value.role, requiredRole)
      || FailsAnyRole(user.value.role, requireAnyRole))
    ensures !loading && user.Some? && FailsRequiredRole(user.value.role, requiredRole) ==>
      r == Denied(RequiredRoleMessage(requiredRole.value))
    ensures !loading && user.Some? && !FailsRequiredRole(user.value.role, requiredRole)
            && FailsAnyRole(user.value.role, requireAnyRole) ==>
      r == Denied(AnyRoleMessage(requireAnyRole.value))
  {
    if loading then Spinner
    else if user.None? then LoginForm
    else if FailsRequiredRole(user.value.role, requiredRole) then Denied(RequiredRoleMessage(requiredRole.value))
    else if FailsAnyRole(user.value.role, requireAnyRole) then Denied(AnyRoleMessage(requireAnyRole.value))
    else Children
  }

  /** Without constraints every signed-in user sees the content once loading is over. */
  lemma NoConstraintAdmitsEveryone(user: Auth.User)
    ensures Decide(false, Some(user), None, None) == Children
    ensures Decide(false, Some(user), Some(""), None) == Children
  {
  }

  /** An empty role list denies every user, whatever the role. */
  lemma EmptyRoleListDeniesEveryone(user: Auth.User, requiredRole: Option<string>)
    ensures Decide(false, Some(user), requiredRole, Some([])).Denied?
  {
  }

  function GovernmentOnly(loading: bool, user: Option<Auth.User>): Screen {
    Decide(loading, user, Some("government"), None)
  }

  function ResearcherOnly(loading: bool, user: Option<Auth.User>): Screen {
    Decide(loading, user, Some("researcher"), None)
  }

  function AuthenticatedOnly(loading: bool, user: Option<Auth.User>): Screen {
    Decide(loading, user, None, Some(["government", "researcher"]))
  }

  /** `GovernmentOnly` admits exactly the government role, `ResearcherOnly` exactly the researcher role. */
  lemma SingleRoleGuards(user: Auth.User)
    ensures GovernmentOnly(false, Some(user)) == Children <==> user.role == "government"
    ensures ResearcherOnly(false, Some(user)) == Children <==> user.role == "researcher"
    ensures user.role != "government" ==> GovernmentOnly(false, Some(user)) == Denied(RequiredRoleMessage("government"))
  {
  }

  /** `AuthenticatedOnly` admits exactly those two roles and names both when it denies. */
  lemma AuthenticatedOnlyGuard(user: Auth.User)
    ensures AuthenticatedOnly(false, Some(user)) == Children <==> user.role == "government" || user.role == "researcher"
    ensures AuthenticatedOnly(false, Some(user)).Denied? ==>
      AuthenticatedOnly(false, Some(user)) == Denied(AnyRoleMessage(["government", "researcher"]))
  {
  }

  /** The denial of `AuthenticatedOnly` lists the two roles separated by a comma and a space. */
  lemma AuthenticatedOnlyRoles()
    ensures Join(["government", "researcher"], ", ") == "government, researcher"
  {
    assert ["government", "researcher"][1..] == ["researcher"];
  }

  /** None of the server's demo users (viewer, curator, admin) passes any of the three guards. */
  lemma DemoUsersPassNoGuard()
    ensures forall u :: u in Auth.Users() ==>
      && GovernmentOnly(false, Some(u)).Denied?
      && ResearcherOnly(false, Some(u)).Denied?
      && AuthenticatedOnly(false, Some(u)).Denied?
  {
    forall u | u in Auth.Users()
      ensures u.role == "viewer" || u.role == "curator" || u.role == "admin"
    {
    }
  }
}
