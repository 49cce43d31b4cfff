/** The guard wrapped around every dashboard page: it waits for the session,
    sends strangers to the login page, keeps executives out of the customer and
    user administration pages, and enforces a page's required role. */
module ProtectedRoute {
  import opened Wrappers
  import opened JsString
  import AuthProvider

  /** What the guard renders. */
  datatype Decision = Spinner | ToLogin | ToDashboard | Render

  /** The page prefixes an executive may not open. */
  const RestrictedPaths: seq<string> := ["/dashboard/customers", "/dashboard/user-management"]

  /** `restrictedPaths.some(p => path.startsWith(p))`. */
  predicate Restricted(path: string) {
    exists p :: p in RestrictedPaths && StartsWith(path, p)
  }

  predicate IsExecutive(user: Option<AuthProvider.User>) {
    user.Some? && Lower(user.value.role) == "executive"
  }

  /** The role check; an empty `requiredRole` is falsy and demands nothing. */
  predicate RoleMet(user: Option<AuthProvider.User>, requiredRole: string) {
    requiredRole == "" || (user.Some? && Lower(user.value.role) == Lower(requiredRole))
  }

  /** The guard's checks in the order they are made. */
  function Decide(isLoading: bool, user: Option<AuthProvider.User>, path: string, requiredRole: string): (r: Decision)
    ensures isLoading <==> r == Spinner
    ensures r == ToLogin <==> !isLoading && user.None?
    ensures r == Render <==>
              !isLoading && user.Some? && !(IsExecutive(user) && Restricted(path)) && RoleMet(user, requiredRole)
  {
    if isLoading then Spinner
    else if user.None? then ToLogin
    else if Lower(user.value.role) == "executive" &&
            (StartsWith(path, RestrictedPaths[0]) || StartsWith(path, RestrictedPaths[1])) then ToDashboard
    else if requiredRole != "" && Lower(user.value.role) != Lower(requiredRole) then ToDashboard
    else Render
  }

  /** However the page is configured, an executive in any letter case never
      sees the customer or user administration pages, nor any page below them. */
  lemma ExecutiveKeptOut(user: AuthProvider.User, suffix: string, requiredRole: string)
    requires Lower(user.role) == "executive"
    ensures Decide(false, Some(user), RestrictedPaths[0] + suffix, requiredRole) == ToDashboard
    ensures Decide(false, Some(user), RestrictedPaths[1] + suffix, requiredRole) == ToDashboard
  {
    assert (RestrictedPaths[0] + suffix)[..|RestrictedPaths[0]|] == RestrictedPaths[0];
    assert (RestrictedPaths[1] + suffix)[..|RestrictedPaths[1]|] == RestrictedPaths[1];
  }

  /** A page that requires a role renders only for a user holding it, in any
      letter case. */
  lemma RequiredRoleRenders(user: AuthProvider.User, path: string, requiredRole: string)
    requires requiredRole != ""
    ensures Decide(false, Some(user), path, requiredRole) == Render ==> Lower(user.role) == Lower(requiredRole)
    ensures Lower(user.role) == Lower(requiredRole) && Lower(requiredRole) != "executive" ==>
              Decide(false, Some(user), path, requiredRole) == Render
  {
  }
}
