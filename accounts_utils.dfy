/** accounts/utils.py: the role gate every staff view calls first, and the
    `login_required` decorator in front of it. */
module AccountsUtils {
  import opened Common
  import opened Schema

  /** The outcome of a gate: the caller may go on, or it is refused with
      the message of the `PermissionDenied` raised. */
  datatype Gate = Allow | Deny(message: string)

  const LoginRequiredMessage := "Login required"
  const NoPermissionMessage := "You do not have permission to access this page."

  /** `require_roles(user, roles)`. */
  function RequireRoles(u: Viewer, roles: set<string>): (r: Gate)
    ensures !u.authenticated ==> r == Deny(LoginRequiredMessage)
    ensures u.authenticated && u.superuser ==> r == Allow
    ensures u.authenticated && !u.superuser ==>
      (r == Allow <==> u.role.Some? && u.role.value in roles)
    ensures r.Deny? ==> r.message in {LoginRequiredMessage, NoPermissionMessage}
  {
    if !u.authenticated then Deny(LoginRequiredMessage)
    else if u.superuser then Allow
    else if u.role.None? || u.role.value !in roles then Deny(NoPermissionMessage)
    else Allow
  }

  /** Granting more roles never shuts anybody out. */
  lemma RequireRolesMonotone(u: Viewer, roles: set<string>, more: set<string>)
    requires roles <= more
    ensures RequireRoles(u, roles) == Allow ==> RequireRoles(u, more) == Allow
  {
  }

  /** An empty role set admits exactly the authenticated superusers. */
  lemma RequireNoRoles(u: Viewer)
    ensures RequireRoles(u, {}) == Allow <==> u.authenticated && u.superuser
  {
  }

  /** `@login_required` followed by `require_roles(request.user, roles)`:
      `None` lets the view go on, otherwise the refusal it ends with. An
      anonymous visitor is sent to log in before the gate is reached. */
  function StaffGate(u: Viewer, roles: set<string>): (r: Option<Outcome>)
    ensures !u.authenticated ==> r == Some(LoginRequired)
    ensures u.authenticated ==>
      (r.None? <==> RequireRoles(u, roles) == Allow)
    ensures u.authenticated && r.Some? ==> r == Some(Forbidden(NoPermissionMessage))
  {
    if !u.authenticated then Some(LoginRequired)
    else match RequireRoles(u, roles)
      case Allow => None
      case Deny(m) => Some(Forbidden(m))
  }

  /** `@login_required` alone. */
  function LoginGate(u: Viewer): (r: Option<Outcome>)
    ensures r.None? <==> u.authenticated
    ensures r.Some? ==> r == Some(LoginRequired)
  {
    if u.authenticated then None else Some(LoginRequired)
  }
}
