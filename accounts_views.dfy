/** accounts/views.py: where `RoleBasedLoginView` sends a user after login. */
module AccountsViews {
  import opened Common
  import opened Schema

  datatype Destination = PatientPortal | NextUrl(url: string) | PatientList

  /** `get_success_url`. `next` is what `get_redirect_url()` returns: the
      safe `next` parameter, or "" when there is none. A user without a
      role attribute is treated as staff. */
  function SuccessUrl(u: Viewer, next: string): (r: Destination)
    ensures u.role == Some("patient") ==> r == PatientPortal
    ensures u.role != Some("patient") && next != "" ==> r == NextUrl(next)
    ensures u.role != Some("patient") && next == "" ==> r == PatientList
  {
    if u.role == Some("patient") then PatientPortal
    else if next != "" then NextUrl(next)
    else PatientList
  }

  /** A patient never follows a `next` URL; staff never land on the portal. */
  lemma SuccessUrlRoles(u: Viewer, next: string)
    ensures SuccessUrl(u, next).NextUrl? ==> u.role != Some("patient")
    ensures SuccessUrl(u, next) == PatientPortal <==> u.role == Some("patient")
  {
  }
}
