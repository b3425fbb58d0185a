/** patients/portal_utils.py: the gate of the patient portal. */
module PortalUtils {
  import opened Common
  import opened Schema
  import opened AccountsUtils

  const PatientOnlyMessage := "Patient access only"

  /** `patient_only(user)`: only an authenticated user whose role is
      "patient" passes; being a superuser does not help. */
  function PatientOnly(u: Viewer): (r: Gate)
    ensures r == Allow <==> u.authenticated && u.role == Some("patient")
    ensures r.Deny? ==> r.message == PatientOnlyMessage
  {
    if !u.authenticated || u.role != Some("patient") then Deny(PatientOnlyMessage) else Allow
  }

  /** The portal gate and the staff gate never both admit a non-superuser:
      a patient is only let through a staff view that lists "patient". */
  lemma PortalAndStaffDisjoint(u: Viewer, roles: set<string>)
    requires !u.superuser && "patient" !in roles
    ensures !(PatientOnly(u) == Allow && RequireRoles(u, roles) == Allow)
  {
  }
}
