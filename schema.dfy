/** Rows of the schema-only models the core reads: users (accounts/models.py),
    patients (patients/models.py, with the HMO reduced to its name) and lab
    requests and results (models.py of the lab app). */
module Schema {
  import opened Common

  /** A stored user account. */
  datatype User = User(
    username: string,
    email: string,
    role: string,
    usablePassword: bool)

  /** `request.user`: an anonymous visitor is not authenticated and has no
      role attribute; `pk` is the account's primary key when there is one. */
  datatype Viewer = Viewer(
    authenticated: bool,
    superuser: bool,
    role: Option<string>,
    pk: Option<nat>)

  /** A patient; `hmo` is the name of the linked HMO, if any. */
  datatype Patient = Patient(
    user: Option<nat>,
    hospitalNumber: string,
    firstName: string,
    lastName: string,
    phone: string,
    email: string,
    isHmo: bool,
    hmo: Option<string>)

  /** "last first", the display name the claim items and reports snapshot. */
  function DisplayName(p: Patient): string {
    p.lastName + " " + p.firstName
  }

  /** A lab test in the catalogue. */
  datatype LabTest = LabTest(name: string, category: string, active: bool)

  datatype LabStatus = Requested | SampleCollected | ResultReady
  datatype LabPriority = Routine | Urgent

  datatype LabRequest = LabRequest(
    visit: nat,
    test: nat,
    priority: LabPriority,
    status: LabStatus,
    requestedAt: Instant)

  /** At most one result per request (a one-to-one field). */
  datatype LabResult = LabResult(
    request: nat,
    resultText: string,
    remarks: string,
    performedBy: Option<nat>)
}
