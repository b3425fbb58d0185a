/** patients/views.py: who may see which patient record, the staff patient
    search, the portal's fallback, and how registering a patient links it
    to a login account. */
module PatientsViews {
  import opened Common
  import opened Text
  import opened Schema
  import opened VisitsModels
  import opened BillingModels
  import opened Store
  import opened AccountsUtils
  import opened Queries
  import opened PatientsSignals

  const PatientListLimit := 200
  const NotLinkedMessage := "Patient profile not linked."
  const OtherPatientMessage := "You cannot view another patient's record."

  /** Where a view redirects to. */
  datatype Route = PortalRoute | ListRoute | DetailRoute(pk: nat)

  /** What a view ends with: a page with its content, a redirect, or a
      refusal (or a 404). */
  datatype View<+T> = Render(content: T) | Redirect(route: Route) | Refuse(outcome: Outcome)

  /** `_is_patient_user`: the role attribute is "patient" (a user without one is not). */
  predicate IsPatientUser(u: Viewer) {
    u.role == Some("patient")
  }

  /** `request.user.patient`: the row of the patient linked to the account. */
  function PatientOfUser(patients: seq<Patient>, user: Option<nat>): (r: Option<nat>)
    ensures r.Some? ==> r.value < |patients| && user.Some? && patients[r.value].user == user
    ensures r.None? ==> user.None? || forall i :: 0 <= i < |patients| ==> patients[i].user != user
  {
    if user.None? || patients == [] then None
    else
      var last := |patients| - 1;
      if patients[last].user == user then Some(last)
      else
        var r := PatientOfUser(patients[..last], user);
        assert forall i :: 0 <= i < last ==> patients[..last][i] == patients[i];
        r
  }

  /** With one patient per account, the linked patient is the one found. */
  lemma PatientOfUserUnique(patients: seq<Patient>, userCount: nat, k: nat)
    requires PatientsOk(patients, userCount)
    requires k < |patients| && patients[k].user.Some?
    ensures PatientOfUser(patients, patients[k].user) == Some(k)
  {
  }

  // ---------------------------------------------------------------- patient_detail

  /** `patient_detail(pk)`: the row shown. A patient user sees only their
      own linked record and is refused anything else, a missing pk included;
      every other user sees any existing record. */
  function PatientDetail(u: Viewer, patients: seq<Patient>, pk: nat): (r: View<nat>)
    ensures !u.authenticated ==> r == Refuse(LoginRequired)
    ensures u.authenticated && IsPatientUser(u) ==>
      match PatientOfUser(patients, u.pk)
      case None => r == Refuse(Forbidden(NotLinkedMessage))
      case Some(k) => r == if k + 1 == pk then Render(k) else Refuse(Forbidden(OtherPatientMessage))
    ensures u.authenticated && !IsPatientUser(u) ==>
      r == if InRange(pk, |patients|) then Render(pk - 1) else Refuse(NotFound)
  {
    if !u.authenticated then Refuse(LoginRequired)
    else if IsPatientUser(u) then
      match PatientOfUser(patients, u.pk)
      case None => Refuse(Forbidden(NotLinkedMessage))
      case Some(k) => if k + 1 != pk then Refuse(Forbidden(OtherPatientMessage)) else Render(k)
    else if !InRange(pk, |patients|) then Refuse(NotFound)
    else Render(pk - 1)
  }

  /** A patient user is shown a record only when it is the one linked to
      their account; staff are shown exactly the record asked for. */
  lemma DetailShowsOwnRecord(u: Viewer, patients: seq<Patient>, pk: nat)
    ensures PatientDetail(u, patients, pk).Render? ==>
      var k := PatientDetail(u, patients, pk).content;
      k + 1 == pk && k < |patients| && (IsPatientUser(u) ==> u.pk.Some? && patients[k].user == u.pk)
  {
  }

  // ---------------------------------------------------------------- patient_list

  /** The search filter: an empty query keeps everyone, otherwise the
      hospital number, first name, last name or phone contains it,
      ignoring case. */
  predicate PatientMatches(p: Patient, q: string) {
    || q == ""
    || IContains(p.hospitalNumber, q)
    || IContains(p.firstName, q)
    || IContains(p.lastName, q)
    || IContains(p.phone, q)
  }

  /** The rows the list shows for the stripped query: newest first, at most 200. */
  function PatientSearch(patients: seq<Patient>, q: string): (r: seq<nat>)
    ensures |r| <= PatientListLimit
    ensures forall i :: i in r ==> i < |patients| && PatientMatches(patients[i], q)
  {
    NewestPage(|patients|, (i: nat) => i < |patients| && PatientMatches(patients[i], q), PatientListLimit);
    Take(NewestFirst(|patients|, (i: nat) => i < |patients| && PatientMatches(patients[i], q)), PatientListLimit)
  }

  /** The search shows only matching patients, newest first, at most 200,
      and leaves a match out only when the page is full of newer ones. */
  lemma PatientSearchSpec(patients: seq<Patient>, q: string)
    ensures var r := PatientSearch(patients, q);
      && |r| <= PatientListLimit
      && Descending(r)
      && (forall i :: i in r ==> i < |patients| && PatientMatches(patients[i], q))
      && (forall i: nat :: i < |patients| && PatientMatches(patients[i], q) && i !in r ==>
            |r| == PatientListLimit && forall j :: j in r ==> j > i)
  {
    NewestPage(|patients|, (i: nat) => i < |patients| && PatientMatches(patients[i], q), PatientListLimit);
  }

  /** `patient_list`: patient users are sent to the portal. */
  function PatientList(u: Viewer, patients: seq<Patient>, rawQ: string): (r: View<seq<nat>>)
    ensures !u.authenticated ==> r == Refuse(LoginRequired)
    ensures u.authenticated && IsPatientUser(u) ==> r == Redirect(PortalRoute)
    ensures u.authenticated && !IsPatientUser(u) ==> r == Render(PatientSearch(patients, Strip(rawQ)))
  {
    if !u.authenticated then Refuse(LoginRequired)
    else if IsPatientUser(u) then Redirect(PortalRoute)
    else Render(PatientSearch(patients, Strip(rawQ)))
  }

  // ---------------------------------------------------------------- patient_portal

  /** The visits of the patient with primary key `patient`, newest first. */
  function VisitsOf(visits: seq<Visit>, patient: nat): (r: seq<nat>)
    ensures forall i :: i in r ==> i < |visits| && visits[i].patient == patient
  {
    NewestFirstSpec(|visits|, (i: nat) => i < |visits| && visits[i].patient == patient);
    NewestFirst(|visits|, (i: nat) => i < |visits| && visits[i].patient == patient)
  }

  lemma VisitsOfSpec(visits: seq<Visit>, patient: nat)
    ensures forall i: nat :: i in VisitsOf(visits, patient) <==> i < |visits| && visits[i].patient == patient
    ensures Descending(VisitsOf(visits, patient))
  {
    NewestFirstSpec(|visits|, (i: nat) => i < |visits| && visits[i].patient == patient);
  }

  /** `patient_portal`: the linked patient and their visits. It checks no
      role: any account with a linked patient gets the portal, and one
      without is sent to the staff list. */
  function PatientPortal(u: Viewer, patients: seq<Patient>, visits: seq<Visit>): (r: View<(nat, seq<nat>)>)
    ensures !u.authenticated ==> r == Refuse(LoginRequired)
    ensures u.authenticated ==>
      match PatientOfUser(patients, u.pk)
      case None => r == Redirect(ListRoute)
      case Some(k) => r == Render((k, VisitsOf(visits, k + 1)))
  {
    if !u.authenticated then Refuse(LoginRequired)
    else
      match PatientOfUser(patients, u.pk)
      case None => Redirect(ListRoute)
      case Some(k) => Render((k, VisitsOf(visits, k + 1)))
  }

  // ---------------------------------------------------------------- patient_create

  /** The posted registration fields the model keeps. */
  datatype PatientForm = PatientForm(
    firstName: string,
    lastName: string,
    phone: string,
    email: string,
    isHmo: bool,
    hmo: Option<string>)

  /** The patient the form builds: no account and, until the post-save hook
      runs, no hospital number. */
  function FormPatient(f: PatientForm): (p: Patient)
    ensures p.user.None? && p.hospitalNumber == ""
    ensures p.firstName == f.firstName && p.lastName == f.lastName && p.phone == f.phone && p.email == f.email
    ensures p.isHmo == f.isHmo && p.hmo == f.hmo
  {
    Patient(None, "", f.firstName, f.lastName, f.phone, f.email, f.isHmo, f.hmo)
  }

  /** `User.objects.filter(username=name)`: the row of the account, if any. */
  function UserByName(users: seq<User>, name: string): (r: Option<nat>)
    ensures r.Some? ==> r.value < |users| && users[r.value].username == name
    ensures r.None? ==> forall i :: 0 <= i < |users| ==> users[i].username != name
  {
    if users == [] then None
    else
      var last := |users| - 1;
      if users[last].username == name then Some(last)
      else
        var r := UserByName(users[..last], name);
        assert forall i :: 0 <= i < last ==> users[..last][i] == users[i];
        r
  }

  /** The account `get_or_create` makes for a new patient's email: a
      patient account that cannot log in until a password is set. */
  function PatientAccount(email: string): (r: User)
    ensures r.username == email && r.email == email && r.role == "patient" && !r.usablePassword
  {
    User(email, email, "patient", false)
  }

  /** `User.objects.get_or_create(username=email, defaults=...)`: the user
      table and the primary key of the account named by the email, created
      as a patient account when there is none. */
  function GetOrCreateAccount(users: seq<User>, email: string): (r: (seq<User>, nat))
    ensures 1 <= r.1 <= |r.0| && r.0[r.1 - 1].username == email
    ensures UserByName(users, email).Some? ==> r == (users, UserByName(users, email).value + 1)
    ensures UserByName(users, email).None? ==> r == (users + [PatientAccount(email)], |users| + 1)
  {
    match UserByName(users, email)
    case Some(k) => (users, k + 1)
    case None => (users + [PatientAccount(email)], |users| + 1)
  }

  /** The user and patient tables after a registration that succeeded:
      without an email no account is touched; with one, the account named
      by the email is linked, and created first when there is none. The new
      patient then gets its hospital number. */
  function Registered(users: seq<User>, patients: seq<Patient>, f: PatientForm): (seq<User>, seq<Patient>) {
    var p := FormPatient(f).(hospitalNumber := HospitalNumberFor(|patients| + 1));
    if f.email == "" then (users, patients + [p])
    else
      var (users', k) := GetOrCreateAccount(users, f.email);
      (users', patients + [p.(user := Some(k))])
  }

  /** The link fails when the account is already linked to another
      patient: the one-to-one column rejects the save. */
  predicate LinkTaken(users: seq<User>, patients: seq<Patient>, email: string) {
    email != "" && PatientOfUser(patients, Some(GetOrCreateAccount(users, email).1)).Some?
  }

  /** A registration links an account exactly when an email was given, to
      the account whose username is that email; it creates an account only
      when none had that username, and never touches an existing one. */
  lemma RegisteredLink(users: seq<User>, patients: seq<Patient>, f: PatientForm)
    ensures var r := Registered(users, patients, f);
      && |r.1| == |patients| + 1 && r.1[..|patients|] == patients
      && (r.1[|patients|].user.Some? <==> f.email != "")
      && r.0[..|users|] == users
      && (|r.0| > |users| <==> f.email != "" && UserByName(users, f.email).None?)
    ensures var r := Registered(users, patients, f);
      f.email != "" ==> exists k :: 0 <= k < |r.0| && r.1[|patients|].user == Some(k + 1) && r.0[k].username == f.email
  {
    var r := Registered(users, patients, f);
    if f.email != "" {
      var k := GetOrCreateAccount(users, f.email).1;
      assert r.1[|patients|].user == Some(k) && r.0[k - 1].username == f.email;
    }
  }

  /** `patient_create`. A patient user is sent to the portal. A POST whose
      form validates registers the patient and redirects to its record.
      Sending the password-reset email is not modelled. */
  method PatientCreate(db: Db, u: Viewer, isPost: bool, form: Option<PatientForm>) returns (o: Outcome, next: Option<Route>)
    requires db.Valid()
    modifies db`users, db`patients
    ensures db.Valid()
    ensures !u.authenticated ==> o == LoginRequired && next.None? && unchanged(db)
    ensures u.authenticated && IsPatientUser(u) ==> o == Unchanged && next == Some(PortalRoute) && unchanged(db)
    ensures u.authenticated && !IsPatientUser(u) ==>
      if !isPost || form.None? then o == Unchanged && next.None? && unchanged(db)
      else if LinkTaken(old(db.users), old(db.patients), form.value.email) then o.Failed? && next.None? && unchanged(db)
      else
        && o == Done && next == Some(DetailRoute(|old(db.patients)| + 1))
        && (db.users, db.patients) == Registered(old(db.users), old(db.patients), form.value)
  {
    if !u.authenticated {
      return LoginRequired, None;
    }
    if IsPatientUser(u) {
      return Unchanged, Some(PortalRoute);
    }
    if !isPost || form.None? {
      return Unchanged, None;
    }
    var f := form.value;
    if LinkTaken(db.users, db.patients, f.email) {
      return Failed("UNIQUE constraint failed: patients_patient.user_id"), None;
    }
    Register(db, f);
    o, next := Done, Some(DetailRoute(|db.patients|));
  }

  /** The registration itself: `get_or_create` of the account, the link,
      the save, and the post-save hook numbering the patient. */
  method Register(db: Db, f: PatientForm)
    requires db.Valid() && !LinkTaken(db.users, db.patients, f.email)
    modifies db`users, db`patients
    ensures db.Valid()
    ensures (db.users, db.patients) == Registered(old(db.users), old(db.patients), f)
  {
    var r := Registered(db.users, db.patients, f);
    RegisteredValid(db.users, db.patients, f, db.visits, db.invoices);
    db.users, db.patients := r.0, r.1;
  }

  /** A registration that does not fail keeps usernames unique, every
      account linked to at most one patient and every patient numbered by
      the hook from its own key. */
  lemma RegisteredValid(users: seq<User>, patients: seq<Patient>, f: PatientForm, visits: seq<Visit>, invoices: seq<Invoice>)
    requires UsersOk(users) && PatientsOk(patients, |users|)
    requires VisitsOk(visits, |patients|) && InvoicesOk(invoices, |patients|, |visits|)
    requires !LinkTaken(users, patients, f.email)
    requires PatientsNumbered(patients)
    ensures var r := Registered(users, patients, f);
      && UsersOk(r.0) && PatientsOk(r.1, |r.0|) && PatientsNumbered(r.1)
      && VisitsOk(visits, |r.1|) && InvoicesOk(invoices, |r.1|, |visits|)
  {
    var r := Registered(users, patients, f);
    RegisteredNumbered(users, patients, f);
    if f.email != "" {
      var k := GetOrCreateAccount(users, f.email).1;
      assert forall i :: 0 <= i < |patients| ==> patients[i].user != Some(k);
    }
  }

  /** The registered patient carries the number the hook gives its key. */
  lemma RegisteredNumbered(users: seq<User>, patients: seq<Patient>, f: PatientForm)
    requires PatientsNumbered(patients)
    ensures PatientsNumbered(Registered(users, patients, f).1)
  {
    var r := Registered(users, patients, f);
    RegisteredLink(users, patients, f);
    assert r.1 == r.1[..|patients|] + [r.1[|patients|]];
    PatientNumberKept(patients, r.1[|patients|]);
  }
}
