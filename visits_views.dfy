/** visits/views.py: the visit status flow (start, vitals, take the case,
    consult, close) and the queue of visits still being seen. */
module VisitsViews {
  import opened Common
  import opened Schema
  import opened VisitsModels
  import opened PharmacyModels
  import opened BillingModels
  import opened Store
  import opened AccountsUtils
  import opened Queries
  import opened VisitsSignals
  import opened BillingServices

  const DeskRoles: set<string> := {"frontdesk", "nurse", "admin"}
  const QueueRoles: set<string> := {"doctor", "admin", "frontdesk", "nurse"}
  const DoctorRoles: set<string> := {"doctor", "admin"}

  // ---------------------------------------------------------------- the transitions

  /** A visit just started for `patient`: OPEN, no doctor, no notes, no
      vitals, and a blank number for the post-save hook to fill. */
  function NewVisit(patient: nat, visitType: VisitType, now: Instant): (v: Visit)
    ensures v.patient == patient && v.visitType == visitType && v.status == Open
    ensures v.createdAt == now && v.doctor.None? && v.closedAt.None?
    ensures v.visitNumber == "" && v.vitals == NoVitals && v.notes == NoNotes
  {
    Visit(patient, "", visitType, Open, now, None, NoNotes, None, NoVitals)
  }

  /** The vitals form saved: the posted readings and note replace the old
      ones and the visit waits for a doctor, whatever its status was. */
  function WithVitals(v: Visit, vitals: Vitals): (r: Visit)
    ensures r.status == WaitingDoctor && r.vitals == vitals
    ensures r.(status := v.status, vitals := v.vitals) == v
  {
    v.(status := WaitingDoctor, vitals := vitals)
  }

  /** The statuses a doctor can take a case from. */
  predicate Takeable(s: VisitStatus) {
    s == Open || s == WaitingDoctor
  }

  /** Taking the case: an OPEN or WAITING_DOCTOR visit goes IN_CONSULT, and
      the acting user becomes its doctor when their role is "doctor" (an
      admin takes the case without being assigned). Any other visit is left
      as it is. */
  function TakeCase(v: Visit, u: Viewer): (r: Visit)
    ensures !Takeable(v.status) ==> r == v
    ensures Takeable(v.status) ==> r.status == InConsult
    ensures Takeable(v.status) ==> r.doctor == if u.role == Some("doctor") then u.pk else v.doctor
    ensures r.(status := v.status, doctor := v.doctor) == v
  {
    if !Takeable(v.status) then v
    else v.(status := InConsult, doctor := if u.role == Some("doctor") then u.pk else v.doctor)
  }

  /** The visit closed at `now`, from any status. */
  function Closed(v: Visit, now: Instant): (r: Visit)
    ensures r.status == VisitStatus.Closed && r.closedAt == Some(now)
    ensures r.(status := v.status, closedAt := v.closedAt) == v
  {
    v.(status := VisitStatus.Closed, closedAt := Some(now))
  }

  /** Taking a case twice is taking it once, and a closed visit cannot be
      taken back into consultation. */
  lemma TakeCaseIdempotent(v: Visit, u: Viewer, w: Viewer, now: Instant)
    ensures TakeCase(TakeCase(v, u), w) == TakeCase(v, u)
    ensures TakeCase(Closed(v, now), u) == Closed(v, now)
  {
  }

  // ---------------------------------------------------------------- queue

  /** The statuses the queue shows. */
  predicate InQueue(s: VisitStatus) {
    s == Open || s == WaitingDoctor || s == InConsult
  }

  /** `queue`: the visits in the queue, by creation (row order). */
  function Queue(visits: seq<Visit>): (r: seq<nat>)
    ensures forall i :: i in r ==> i < |visits| && InQueue(visits[i].status)
  {
    OldestFirstSpec(|visits|, (i: nat) => i < |visits| && InQueue(visits[i].status));
    OldestFirst(|visits|, (i: nat) => i < |visits| && InQueue(visits[i].status))
  }

  /** The queue holds exactly the OPEN, WAITING_DOCTOR and IN_CONSULT
      visits, each once, oldest first. */
  lemma QueueSpec(visits: seq<Visit>)
    ensures forall i: nat :: i in Queue(visits) <==> i < |visits| && InQueue(visits[i].status)
    ensures Ascending(Queue(visits))
  {
    OldestFirstSpec(|visits|, (i: nat) => i < |visits| && InQueue(visits[i].status));
  }

  /** Visits are created in the order of their rows. */
  predicate CreatedInOrder(visits: seq<Visit>) {
    forall i, j :: 0 <= i < j < |visits| ==> InstantLe(visits[i].createdAt, visits[j].createdAt)
  }

  /** When rows follow the creation clock, the queue is in `created_at` order. */
  lemma QueueByCreation(visits: seq<Visit>)
    requires CreatedInOrder(visits)
    ensures var q := Queue(visits);
      && (forall a :: 0 <= a < |q| ==> q[a] < |visits|)
      && (forall a, b :: 0 <= a < b < |q| ==> InstantLe(visits[q[a]].createdAt, visits[q[b]].createdAt))
  {
    QueueSpec(visits);
    var q := Queue(visits);
    forall a | 0 <= a < |q| ensures q[a] < |visits| {
      assert q[a] in q;
    }
  }

  /** How each step moves a visit in and out of the queue: a new visit and
      one with vitals taken are in it, taking the case keeps a visit where
      it was, and closing takes it out. */
  lemma QueueFlow(v: Visit, u: Viewer, vitals: Vitals, patient: nat, t: VisitType, now: Instant)
    ensures InQueue(NewVisit(patient, t, now).status)
    ensures InQueue(WithVitals(v, vitals).status)
    ensures InQueue(TakeCase(v, u).status) <==> InQueue(v.status)
    ensures !InQueue(Closed(v, now).status)
  {
  }

  /** `queue` behind its gate. */
  function VisitQueue(u: Viewer, visits: seq<Visit>): (r: Page<seq<nat>>)
    ensures StaffGate(u, QueueRoles).Some? ==> r == Stop(StaffGate(u, QueueRoles).value)
    ensures StaffGate(u, QueueRoles).None? ==> r == Show(Queue(visits))
  {
    match StaffGate(u, QueueRoles)
    case Some(o) => Stop(o)
    case None => Show(Queue(visits))
  }

  /** `visit_detail(visit_id)`: the visit in that row, behind the queue's gate. */
  function VisitDetail(u: Viewer, visits: seq<Visit>, id: nat): (r: Page<Visit>)
    ensures StaffGate(u, QueueRoles).Some? ==> r == Stop(StaffGate(u, QueueRoles).value)
    ensures StaffGate(u, QueueRoles).None? && !InRange(id, |visits|) ==> r == Stop(NotFound)
    ensures StaffGate(u, QueueRoles).None? && InRange(id, |visits|) ==> r == Show(visits[id - 1])
  {
    match StaffGate(u, QueueRoles)
    case Some(o) => Stop(o)
    case None => if InRange(id, |visits|) then Show(visits[id - 1]) else Stop(NotFound)
  }

  // ---------------------------------------------------------------- the views

  /** `start_visit(patient_id)`. `form` is the posted visit type, `None`
      when the form does not validate. A valid POST appends the visit, and
      the post-save hook numbers it. */
  method StartVisit(db: Db, u: Viewer, patientId: nat, isPost: bool, form: Option<VisitType>, now: Instant)
    returns (o: Outcome)
    requires db.Valid()
    modifies db`visits
    ensures db.Valid()
    ensures StaffGate(u, DeskRoles).Some? ==> o == StaffGate(u, DeskRoles).value && unchanged(db)
    ensures StaffGate(u, DeskRoles).None? && !InRange(patientId, |db.patients|) ==> o == NotFound && unchanged(db)
    ensures StaffGate(u, DeskRoles).None? && InRange(patientId, |db.patients|) ==>
      if !isPost || form.None? then o == Unchanged && unchanged(db)
      else
        && o == Done
        && db.visits == old(db.visits)
           + [NewVisit(patientId, form.value, now).(visitNumber := VisitNumberFor(|old(db.visits)| + 1))]
  {
    var gate := StaffGate(u, DeskRoles);
    if gate.Some? {
      return gate.value;
    }
    if !InRange(patientId, |db.patients|) {
      return NotFound;
    }
    if !isPost || form.None? {
      return Unchanged;
    }
    InsertVisit(db, NewVisit(patientId, form.value, now));
    o := Done;
  }

  /** The save of a new visit of an existing patient, followed by the
      post-save hook that numbers it. */
  method InsertVisit(db: Db, v: Visit)
    requires db.Valid() && InRange(v.patient, |db.patients|) && v.visitNumber == ""
    modifies db`visits
    ensures db.Valid()
    ensures db.visits == old(db.visits) + [v.(visitNumber := VisitNumberFor(|old(db.visits)| + 1))]
  {
    ghost var before := db.visits;
    HookNumbersNewVisit(before, v);
    db.AppendVisit(v);
    var hooked := SetVisitNumber(db, |db.visits| - 1, true);
    assert hooked == Done;
    assert db.visits == before + [v.(visitNumber := VisitNumberFor(|before| + 1))];
  }

  /** `vitals_update(visit_id)`. `form` is the posted readings, `None` when
      the form does not validate. */
  method VitalsUpdate(db: Db, u: Viewer, id: nat, isPost: bool, form: Option<Vitals>) returns (o: Outcome)
    requires db.Valid()
    modifies db`visits
    ensures db.Valid()
    ensures StaffGate(u, DeskRoles).Some? ==> o == StaffGate(u, DeskRoles).value && unchanged(db)
    ensures StaffGate(u, DeskRoles).None? && !InRange(id, |db.visits|) ==> o == NotFound && unchanged(db)
    ensures StaffGate(u, DeskRoles).None? && InRange(id, |old(db.visits)|) ==>
      if !isPost || form.None? then o == Unchanged && unchanged(db)
      else o == Done && db.visits == old(db.visits)[id - 1 := WithVitals(old(db.visits[id - 1]), form.value)]
  {
    var gate := StaffGate(u, DeskRoles);
    if gate.Some? {
      return gate.value;
    }
    if !InRange(id, |db.visits|) {
      return NotFound;
    }
    if !isPost || form.None? {
      return Unchanged;
    }
    db.SetVisit(id - 1, WithVitals(db.visits[id - 1], form.value));
    o := Done;
  }

  /** `doctor_take_case(visit_id)`, on any request method. */
  method DoctorTakeCase(db: Db, u: Viewer, id: nat) returns (o: Outcome)
    requires db.Valid()
    modifies db`visits
    ensures db.Valid()
    ensures StaffGate(u, DoctorRoles).Some? ==> o == StaffGate(u, DoctorRoles).value && unchanged(db)
    ensures StaffGate(u, DoctorRoles).None? && !InRange(id, |db.visits|) ==> o == NotFound && unchanged(db)
    ensures StaffGate(u, DoctorRoles).None? && InRange(id, |old(db.visits)|) ==>
      o == Done && db.visits == old(db.visits)[id - 1 := TakeCase(old(db.visits[id - 1]), u)]
  {
    var gate := StaffGate(u, DoctorRoles);
    if gate.Some? {
      return gate.value;
    }
    if !InRange(id, |db.visits|) {
      return NotFound;
    }
    db.SetVisit(id - 1, TakeCase(db.visits[id - 1], u));
    o := Done;
  }

  /** `consultation(visit_id)`: opening the page takes the case (on GET
      too); a POST whose form validates then saves the doctor's notes. */
  method Consultation(db: Db, u: Viewer, id: nat, isPost: bool, form: Option<Notes>) returns (o: Outcome)
    requires db.Valid()
    modifies db`visits
    ensures db.Valid()
    ensures StaffGate(u, DoctorRoles).Some? ==> o == StaffGate(u, DoctorRoles).value && unchanged(db)
    ensures StaffGate(u, DoctorRoles).None? && !InRange(id, |db.visits|) ==> o == NotFound && unchanged(db)
    ensures StaffGate(u, DoctorRoles).None? && InRange(id, |old(db.visits)|) ==>
      var taken := TakeCase(old(db.visits[id - 1]), u);
      if !isPost || form.None? then o == Unchanged && db.visits == old(db.visits)[id - 1 := taken]
      else o == Done && db.visits == old(db.visits)[id - 1 := taken.(notes := form.value)]
  {
    var gate := StaffGate(u, DoctorRoles);
    if gate.Some? {
      return gate.value;
    }
    if !InRange(id, |db.visits|) {
      return NotFound;
    }
    var v := TakeCase(db.visits[id - 1], u);
    db.SetVisit(id - 1, v);
    if !isPost || form.None? {
      return Unchanged;
    }
    db.SetVisit(id - 1, v.(notes := form.value));
    o := Done;
  }

  /** `close_visit(visit_id)`, on any request method: the visit is closed,
      then, only if it has no invoice yet, one is generated for it.
      `shown` is the invoice the view redirects to. It is `None` only
      when the bounded number draws of `EnsureUniqueInvoiceNumber` run
      out, a case where the source would still be drawing. */
  method CloseVisit(db: Db, u: Viewer, id: nat, now: Instant, draws: seq<Draw>) returns (o: Outcome, shown: Option<nat>)
    requires db.Valid() && AllValidDraws(draws)
    modifies db`visits, db`invoices, db`lines
    ensures db.Valid()
    ensures StaffGate(u, DoctorRoles).Some? ==> o == StaffGate(u, DoctorRoles).value && shown.None? && unchanged(db)
    ensures StaffGate(u, DoctorRoles).None? && !InRange(id, |db.visits|) ==> o == NotFound && shown.None? && unchanged(db)
    ensures StaffGate(u, DoctorRoles).None? && InRange(id, |old(db.visits)|) ==>
      && o == Done
      && db.visits == old(db.visits)[id - 1 := Closed(old(db.visits[id - 1]), now)]
      && Invoiced(old(db.invoices), old(db.lines), db.invoices, db.lines, db.visits, old(db.patients), old(db.prescriptions),
                  old(db.drugs), old(db.payments), id, u.pk, now, draws, shown)
  {
    var gate := StaffGate(u, DoctorRoles);
    if gate.Some? {
      return gate.value, None;
    }
    if !InRange(id, |db.visits|) {
      return NotFound, None;
    }
    db.SetVisit(id - 1, Closed(db.visits[id - 1], now));
    o := Done;
    shown := InvoiceIfMissing(db, id, u.pk, now, draws);
  }

  /** The invoice and line tables after the close, from those before it:
      a visit that has its invoice keeps both tables and shows it (never a
      second generation); one that has none gets the generation's tables
      and shows the invoice written, or shows nothing when the bounded
      number draws ran out. Either way an invoice shown is the visit's invoice. */
  ghost predicate Invoiced(invoices: seq<Invoice>, lines: seq<InvoiceLine>, invoices': seq<Invoice>, lines': seq<InvoiceLine>,
                           visits: seq<Visit>, patients: seq<Patient>, rx: seq<Prescription>, drugs: seq<Drug>,
                           payments: seq<Payment>, id: nat, user: Option<nat>, now: Instant, draws: seq<Draw>,
                           shown: Option<nat>)
    requires InRange(id, |visits|) && VisitsOk(visits, |patients|)
    requires DrugsExist(rx, |drugs|) && AllValidDraws(draws)
  {
    && (shown.Some? ==> InvoiceOfVisit(invoices', id) == Some(shown.value - 1))
    && match InvoiceOfVisit(invoices, id)
       case Some(k) =>
         shown == Some(k + 1) && invoices' == invoices && lines' == lines
       case None =>
         var g := Generation(invoices, lines, visits, patients, rx, drugs, payments, id, user, now, draws);
         && (g.None? ==> shown.None? && invoices' == invoices && lines' == lines)
         && (g.Some? ==> shown == Some(g.value.row + 1) && invoices' == g.value.invoices && lines' == g.value.lines)
  }

  /** The second half of `close_visit`: reuse the visit's invoice, or
      generate one and reload it. */
  method InvoiceIfMissing(db: Db, id: nat, user: Option<nat>, now: Instant, draws: seq<Draw>) returns (shown: Option<nat>)
    requires db.Valid() && AllValidDraws(draws) && InRange(id, |db.visits|)
    modifies db`invoices, db`lines
    ensures db.Valid()
    ensures Invoiced(old(db.invoices), old(db.lines), db.invoices, db.lines, db.visits, db.patients, db.prescriptions,
                     db.drugs, db.payments, id, user, now, draws, shown)
  {
    assert VisitsOk(db.visits, |db.patients|) && DrugsExist(db.prescriptions, |db.drugs|);
    var existing := InvoiceOfVisit(db.invoices, id);
    if existing.Some? {
      return Some(existing.value + 1);
    }
    shown := GenerateAndReload(db, id, user, now, draws);
  }

  /** The generation for a visit without an invoice, and the reload of the
      invoice it wrote. */
  method GenerateAndReload(db: Db, id: nat, user: Option<nat>, now: Instant, draws: seq<Draw>) returns (shown: Option<nat>)
    requires db.Valid() && AllValidDraws(draws) && InRange(id, |db.visits|)
    modifies db`invoices, db`lines
    ensures db.Valid()
    ensures var g := Generation(old(db.invoices), old(db.lines), old(db.visits), old(db.patients), old(db.prescriptions),
                                old(db.drugs), old(db.payments), id, user, now, draws);
      && (g.None? ==> shown.None? && db.invoices == old(db.invoices) && db.lines == old(db.lines))
      && (g.Some? ==> shown == Some(g.value.row + 1) && db.invoices == g.value.invoices && db.lines == g.value.lines)
    ensures shown.Some? ==> InvoiceOfVisit(db.invoices, id) == Some(shown.value - 1)
  {
    assert DrugsExist(db.prescriptions, |db.drugs|);
    ghost var invoices, lines := db.invoices, db.lines;
    var r := GenerateInvoiceForVisit(db, id, user, now, draws);
    if r.Err? {
      return None;
    }
    GenerationFound(invoices, lines, db.visits, db.patients, db.prescriptions, db.drugs, db.payments, id, user, now, draws);
    shown := Some(r.value + 1);
  }
}
