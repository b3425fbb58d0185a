/** pharmacy/views.py: prescribing a drug on a visit, the dispensing queue,
    and marking an item dispensed. */
module PharmacyViews {
  import opened Common
  import opened Schema
  import opened PharmacyModels
  import opened Store
  import opened AccountsUtils
  import opened Queries

  const PrescribeRoles: set<string> := {"doctor", "admin"}
  const PharmacyRoles: set<string> := {"pharmacy", "admin"}

  /** The posted prescription fields. */
  datatype RxForm = RxForm(drug: nat, dose: string, frequency: string, duration: string, instructions: string)

  /** The form validates when its other checks pass (`form` is not `None`)
      and the chosen drug is one the form offers: the drug model has an
      `is_active` field, so only drugs with `is_active` set are offered. */
  predicate RxFormValid(form: Option<RxForm>, drugs: seq<Drug>) {
    form.Some? && InRange(form.value.drug, |drugs|) && drugs[form.value.drug - 1].isActive
  }

  /** The item saved for `visit`: the posted fields, status PENDING and the
      default price of zero. */
  function NewPrescription(visit: nat, f: RxForm, now: Instant): (p: Prescription)
    ensures p.visit == visit && p.drug == f.drug && p.status == Pending && p.price == 0 && p.createdAt == now
    ensures p.dose == f.dose && p.frequency == f.frequency && p.duration == f.duration && p.instructions == f.instructions
  {
    Prescription(visit, f.drug, f.dose, f.frequency, f.duration, f.instructions, DefaultRxStatus, 0, now)
  }

  /** `item.status = DISPENSED`, saved with only that field. */
  function Dispense(p: Prescription): (r: Prescription)
    ensures r.status == Dispensed
    ensures r.(status := p.status) == p
  {
    p.(status := Dispensed)
  }

  /** Dispensing is idempotent, and it dispenses a cancelled item too. */
  lemma DispenseIdempotent(p: Prescription)
    ensures Dispense(Dispense(p)) == Dispense(p)
    ensures p.status == Cancelled ==> Dispense(p).status == Dispensed
  {
  }

  // ---------------------------------------------------------------- queue

  /** `pharmacy_queue`: the PENDING items, by creation (row order). */
  function PharmacyQueue(rx: seq<Prescription>): (r: seq<nat>)
    ensures forall i :: i in r ==> i < |rx| && rx[i].status == Pending
  {
    OldestFirstSpec(|rx|, (i: nat) => i < |rx| && rx[i].status == Pending);
    OldestFirst(|rx|, (i: nat) => i < |rx| && rx[i].status == Pending)
  }

  /** The queue holds exactly the pending items, each once, oldest first. */
  lemma PharmacyQueueSpec(rx: seq<Prescription>)
    ensures forall i: nat :: i in PharmacyQueue(rx) <==> i < |rx| && rx[i].status == Pending
    ensures Ascending(PharmacyQueue(rx))
  {
    OldestFirstSpec(|rx|, (i: nat) => i < |rx| && rx[i].status == Pending);
  }

  /** Dispensing an item takes it off the queue and leaves every other
      item where it was. */
  lemma DispenseLeavesQueue(rx: seq<Prescription>, k: nat)
    requires k < |rx|
    ensures forall i: nat :: i in PharmacyQueue(rx[k := Dispense(rx[k])]) <==> i in PharmacyQueue(rx) && i != k
  {
    PharmacyQueueSpec(rx);
    PharmacyQueueSpec(rx[k := Dispense(rx[k])]);
  }

  /** A new item is at the back of the queue. */
  lemma NewPrescriptionQueued(rx: seq<Prescription>, visit: nat, f: RxForm, now: Instant)
    ensures PharmacyQueue(rx + [NewPrescription(visit, f, now)]) == PharmacyQueue(rx) + [|rx|]
  {
    var rx' := rx + [NewPrescription(visit, f, now)];
    OldestFirstFrame(|rx|, (i: nat) => i < |rx| && rx[i].status == Pending, (i: nat) => i < |rx'| && rx'[i].status == Pending);
  }

  /** The queue behind its gate. */
  function PharmacyQueuePage(u: Viewer, rx: seq<Prescription>): (r: Page<seq<nat>>)
    ensures StaffGate(u, PharmacyRoles).Some? ==> r == Stop(StaffGate(u, PharmacyRoles).value)
    ensures StaffGate(u, PharmacyRoles).None? ==> r == Show(PharmacyQueue(rx))
  {
    match StaffGate(u, PharmacyRoles)
    case Some(o) => Stop(o)
    case None => Show(PharmacyQueue(rx))
  }

  // ---------------------------------------------------------------- the views

  /** `add_prescription(visit_id)`: a POST with a valid form appends the
      item to the visit; anything else changes nothing. */
  method AddPrescription(db: Db, u: Viewer, visitId: nat, isPost: bool, form: Option<RxForm>, now: Instant)
    returns (o: Outcome)
    requires db.Valid()
    modifies db`prescriptions
    ensures db.Valid()
    ensures StaffGate(u, PrescribeRoles).Some? ==> o == StaffGate(u, PrescribeRoles).value && unchanged(db)
    ensures StaffGate(u, PrescribeRoles).None? && !InRange(visitId, |db.visits|) ==> o == NotFound && unchanged(db)
    ensures StaffGate(u, PrescribeRoles).None? && InRange(visitId, |db.visits|) ==>
      if !isPost || !RxFormValid(form, db.drugs) then o == Unchanged && unchanged(db)
      else o == Done && db.prescriptions == old(db.prescriptions) + [NewPrescription(visitId, form.value, now)]
  {
    var gate := StaffGate(u, PrescribeRoles);
    if gate.Some? {
      return gate.value;
    }
    if !InRange(visitId, |db.visits|) {
      return NotFound;
    }
    if !isPost || !RxFormValid(form, db.drugs) {
      return Unchanged;
    }
    db.prescriptions := db.prescriptions + [NewPrescription(visitId, form.value, now)];
    o := Done;
  }

  /** `mark_dispensed(item_id)`, on any request method. */
  method MarkDispensed(db: Db, u: Viewer, id: nat) returns (o: Outcome)
    requires db.Valid()
    modifies db`prescriptions
    ensures db.Valid()
    ensures StaffGate(u, PharmacyRoles).Some? ==> o == StaffGate(u, PharmacyRoles).value && unchanged(db)
    ensures StaffGate(u, PharmacyRoles).None? && !InRange(id, |db.prescriptions|) ==> o == NotFound && unchanged(db)
    ensures StaffGate(u, PharmacyRoles).None? && InRange(id, |old(db.prescriptions)|) ==>
      o == Done && db.prescriptions == old(db.prescriptions)[id - 1 := Dispense(old(db.prescriptions[id - 1]))]
  {
    var gate := StaffGate(u, PharmacyRoles);
    if gate.Some? {
      return gate.value;
    }
    if !InRange(id, |db.prescriptions|) {
      return NotFound;
    }
    db.prescriptions := db.prescriptions[id - 1 := Dispense(db.prescriptions[id - 1])];
    o := Done;
  }
}
