/** The database the handlers work on: one sequence per table, in insertion
    order. Row `k` of a table has primary key `k + 1`, and a foreign key
    holds the primary key of the row it points to. Rows are never deleted
    except invoice lines, which nothing points to. */
module Store {
  import opened Common
  import opened Text
  import opened Schema
  import opened VisitsModels
  import opened PharmacyModels
  import opened BillingModels

  /** `fk` is the primary key of one of `n` rows. */
  predicate InRange(fk: nat, n: nat) {
    1 <= fk <= n
  }

  predicate OptInRange(fk: Option<nat>, n: nat) {
    fk.None? || InRange(fk.value, n)
  }

  // ---------------------------------------------------------------- table constraints

  /** `username` is unique. */
  predicate UsersOk(users: seq<User>) {
    forall i, j :: 0 <= i < j < |users| ==> users[i].username != users[j].username
  }

  /** `Patient.user` is a one-to-one link to an existing account. */
  predicate PatientsOk(patients: seq<Patient>, userCount: nat) {
    && (forall i :: 0 <= i < |patients| ==> OptInRange(patients[i].user, userCount))
    && (forall i, j :: 0 <= i < j < |patients| && patients[i].user.Some? ==> patients[i].user != patients[j].user)
  }

  predicate VisitsOk(visits: seq<Visit>, patientCount: nat) {
    forall i :: 0 <= i < |visits| ==> InRange(visits[i].patient, patientCount)
  }

  predicate PrescriptionsOk(rx: seq<Prescription>, visitCount: nat, drugCount: nat) {
    forall i :: 0 <= i < |rx| ==> InRange(rx[i].visit, visitCount) && InRange(rx[i].drug, drugCount)
  }

  predicate LabRequestsOk(requests: seq<LabRequest>, visitCount: nat, testCount: nat) {
    forall i :: 0 <= i < |requests| ==> InRange(requests[i].visit, visitCount) && InRange(requests[i].test, testCount)
  }

  /** A lab result belongs to one request, and a request has at most one result. */
  predicate LabResultsOk(results: seq<LabResult>, requestCount: nat) {
    && (forall i :: 0 <= i < |results| ==> InRange(results[i].request, requestCount))
    && (forall i, j :: 0 <= i < j < |results| ==> results[i].request != results[j].request)
  }

  /** `invoice_number` is unique and, once saved through `Invoice.save`, never
      blank; `Invoice.visit` is one-to-one. */
  predicate InvoicesOk(invoices: seq<Invoice>, patientCount: nat, visitCount: nat) {
    && (forall i :: 0 <= i < |invoices| ==>
          InRange(invoices[i].patient, patientCount) && OptInRange(invoices[i].visit, visitCount)
          && invoices[i].number != "")
    && NumbersUnique(invoices)
    && (forall i, j :: 0 <= i < j < |invoices| && invoices[i].visit.Some? ==> invoices[i].visit != invoices[j].visit)
  }

  predicate NumbersUnique(invoices: seq<Invoice>) {
    forall i, j :: 0 <= i < j < |invoices| ==> invoices[i].number != invoices[j].number
  }

  predicate LinesOk(lines: seq<InvoiceLine>, invoiceCount: nat) {
    forall i :: 0 <= i < |lines| ==> InRange(lines[i].invoice, invoiceCount)
  }

  predicate PaymentsOk(payments: seq<Payment>, invoiceCount: nat) {
    forall i :: 0 <= i < |payments| ==> InRange(payments[i].invoice, invoiceCount)
  }

  /** No invoice is claimed twice, in the same batch or in two batches. */
  predicate ItemsOk(items: seq<ClaimItem>, batchCount: nat, invoiceCount: nat) {
    && (forall i :: 0 <= i < |items| ==> InRange(items[i].batch, batchCount) && InRange(items[i].invoice, invoiceCount))
    && OneItemPerInvoice(items)
  }

  predicate OneItemPerInvoice(items: seq<ClaimItem>) {
    forall i, j :: 0 <= i < j < |items| ==> items[i].invoice != items[j].invoice
  }

  /** The key the weekly sweep looks follow-ups up by. */
  function FollowUpKey(f: FollowUp): (string, Date, Date) {
    (f.hmoName, f.periodStart, f.periodEnd)
  }

  /** The prefixes of the numbers the post-save hooks give patients and visits. */
  const HospitalPrefix := "EDH-"
  const VisitPrefix := "EDH-V-"

  /** Only the post-save hook writes `hospital_number`, from the row's own
      primary key; no form has the field. */
  predicate PatientsNumbered(patients: seq<Patient>) {
    forall id {:trigger PrefixedId(HospitalPrefix, id)} :: 1 <= id <= |patients| ==>
      patients[id - 1].hospitalNumber == PrefixedId(HospitalPrefix, id)
  }

  /** Only the post-save hook writes `visit_number`, from the row's own
      primary key; no form has the field. */
  predicate VisitsNumbered(visits: seq<Visit>) {
    forall id {:trigger PrefixedId(VisitPrefix, id)} :: 1 <= id <= |visits| ==>
      visits[id - 1].visitNumber == PrefixedId(VisitPrefix, id)
  }

  /** `LabTest.name` is unique. */
  predicate LabTestsOk(tests: seq<LabTest>) {
    forall i, j :: 0 <= i < j < |tests| ==> tests[i].name != tests[j].name
  }

  /** Numbered tables keep `hospital_number` and `visit_number` unique, as
      the schema requires. */
  lemma NumberedUnique(patients: seq<Patient>, visits: seq<Visit>)
    requires PatientsNumbered(patients) && VisitsNumbered(visits)
    ensures forall i, j :: 0 <= i < j < |patients| ==> patients[i].hospitalNumber != patients[j].hospitalNumber
    ensures forall i, j :: 0 <= i < j < |visits| ==> visits[i].visitNumber != visits[j].visitNumber
  {
    forall i, j | 0 <= i < j < |patients|
      ensures patients[i].hospitalNumber != patients[j].hospitalNumber
    {
      if patients[i].hospitalNumber == patients[j].hospitalNumber {
        PrefixedIdInjective(HospitalPrefix, i + 1, j + 1);
      }
    }
    forall i, j | 0 <= i < j < |visits|
      ensures visits[i].visitNumber != visits[j].visitNumber
    {
      if visits[i].visitNumber == visits[j].visitNumber {
        PrefixedIdInjective(VisitPrefix, i + 1, j + 1);
      }
    }
  }

  /** Adding visits keeps every foreign key into the visits table valid. */
  lemma MoreVisits(rx: seq<Prescription>, drugCount: nat, requests: seq<LabRequest>, testCount: nat,
                   invoices: seq<Invoice>, patientCount: nat, n: nat, m: nat)
    requires n <= m
    requires PrescriptionsOk(rx, n, drugCount) && LabRequestsOk(requests, n, testCount)
    requires InvoicesOk(invoices, patientCount, n)
    ensures PrescriptionsOk(rx, m, drugCount) && LabRequestsOk(requests, m, testCount)
    ensures InvoicesOk(invoices, patientCount, m)
  {
  }

  /** At most one follow-up per (HMO, period start, period end). */
  predicate OneFollowUpPerKey(followups: seq<FollowUp>) {
    forall i, j :: 0 <= i < j < |followups| ==> FollowUpKey(followups[i]) != FollowUpKey(followups[j])
  }

  // ---------------------------------------------------------------- the store

  class Db {
    var users: seq<User>
    var patients: seq<Patient>
    var visits: seq<Visit>
    var drugs: seq<Drug>
    var prescriptions: seq<Prescription>
    var labTests: seq<LabTest>
    var labRequests: seq<LabRequest>
    var labResults: seq<LabResult>
    var invoices: seq<Invoice>
    var lines: seq<InvoiceLine>
    var payments: seq<Payment>
    var batches: seq<ClaimBatch>
    var items: seq<ClaimItem>
    var followups: seq<FollowUp>

    /** The constraints the schema declares and the handlers keep. */
    ghost predicate Valid()
      reads this
    {
      Linked() && PatientsNumbered(patients) && VisitsNumbered(visits)
    }

    /** The foreign keys, and the unique and one-to-one columns other than
        the numbers the post-save hooks write. */
    ghost predicate Linked()
      reads this
    {
      && UsersOk(users)
      && PatientsOk(patients, |users|)
      && VisitsOk(visits, |patients|)
      && LabTestsOk(labTests)
      && PrescriptionsOk(prescriptions, |visits|, |drugs|)
      && LabRequestsOk(labRequests, |visits|, |labTests|)
      && LabResultsOk(labResults, |labRequests|)
      && InvoicesOk(invoices, |patients|, |visits|)
      && LinesOk(lines, |invoices|)
      && PaymentsOk(payments, |invoices|)
      && ItemsOk(items, |batches|, |invoices|)
      && OneFollowUpPerKey(followups)
    }

    /** An empty database. */
    constructor ()
      ensures Valid()
      ensures users == [] && patients == [] && visits == [] && drugs == [] && prescriptions == []
      ensures labTests == [] && labRequests == [] && labResults == []
      ensures invoices == [] && lines == [] && payments == [] && batches == [] && items == [] && followups == []
    {
      users := [];
      patients := [];
      visits := [];
      drugs := [];
      prescriptions := [];
      labTests := [];
      labRequests := [];
      labResults := [];
      invoices := [];
      lines := [];
      payments := [];
      batches := [];
      items := [];
      followups := [];
    }

    /** Overwrites invoice row `k` with one that keeps its patient, visit
        and number, the fields the constraints are about. */
    method SetInvoice(k: nat, inv: Invoice)
      requires Valid() && k < |invoices|
      requires inv.patient == invoices[k].patient && inv.visit == invoices[k].visit && inv.number == invoices[k].number
      modifies this`invoices
      ensures Valid() && invoices == old(invoices)[k := inv]
    {
      invoices := invoices[k := inv];
    }

    /** Overwrites claim item row `k` with one that keeps its batch and
        its invoice. */
    method SetItem(k: nat, item: ClaimItem)
      requires Valid() && k < |items|
      requires item.batch == items[k].batch && item.invoice == items[k].invoice
      modifies this`items
      ensures Valid() && items == old(items)[k := item]
    {
      items := items[k := item];
    }

    /** Overwrites every invoice with one that keeps its patient, visit
        and number (a bulk `update()` of other fields). */
    method SetInvoices(invs: seq<Invoice>)
      requires Valid() && |invs| == |invoices|
      requires forall i :: 0 <= i < |invs| ==>
        invs[i].patient == invoices[i].patient && invs[i].visit == invoices[i].visit && invs[i].number == invoices[i].number
      modifies this`invoices
      ensures Valid() && invoices == invs
    {
      invoices := invs;
    }

    /** Overwrites visit row `k` with one that keeps its patient and its
        number. */
    method SetVisit(k: nat, v: Visit)
      requires Valid() && k < |visits|
      requires v.patient == visits[k].patient && v.visitNumber == visits[k].visitNumber
      modifies this`visits
      ensures Valid() && visits == old(visits)[k := v]
    {
      visits := visits[k := v];
      assert forall id {:trigger PrefixedId(VisitPrefix, id)} :: 1 <= id <= |visits| ==>
        visits[id - 1].visitNumber == old(visits)[id - 1].visitNumber;
    }

    /** Appends a visit of an existing patient, before the post-save hook
        has numbered it: every constraint but the numbering still holds. */
    method AppendVisit(v: Visit)
      requires Linked() && InRange(v.patient, |patients|)
      modifies this`visits
      ensures Linked() && visits == old(visits) + [v]
    {
      visits := visits + [v];
    }

    /** Appends a claim batch; nothing references batches by position
        from the end, so the constraints still hold. */
    method AppendBatch(b: ClaimBatch)
      requires Valid()
      modifies this`batches
      ensures Valid() && batches == old(batches) + [b]
    {
      batches := batches + [b];
    }
  }

  // ---------------------------------------------------------------- queries shared by several handlers

  /** `Invoice.objects.filter(visit=v)`: the row index of the visit's
      invoice, if it has one. */
  function InvoiceOfVisit(invoices: seq<Invoice>, visit: nat): (r: Option<nat>)
    ensures r.Some? ==> r.value < |invoices| && invoices[r.value].visit == Some(visit)
    ensures r.None? ==> forall i :: 0 <= i < |invoices| ==> invoices[i].visit != Some(visit)
  {
    if invoices == [] then None
    else
      var last := |invoices| - 1;
      if invoices[last].visit == Some(visit) then Some(last)
      else
        var r := InvoiceOfVisit(invoices[..last], visit);
        assert forall i :: 0 <= i < last ==> invoices[..last][i] == invoices[i];
        r
  }

  /** With invoices one-to-one on visits, the visit's invoice is the one found. */
  lemma InvoiceOfVisitUnique(invoices: seq<Invoice>, patientCount: nat, visitCount: nat, k: nat)
    requires InvoicesOk(invoices, patientCount, visitCount)
    requires k < |invoices| && invoices[k].visit.Some?
    ensures InvoiceOfVisit(invoices, invoices[k].visit.value) == Some(k)
  {
  }

  /** The payments of the invoice with primary key `inv`, in insertion order. */
  function PaymentsOf(payments: seq<Payment>, inv: nat): (r: seq<Payment>)
    ensures |r| <= |payments|
  {
    if payments == [] then []
    else
      var last := |payments| - 1;
      var front := PaymentsOf(payments[..last], inv);
      if payments[last].invoice == inv then front + [payments[last]] else front
  }

  /** `PaymentsOf` keeps exactly the payments of `inv`. */
  lemma {:induction false} PaymentsOfMembers(payments: seq<Payment>, inv: nat)
    ensures forall p :: p in PaymentsOf(payments, inv) <==> p in payments && p.invoice == inv
  {
    if payments != [] {
      var last := |payments| - 1;
      PaymentsOfMembers(payments[..last], inv);
      assert payments == payments[..last] + [payments[last]];
    }
  }

  /** `sum(p.amount for p in ps)`. */
  function SumAmounts(ps: seq<Payment>): int {
    if ps == [] then 0 else SumAmounts(ps[..|ps| - 1]) + ps[|ps| - 1].amount
  }

  lemma SumAmountsAppend(ps: seq<Payment>, qs: seq<Payment>)
    ensures SumAmounts(ps + qs) == SumAmounts(ps) + SumAmounts(qs)
  {
    if qs != [] {
      assert (ps + qs)[..|ps + qs| - 1] == ps + qs[..|qs| - 1];
      SumAmountsAppend(ps, qs[..|qs| - 1]);
    } else {
      assert ps + qs == ps;
    }
  }

  /** The HMO-method payments of the invoice with primary key `inv`, summed
      (`Sum("amount")` over `method=HMO`, and 0 when there are none). */
  function HmoPaid(payments: seq<Payment>, inv: nat): int {
    if payments == [] then 0
    else
      var last := |payments| - 1;
      HmoPaid(payments[..last], inv)
      + (if payments[last].invoice == inv && payments[last].payMethod == MethodHmo then payments[last].amount else 0)
  }

  /** The HMO-paid sum is the sum of the invoice's payments whose method is HMO. */
  lemma {:induction false} HmoPaidIsHmoPayments(payments: seq<Payment>, inv: nat)
    ensures HmoPaid(payments, inv) == SumAmounts(HmoPayments(PaymentsOf(payments, inv)))
  {
    if payments != [] {
      var last := |payments| - 1;
      var p := payments[last];
      HmoPaidIsHmoPayments(payments[..last], inv);
      var front := PaymentsOf(payments[..last], inv);
      var hmo := p.invoice == inv && p.payMethod == MethodHmo;
      assert HmoPaid(payments, inv) == HmoPaid(payments[..last], inv) + (if hmo then p.amount else 0);
      if p.invoice == inv {
        assert PaymentsOf(payments, inv) == front + [p];
        HmoPaymentsAppend(front, p);
        if hmo {
          SumAmountsAppend(HmoPayments(front), [p]);
          assert SumAmounts([p]) == SumAmounts([]) + p.amount;
        } else {
          assert HmoPayments(front + [p]) == HmoPayments(front);
          assert HmoPaid(payments, inv) == HmoPaid(payments[..last], inv);
          assert SumAmounts(HmoPayments(PaymentsOf(payments, inv))) == SumAmounts(HmoPayments(front));
        }
      } else {
        assert PaymentsOf(payments, inv) == front;
      }
    }
  }

  /** The payments among `ps` made by the HMO, in order. */
  function HmoPayments(ps: seq<Payment>): (r: seq<Payment>)
    ensures |r| <= |ps|
  {
    if ps == [] then []
    else
      var last := |ps| - 1;
      HmoPayments(ps[..last]) + (if ps[last].payMethod == MethodHmo then [ps[last]] else [])
  }

  lemma HmoPaymentsAppend(ps: seq<Payment>, p: Payment)
    ensures HmoPayments(ps + [p]) == HmoPayments(ps) + (if p.payMethod == MethodHmo then [p] else [])
  {
    assert (ps + [p])[..|ps|] == ps;
  }

  /** Adding a payment to one invoice leaves the payments of the others as they were. */
  lemma PaymentsOfAppend(payments: seq<Payment>, p: Payment, inv: nat)
    ensures PaymentsOf(payments + [p], inv)
            == PaymentsOf(payments, inv) + (if p.invoice == inv then [p] else [])
  {
    assert (payments + [p])[..|payments|] == payments;
  }
}
