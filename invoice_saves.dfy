/** How the handlers write invoices: `Invoice.save` runs the uniqueness loop
    before every write, and the post-save hook runs after it. */
module InvoiceSaves {
  import opened Common
  import opened BillingModels
  import opened Store
  import BillingSignals

  /** The insert of a new invoice whose number `Invoice.save` has already
      made unique, followed by the post-save hook, which finds the number
      set and leaves it. */
  method InsertInvoice(db: Db, inv: Invoice, draws: seq<Draw>)
    requires db.Valid() && AllValidDraws(draws)
    requires InRange(inv.patient, |db.patients|) && OptInRange(inv.visit, |db.visits|)
    requires inv.number != "" && !TakenByOther(db.invoices, None, inv.number)
    requires inv.visit.Some? ==> InvoiceOfVisit(db.invoices, inv.visit.value).None?
    modifies db`invoices
    ensures db.Valid()
    ensures db.invoices == old(db.invoices) + [inv]
  {
    NotTakenAppend(db.invoices, inv.number);
    InvoicesOkAppend(db.invoices, |db.patients|, |db.visits|, inv);
    var k := |db.invoices|;
    db.invoices := db.invoices + [inv];
    var signal := BillingSignals.SetInvoiceNumber(db, k, true, draws);
  }

  /** `invoice.save()` (with or without `update_fields`) of row `k` after
      its figures were changed in memory. With numbers already unique the
      loop keeps the number, and the hook, run with `created` false, does
      nothing. */
  method SaveInvoice(db: Db, k: nat, inv: Invoice, draws: seq<Draw>)
    requires db.Valid() && k < |db.invoices| && AllValidDraws(draws)
    requires inv.number == db.invoices[k].number && inv.patient == db.invoices[k].patient
    requires inv.visit == db.invoices[k].visit
    modifies db`invoices
    ensures db.Valid()
    ensures db.invoices == old(db.invoices)[k := inv]
  {
    NotTakenBySelf(db.invoices, k);
    var number := EnsureUniqueInvoiceNumber(db.invoices, Some(k + 1), inv.number, draws);
    assert number == Some(inv.number);
    InvoicesOkUpdate(db.invoices, |db.patients|, |db.visits|, k, inv);
    db.invoices := db.invoices[k := inv];
    var signal := BillingSignals.SetInvoiceNumber(db, k, false, draws);
  }

  /** A number no row holds can be appended without breaking uniqueness. */
  lemma NotTakenAppend(invoices: seq<Invoice>, n: string)
    requires !TakenByOther(invoices, None, n)
    ensures forall i :: 0 <= i < |invoices| ==> invoices[i].number != n
  {
    TakenByOtherIff(invoices, None, n);
  }

  /** With unique numbers, no other row holds row `k`'s number, so a re-save
      keeps it. */
  lemma NotTakenBySelf(invoices: seq<Invoice>, k: nat)
    requires NumbersUnique(invoices) && k < |invoices|
    ensures !TakenByOther(invoices, Some(k + 1), invoices[k].number)
  {
    TakenByOtherIff(invoices, Some(k + 1), invoices[k].number);
    forall j | 0 <= j < |invoices| && j != k
      ensures invoices[j].number != invoices[k].number
    {
      if j < k {
        assert invoices[j].number != invoices[k].number;
      } else {
        assert invoices[k].number != invoices[j].number;
      }
    }
  }

  /** Rewriting row `k` without touching its patient, visit or number keeps
      the invoice constraints. */
  lemma InvoicesOkUpdate(invoices: seq<Invoice>, patientCount: nat, visitCount: nat, k: nat, x: Invoice)
    requires InvoicesOk(invoices, patientCount, visitCount) && k < |invoices|
    requires x.number == invoices[k].number && x.patient == invoices[k].patient && x.visit == invoices[k].visit
    ensures InvoicesOk(invoices[k := x], patientCount, visitCount)
  {
  }

  /** Appending an invoice with a fresh number for a visit that has none
      keeps the invoice constraints. */
  lemma InvoicesOkAppend(invoices: seq<Invoice>, patientCount: nat, visitCount: nat, x: Invoice)
    requires InvoicesOk(invoices, patientCount, visitCount)
    requires InRange(x.patient, patientCount) && OptInRange(x.visit, visitCount) && x.number != ""
    requires forall i :: 0 <= i < |invoices| ==> invoices[i].number != x.number
    requires x.visit.Some? ==> forall i :: 0 <= i < |invoices| ==> invoices[i].visit != x.visit
    ensures InvoicesOk(invoices + [x], patientCount, visitCount)
  {
  }
}
