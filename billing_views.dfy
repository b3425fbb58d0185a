/** billing/views.py: the invoice list search and payment entry. */
module BillingViews {
  import opened Common
  import opened Text
  import opened Schema
  import opened BillingModels
  import opened Store
  import opened BillingServices
  import opened InvoiceSaves
  import opened AccountsUtils
  import opened Queries

  const ListRoles: set<string> := {"billing", "admin", "frontdesk"}
  const PaymentRoles: set<string> := {"billing", "admin"}
  const InvoiceListLimit := 200

  // ---------------------------------------------------------------- invoice_list

  /** The search filter: with a non-empty query, the invoice number or the
      patient's hospital number, first name or last name contains it,
      ignoring case. */
  predicate InvoiceMatches(invoices: seq<Invoice>, patients: seq<Patient>, i: nat, q: string)
    requires i < |invoices| && InRange(invoices[i].patient, |patients|)
  {
    var p := patients[invoices[i].patient - 1];
    || q == ""
    || IContains(invoices[i].number, q)
    || IContains(p.hospitalNumber, q)
    || IContains(p.firstName, q)
    || IContains(p.lastName, q)
  }

  /** `invoice_list`: the rows of the matching invoices for the stripped
      query, newest first, at most 200. */
  function InvoiceList(u: Viewer, invoices: seq<Invoice>, patients: seq<Patient>, rawQ: string): (r: Page<seq<nat>>)
    requires forall i :: 0 <= i < |invoices| ==> InRange(invoices[i].patient, |patients|)
    ensures StaffGate(u, ListRoles).Some? ==> r == Stop(StaffGate(u, ListRoles).value)
    ensures StaffGate(u, ListRoles).None? ==>
      && r.Show?
      && |r.content| <= InvoiceListLimit
      && Descending(r.content)
      && (forall i :: i in r.content ==> i < |invoices| && InvoiceMatches(invoices, patients, i, Strip(rawQ)))
      && (forall i: nat :: i < |invoices| && InvoiceMatches(invoices, patients, i, Strip(rawQ)) && i !in r.content ==>
            |r.content| == InvoiceListLimit && forall j :: j in r.content ==> j > i)
  {
    match StaffGate(u, ListRoles)
    case Some(o) => Stop(o)
    case None =>
      var q := Strip(rawQ);
      var keep := (i: nat) => i < |invoices| && InvoiceMatches(invoices, patients, i, q);
      NewestPage(|invoices|, keep, InvoiceListLimit);
      Show(Take(NewestFirst(|invoices|, keep), InvoiceListLimit))
  }

  /** `invoice_detail(invoice_id)`: the invoice in that row, behind the
      same gate as the list. */
  function InvoiceDetail(u: Viewer, invoices: seq<Invoice>, id: nat): (r: Page<Invoice>)
    ensures StaffGate(u, ListRoles).Some? ==> r == Stop(StaffGate(u, ListRoles).value)
    ensures StaffGate(u, ListRoles).None? && !InRange(id, |invoices|) ==> r == Stop(NotFound)
    ensures StaffGate(u, ListRoles).None? && InRange(id, |invoices|) ==> r == Show(invoices[id - 1])
  {
    match StaffGate(u, ListRoles)
    case Some(o) => Stop(o)
    case None => if InRange(id, |invoices|) then Show(invoices[id - 1]) else Stop(NotFound)
  }

  // ---------------------------------------------------------------- add_payment

  /** The posted payment fields: `amount`, `method` (absent when not sent)
      and `reference`. */
  datatype PaymentForm = PaymentForm(amount: DecimalInput, payMethod: Option<string>, reference: Option<string>)

  /** `add_payment(invoice_id)`. A POST records one payment with the posted
      amount (blank reads as zero; the sign is not checked), method and
      stripped reference, then recomputes the invoice: a visit's invoice is
      regenerated in full, any other only gets `amount_paid` (every payment,
      whatever its method) and `balance`, its status left as it was. A
      `method` that was not posted violates the column's NOT NULL
      constraint, so the create fails and nothing is written. */
  method AddPayment(db: Db, u: Viewer, id: nat, isPost: bool, form: PaymentForm, now: Instant, draws: seq<Draw>)
    returns (o: Outcome)
    requires db.Valid() && AllValidDraws(draws)
    modifies db`payments, db`invoices, db`lines
    ensures db.Valid()
    ensures StaffGate(u, PaymentRoles).Some? ==>
      o == StaffGate(u, PaymentRoles).value && unchanged(db)
    ensures StaffGate(u, PaymentRoles).None? && !InRange(id, |old(db.invoices)|) ==> o == NotFound && unchanged(db)
    ensures StaffGate(u, PaymentRoles).None? && InRange(id, |old(db.invoices)|) ==>
      if !isPost then o == Unchanged && unchanged(db)
      else if DecimalOrZero(form.amount).None? || form.payMethod.None? then o.Failed? && unchanged(db)
      else
        var p := Payment(id, DecimalOrZero(form.amount).value, form.payMethod.value,
                         Strip(form.reference.GetOr("")), now, u.pk);
        o == Done && PaymentPosted(db, old(db.invoices), old(db.lines), old(db.payments), p)
  {
    var gate := StaffGate(u, PaymentRoles);
    if gate.Some? {
      return gate.value;
    }
    if !InRange(id, |db.invoices|) {
      return NotFound;
    }
    if !isPost {
      return Unchanged;
    }
    var amount := DecimalOrZero(form.amount);
    if amount.None? {
      return Failed("invalid decimal amount");
    }
    if form.payMethod.None? {
      return Failed("NOT NULL constraint failed: billing_payment.method");
    }
    var reference := Strip(form.reference.GetOr(""));
    PostPayment(db, Payment(id, amount.value, form.payMethod.value, reference, now, u.pk), draws);
    o := Done;
  }

  /** The tables after payment `p` was recorded against the invoice tables
      `invoices`, `lines` and `payments`: the payment appended, and its
      invoice recomputed, in full when it belongs to a visit, otherwise in
      `amount_paid` and `balance` only. */
  ghost predicate PaymentPosted(db: Db, invoices: seq<Invoice>, lines: seq<InvoiceLine>, payments: seq<Payment>, p: Payment)
    reads db
  {
    && InRange(p.invoice, |invoices|)
    && if invoices[p.invoice - 1].visit.Some? then VisitPaymentPosted(db, invoices, lines, payments, p)
       else LoosePaymentPosted(db, invoices, lines, payments, p)
  }

  /** For a visit's invoice: the lines rebuilt and every figure recomputed. */
  ghost predicate VisitPaymentPosted(db: Db, invoices: seq<Invoice>, lines: seq<InvoiceLine>, payments: seq<Payment>, p: Payment)
    reads db
    requires InRange(p.invoice, |invoices|) && invoices[p.invoice - 1].visit.Some?
  {
    var k := p.invoice - 1;
    var visit := invoices[k].visit.value;
    && db.payments == payments + [p]
    && InRange(visit, |db.visits|) && VisitsOk(db.visits, |db.patients|)
    && DrugsExist(db.prescriptions, |db.drugs|)
    && var patient := db.patients[db.visits[visit - 1].patient - 1];
       var rebuilt := RebuiltLines(p.invoice, visit, db.prescriptions, db.drugs, patient.isHmo);
       && db.lines == LinesWithout(lines, p.invoice) + rebuilt
       && db.invoices == invoices[k := Refreshed(invoices[k], rebuilt, PaymentsOf(db.payments, p.invoice), HmoNameFor(patient))]
  }

  /** For any other invoice: only `amount_paid` and `balance` change. */
  ghost predicate LoosePaymentPosted(db: Db, invoices: seq<Invoice>, lines: seq<InvoiceLine>, payments: seq<Payment>, p: Payment)
    reads db
    requires InRange(p.invoice, |invoices|)
  {
    var k := p.invoice - 1;
    var paid := SumAmounts(PaymentsOf(db.payments, p.invoice));
    && db.payments == payments + [p]
    && db.lines == lines
    && db.invoices == invoices[k := invoices[k].(amountPaid := paid, balance := invoices[k].patientAmount - paid)]
  }

  /** `Payment.objects.create(...)` and the recompute that follows it. */
  method PostPayment(db: Db, p: Payment, draws: seq<Draw>)
    requires db.Valid() && InRange(p.invoice, |db.invoices|) && AllValidDraws(draws)
    modifies db`payments, db`invoices, db`lines
    ensures db.Valid()
    ensures PaymentPosted(db, old(db.invoices), old(db.lines), old(db.payments), p)
  {
    if db.invoices[p.invoice - 1].visit.Some? {
      PostVisitPayment(db, p, draws);
    } else {
      PostLoosePayment(db, p, draws);
    }
  }

  method PostVisitPayment(db: Db, p: Payment, draws: seq<Draw>)
    requires db.Valid() && InRange(p.invoice, |db.invoices|) && AllValidDraws(draws)
    requires db.invoices[p.invoice - 1].visit.Some?
    modifies db`payments, db`invoices, db`lines
    ensures db.Valid()
    ensures VisitPaymentPosted(db, old(db.invoices), old(db.lines), old(db.payments), p)
  {
    RecordPayment(db, p);
    RecomputeVisitInvoice(db, p.invoice - 1, p.receivedBy, p.paidAt, draws);
  }

  method PostLoosePayment(db: Db, p: Payment, draws: seq<Draw>)
    requires db.Valid() && InRange(p.invoice, |db.invoices|) && AllValidDraws(draws)
    requires db.invoices[p.invoice - 1].visit.None?
    modifies db`payments, db`invoices
    ensures db.Valid()
    ensures LoosePaymentPosted(db, old(db.invoices), old(db.lines), old(db.payments), p)
  {
    RecordPayment(db, p);
    RecomputeLooseInvoice(db, p.invoice - 1, draws);
  }

  /** `Payment.objects.create(...)` for an existing invoice. */
  method RecordPayment(db: Db, p: Payment)
    requires db.Valid() && InRange(p.invoice, |db.invoices|)
    modifies db`payments
    ensures db.Valid()
    ensures db.payments == old(db.payments) + [p]
  {
    db.payments := db.payments + [p];
  }

  /** `generate_invoice_for_visit(invoice.visit)` for the invoice in row
      `k`: it is the visit's invoice, so it is rewritten in place with its
      lines rebuilt and its figures recomputed, and no number is drawn. */
  method RecomputeVisitInvoice(db: Db, k: nat, user: Option<nat>, now: Instant, draws: seq<Draw>)
    requires db.Valid() && k < |db.invoices| && db.invoices[k].visit.Some? && AllValidDraws(draws)
    modifies db`invoices, db`lines
    ensures db.Valid()
    ensures var visit := old(db.invoices[k]).visit.value;
      var patient := db.patients[db.visits[visit - 1].patient - 1];
      var rebuilt := RebuiltLines(k + 1, visit, db.prescriptions, db.drugs, patient.isHmo);
      && db.lines == LinesWithout(old(db.lines), k + 1) + rebuilt
      && db.invoices == old(db.invoices)[k := Refreshed(old(db.invoices[k]), rebuilt, PaymentsOf(db.payments, k + 1), HmoNameFor(patient))]
  {
    var visit := db.invoices[k].visit.value;
    InvoiceOfVisitUnique(db.invoices, |db.patients|, |db.visits|, k);
    GenerationOfExisting(db.invoices, db.lines, db.visits, db.patients, db.prescriptions, db.drugs, db.payments,
                         visit, user, now, draws, k);
    var r := GenerateInvoiceForVisit(db, visit, user, now, draws);
  }

  /** The fallback for an invoice without a visit: `amount_paid` becomes
      the sum of all its payments and `balance` what the patient still
      owes; the full `save()` keeps the number. */
  method RecomputeLooseInvoice(db: Db, k: nat, draws: seq<Draw>)
    requires db.Valid() && k < |db.invoices| && AllValidDraws(draws)
    modifies db`invoices
    ensures db.Valid()
    ensures var inv := old(db.invoices[k]);
      var paid := SumAmounts(PaymentsOf(db.payments, k + 1));
      db.invoices == old(db.invoices)[k := inv.(amountPaid := paid, balance := inv.patientAmount - paid)]
  {
    var inv := db.invoices[k];
    var paid := SumAmounts(PaymentsOf(db.payments, k + 1));
    inv := inv.(amountPaid := paid);
    inv := inv.(balance := inv.patientAmount - inv.amountPaid);
    SaveInvoice(db, k, inv, draws);
  }

  /** A new payment raises the sum of its invoice's payments by its amount
      and leaves every other invoice's sum alone. */
  lemma PaidAfterPayment(payments: seq<Payment>, p: Payment, inv: nat)
    ensures SumAmounts(PaymentsOf(payments + [p], inv))
            == SumAmounts(PaymentsOf(payments, inv)) + (if p.invoice == inv then p.amount else 0)
  {
    PaymentsOfAppend(payments, p, inv);
    if p.invoice == inv {
      SumAmountsAppend(PaymentsOf(payments, inv), [p]);
      assert SumAmounts([p]) == p.amount by {
        assert [p][..0] == [];
      }
    } else {
      assert PaymentsOf(payments, inv) + [] == PaymentsOf(payments, inv);
    }
  }
}
