/** billing/services.py: building a visit's invoice. The invoice is found or
    created, its lines are thrown away and rebuilt from the consultation fee
    and the visit's prescriptions, and its figures are recomputed. */
module BillingServices {
  import opened Common
  import opened Schema
  import opened VisitsModels
  import opened PharmacyModels
  import opened BillingModels
  import opened BillingUtils
  import opened Store
  import opened InvoiceSaves

  /** `CONSULTATION_FEE`, 5000.00, in cents. */
  const ConsultationFee := 500000
  const ConsultationDescription := "Consultation Fee"

  // ---------------------------------------------------------------- lines

  /** The line `InvoiceLine.objects.create` stores for a charge of `price`
      with quantity 1 and the shares `split_amount` gives. */
  function ChargeLine(inv: nat, t: LineType, description: string, price: int, isHmo: bool): (l: InvoiceLine)
    ensures l.invoice == inv && l.lineType == t && l.description == description
    ensures l.qty == 100 && l.unitPrice == price && l.lineTotal == price
    ensures Shares(l.patientShare, l.hmoShare) == SplitAmount(price, isHmo)
    ensures l.lineTotal == l.patientShare + l.hmoShare
  {
    var s := SplitAmount(price, isHmo);
    InvoiceLine(inv, t, description, 100, price, price, s.patient, s.hmo)
  }

  /** The stored line is the created one after `InvoiceLine.save` has filled
      in its total. */
  lemma ChargeLineIsSaved(inv: nat, t: LineType, description: string, price: int, isHmo: bool)
    ensures var s := SplitAmount(price, isHmo);
      SaveLine(InvoiceLine(inv, t, description, 100, price, 0, s.patient, s.hmo)) == ChargeLine(inv, t, description, price, isHmo)
  {
  }

  function ConsultationLine(inv: nat, isHmo: bool): InvoiceLine {
    ChargeLine(inv, Consultation, ConsultationDescription, ConsultationFee, isHmo)
  }

  /** `Decimal(rx.drug.price or 0)`: a drug without a price is billed at zero. */
  function DrugPrice(d: Drug): (p: int)
    ensures d.price.None? ==> p == 0
    ensures d.price.Some? ==> p == d.price.value
  {
    d.price.GetOr(0)
  }

  function DrugLineFor(inv: nat, d: Drug, isHmo: bool): InvoiceLine {
    ChargeLine(inv, DrugLine, "Drug: " + DrugLabel(d), DrugPrice(d), isHmo)
  }

  /** `visit.prescriptions.all()`: every prescription of the visit, whatever
      its status, in insertion order. */
  function PrescriptionsOfVisit(rx: seq<Prescription>, visit: nat): (r: seq<Prescription>)
    ensures |r| <= |rx|
    ensures forall p :: p in r <==> p in rx && p.visit == visit
  {
    if rx == [] then []
    else
      var last := |rx| - 1;
      assert rx == rx[..last] + [rx[last]];
      var front := PrescriptionsOfVisit(rx[..last], visit);
      if rx[last].visit == visit then front + [rx[last]] else front
  }

  predicate DrugsExist(rx: seq<Prescription>, drugCount: nat) {
    forall i :: 0 <= i < |rx| ==> InRange(rx[i].drug, drugCount)
  }

  lemma {:induction false} VisitPrescriptionsExist(rx: seq<Prescription>, visit: nat, drugCount: nat)
    requires DrugsExist(rx, drugCount)
    ensures DrugsExist(PrescriptionsOfVisit(rx, visit), drugCount)
  {
    if rx != [] {
      VisitPrescriptionsExist(rx[..|rx| - 1], visit, drugCount);
    }
  }

  /** One DRUG line per prescription, in order. */
  function DrugLines(inv: nat, rxs: seq<Prescription>, drugs: seq<Drug>, isHmo: bool): (r: seq<InvoiceLine>)
    requires DrugsExist(rxs, |drugs|)
    ensures |r| == |rxs|
  {
    if rxs == [] then []
    else
      var last := |rxs| - 1;
      DrugLines(inv, rxs[..last], drugs, isHmo) + [DrugLineFor(inv, drugs[rxs[last].drug - 1], isHmo)]
  }

  /** The lines `generate_invoice_for_visit` leaves on invoice `inv`. */
  function RebuiltLines(inv: nat, visit: nat, rx: seq<Prescription>, drugs: seq<Drug>, isHmo: bool): seq<InvoiceLine>
    requires DrugsExist(rx, |drugs|)
  {
    VisitPrescriptionsExist(rx, visit, |drugs|);
    [ConsultationLine(inv, isHmo)] + DrugLines(inv, PrescriptionsOfVisit(rx, visit), drugs, isHmo)
  }

  /** `invoice.lines.all()`. */
  function LinesOf(lines: seq<InvoiceLine>, inv: nat): (r: seq<InvoiceLine>)
  {
    if lines == [] then []
    else
      var last := |lines| - 1;
      assert lines == lines[..last] + [lines[last]];
      var front := LinesOf(lines[..last], inv);
      if lines[last].invoice == inv then front + [lines[last]] else front
  }

  /** The table after `invoice.lines.all().delete()`. */
  function LinesWithout(lines: seq<InvoiceLine>, inv: nat): (r: seq<InvoiceLine>)
  {
    if lines == [] then []
    else
      var last := |lines| - 1;
      assert lines == lines[..last] + [lines[last]];
      var front := LinesWithout(lines[..last], inv);
      if lines[last].invoice != inv then front + [lines[last]] else front
  }

  /** `LinesOf` keeps exactly the lines of `inv`. */
  lemma {:induction false} LinesOfMembers(lines: seq<InvoiceLine>, inv: nat)
    ensures forall l :: l in LinesOf(lines, inv) <==> l in lines && l.invoice == inv
  {
    if lines != [] {
      var last := |lines| - 1;
      assert lines == lines[..last] + [lines[last]];
      LinesOfMembers(lines[..last], inv);
    }
  }

  /** `LinesWithout` keeps exactly the lines of the other invoices. */
  lemma {:induction false} LinesWithoutMembers(lines: seq<InvoiceLine>, inv: nat)
    ensures forall l :: l in LinesWithout(lines, inv) <==> l in lines && l.invoice != inv
  {
    if lines != [] {
      var last := |lines| - 1;
      assert lines == lines[..last] + [lines[last]];
      LinesWithoutMembers(lines[..last], inv);
    }
  }

  lemma LinesOfAppend(a: seq<InvoiceLine>, b: seq<InvoiceLine>, inv: nat)
    ensures LinesOf(a + b, inv) == LinesOf(a, inv) + LinesOf(b, inv)
    decreases |b|
  {
    if b == [] {
      assert a + b == a;
    } else {
      var last := |b| - 1;
      assert (a + b)[..|a + b| - 1] == a + b[..last];
      LinesOfAppend(a, b[..last], inv);
    }
  }

  lemma LinesWithoutAppend(a: seq<InvoiceLine>, b: seq<InvoiceLine>, inv: nat)
    ensures LinesWithout(a + b, inv) == LinesWithout(a, inv) + LinesWithout(b, inv)
    decreases |b|
  {
    if b == [] {
      assert a + b == a;
    } else {
      var last := |b| - 1;
      assert (a + b)[..|a + b| - 1] == a + b[..last];
      LinesWithoutAppend(a, b[..last], inv);
    }
  }

  /** Lines that all belong to `inv` are all kept by `LinesOf` and all
      dropped by `LinesWithout`. */
  lemma {:induction false} OwnLines(r: seq<InvoiceLine>, inv: nat)
    requires forall i :: 0 <= i < |r| ==> r[i].invoice == inv
    ensures LinesOf(r, inv) == r && LinesWithout(r, inv) == []
  {
    if r != [] {
      OwnLines(r[..|r| - 1], inv);
      assert r == r[..|r| - 1] + [r[|r| - 1]];
    }
  }

  /** After the rebuild the invoice's lines are exactly the rebuilt ones. */
  lemma LinesAfterRebuild(lines: seq<InvoiceLine>, inv: nat, r: seq<InvoiceLine>)
    requires forall i :: 0 <= i < |r| ==> r[i].invoice == inv
    ensures LinesOf(LinesWithout(lines, inv) + r, inv) == r
    ensures LinesWithout(LinesWithout(lines, inv) + r, inv) == LinesWithout(lines, inv)
  {
    LinesOfAppend(LinesWithout(lines, inv), r, inv);
    LinesWithoutAppend(LinesWithout(lines, inv), r, inv);
    OwnLines(r, inv);
    LinesWithoutMembers(lines, inv);
    NoOwnLines(LinesWithout(lines, inv), inv);
    assert LinesWithout(lines, inv) + [] == LinesWithout(lines, inv);
  }

  lemma {:induction false} NoOwnLines(r: seq<InvoiceLine>, inv: nat)
    requires forall l :: l in r ==> l.invoice != inv
    ensures LinesOf(r, inv) == [] && LinesWithout(r, inv) == r
  {
    if r != [] {
      var last := |r| - 1;
      assert r == r[..last] + [r[last]];
      assert r[last] in r;
      assert forall l :: l in r[..last] ==> l in r;
      NoOwnLines(r[..last], inv);
    }
  }

  /** A rebuilt line: on invoice `inv`, quantity 1, its total split exactly
      between patient and HMO. */
  predicate Charged(l: InvoiceLine, inv: nat) {
    l.invoice == inv && l.qty == 100 && l.lineTotal == l.unitPrice && l.lineTotal == l.patientShare + l.hmoShare
  }

  predicate AllCharged(ls: seq<InvoiceLine>, inv: nat) {
    forall i :: 0 <= i < |ls| ==> Charged(ls[i], inv)
  }

  predicate AllDrugLines(ls: seq<InvoiceLine>) {
    forall i :: 0 <= i < |ls| ==> ls[i].lineType == DrugLine
  }

  lemma {:induction false} DrugLinesShape(inv: nat, rxs: seq<Prescription>, drugs: seq<Drug>, isHmo: bool)
    requires DrugsExist(rxs, |drugs|)
    ensures AllCharged(DrugLines(inv, rxs, drugs, isHmo), inv)
    ensures AllDrugLines(DrugLines(inv, rxs, drugs, isHmo))
  {
    if rxs != [] {
      var last := |rxs| - 1;
      DrugLinesShape(inv, rxs[..last], drugs, isHmo);
      var front := DrugLines(inv, rxs[..last], drugs, isHmo);
      var l := DrugLineFor(inv, drugs[rxs[last].drug - 1], isHmo);
      assert DrugLines(inv, rxs, drugs, isHmo) == front + [l];
      assert Charged(l, inv) && l.lineType == DrugLine;
    }
  }

  lemma RebuiltLinesCharged(inv: nat, visit: nat, rx: seq<Prescription>, drugs: seq<Drug>, isHmo: bool)
    requires DrugsExist(rx, |drugs|)
    ensures AllCharged(RebuiltLines(inv, visit, rx, drugs, isHmo), inv)
    ensures AllDrugLines(RebuiltLines(inv, visit, rx, drugs, isHmo)[1..])
  {
    var rxs := PrescriptionsOfVisit(rx, visit);
    VisitPrescriptionsExist(rx, visit, |drugs|);
    DrugLinesShape(inv, rxs, drugs, isHmo);
    var ds := DrugLines(inv, rxs, drugs, isHmo);
    var r := RebuiltLines(inv, visit, rx, drugs, isHmo);
    assert r == [ConsultationLine(inv, isHmo)] + ds;
    assert r[1..] == ds;
  }

  /** The rebuild never emits a LAB line: its first line is the consultation
      fee and every other line is a DRUG line, one per prescription. */
  lemma RebuiltLinesKinds(inv: nat, visit: nat, rx: seq<Prescription>, drugs: seq<Drug>, isHmo: bool)
    requires DrugsExist(rx, |drugs|)
    ensures var r := RebuiltLines(inv, visit, rx, drugs, isHmo);
      && |r| == 1 + |PrescriptionsOfVisit(rx, visit)|
      && r[0].lineType == Consultation && r[0].unitPrice == ConsultationFee
      && (forall i :: 0 <= i < |r| ==> Charged(r[i], inv))
      && (forall i :: 1 <= i < |r| ==> r[i].lineType == DrugLine)
      && (forall i :: 0 <= i < |r| ==> r[i].lineType != Lab)
  {
    RebuiltLinesCharged(inv, visit, rx, drugs, isHmo);
  }

  // ---------------------------------------------------------------- totals

  datatype Totals = Totals(total: int, patient: int, hmo: int)

  /** The three sums over a list of lines: line totals, patient shares, HMO shares. */
  function LineSums(ls: seq<InvoiceLine>): Totals {
    if ls == [] then Totals(0, 0, 0)
    else
      var t := LineSums(ls[..|ls| - 1]);
      var l := ls[|ls| - 1];
      Totals(t.total + l.lineTotal, t.patient + l.patientShare, t.hmo + l.hmoShare)
  }

  /** When every line splits exactly, so do the sums. */
  lemma {:induction false} LineSumsSplit(ls: seq<InvoiceLine>)
    requires forall i :: 0 <= i < |ls| ==> ls[i].lineTotal == ls[i].patientShare + ls[i].hmoShare
    ensures LineSums(ls).total == LineSums(ls).patient + LineSums(ls).hmo
  {
    if ls != [] {
      LineSumsSplit(ls[..|ls| - 1]);
    }
  }

  lemma RebuiltLinesSplit(inv: nat, visit: nat, rx: seq<Prescription>, drugs: seq<Drug>, isHmo: bool)
    requires DrugsExist(rx, |drugs|)
    ensures var t := LineSums(RebuiltLines(inv, visit, rx, drugs, isHmo)); t.total == t.patient + t.hmo
  {
    RebuiltLinesKinds(inv, visit, rx, drugs, isHmo);
    LineSumsSplit(RebuiltLines(inv, visit, rx, drugs, isHmo));
  }

  /** The status rule: PAID once nothing is owed, PARTIAL when something has
      been paid, UNPAID otherwise. */
  function StatusFor(balance: int, paid: int): (s: InvoiceStatus)
    ensures s == Paid <==> balance <= 0
    ensures s == Partial <==> balance > 0 && paid > 0
    ensures s == Unpaid <==> balance > 0 && paid <= 0
  {
    if balance <= 0 then Paid else if paid > 0 then Partial else Unpaid
  }

  /** `patient.hmo.name if patient.is_hmo and patient.hmo else ""`. */
  function HmoNameFor(p: Patient): string {
    if p.isHmo && p.hmo.Some? then p.hmo.value else ""
  }

  /** The invoice with its figures recomputed from its lines and payments. */
  function Refreshed(inv: Invoice, lines: seq<InvoiceLine>, payments: seq<Payment>, hmoName: string): Invoice {
    var t := LineSums(lines);
    var paid := SumAmounts(payments);
    var balance := t.patient - paid;
    inv.(hmoName := hmoName, totalAmount := t.total, patientAmount := t.patient, hmoAmount := t.hmo,
         amountPaid := paid, balance := balance, status := StatusFor(balance, paid))
  }

  /** What a refreshed invoice promises: the balance equation, the status
      rule, and no field outside the figures touched. */
  lemma RefreshedFigures(inv: Invoice, lines: seq<InvoiceLine>, payments: seq<Payment>, hmoName: string)
    ensures var r := Refreshed(inv, lines, payments, hmoName);
      && r.totalAmount == LineSums(lines).total
      && r.patientAmount == LineSums(lines).patient
      && r.hmoAmount == LineSums(lines).hmo
      && r.amountPaid == SumAmounts(payments)
      && r.balance == r.patientAmount - r.amountPaid
      && (r.status == Paid <==> r.balance <= 0)
      && r.hmoName == hmoName
      && r.number == inv.number && r.patient == inv.patient && r.visit == inv.visit
      && r.createdAt == inv.createdAt && r.createdBy == inv.createdBy && r.hmoState == inv.hmoState
  {
  }

  /** Recomputing twice from the same lines and payments changes nothing more. */
  lemma RefreshIdempotent(inv: Invoice, lines: seq<InvoiceLine>, payments: seq<Payment>, hmoName: string)
    ensures Refreshed(Refreshed(inv, lines, payments, hmoName), lines, payments, hmoName)
            == Refreshed(inv, lines, payments, hmoName)
  {
  }

  /** Every payment counts towards `amount_paid`, HMO settlements included. */
  lemma AmountPaidCountsHmoPayments(inv: Invoice, lines: seq<InvoiceLine>, payments: seq<Payment>, hmoName: string, p: Payment)
    ensures Refreshed(inv, lines, payments + [p], hmoName).amountPaid
            == Refreshed(inv, lines, payments, hmoName).amountPaid + p.amount
  {
    SumAmountsAppend(payments, [p]);
    assert SumAmounts([p]) == p.amount by {
      assert [p][..0] == [];
    }
  }

  // ---------------------------------------------------------------- the operation

  /** The invoice the call works on: the visit's existing one, or a new row
      at the end numbered by the uniqueness loop (`None` when the supplied
      draws run out before a free number is found). */
  function Target(invoices: seq<Invoice>, visit: nat, patient: nat, user: Option<nat>, now: Instant, draws: seq<Draw>)
    : (r: Option<(nat, Invoice)>)
    requires AllValidDraws(draws)
    ensures r.Some? ==> r.value.0 <= |invoices|
  {
    match InvoiceOfVisit(invoices, visit)
    case Some(k) => Some((k, invoices[k]))
    case None =>
      match UniqueNumber(invoices, None, "", draws)
      case Some(n) => Some((|invoices|, NewInvoice(n, patient, Some(visit), user, now)))
      case None => None
  }

  /** Writes `x` at row `k`, or appends it when `k` is the next row. */
  function Put<T>(s: seq<T>, k: nat, x: T): seq<T>
    requires k <= |s|
  {
    if k < |s| then s[k := x] else s + [x]
  }

  /** The invoice and line tables after `generate_invoice_for_visit(visit)`
      and the row it worked on: the target invoice with its figures
      recomputed, its old lines gone and the rebuilt ones appended. `None`
      when the draws run out before a new invoice gets a number. */
  function Generation(invoices: seq<Invoice>, lines: seq<InvoiceLine>, visits: seq<Visit>, patients: seq<Patient>,
                      rx: seq<Prescription>, drugs: seq<Drug>, payments: seq<Payment>,
                      visit: nat, user: Option<nat>, now: Instant, draws: seq<Draw>): Option<Tables>
    requires InRange(visit, |visits|) && VisitsOk(visits, |patients|)
    requires DrugsExist(rx, |drugs|) && AllValidDraws(draws)
  {
    var p := visits[visit - 1].patient;
    var patient := patients[p - 1];
    match Target(invoices, visit, p, user, now, draws)
    case None => None
    case Some((k, base)) =>
      var rebuilt := RebuiltLines(k + 1, visit, rx, drugs, patient.isHmo);
      Some(Tables(k, Put(invoices, k, Refreshed(base, rebuilt, PaymentsOf(payments, k + 1), HmoNameFor(patient))),
                  LinesWithout(lines, k + 1) + rebuilt))
  }

  /** `Generation` for a call whose get-or-create lands on row `k` holding
      `base`: that row is refreshed from the rebuilt lines, and the visit's
      old lines give way to the rebuilt ones. */
  lemma GenerationOfTarget(invoices: seq<Invoice>, lines: seq<InvoiceLine>, visits: seq<Visit>, patients: seq<Patient>,
                           rx: seq<Prescription>, drugs: seq<Drug>, payments: seq<Payment>,
                           visit: nat, user: Option<nat>, now: Instant, draws: seq<Draw>, k: nat, base: Invoice)
    requires InRange(visit, |visits|) && VisitsOk(visits, |patients|)
    requires DrugsExist(rx, |drugs|) && AllValidDraws(draws)
    requires Target(invoices, visit, visits[visit - 1].patient, user, now, draws) == Some((k, base))
    ensures k <= |invoices|
    ensures var patient := patients[visits[visit - 1].patient - 1];
      var rebuilt := RebuiltLines(k + 1, visit, rx, drugs, patient.isHmo);
      Generation(invoices, lines, visits, patients, rx, drugs, payments, visit, user, now, draws)
      == Some(Tables(k, Put(invoices, k, Refreshed(base, rebuilt, PaymentsOf(payments, k + 1), HmoNameFor(patient))),
                     LinesWithout(lines, k + 1) + rebuilt))
  {
  }

  /** Generating again with no new prescriptions or payments changes
      nothing: the same invoice is found (never a second one), its lines
      are rebuilt identically and its figures come out the same. The
      second call draws no number, so its clock and draws do not matter. */
  lemma GenerationIdempotent(invoices: seq<Invoice>, lines: seq<InvoiceLine>, visits: seq<Visit>, patients: seq<Patient>,
                             rx: seq<Prescription>, drugs: seq<Drug>, payments: seq<Payment>,
                             visit: nat, user: Option<nat>, now: Instant, draws: seq<Draw>,
                             user2: Option<nat>, now2: Instant, draws2: seq<Draw>)
    requires InRange(visit, |visits|) && VisitsOk(visits, |patients|)
    requires DrugsExist(rx, |drugs|) && AllValidDraws(draws) && AllValidDraws(draws2)
    requires Generation(invoices, lines, visits, patients, rx, drugs, payments, visit, user, now, draws).Some?
    requires var g := Generation(invoices, lines, visits, patients, rx, drugs, payments, visit, user, now, draws).value;
      InvoicesOk(g.invoices, |patients|, |visits|)
    ensures var g := Generation(invoices, lines, visits, patients, rx, drugs, payments, visit, user, now, draws);
      Generation(g.value.invoices, g.value.lines, visits, patients, rx, drugs, payments, visit, user2, now2, draws2) == g
  {
    var g := Generation(invoices, lines, visits, patients, rx, drugs, payments, visit, user, now, draws).value;
    var k := GenerationSettled(invoices, lines, visits, patients, rx, drugs, payments, visit, user, now, draws);
    GenerationAgain(g.invoices, g.lines, visits, patients, rx, drugs, payments, visit, user2, now2, draws2, k);
  }

  /** After a generation, the visit's invoice is found at the row written,
      carries the figures of its rebuilt lines, and those lines come last. */
  lemma GenerationSettled(invoices: seq<Invoice>, lines: seq<InvoiceLine>, visits: seq<Visit>, patients: seq<Patient>,
                          rx: seq<Prescription>, drugs: seq<Drug>, payments: seq<Payment>,
                          visit: nat, user: Option<nat>, now: Instant, draws: seq<Draw>)
    returns (k: nat)
    requires InRange(visit, |visits|) && VisitsOk(visits, |patients|)
    requires DrugsExist(rx, |drugs|) && AllValidDraws(draws)
    requires Generation(invoices, lines, visits, patients, rx, drugs, payments, visit, user, now, draws).Some?
    requires var g := Generation(invoices, lines, visits, patients, rx, drugs, payments, visit, user, now, draws).value;
      InvoicesOk(g.invoices, |patients|, |visits|)
    ensures var g := Generation(invoices, lines, visits, patients, rx, drugs, payments, visit, user, now, draws).value;
      var patient := patients[visits[visit - 1].patient - 1];
      var rebuilt := RebuiltLines(k + 1, visit, rx, drugs, patient.isHmo);
      && InvoiceOfVisit(g.invoices, visit) == Some(k)
      && Refreshed(g.invoices[k], rebuilt, PaymentsOf(payments, k + 1), HmoNameFor(patient)) == g.invoices[k]
      && LinesWithout(g.lines, k + 1) + rebuilt == g.lines
  {
    var g := Generation(invoices, lines, visits, patients, rx, drugs, payments, visit, user, now, draws).value;
    var x, rebuilt;
    k, x, rebuilt := GenerationParts(invoices, lines, visits, patients, rx, drugs, payments, visit, user, now, draws);
    assert InvoiceOfVisit(g.invoices, visit) == Some(k) by {
      GenerationRowHoldsVisit(invoices, lines, visits, patients, rx, drugs, payments, visit, user, now, draws);
      InvoiceOfVisitUnique(g.invoices, |patients|, |visits|, k);
    }
    assert LinesWithout(g.lines, k + 1) + rebuilt == g.lines by {
      RebuiltLinesCharged(k + 1, visit, rx, drugs, patients[visits[visit - 1].patient - 1].isHmo);
      LinesAfterRebuild(lines, k + 1, rebuilt);
    }
  }

  /** The row a generation worked on is an invoice of the visit. */
  lemma GenerationRowHoldsVisit(invoices: seq<Invoice>, lines: seq<InvoiceLine>, visits: seq<Visit>, patients: seq<Patient>,
                                rx: seq<Prescription>, drugs: seq<Drug>, payments: seq<Payment>,
                                visit: nat, user: Option<nat>, now: Instant, draws: seq<Draw>)
    requires InRange(visit, |visits|) && VisitsOk(visits, |patients|)
    requires DrugsExist(rx, |drugs|) && AllValidDraws(draws)
    requires Generation(invoices, lines, visits, patients, rx, drugs, payments, visit, user, now, draws).Some?
    ensures var g := Generation(invoices, lines, visits, patients, rx, drugs, payments, visit, user, now, draws).value;
      g.row < |g.invoices| && g.invoices[g.row].visit == Some(visit)
  {
    var p := visits[visit - 1].patient;
    var patient := patients[p - 1];
    var t := Target(invoices, visit, p, user, now, draws).value;
    GenerationOfTarget(invoices, lines, visits, patients, rx, drugs, payments, visit, user, now, draws, t.0, t.1);
    var rebuilt := RebuiltLines(t.0 + 1, visit, rx, drugs, patient.isHmo);
    RefreshedFigures(t.1, rebuilt, PaymentsOf(payments, t.0 + 1), HmoNameFor(patient));
  }

  /** After a generation that keeps invoices one-to-one on visits, looking
      the visit's invoice up finds the row the generation worked on. */
  lemma GenerationFound(invoices: seq<Invoice>, lines: seq<InvoiceLine>, visits: seq<Visit>, patients: seq<Patient>,
                        rx: seq<Prescription>, drugs: seq<Drug>, payments: seq<Payment>,
                        visit: nat, user: Option<nat>, now: Instant, draws: seq<Draw>)
    requires InRange(visit, |visits|) && VisitsOk(visits, |patients|)
    requires DrugsExist(rx, |drugs|) && AllValidDraws(draws)
    requires Generation(invoices, lines, visits, patients, rx, drugs, payments, visit, user, now, draws).Some?
    requires var g := Generation(invoices, lines, visits, patients, rx, drugs, payments, visit, user, now, draws).value;
      InvoicesOk(g.invoices, |patients|, |visits|)
    ensures var g := Generation(invoices, lines, visits, patients, rx, drugs, payments, visit, user, now, draws).value;
      InvoiceOfVisit(g.invoices, visit) == Some(g.row)
  {
    var g := Generation(invoices, lines, visits, patients, rx, drugs, payments, visit, user, now, draws).value;
    GenerationRowHoldsVisit(invoices, lines, visits, patients, rx, drugs, payments, visit, user, now, draws);
    InvoiceOfVisitUnique(g.invoices, |patients|, |visits|, g.row);
  }

  /** For a visit that already has its invoice at row `k`, generation
      rewrites that row in place and draws no number. */
  lemma GenerationOfExisting(invoices: seq<Invoice>, lines: seq<InvoiceLine>, visits: seq<Visit>, patients: seq<Patient>,
                             rx: seq<Prescription>, drugs: seq<Drug>, payments: seq<Payment>,
                             visit: nat, user: Option<nat>, now: Instant, draws: seq<Draw>, k: nat)
    requires InRange(visit, |visits|) && VisitsOk(visits, |patients|)
    requires DrugsExist(rx, |drugs|) && AllValidDraws(draws)
    requires InvoiceOfVisit(invoices, visit) == Some(k)
    ensures var patient := patients[visits[visit - 1].patient - 1];
      var rebuilt := RebuiltLines(k + 1, visit, rx, drugs, patient.isHmo);
      Generation(invoices, lines, visits, patients, rx, drugs, payments, visit, user, now, draws)
      == Some(Tables(k, invoices[k := Refreshed(invoices[k], rebuilt, PaymentsOf(payments, k + 1), HmoNameFor(patient))],
                     LinesWithout(lines, k + 1) + rebuilt))
  {
  }

  /** A generation over tables in which the visit's invoice sits at row `k`
      already carrying the figures of its rebuilt lines, and those lines
      already come last, leaves both tables as they are. */
  lemma GenerationAgain(invoices: seq<Invoice>, lines: seq<InvoiceLine>, visits: seq<Visit>, patients: seq<Patient>,
                        rx: seq<Prescription>, drugs: seq<Drug>, payments: seq<Payment>,
                        visit: nat, user: Option<nat>, now: Instant, draws: seq<Draw>, k: nat)
    requires InRange(visit, |visits|) && VisitsOk(visits, |patients|)
    requires DrugsExist(rx, |drugs|) && AllValidDraws(draws)
    requires InvoiceOfVisit(invoices, visit) == Some(k)
    requires var patient := patients[visits[visit - 1].patient - 1];
      var rebuilt := RebuiltLines(k + 1, visit, rx, drugs, patient.isHmo);
      && Refreshed(invoices[k], rebuilt, PaymentsOf(payments, k + 1), HmoNameFor(patient)) == invoices[k]
      && LinesWithout(lines, k + 1) + rebuilt == lines
    ensures Generation(invoices, lines, visits, patients, rx, drugs, payments, visit, user, now, draws)
            == Some(Tables(k, invoices, lines))
  {
    assert invoices[k := invoices[k]] == invoices;
    GenerationOfExisting(invoices, lines, visits, patients, rx, drugs, payments, visit, user, now, draws, k);
  }

  /** A generation's row, the invoice it wrote there and the lines it added,
      named so that later steps need not unfold the definition again. */
  lemma GenerationParts(invoices: seq<Invoice>, lines: seq<InvoiceLine>, visits: seq<Visit>, patients: seq<Patient>,
                        rx: seq<Prescription>, drugs: seq<Drug>, payments: seq<Payment>,
                        visit: nat, user: Option<nat>, now: Instant, draws: seq<Draw>)
    returns (k: nat, x: Invoice, rebuilt: seq<InvoiceLine>)
    requires InRange(visit, |visits|) && VisitsOk(visits, |patients|)
    requires DrugsExist(rx, |drugs|) && AllValidDraws(draws)
    requires Generation(invoices, lines, visits, patients, rx, drugs, payments, visit, user, now, draws).Some?
    ensures var g := Generation(invoices, lines, visits, patients, rx, drugs, payments, visit, user, now, draws).value;
      var patient := patients[visits[visit - 1].patient - 1];
      && g.row == k && k < |g.invoices| && g.invoices[k] == x
      && rebuilt == RebuiltLines(k + 1, visit, rx, drugs, patient.isHmo)
      && g.lines == LinesWithout(lines, k + 1) + rebuilt
      && Refreshed(x, rebuilt, PaymentsOf(payments, k + 1), HmoNameFor(patient)) == x
      && Put(g.invoices, k, x) == g.invoices
  {
    var p := visits[visit - 1].patient;
    var patient := patients[p - 1];
    var t := Target(invoices, visit, p, user, now, draws).value;
    GenerationOfTarget(invoices, lines, visits, patients, rx, drugs, payments, visit, user, now, draws, t.0, t.1);
    k := t.0;
    rebuilt := RebuiltLines(k + 1, visit, rx, drugs, patient.isHmo);
    x := Refreshed(t.1, rebuilt, PaymentsOf(payments, k + 1), HmoNameFor(patient));
    RefreshIdempotent(t.1, rebuilt, PaymentsOf(payments, k + 1), HmoNameFor(patient));
  }

  /** The row an invoice generation worked on, and the two tables it left. */
  datatype Tables = Tables(row: nat, invoices: seq<Invoice>, lines: seq<InvoiceLine>)

  /** `Invoice.objects.get_or_create(visit=visit, defaults=...)`: the row of
      the visit's invoice, created (numbered by `Invoice.save`, then passed
      to the post-save hook) when the visit has none. */
  method GetOrCreateInvoice(db: Db, visit: nat, patient: nat, user: Option<nat>, now: Instant, draws: seq<Draw>)
    returns (r: Result<nat>)
    requires db.Valid() && InRange(visit, |db.visits|) && InRange(patient, |db.patients|)
    requires AllValidDraws(draws)
    modifies db`invoices
    ensures db.Valid()
    ensures match Target(old(db.invoices), visit, patient, user, now, draws)
      case None => r.Err? && db.invoices == old(db.invoices)
      case Some(kb) => r == Ok(kb.0) && db.invoices == Put(old(db.invoices), kb.0, kb.1)
  {
    var found := InvoiceOfVisit(db.invoices, visit);
    if found.Some? {
      return Ok(found.value);
    }
    var number := EnsureUniqueInvoiceNumber(db.invoices, None, "", draws);
    if number.None? {
      return Err("no free invoice number");
    }
    var k := |db.invoices|;
    InsertInvoice(db, NewInvoice(number.value, patient, Some(visit), user, now), draws);
    r := Ok(k);
  }

  /** Deletes the lines of invoice `pk` and creates the consultation line
      and one DRUG line per prescription of the visit, in order. */
  method RebuildLines(db: Db, pk: nat, visit: nat, isHmo: bool)
    requires db.Valid() && InRange(pk, |db.invoices|)
    modifies db`lines
    ensures db.Valid()
    ensures db.lines == LinesWithout(old(db.lines), pk) + RebuiltLines(pk, visit, db.prescriptions, db.drugs, isHmo)
    ensures LinesOf(db.lines, pk) == RebuiltLines(pk, visit, db.prescriptions, db.drugs, isHmo)
  {
    DeleteLines(db, pk);
    ghost var kept := db.lines;
    AddChargeLines(db, pk, visit, isHmo);
    ghost var rebuilt := RebuiltLines(pk, visit, db.prescriptions, db.drugs, isHmo);
    RebuiltLinesCharged(pk, visit, db.prescriptions, db.drugs, isHmo);
    LinesOkAppend(kept, rebuilt, |db.invoices|);
    LinesAfterRebuild(old(db.lines), pk, rebuilt);
  }

  /** `invoice.lines.all().delete()`. */
  method DeleteLines(db: Db, pk: nat)
    requires db.Valid()
    modifies db`lines
    ensures db.Valid()
    ensures db.lines == LinesWithout(old(db.lines), pk)
  {
    LinesWithoutMembers(db.lines, pk);
    db.lines := LinesWithout(db.lines, pk);
  }

  /** The creates: the consultation line, then the drug lines. */
  method AddChargeLines(db: Db, pk: nat, visit: nat, isHmo: bool)
    requires PrescriptionsOk(db.prescriptions, |db.visits|, |db.drugs|)
    modifies db`lines
    ensures db.lines == old(db.lines) + RebuiltLines(pk, visit, db.prescriptions, db.drugs, isHmo)
  {
    var split := SplitAmount(ConsultationFee, isHmo);
    var consult := SaveLine(InvoiceLine(pk, Consultation, ConsultationDescription, 100, ConsultationFee, 0, split.patient, split.hmo));
    ChargeLineIsSaved(pk, Consultation, ConsultationDescription, ConsultationFee, isHmo);
    db.lines := db.lines + [consult];
    ghost var withConsult := db.lines;
    var rxs := PrescriptionsOfVisit(db.prescriptions, visit);
    VisitPrescriptionsExist(db.prescriptions, visit, |db.drugs|);
    AddDrugLines(db, pk, rxs, isHmo);
    assert db.lines == old(db.lines) + ([consult] + DrugLines(pk, rxs, db.drugs, isHmo));
  }

  /** The loop over the visit's prescriptions: one DRUG line each, priced
      from the drug (zero when it has no price) and split as the patient's
      cover says. */
  method AddDrugLines(db: Db, pk: nat, rxs: seq<Prescription>, isHmo: bool)
    requires DrugsExist(rxs, |db.drugs|)
    modifies db`lines
    ensures db.lines == old(db.lines) + DrugLines(pk, rxs, db.drugs, isHmo)
  {
    var i := 0;
    while i < |rxs|
      invariant 0 <= i <= |rxs|
      invariant db.lines == old(db.lines) + DrugLines(pk, rxs[..i], db.drugs, isHmo)
    {
      var drug := db.drugs[rxs[i].drug - 1];
      var drugName := DrugToString(drug);
      var price := DrugPrice(drug);
      var s := SplitAmount(price, isHmo);
      var line := SaveLine(InvoiceLine(pk, DrugLine, "Drug: " + drugName, 100, price, 0, s.patient, s.hmo));
      ChargeLineIsSaved(pk, DrugLine, "Drug: " + drugName, price, isHmo);
      db.lines := db.lines + [line];
      assert rxs[..i + 1][..i] == rxs[..i];
      i := i + 1;
    }
    assert rxs[..i] == rxs;
  }

  lemma LinesOkAppend(a: seq<InvoiceLine>, b: seq<InvoiceLine>, n: nat)
    requires LinesOk(a, n) && LinesOk(b, n)
    ensures LinesOk(a + b, n)
  {
    forall i | 0 <= i < |a + b|
      ensures InRange((a + b)[i].invoice, n)
    {
      if i < |a| {
        assert (a + b)[i] == a[i];
      } else {
        assert (a + b)[i] == b[i - |a|];
      }
    }
  }

  /** Recomputes the figures of the invoice in row `k` from its lines and
      payments and saves it; the save keeps its number. */
  method RefreshInvoice(db: Db, k: nat, patient: Patient, draws: seq<Draw>)
    requires db.Valid() && k < |db.invoices|
    requires AllValidDraws(draws)
    modifies db`invoices
    ensures db.Valid()
    ensures db.invoices == old(db.invoices)[k := Refreshed(old(db.invoices[k]), LinesOf(db.lines, k + 1),
                                              PaymentsOf(db.payments, k + 1), HmoNameFor(patient))]
  {
    var pk := k + 1;
    var t := LineSums(LinesOf(db.lines, pk));
    var paid := SumAmounts(PaymentsOf(db.payments, pk));
    var inv := db.invoices[k];
    inv := inv.(hmoName := HmoNameFor(patient));
    inv := inv.(totalAmount := t.total, patientAmount := t.patient, hmoAmount := t.hmo);
    inv := inv.(amountPaid := paid, balance := inv.patientAmount - paid);
    inv := inv.(status := StatusFor(inv.balance, inv.amountPaid));
    SaveInvoice(db, k, inv, draws);
  }

  /** `generate_invoice_for_visit(visit, user)`. On success it returns the
      invoice's row: the visit's invoice (created if missing, never a second
      one) now carries exactly the rebuilt lines and the figures computed
      from them and from all of its payments. */
  method GenerateInvoiceForVisit(db: Db, visit: nat, user: Option<nat>, now: Instant, draws: seq<Draw>)
    returns (r: Result<nat>)
    requires db.Valid() && InRange(visit, |db.visits|)
    requires AllValidDraws(draws)
    modifies db`invoices, db`lines
    ensures db.Valid()
    ensures var g := Generation(old(db.invoices), old(db.lines), old(db.visits), old(db.patients), old(db.prescriptions),
                                old(db.drugs), old(db.payments), visit, user, now, draws);
      && (g.None? ==> r.Err? && db.invoices == old(db.invoices) && db.lines == old(db.lines))
      && (g.Some? ==> r == Ok(g.value.row) && db.invoices == g.value.invoices && db.lines == g.value.lines)
  {
    ghost var invoices, lines := db.invoices, db.lines;
    var p := db.visits[visit - 1].patient;
    var patient := db.patients[p - 1];
    r := GetOrCreateInvoice(db, visit, p, user, now, draws);
    if r.Err? {
      return;
    }
    var k := r.value;
    ghost var base := Target(invoices, visit, p, user, now, draws).value.1;
    GenerateOn(db, k, visit, user, now, draws, invoices, lines, base);
  }

  /** The regeneration of row `k`, which the get-or-create has just
      written as `base`, completes the generation that started from the
      tables `invoices` and `lines`. */
  method GenerateOn(db: Db, k: nat, visit: nat, user: Option<nat>, now: Instant, draws: seq<Draw>,
                    ghost invoices: seq<Invoice>, ghost lines: seq<InvoiceLine>, ghost base: Invoice)
    requires db.Valid() && InRange(visit, |db.visits|) && AllValidDraws(draws)
    requires Target(invoices, visit, db.visits[visit - 1].patient, user, now, draws) == Some((k, base))
    requires k <= |invoices| && db.invoices == Put(invoices, k, base) && db.lines == lines
    modifies db`invoices, db`lines
    ensures db.Valid()
    ensures Generation(invoices, lines, db.visits, db.patients, db.prescriptions, db.drugs, db.payments, visit, user, now, draws)
            == Some(Tables(k, db.invoices, db.lines))
  {
    var patient := db.patients[db.visits[visit - 1].patient - 1];
    PutThenSet(invoices, k, base);
    RegenerateInvoice(db, k, visit, patient, draws);
    GenerationRegenerated(invoices, lines, db.visits, db.patients, db.prescriptions, db.drugs, db.payments,
                          visit, user, now, draws, k, base, db.invoices, db.lines);
  }

  /** The tables a get-or-create on row `k` followed by a regeneration of
      that row leave are the ones `Generation` describes. */
  lemma GenerationRegenerated(invoices: seq<Invoice>, lines: seq<InvoiceLine>, visits: seq<Visit>, patients: seq<Patient>,
                              rx: seq<Prescription>, drugs: seq<Drug>, payments: seq<Payment>,
                              visit: nat, user: Option<nat>, now: Instant, draws: seq<Draw>, k: nat, base: Invoice,
                              invoices': seq<Invoice>, lines': seq<InvoiceLine>)
    requires InRange(visit, |visits|) && VisitsOk(visits, |patients|)
    requires DrugsExist(rx, |drugs|) && AllValidDraws(draws)
    requires Target(invoices, visit, visits[visit - 1].patient, user, now, draws) == Some((k, base))
    requires var patient := patients[visits[visit - 1].patient - 1];
      var rebuilt := RebuiltLines(k + 1, visit, rx, drugs, patient.isHmo);
      && lines' == LinesWithout(lines, k + 1) + rebuilt
      && invoices' == Put(invoices, k, base)[k := Refreshed(Put(invoices, k, base)[k], rebuilt, PaymentsOf(payments, k + 1), HmoNameFor(patient))]
    ensures Generation(invoices, lines, visits, patients, rx, drugs, payments, visit, user, now, draws)
            == Some(Tables(k, invoices', lines'))
  {
    GenerationOfTarget(invoices, lines, visits, patients, rx, drugs, payments, visit, user, now, draws, k, base);
    PutThenSet(invoices, k, base);
  }

  /** Everything after the get-or-create: the lines rebuilt, then the
      figures recomputed from them and saved. */
  method RegenerateInvoice(db: Db, k: nat, visit: nat, patient: Patient, draws: seq<Draw>)
    requires db.Valid() && k < |db.invoices| && AllValidDraws(draws)
    modifies db`invoices, db`lines
    ensures db.Valid()
    ensures var rebuilt := RebuiltLines(k + 1, visit, db.prescriptions, db.drugs, patient.isHmo);
      && db.lines == LinesWithout(old(db.lines), k + 1) + rebuilt
      && db.invoices == old(db.invoices)[k := Refreshed(old(db.invoices[k]), rebuilt, PaymentsOf(db.payments, k + 1), HmoNameFor(patient))]
  {
    ghost var rebuilt := RebuiltLines(k + 1, visit, db.prescriptions, db.drugs, patient.isHmo);
    RebuildLines(db, k + 1, visit, patient.isHmo);
    assert LinesOf(db.lines, k + 1) == rebuilt;
    RefreshInvoice(db, k, patient, draws);
  }

  /** Overwriting the row just put is the same as putting the new value. */
  lemma PutThenSet<T>(s: seq<T>, k: nat, x: T)
    requires k <= |s|
    ensures Put(s, k, x)[k] == x
    ensures forall y :: Put(s, k, x)[k := y] == Put(s, k, y)
  {
  }
}
