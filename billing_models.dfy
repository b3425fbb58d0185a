/** billing/models.py: invoices, lines, payments, claim batches and items,
    follow-ups; the invoice-number generator and its uniqueness loop; the
    line total computed on save. Money is in integer cents, quantities in
    hundredths. */
module BillingModels {
  import opened Common
  import opened Text
  import Decimal

  // ---------------------------------------------------------------- enums

  datatype InvoiceStatus = Unpaid | Partial | Paid
  datatype HmoState = HmoOk | HmoSubmitted | HmoDisputed | HmoApproved | HmoSettled
  datatype LineType = Consultation | Lab | DrugLine

  /** Payment methods are stored as free text; these are the choices. */
  const MethodCash := "CASH"
  const MethodPos := "POS"
  const MethodTransfer := "TRANSFER"
  const MethodHmo := "HMO"

  /** Claim batch statuses (a plain text field defaulting to DRAFT). */
  const BatchDraft := "DRAFT"
  const BatchSubmitted := "SUBMITTED"
  const BatchPaid := "PAID"

  /** Follow-up statuses. The REMINDED member stores the literal "REINDED". */
  const FollowUpOpen := "OPEN"
  const FollowUpReminded := "REINDED"
  const FollowUpEscalated := "ESCALATED"
  const FollowUpSettled := "SETTLED"

  // ---------------------------------------------------------------- rows

  datatype Invoice = Invoice(
    number: string,
    patient: nat,
    visit: Option<nat>,
    hmoName: string,
    status: InvoiceStatus,
    totalAmount: int,
    patientAmount: int,
    hmoAmount: int,
    amountPaid: int,
    balance: int,
    createdBy: Option<nat>,
    createdAt: Instant,
    hmoState: HmoState,
    disputeReason: string,
    disputeAmount: int,
    lastRemindedAt: Option<Instant>)

  datatype InvoiceLine = InvoiceLine(
    invoice: nat,
    lineType: LineType,
    description: string,
    qty: int,
    unitPrice: int,
    lineTotal: int,
    patientShare: int,
    hmoShare: int)

  datatype Payment = Payment(
    invoice: nat,
    amount: int,
    payMethod: string,
    reference: string,
    paidAt: Instant,
    receivedBy: Option<nat>)

  datatype ClaimBatch = ClaimBatch(
    hmoName: string,
    periodStart: Date,
    periodEnd: Date,
    createdAt: Instant,
    status: string)

  datatype ClaimItem = ClaimItem(
    batch: nat,
    invoice: nat,
    hmoAmount: int,
    patient: string,
    hospitalNumber: string,
    visitNumber: string,
    createdAt: Instant,
    disputed: bool,
    disputeReason: string,
    disputedAt: Option<Instant>)

  datatype FollowUp = FollowUp(
    hmoName: string,
    periodStart: Date,
    periodEnd: Date,
    status: string,
    lastActionAt: Option<Instant>,
    nextFollowUpAt: Option<Date>,
    notes: string,
    owner: Option<nat>,
    createdAt: Instant)

  /** A freshly created invoice: every field at its default except those given. */
  function NewInvoice(number: string, patient: nat, visit: Option<nat>, createdBy: Option<nat>, now: Instant): (r: Invoice)
    ensures r.status == Unpaid && r.hmoState == HmoOk
    ensures r.totalAmount == r.patientAmount == r.hmoAmount == r.amountPaid == r.balance == r.disputeAmount == 0
    ensures r.hmoName == "" && r.disputeReason == "" && r.lastRemindedAt == None
    ensures r.number == number && r.patient == patient && r.visit == visit && r.createdAt == now
  {
    Invoice(number, patient, visit, "", Unpaid, 0, 0, 0, 0, 0, createdBy, now, HmoOk, "", 0, None)
  }

  /** A claim batch starts as a DRAFT. */
  function NewClaimBatch(hmoName: string, periodStart: Date, periodEnd: Date, now: Instant): (r: ClaimBatch)
    ensures r.status == BatchDraft
    ensures r.hmoName == hmoName && r.periodStart == periodStart && r.periodEnd == periodEnd
  {
    ClaimBatch(hmoName, periodStart, periodEnd, now, BatchDraft)
  }

  // ---------------------------------------------------------------- InvoiceLine.save

  /** `InvoiceLine.save`: `line_total` is recomputed as `qty * unit_price`
      (stored to cents, so rounded half-even), whatever value it held; no
      other field changes. */
  function SaveLine(l: InvoiceLine): (r: InvoiceLine)
    ensures r.(lineTotal := l.lineTotal) == l
    ensures Decimal.IsRoundHalfEven(l.qty * l.unitPrice, 100, r.lineTotal)
    ensures l.qty == 100 ==> r.lineTotal == l.unitPrice
  {
    if l.qty == 100 then Decimal.RoundExact(l.unitPrice, 100); l.(lineTotal := Decimal.RoundHalfEven(l.qty * l.unitPrice, 100))
    else l.(lineTotal := Decimal.RoundHalfEven(l.qty * l.unitPrice, 100))
  }

  // ---------------------------------------------------------------- invoice numbers

  /** The reading of `timezone.now()` the generator formats: the current time. */
  datatype Stamp = Stamp(year: nat, month: nat, day: nat, hour: nat, minute: nat, second: nat)

  predicate ValidStamp(s: Stamp) {
    1000 <= s.year <= 9999 && 1 <= s.month <= 12 && 1 <= s.day <= 31
    && s.hour < 24 && s.minute < 60 && s.second < 60
  }

  predicate IsLowerHex(c: char) { '0' <= c <= '9' || 'a' <= c <= 'f' }
  predicate IsUpperHex(c: char) { '0' <= c <= '9' || 'A' <= c <= 'F' }

  /** One draw of the generator's inputs: the clock and `uuid4().hex`
      (32 lower-case hexadecimal digits). */
  datatype Draw = Draw(stamp: Stamp, hex: string)

  predicate ValidDraw(d: Draw) {
    ValidStamp(d.stamp) && |d.hex| == 32 && forall i :: 0 <= i < 32 ==> IsLowerHex(d.hex[i])
  }

  predicate AllValidDraws(ds: seq<Draw>) {
    forall i :: 0 <= i < |ds| ==> ValidDraw(ds[i])
  }

  /** `strftime("%Y%m%d-%H%M%S")`. */
  function FormatStamp(s: Stamp): (r: string)
    requires ValidStamp(s)
  {
    PadNat(s.year, 4) + PadNat(s.month, 2) + PadNat(s.day, 2) + "-"
    + PadNat(s.hour, 2) + PadNat(s.minute, 2) + PadNat(s.second, 2)
  }

  /** `Invoice._new_invoice_number`: "INV-YYYYMMDD-HHMMSS-" and the first six
      hexadecimal digits of the token, upper-cased. */
  function NewInvoiceNumber(d: Draw): (r: string)
    requires ValidDraw(d)
    ensures |r| == 26 && r[..4] == "INV-" && r[12] == '-' && r[19] == '-'
    ensures AllDigits(r[4..12]) && AllDigits(r[13..19])
    ensures forall i :: 20 <= i < 26 ==> IsUpperHex(r[i])
  {
    var s := d.stamp;
    StampFieldLengths(s);
    TokenUpperHex(d.hex);
    NumberShape(PadNat(s.year, 4), PadNat(s.month, 2), PadNat(s.day, 2),
                PadNat(s.hour, 2), PadNat(s.minute, 2), PadNat(s.second, 2), Upper(d.hex[..6]));
    "INV-" + FormatStamp(s) + "-" + Upper(d.hex[..6])
  }

  /** Upper-casing six lowercase hexadecimal digits gives uppercase ones. */
  lemma TokenUpperHex(hex: string)
    requires |hex| == 32 && forall i :: 0 <= i < 32 ==> IsLowerHex(hex[i])
    ensures |Upper(hex[..6])| == 6 && forall i :: 0 <= i < 6 ==> IsUpperHex(Upper(hex[..6])[i])
  {
  }

  /** The character classes of a number assembled from digit fields and an
      uppercase token. */
  lemma NumberShape(y: string, mo: string, dd: string, hh: string, mi: string, ss: string, tok: string)
    requires |y| == 4 && |mo| == 2 && |dd| == 2 && |hh| == 2 && |mi| == 2 && |ss| == 2 && |tok| == 6
    requires AllDigits(y) && AllDigits(mo) && AllDigits(dd) && AllDigits(hh) && AllDigits(mi) && AllDigits(ss)
    requires forall i :: 0 <= i < 6 ==> IsUpperHex(tok[i])
    ensures var r := "INV-" + (y + mo + dd + "-" + hh + mi + ss) + "-" + tok;
      && |r| == 26 && r[..4] == "INV-" && r[12] == '-' && r[19] == '-'
      && AllDigits(r[4..12]) && AllDigits(r[13..19])
      && forall i :: 20 <= i < 26 ==> IsUpperHex(r[i])
  {
    var r := "INV-" + (y + mo + dd + "-" + hh + mi + ss) + "-" + tok;
    NumberSlices(y, mo, dd, hh, mi, ss, tok);
    assert forall i :: 20 <= i < 26 ==> r[i] == tok[i - 20];
  }

  lemma StampFieldLengths(s: Stamp)
    requires ValidStamp(s)
    ensures |PadNat(s.year, 4)| == 4 && |PadNat(s.month, 2)| == 2 && |PadNat(s.day, 2)| == 2
    ensures |PadNat(s.hour, 2)| == 2 && |PadNat(s.minute, 2)| == 2 && |PadNat(s.second, 2)| == 2
  {
    PadNatLength(s.year, 4);
    PadNatLength(s.month, 2);
    PadNatLength(s.day, 2);
    PadNatLength(s.hour, 2);
    PadNatLength(s.minute, 2);
    PadNatLength(s.second, 2);
  }

  /** Where each piece of an assembled number sits. */
  lemma NumberSlices(y: string, mo: string, dd: string, hh: string, mi: string, ss: string, tok: string)
    requires |y| == 4 && |mo| == 2 && |dd| == 2 && |hh| == 2 && |mi| == 2 && |ss| == 2 && |tok| == 6
    ensures var r := "INV-" + (y + mo + dd + "-" + hh + mi + ss) + "-" + tok;
      && |r| == 26 && r[..4] == "INV-" && r[12] == '-' && r[19] == '-'
      && r[4..8] == y && r[8..10] == mo && r[10..12] == dd
      && r[13..15] == hh && r[15..17] == mi && r[17..19] == ss && r[20..] == tok
      && r[4..12] == y + mo + dd && r[13..19] == hh + mi + ss
  {
  }

  datatype ParsedNumber = ParsedNumber(stamp: Stamp, token: string)

  /** A slice of a slice is a slice. */
  lemma SubSlice(s: string, i: nat, j: nat, a: nat, b: nat)
    requires i <= j <= |s| && a <= b <= j - i
    ensures s[i..j][a..b] == s[i + a..i + b]
  {
    forall k | 0 <= k < b - a
      ensures s[i..j][a..b][k] == s[i + a..i + b][k]
    {
      assert s[i..j][a..b][k] == s[i..j][a + k] == s[i + a + k];
    }
  }

  /** Reads a generated invoice number back into its clock reading and token. */
  function ParseInvoiceNumber(r: string): Option<ParsedNumber> {
    if |r| == 26 && r[..4] == "INV-" && r[12] == '-' && r[19] == '-'
       && AllDigits(r[4..12]) && AllDigits(r[13..19]) then
      SubSlice(r, 4, 12, 0, 4);
      SubSlice(r, 4, 12, 4, 6);
      SubSlice(r, 4, 12, 6, 8);
      SubSlice(r, 13, 19, 0, 2);
      SubSlice(r, 13, 19, 2, 4);
      SubSlice(r, 13, 19, 4, 6);
      Some(ParsedNumber(
        Stamp(DigitsValue(r[4..8]), DigitsValue(r[8..10]), DigitsValue(r[10..12]),
              DigitsValue(r[13..15]), DigitsValue(r[15..17]), DigitsValue(r[17..19])),
        r[20..]))
    else None
  }

  /** A generated number determines the clock reading and the token it was made from. */
  lemma ParseNewInvoiceNumber(d: Draw)
    requires ValidDraw(d)
    ensures ParseInvoiceNumber(NewInvoiceNumber(d)) == Some(ParsedNumber(d.stamp, Upper(d.hex[..6])))
  {
    var s := d.stamp;
    StampFieldLengths(s);
    NumberSlices(PadNat(s.year, 4), PadNat(s.month, 2), PadNat(s.day, 2),
                 PadNat(s.hour, 2), PadNat(s.minute, 2), PadNat(s.second, 2), Upper(d.hex[..6]));
    PadNatValue(s.year, 4);
    PadNatValue(s.month, 2);
    PadNatValue(s.day, 2);
    PadNatValue(s.hour, 2);
    PadNatValue(s.minute, 2);
    PadNatValue(s.second, 2);
  }

  /** The number generated from each draw, in order. */
  function Generated(draws: seq<Draw>): (r: seq<string>)
    requires AllValidDraws(draws)
    ensures |r| == |draws|
  {
    if draws == [] then [] else [NewInvoiceNumber(draws[0])] + Generated(draws[1..])
  }

  /** Some invoice other than the one with primary key `self` is numbered `n`
      (`filter(invoice_number=n).exclude(pk=self.pk).exists()`); row `k` has
      primary key `k + 1`. */
  predicate TakenByOther(invoices: seq<Invoice>, self: Option<nat>, n: string) {
    if invoices == [] then false
    else
      var last := |invoices| - 1;
      TakenByOther(invoices[..last], self, n) || (invoices[last].number == n && self != Some(last + 1))
  }

  /** The query reads as: some row other than `self` carries the number. */
  lemma {:induction false} TakenByOtherIff(invoices: seq<Invoice>, self: Option<nat>, n: string)
    ensures TakenByOther(invoices, self, n) <==>
      exists k :: 0 <= k < |invoices| && invoices[k].number == n && self != Some(k + 1)
  {
    if invoices != [] {
      var last := |invoices| - 1;
      var front := invoices[..last];
      TakenByOtherIff(front, self, n);
      if TakenByOther(front, self, n) {
        var k :| 0 <= k < |front| && front[k].number == n && self != Some(k + 1);
        assert invoices[k] == front[k];
      }
      if exists k :: 0 <= k < |invoices| && invoices[k].number == n && self != Some(k + 1) {
        var k :| 0 <= k < |invoices| && invoices[k].number == n && self != Some(k + 1);
        if k < last {
          assert front[k] == invoices[k];
        }
      }
    }
  }

  /** The first candidate no other invoice uses, if there is one. */
  function FirstFree(cands: seq<string>, invoices: seq<Invoice>, self: Option<nat>): (r: Option<string>)
    ensures r.Some? ==> r.value in cands && !TakenByOther(invoices, self, r.value)
    ensures r.None? ==> forall i :: 0 <= i < |cands| ==> TakenByOther(invoices, self, cands[i])
    ensures cands != [] && !TakenByOther(invoices, self, cands[0]) ==> r == Some(cands[0])
  {
    if cands == [] then None
    else if !TakenByOther(invoices, self, cands[0]) then Some(cands[0])
    else
      var r := FirstFree(cands[1..], invoices, self);
      assert forall i :: 1 <= i < |cands| ==> cands[i] == cands[1..][i - 1];
      r
  }

  /** The numbers `_ensure_unique_invoice_number` tries in turn: the current
      one unless blank, then one fresh number per draw. */
  function Candidates(number: string, draws: seq<Draw>): seq<string>
    requires AllValidDraws(draws)
  {
    if number == "" then Generated(draws) else [number] + Generated(draws)
  }

  /** The retry loop from the number `n`: keep it if no other row holds it,
      otherwise move on to the number of the next draw. */
  function Retry(invoices: seq<Invoice>, self: Option<nat>, n: string, draws: seq<Draw>): (r: Option<string>)
    requires AllValidDraws(draws)
    ensures r.Some? ==> !TakenByOther(invoices, self, r.value) && (n != "" ==> r.value != "")
    ensures !TakenByOther(invoices, self, n) ==> r == Some(n)
    decreases |draws|
  {
    if !TakenByOther(invoices, self, n) then Some(n)
    else if draws == [] then None
    else Retry(invoices, self, NewInvoiceNumber(draws[0]), draws[1..])
  }

  /** What `_ensure_unique_invoice_number` leaves in the field. */
  function UniqueNumber(invoices: seq<Invoice>, self: Option<nat>, number: string, draws: seq<Draw>): Option<string>
    requires AllValidDraws(draws)
  {
    if number != "" then Retry(invoices, self, number, draws)
    else if draws == [] then None
    else Retry(invoices, self, NewInvoiceNumber(draws[0]), draws[1..])
  }

  /** `Invoice._ensure_unique_invoice_number`, run by every `Invoice.save`.
      A blank number is replaced by a generated one, and while another row
      holds the number a new one is generated. The generator's clock and
      random token come from `draws`; when they run out before a free number
      is found the result is `None` (the source would keep on looping). */
  method EnsureUniqueInvoiceNumber(invoices: seq<Invoice>, self: Option<nat>, number: string, draws: seq<Draw>)
    returns (r: Option<string>)
    requires AllValidDraws(draws)
    ensures r == UniqueNumber(invoices, self, number, draws)
    ensures r.Some? ==> r.value != "" && !TakenByOther(invoices, self, r.value)
    ensures number != "" && !TakenByOther(invoices, self, number) ==> r == Some(number)
  {
    if number != "" {
      r := RetryLoop(invoices, self, number, draws);
    } else if draws == [] {
      r := None;
    } else {
      r := RetryLoop(invoices, self, NewInvoiceNumber(draws[0]), draws[1..]);
    }
  }

  /** The `while` loop of `_ensure_unique_invoice_number`, from the
      candidate `n`: it stops at the first candidate no other row holds. */
  method RetryLoop(invoices: seq<Invoice>, self: Option<nat>, n: string, draws: seq<Draw>) returns (r: Option<string>)
    requires AllValidDraws(draws)
    ensures r == Retry(invoices, self, n, draws)
  {
    var candidate := n;
    var rest := draws;
    while TakenByOther(invoices, self, candidate)
      invariant AllValidDraws(rest)
      invariant Retry(invoices, self, candidate, rest) == Retry(invoices, self, n, draws)
      decreases |rest|
    {
      if rest == [] {
        return None;
      }
      candidate := NewInvoiceNumber(rest[0]);
      rest := rest[1..];
    }
    r := Some(candidate);
  }

  /** The loop tries the candidates in order and keeps the first free one. */
  lemma UniqueNumberIsFirstFree(invoices: seq<Invoice>, self: Option<nat>, number: string, draws: seq<Draw>)
    requires AllValidDraws(draws)
    ensures UniqueNumber(invoices, self, number, draws) == FirstFree(Candidates(number, draws), invoices, self)
  {
    if number != "" {
      RetryIsFirstFree(invoices, self, number, draws);
    } else if draws != [] {
      RetryIsFirstFree(invoices, self, NewInvoiceNumber(draws[0]), draws[1..]);
    }
  }

  lemma {:induction false} RetryIsFirstFree(invoices: seq<Invoice>, self: Option<nat>, n: string, draws: seq<Draw>)
    requires AllValidDraws(draws)
    ensures Retry(invoices, self, n, draws) == FirstFree([n] + Generated(draws), invoices, self)
    decreases |draws|
  {
    var c := [n] + Generated(draws);
    assert c[0] == n;
    if TakenByOther(invoices, self, n) && draws != [] {
      assert c[1..] == Generated(draws) == [NewInvoiceNumber(draws[0])] + Generated(draws[1..]);
      RetryIsFirstFree(invoices, self, NewInvoiceNumber(draws[0]), draws[1..]);
    } else if TakenByOther(invoices, self, n) {
      assert c[1..] == [];
    }
  }

  /** A generated number never has the form the post-save signal assigns. */
  lemma GeneratedNumberIsNotSignalNumber(d: Draw, id: nat)
    requires ValidDraw(d)
    ensures NewInvoiceNumber(d) != "EDH-INV-" + PadNat(id, 6)
  {
    assert NewInvoiceNumber(d)[0] == 'I';
    assert ("EDH-INV-" + PadNat(id, 6))[0] == 'E';
  }
}
