/** billing/pdf_hmo_reminder.py: the strings of the reminder sent to an HMO
    about its outstanding receivables: the hospital's contact line, the
    generation time and the table of outstanding invoices. Its `_money` is
    the same formatter as the receipt's, so `PdfReceipts.Money` serves
    both. The document layout is not modelled. */
module PdfHmoReminder {
  import opened Common
  import opened Text
  import opened Schema
  import opened PdfReceipts

  /** `" • ".join` of the hospital's phone and email, skipping empty ones. */
  function ReminderContact(h: Hospital): (r: string)
    ensures h.phone == "" ==> r == h.email
    ensures h.phone != "" ==> |r| >= |h.phone| && r[..|h.phone|] == h.phone
  {
    JoinNonEmptyPair(Bullet, h.phone, h.email);
    Join(Bullet, NonEmpty([h.phone, h.email]))
  }

  /** The contact line is phone and email joined by the bullet when both
      are given, the one given otherwise, and empty when neither is. */
  lemma ReminderContactSpec(h: Hospital)
    ensures ReminderContact(h) ==
      if h.phone != "" && h.email != "" then h.phone + Bullet + h.email
      else if h.phone != "" then h.phone
      else h.email
  {
    JoinNonEmptyPair(Bullet, h.phone, h.email);
  }

  /** For a phone and an email that neither start nor end with a space or
      a bullet, the reminder and the receipt show the same contact line,
      though one joins and the other strips. */
  lemma ContactLinesAgree(h: Hospital)
    requires Trimmed(h.phone, SpaceOrBullet) && Trimmed(h.email, SpaceOrBullet)
    ensures ReminderContact(h) == ContactLine(h)
  {
    ReminderContactSpec(h);
    ContactLineSpec(h);
  }

  /** `generated_at`, which defaults to the current time. */
  function GeneratedAt(given: Option<Instant>, now: Instant): (r: Instant)
    ensures given.Some? ==> r == given.value
    ensures given.None? ==> r == now
  {
    given.GetOr(now)
  }

  /** An invoice as a row refers to it: its number and its patient. */
  datatype RowInvoice = RowInvoice(number: string, patient: Option<Patient>)

  /** One input row: the keys `inv`, `days` and `outstanding`, each of
      which may be missing. */
  datatype RowInput = RowInput(inv: Option<RowInvoice>, days: Option<int>, outstanding: Option<MoneyArg>)

  const TableHeader: seq<string> := ["Invoice", "Hospital No", "Patient", "Days", "Outstanding (₦)"]

  /** `str(n)` for an integer. */
  function IntString(n: int): (r: string)
    ensures r != []
  {
    if n < 0 then "-" + NatToString(-n) else NatToString(n)
  }

  /** The table row for one input row. Without an invoice the number, and
      without a patient the hospital number and the name, are blank. */
  function TableRow(r: RowInput): (cells: seq<string>)
    ensures |cells| == |TableHeader|
  {
    var patient := if r.inv.Some? then r.inv.value.patient else None;
    [ if r.inv.Some? then r.inv.value.number else "",
      if patient.Some? then patient.value.hospitalNumber else "",
      PatientName(patient),
      if r.days.Some? then IntString(r.days.value) else "",
      Money(r.outstanding.GetOr(Cents(0))) ]
  }

  /** Each row has one cell per header column; a missing invoice or patient
      leaves its cells blank, and a missing `days` is blank. */
  lemma TableRowCells(r: RowInput)
    ensures |TableRow(r)| == |TableHeader| == 5
    ensures r.inv.None? ==> TableRow(r)[0] == "" && TableRow(r)[1] == "" && TableRow(r)[2] == ""
    ensures r.inv.Some? ==> TableRow(r)[0] == r.inv.value.number
    ensures r.inv.Some? && r.inv.value.patient.None? ==> TableRow(r)[1] == "" && TableRow(r)[2] == ""
    ensures r.inv.Some? && r.inv.value.patient.Some? ==>
      TableRow(r)[1] == r.inv.value.patient.value.hospitalNumber && TableRow(r)[2] == PatientName(r.inv.value.patient)
    ensures r.days.None? ==> TableRow(r)[3] == ""
    ensures r.days.Some? ==> TableRow(r)[3] != ""
  {
  }

  /** A missing amount is shown as zero, and a given amount reads back as
      itself. */
  lemma TableRowAmount(r: RowInput)
    ensures r.outstanding.None? ==> TableRow(r)[4] == "0.00"
    ensures r.outstanding.Some? && r.outstanding.value.Cents? ==>
      ParseMoney(TableRow(r)[4]) == Some(r.outstanding.value.cents)
  {
    if r.outstanding.None? {
      MoneyZero();
    } else if r.outstanding.value.Cents? {
      MoneyRoundTrip(r.outstanding.value.cents);
    }
  }

  /** The table: the header, then one row per input row, in input order. */
  method BuildTable(rows: seq<RowInput>) returns (data: seq<seq<string>>)
    ensures |data| == |rows| + 1 && data[0] == TableHeader
    ensures forall i :: 0 <= i < |rows| ==> data[i + 1] == TableRow(rows[i])
  {
    data := [TableHeader];
    var i := 0;
    while i < |rows|
      invariant 0 <= i <= |rows|
      invariant |data| == i + 1 && data[0] == TableHeader
      invariant forall k :: 0 <= k < i ==> data[k + 1] == TableRow(rows[k])
    {
      data := data + [TableRow(rows[i])];
      i := i + 1;
    }
  }

  /** Every row of the table is as wide as the header. */
  lemma TableWidth(rows: seq<RowInput>, data: seq<seq<string>>)
    requires |data| == |rows| + 1 && data[0] == TableHeader
    requires forall i :: 0 <= i < |rows| ==> data[i + 1] == TableRow(rows[i])
    ensures forall k :: 0 <= k < |data| ==> |data[k]| == 5
  {
    forall k | 0 <= k < |data|
      ensures |data[k]| == 5
    {
      if k > 0 {
        TableRowCells(rows[k - 1]);
      }
    }
  }
}
