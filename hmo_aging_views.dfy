/** billing/hmo_aging_views.py: the HMO receivables aging report. Every
    invoice with an HMO share still partly unpaid by the HMO is put in an age
    bucket, and the outstanding amounts are summed per HMO and overall. */
module HmoAgingViews {
  import opened Common
  import opened Text
  import opened Schema
  import opened BillingModels
  import opened Store
  import opened AccountsUtils
  import opened Queries
  import opened Sorting

  const AgingRoles: set<string> := {"admin", "billing"}
  const TopInvoicesLimit := 50
  const UnknownHmo := "UNKNOWN HMO"

  // ---------------------------------------------------------------- buckets

  /** The four age buckets, labelled "0-30", "31-60", "61-90" and "90+". */
  datatype Bucket = UpTo30 | UpTo60 | UpTo90 | Over90

  function BucketLabel(b: Bucket): string {
    match b
    case UpTo30 => "0-30"
    case UpTo60 => "31-60"
    case UpTo90 => "61-90"
    case Over90 => "90+"
  }

  /** The position of a bucket, youngest first. */
  function Rank(b: Bucket): nat {
    match b
    case UpTo30 => 0
    case UpTo60 => 1
    case UpTo90 => 2
    case Over90 => 3
  }

  /** `_bucket`: the bucket of an age in days. A negative age (an invoice
      dated after today) falls in the first bucket. */
  function BucketOf(days: int): (b: Bucket)
    ensures b == UpTo30 <==> days <= 30
    ensures b == UpTo60 <==> 30 < days <= 60
    ensures b == UpTo90 <==> 60 < days <= 90
    ensures b == Over90 <==> 90 < days
  {
    if days <= 30 then UpTo30
    else if days <= 60 then UpTo60
    else if days <= 90 then UpTo90
    else Over90
  }

  /** An older invoice never lands in a younger bucket. */
  lemma BucketMonotone(d1: int, d2: int)
    requires d1 <= d2
    ensures Rank(BucketOf(d1)) <= Rank(BucketOf(d2))
  {
  }

  // ---------------------------------------------------------------- per-bucket sums

  /** One line of a table: a sum per bucket and their total. */
  datatype Buckets = Buckets(upTo30: int, upTo60: int, upTo90: int, over90: int, total: int)

  const NoBuckets := Buckets(0, 0, 0, 0, 0)

  function Amount(t: Buckets, b: Bucket): int {
    match b
    case UpTo30 => t.upTo30
    case UpTo60 => t.upTo60
    case UpTo90 => t.upTo90
    case Over90 => t.over90
  }

  /** The four bucket sums add up to the total. */
  predicate Balanced(t: Buckets) {
    t.upTo30 + t.upTo60 + t.upTo90 + t.over90 == t.total
  }

  /** `t[b] += x; t["total"] += x`. */
  function Add(t: Buckets, b: Bucket, x: int): (r: Buckets)
    ensures Amount(r, b) == Amount(t, b) + x
    ensures forall c :: c != b ==> Amount(r, c) == Amount(t, c)
    ensures r.total == t.total + x
    ensures Balanced(t) ==> Balanced(r)
  {
    match b
    case UpTo30 => t.(upTo30 := t.upTo30 + x, total := t.total + x)
    case UpTo60 => t.(upTo60 := t.upTo60 + x, total := t.total + x)
    case UpTo90 => t.(upTo90 := t.upTo90 + x, total := t.total + x)
    case Over90 => t.(over90 := t.over90 + x, total := t.total + x)
  }

  /** Bucket by bucket sum of two lines. */
  function Plus(s: Buckets, t: Buckets): Buckets {
    Buckets(s.upTo30 + t.upTo30, s.upTo60 + t.upTo60, s.upTo90 + t.upTo90, s.over90 + t.over90, s.total + t.total)
  }

  // ---------------------------------------------------------------- rows

  /** One entry of the drill list. `patient` is "last first". */
  datatype AgingRow = AgingRow(
    invoice: nat,
    number: string,
    hospitalNumber: string,
    patient: string,
    hmoName: string,
    days: int,
    bucket: Bucket,
    outstanding: int,
    createdAt: Instant)

  /** The grouping name: the stripped HMO name, or "UNKNOWN HMO" when that is blank. */
  function AgingName(hmoName: string): (r: string)
    ensures Strip(hmoName) != "" ==> r == Strip(hmoName)
    ensures Strip(hmoName) == "" ==> r == UnknownHmo
    ensures r != ""
  {
    if Strip(hmoName) == "" then UnknownHmo else Strip(hmoName)
  }

  /** Every invoice points at an existing patient. */
  predicate PatientsExist(invoices: seq<Invoice>, patients: seq<Patient>) {
    forall i :: 0 <= i < |invoices| ==> InRange(invoices[i].patient, |patients|)
  }

  predicate RowsIn(order: seq<nat>, n: nat) {
    forall j :: 0 <= j < |order| ==> order[j] < n
  }

  /** What the HMO still owes on row `k`: its HMO share less its HMO-method payments. */
  function Outstanding(invoices: seq<Invoice>, payments: seq<Payment>, k: nat): int
    requires k < |invoices|
  {
    invoices[k].hmoAmount - HmoPaid(payments, k + 1)
  }

  function RowOf(invoices: seq<Invoice>, patients: seq<Patient>, payments: seq<Payment>, today: Date, k: nat): (r: AgingRow)
    requires k < |invoices| && PatientsExist(invoices, patients)
    ensures r.invoice == k + 1
  {
    var inv := invoices[k];
    var p := patients[inv.patient - 1];
    var days := today - inv.createdAt.date;
    AgingRow(k + 1, inv.number, p.hospitalNumber, p.lastName + " " + p.firstName, AgingName(inv.hmoName),
             days, BucketOf(days), Outstanding(invoices, payments, k), inv.createdAt)
  }

  /** The rows the loop appends while walking the invoice rows `order`: one
      per invoice with something outstanding. */
  function RowsOf(invoices: seq<Invoice>, patients: seq<Patient>, payments: seq<Payment>, today: Date, order: seq<nat>): seq<AgingRow>
    requires PatientsExist(invoices, patients) && RowsIn(order, |invoices|)
  {
    if order == [] then []
    else
      var last := |order| - 1;
      var k := order[last];
      assert RowsIn(order[..last], |invoices|);
      RowsOf(invoices, patients, payments, today, order[..last])
      + (if Outstanding(invoices, payments, k) > 0 then [RowOf(invoices, patients, payments, today, k)] else [])
  }

  /** The walk of the report: the invoices with an HMO share, newest first. */
  function HmoInvoices(invoices: seq<Invoice>): seq<nat> {
    NewestFirst(|invoices|, (i: nat) => i < |invoices| && invoices[i].hmoAmount > 0)
  }

  lemma HmoInvoicesIn(invoices: seq<Invoice>)
    ensures RowsIn(HmoInvoices(invoices), |invoices|)
    ensures forall k: nat :: k in HmoInvoices(invoices) <==> k < |invoices| && invoices[k].hmoAmount > 0
  {
    var order := HmoInvoices(invoices);
    NewestFirstSpec(|invoices|, (i: nat) => i < |invoices| && invoices[i].hmoAmount > 0);
    forall j | 0 <= j < |order| ensures order[j] < |invoices| {
      assert order[j] in order;
    }
  }

  /** The report's rows, in the order the loop appends them. */
  function AgingRows(invoices: seq<Invoice>, patients: seq<Patient>, payments: seq<Payment>, today: Date): seq<AgingRow>
    requires PatientsExist(invoices, patients)
  {
    HmoInvoicesIn(invoices);
    RowsOf(invoices, patients, payments, today, HmoInvoices(invoices))
  }

  // ---------------------------------------------------------------- the aggregates

  /** A table keyed by HMO name, in first-insertion order (a Python dict). */
  type Table = seq<(string, Buckets)>

  /** `by_hmo[name][b] += x`, creating the zero line first if `name` is new. */
  function Upsert(t: Table, name: string, b: Bucket, x: int): Table {
    if t == [] then [(name, Add(NoBuckets, b, x))]
    else if t[0].0 == name then [(name, Add(t[0].1, b, x))] + t[1..]
    else [t[0]] + Upsert(t[1..], name, b, x)
  }

  /** `by_hmo` after the rows were added in order. */
  function Grouped(rows: seq<AgingRow>): Table {
    if rows == [] then []
    else
      var r := rows[|rows| - 1];
      Upsert(Grouped(rows[..|rows| - 1]), r.hmoName, r.bucket, r.outstanding)
  }

  /** `grand` after the rows were added in order. */
  function Grand(rows: seq<AgingRow>): Buckets {
    if rows == [] then NoBuckets
    else
      var r := rows[|rows| - 1];
      Add(Grand(rows[..|rows| - 1]), r.bucket, r.outstanding)
  }

  /** The bucket-by-bucket sum of a table's lines. */
  function SumLines(t: Table): Buckets {
    if t == [] then NoBuckets else Plus(t[0].1, SumLines(t[1..]))
  }

  /** The sum of the outstanding amounts of the rows grouped under `name`. */
  function OutstandingOf(rows: seq<AgingRow>, name: string): int {
    if rows == [] then 0
    else
      var r := rows[|rows| - 1];
      OutstandingOf(rows[..|rows| - 1], name) + (if r.hmoName == name then r.outstanding else 0)
  }

  /** The HMO names of a table, in order (`by_hmo.keys()`). */
  function Names(t: Table): (r: seq<string>)
    ensures |r| == |t|
  {
    if t == [] then [] else [t[0].0] + Names(t[1..])
  }

  predicate Distinct(s: seq<string>) {
    forall i, j :: 0 <= i < j < |s| ==> s[i] != s[j]
  }

  predicate AllBalanced(t: Table) {
    forall j :: 0 <= j < |t| ==> Balanced(t[j].1)
  }

  /** The line of `name` in the table, zero when it has none (`by_hmo[name]`). */
  function LineOf(t: Table, name: string): Buckets {
    if t == [] then NoBuckets
    else if t[0].0 == name then t[0].1
    else LineOf(t[1..], name)
  }

  /** Upserting a new name appends it; an existing name keeps its place. */
  lemma {:induction false} UpsertNames(t: Table, name: string, b: Bucket, x: int)
    ensures Names(Upsert(t, name, b, x)) == if name in Names(t) then Names(t) else Names(t) + [name]
  {
    if t != [] && t[0].0 != name {
      UpsertNames(t[1..], name, b, x);
      assert Names(t) == [t[0].0] + Names(t[1..]);
    }
  }

  /** Upserting adds `x` to the bucket `b` of `name`'s line and leaves the
      other lines as they were. */
  lemma {:induction false} UpsertLine(t: Table, name: string, b: Bucket, x: int, n: string)
    ensures LineOf(Upsert(t, name, b, x), n) == if n == name then Add(LineOf(t, n), b, x) else LineOf(t, n)
  {
    var u := Upsert(t, name, b, x);
    if t == [] {
      assert u[0] == (name, Add(NoBuckets, b, x)) && u[1..] == [];
    } else if t[0].0 == name {
      assert u[0] == (name, Add(t[0].1, b, x)) && u[1..] == t[1..];
    } else {
      assert u[0] == t[0] && u[1..] == Upsert(t[1..], name, b, x);
      UpsertLine(t[1..], name, b, x, n);
    }
  }

  lemma {:induction false} UpsertBalanced(t: Table, name: string, b: Bucket, x: int)
    requires AllBalanced(t)
    ensures AllBalanced(Upsert(t, name, b, x))
  {
    if t != [] && t[0].0 != name {
      UpsertBalanced(t[1..], name, b, x);
    }
  }

  lemma PlusAdd(s: Buckets, t: Buckets, b: Bucket, x: int)
    ensures Plus(Add(s, b, x), t) == Add(Plus(s, t), b, x)
    ensures Plus(s, Add(t, b, x)) == Add(Plus(s, t), b, x)
  {
  }

  lemma PlusNone(s: Buckets)
    ensures Plus(s, NoBuckets) == s
  {
  }

  lemma UpsertSumNew(name: string, b: Bucket, x: int)
    ensures SumLines(Upsert([], name, b, x)) == Add(SumLines([]), b, x)
  {
    var u := Upsert([], name, b, x);
    assert u[1..] == [];
    PlusNone(Add(NoBuckets, b, x));
  }

  lemma UpsertSumFound(t: Table, name: string, b: Bucket, x: int)
    requires t != [] && t[0].0 == name
    ensures SumLines(Upsert(t, name, b, x)) == Add(SumLines(t), b, x)
  {
    var u := Upsert(t, name, b, x);
    assert u[0].1 == Add(t[0].1, b, x) && u[1..] == t[1..];
    PlusAdd(t[0].1, SumLines(t[1..]), b, x);
  }

  lemma UpsertSumPassed(t: Table, name: string, b: Bucket, x: int)
    requires t != [] && t[0].0 != name
    requires SumLines(Upsert(t[1..], name, b, x)) == Add(SumLines(t[1..]), b, x)
    ensures SumLines(Upsert(t, name, b, x)) == Add(SumLines(t), b, x)
  {
    var u := Upsert(t, name, b, x);
    assert u[0] == t[0] && u[1..] == Upsert(t[1..], name, b, x);
    PlusAdd(t[0].1, SumLines(t[1..]), b, x);
  }

  /** Upserting adds `x` to the bucket-by-bucket sum of the lines. */
  lemma {:induction false} UpsertSum(t: Table, name: string, b: Bucket, x: int)
    ensures SumLines(Upsert(t, name, b, x)) == Add(SumLines(t), b, x)
  {
    if t == [] {
      UpsertSumNew(name, b, x);
    } else if t[0].0 == name {
      UpsertSumFound(t, name, b, x);
    } else {
      UpsertSum(t[1..], name, b, x);
      UpsertSumPassed(t, name, b, x);
    }
  }

  /** Each HMO line and the grand line are balanced. */
  lemma {:induction false} GroupedBalanced(rows: seq<AgingRow>)
    ensures AllBalanced(Grouped(rows)) && Balanced(Grand(rows))
  {
    if rows != [] {
      var r := rows[|rows| - 1];
      GroupedBalanced(rows[..|rows| - 1]);
      UpsertBalanced(Grouped(rows[..|rows| - 1]), r.hmoName, r.bucket, r.outstanding);
    }
  }

  /** The grand line is the bucket-by-bucket sum of the HMO lines; in
      particular the grand total is the sum of the HMO totals. */
  lemma {:induction false} GrandIsSumOfLines(rows: seq<AgingRow>)
    ensures Grand(rows) == SumLines(Grouped(rows))
  {
    if rows != [] {
      var r := rows[|rows| - 1];
      GrandIsSumOfLines(rows[..|rows| - 1]);
      UpsertSum(Grouped(rows[..|rows| - 1]), r.hmoName, r.bucket, r.outstanding);
    }
  }

  /** Each HMO's line total is the sum of the outstanding amounts of its rows. */
  lemma {:induction false} LineTotals(rows: seq<AgingRow>, n: string)
    ensures LineOf(Grouped(rows), n).total == OutstandingOf(rows, n)
  {
    if rows != [] {
      var r := rows[|rows| - 1];
      LineTotals(rows[..|rows| - 1], n);
      UpsertLine(Grouped(rows[..|rows| - 1]), r.hmoName, r.bucket, r.outstanding, n);
    }
  }

  /** The names of the rows, in order. */
  function RowNames(rows: seq<AgingRow>): (r: seq<string>)
    ensures |r| == |rows|
  {
    if rows == [] then [] else RowNames(rows[..|rows| - 1]) + [rows[|rows| - 1].hmoName]
  }

  /** The table lists each HMO name once, exactly for the HMOs that have rows. */
  lemma {:induction false} GroupedNames(rows: seq<AgingRow>)
    ensures Distinct(Names(Grouped(rows)))
    ensures forall n :: n in Names(Grouped(rows)) <==> n in RowNames(rows)
  {
    if rows != [] {
      var front := rows[..|rows| - 1];
      var r := rows[|rows| - 1];
      GroupedNames(front);
      UpsertNames(Grouped(front), r.hmoName, r.bucket, r.outstanding);
    }
  }

  /** The report's three results. */
  datatype Aging = Aging(hmoTable: Table, grand: Buckets, topInvoices: seq<AgingRow>)

  /** Larger total first. */
  predicate ByTotalDesc(a: (string, Buckets), b: (string, Buckets)) {
    a.1.total >= b.1.total
  }

  /** Larger outstanding amount first. */
  predicate ByOutstandingDesc(a: AgingRow, b: AgingRow) {
    a.outstanding >= b.outstanding
  }

  lemma DescendingOrders()
    ensures TotalPreorder(ByTotalDesc) && TotalPreorder(ByOutstandingDesc)
  {
  }

  /** `hmo_table`: the HMO lines sorted by total, largest first. */
  function HmoTable(rows: seq<AgingRow>): Table {
    DescendingOrders();
    SortBy(Grouped(rows), ByTotalDesc)
  }

  /** `top_invoices`: the 50 rows with the largest outstanding amounts. */
  function TopInvoices(rows: seq<AgingRow>): seq<AgingRow> {
    DescendingOrders();
    Take(SortBy(rows, ByOutstandingDesc), TopInvoicesLimit)
  }

  /** The report for the given tables. */
  function AgingReport(invoices: seq<Invoice>, patients: seq<Patient>, payments: seq<Payment>, today: Date): Aging
    requires PatientsExist(invoices, patients)
  {
    var rows := AgingRows(invoices, patients, payments, today);
    Aging(HmoTable(rows), Grand(rows), TopInvoices(rows))
  }

  /** The invoice primary keys of the rows, in order. */
  function RowInvoices(rows: seq<AgingRow>): (r: seq<nat>)
    ensures |r| == |rows|
  {
    if rows == [] then [] else RowInvoices(rows[..|rows| - 1]) + [rows[|rows| - 1].invoice]
  }

  /** The HMO still owes something on the invoice with primary key `inv`. */
  predicate Owing(invoices: seq<Invoice>, payments: seq<Payment>, inv: nat) {
    1 <= inv <= |invoices| && Outstanding(invoices, payments, inv - 1) > 0
  }

  /** Walking `order`, an invoice gets a row exactly when it is walked and
      something is outstanding on it. */
  lemma {:induction false} RowsOfListed(invoices: seq<Invoice>, patients: seq<Patient>, payments: seq<Payment>, today: Date, order: seq<nat>)
    requires PatientsExist(invoices, patients) && RowsIn(order, |invoices|)
    ensures forall inv: nat :: inv in RowInvoices(RowsOf(invoices, patients, payments, today, order)) <==>
      inv - 1 in order && Owing(invoices, payments, inv)
  {
    if order != [] {
      var last := |order| - 1;
      var front := order[..last];
      assert RowsIn(front, |invoices|);
      RowsOfListed(invoices, patients, payments, today, front);
      assert order == front + [order[last]];
      var fr := RowsOf(invoices, patients, payments, today, front);
      var rows := RowsOf(invoices, patients, payments, today, order);
      if Outstanding(invoices, payments, order[last]) > 0 {
        var r := RowOf(invoices, patients, payments, today, order[last]);
        assert rows == fr + [r];
        RowInvoicesAppend(fr, r);
        forall inv: nat ensures inv in RowInvoices(rows) <==>
          inv - 1 in order && Owing(invoices, payments, inv)
        {
          assert inv in RowInvoices(rows) <==> inv in RowInvoices(fr) || inv == order[last] + 1;
        }
      } else {
        assert rows == fr;
      }
    }
  }

  lemma RowInvoicesAppend(rows: seq<AgingRow>, r: AgingRow)
    ensures RowInvoices(rows + [r]) == RowInvoices(rows) + [r.invoice]
  {
    assert (rows + [r])[..|rows|] == rows;
  }

  /** A row has a positive amount, the outstanding amount of its invoice and
      the invoice's grouping name and bucket. */
  predicate RowFits(invoices: seq<Invoice>, payments: seq<Payment>, r: AgingRow) {
    && 1 <= r.invoice <= |invoices|
    && r.outstanding == Outstanding(invoices, payments, r.invoice - 1)
    && r.outstanding > 0
    && r.hmoName == AgingName(invoices[r.invoice - 1].hmoName)
    && r.bucket == BucketOf(r.days)
  }

  predicate AllFit(invoices: seq<Invoice>, payments: seq<Payment>, rows: seq<AgingRow>) {
    forall j :: 0 <= j < |rows| ==> RowFits(invoices, payments, rows[j])
  }

  lemma {:induction false} RowsOfFit(invoices: seq<Invoice>, patients: seq<Patient>, payments: seq<Payment>, today: Date, order: seq<nat>)
    requires PatientsExist(invoices, patients) && RowsIn(order, |invoices|)
    ensures AllFit(invoices, payments, RowsOf(invoices, patients, payments, today, order))
  {
    if order != [] {
      var last := |order| - 1;
      assert RowsIn(order[..last], |invoices|);
      RowsOfFit(invoices, patients, payments, today, order[..last]);
      var fr := RowsOf(invoices, patients, payments, today, order[..last]);
      var rows := RowsOf(invoices, patients, payments, today, order);
      forall j | 0 <= j < |rows| ensures RowFits(invoices, payments, rows[j]) {
        if j < |fr| { assert rows[j] == fr[j]; }
      }
    }
  }

  /** The report lists exactly the invoices with a positive HMO share and a
      positive outstanding amount, each under its grouping name. */
  lemma AgingRowsSpec(invoices: seq<Invoice>, patients: seq<Patient>, payments: seq<Payment>, today: Date)
    requires PatientsExist(invoices, patients)
    ensures var rows := AgingRows(invoices, patients, payments, today);
      && (forall inv: nat :: inv in RowInvoices(rows) <==>
            1 <= inv <= |invoices| && invoices[inv - 1].hmoAmount > 0 && Outstanding(invoices, payments, inv - 1) > 0)
      && AllFit(invoices, payments, rows)
  {
    HmoInvoicesIn(invoices);
    RowsOfListed(invoices, patients, payments, today, HmoInvoices(invoices));
    RowsOfFit(invoices, patients, payments, today, HmoInvoices(invoices));
  }

  /** The HMO table and the drill list are sorted largest first and drawn
      from the HMO lines and the rows. */
  lemma AgingReportOrder(rows: seq<AgingRow>)
    ensures SortedBy(HmoTable(rows), ByTotalDesc)
    ensures multiset(HmoTable(rows)) == multiset(Grouped(rows))
    ensures SortedBy(TopInvoices(rows), ByOutstandingDesc)
    ensures |TopInvoices(rows)| == if |rows| < TopInvoicesLimit then |rows| else TopInvoicesLimit
    ensures forall r :: r in TopInvoices(rows) ==> r in rows
  {
    DescendingOrders();
    var sorted := SortBy(rows, ByOutstandingDesc);
    forall r | r in TopInvoices(rows) ensures r in rows {
      assert r in multiset(sorted);
    }
  }

  // ---------------------------------------------------------------- the view

  /** `hmo_aging_dashboard`: for billing and admin staff, walks the invoices
      with an HMO share newest first, accumulating the per-HMO and grand
      tables and the drill list, then sorts them. */
  method HmoAgingDashboard(db: Db, u: Viewer, today: Date) returns (r: Page<Aging>)
    requires db.Valid()
    ensures StaffGate(u, AgingRoles).Some? ==> r == Stop(StaffGate(u, AgingRoles).value)
    ensures StaffGate(u, AgingRoles).None? ==>
      r == Show(AgingReport(db.invoices, db.patients, db.payments, today))
  {
    var gate := StaffGate(u, AgingRoles);
    if gate.Some? {
      return Stop(gate.value);
    }
    assert PatientsExist(db.invoices, db.patients);
    var byHmo, grand, rows := Aggregate(db.invoices, db.patients, db.payments, today, HmoInvoices(db.invoices));
    DescendingOrders();
    var table := SortBy(byHmo, ByTotalDesc);
    var top := Take(SortBy(rows, ByOutstandingDesc), TopInvoicesLimit);
    r := Show(Aging(table, grand, top));
  }

  /** The aggregation loop over the walk `order`. */
  method Aggregate(invoices: seq<Invoice>, patients: seq<Patient>, payments: seq<Payment>, today: Date, order: seq<nat>)
    returns (byHmo: Table, grand: Buckets, rows: seq<AgingRow>)
    requires PatientsExist(invoices, patients)
    requires order == HmoInvoices(invoices)
    ensures rows == AgingRows(invoices, patients, payments, today)
    ensures byHmo == Grouped(rows) && grand == Grand(rows)
  {
    HmoInvoicesIn(invoices);
    byHmo, grand, rows := [], NoBuckets, [];
    var i := 0;
    while i < |order|
      invariant 0 <= i <= |order|
      invariant rows == RowsOf(invoices, patients, payments, today, order[..i])
      invariant byHmo == Grouped(rows) && grand == Grand(rows)
    {
      var k := order[i];
      RowsOfStep(invoices, patients, payments, today, order, i);
      var outstanding := invoices[k].hmoAmount - HmoPaid(payments, k + 1);
      if outstanding > 0 {
        var row := RowOf(invoices, patients, payments, today, k);
        byHmo := Upsert(byHmo, row.hmoName, row.bucket, row.outstanding);
        grand := Add(grand, row.bucket, row.outstanding);
        assert (rows + [row])[..|rows|] == rows;
        rows := rows + [row];
      }
      i := i + 1;
    }
    assert order[..i] == order;
  }

  /** One more step of the walk appends the row of the next invoice, if any. */
  lemma RowsOfStep(invoices: seq<Invoice>, patients: seq<Patient>, payments: seq<Payment>, today: Date, order: seq<nat>, i: nat)
    requires PatientsExist(invoices, patients) && RowsIn(order, |invoices|) && i < |order|
    ensures RowsIn(order[..i], |invoices|) && RowsIn(order[..i + 1], |invoices|)
    ensures RowsOf(invoices, patients, payments, today, order[..i + 1])
      == RowsOf(invoices, patients, payments, today, order[..i])
         + (if Outstanding(invoices, payments, order[i]) > 0 then [RowOf(invoices, patients, payments, today, order[i])] else [])
  {
    assert order[..i + 1][..i] == order[..i];
  }
}
