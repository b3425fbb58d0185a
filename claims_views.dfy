/** billing/claims_views.py: the claim batch lifecycle. A batch is created
    as a DRAFT, invoices are added to it as claim items (at most one item
    per invoice in the whole system), it is submitted, and marking it paid
    posts one HMO settlement per item, never twice for the same reference. */
module ClaimsViews {
  import opened Common
  import opened Text
  import opened Schema
  import opened VisitsModels
  import opened BillingModels
  import opened Store
  import opened AccountsUtils
  import opened Queries
  import opened Claims

  const ClaimRoles: set<string> := {"billing", "admin"}
  const EligibleLimit := 300

  // ---------------------------------------------------------------- claim_batch_list

  /** `claim_batch_list`: every batch row, newest first. */
  function ClaimBatchList(u: Viewer, batches: seq<ClaimBatch>): (r: Page<seq<nat>>)
    ensures StaffGate(u, ClaimRoles).Some? ==> r == Stop(StaffGate(u, ClaimRoles).value)
    ensures StaffGate(u, ClaimRoles).None? ==>
      && r.Show? && Descending(r.content) && |r.content| == |batches|
      && forall k: nat :: k in r.content <==> k < |batches|
  {
    match StaffGate(u, ClaimRoles)
    case Some(o) => Stop(o)
    case None =>
      var all := (k: nat) => k < |batches|;
      NewestFirstSpec(|batches|, all);
      NewestFirstAll(|batches|, all);
      Show(NewestFirst(|batches|, all))
  }

  // ---------------------------------------------------------------- claim_batch_create

  /** `claim_batch_create`. A POST creates a DRAFT batch for the stripped
      HMO name; a missing, empty or malformed date makes the DateField
      reject the row, so nothing is created. A GET only renders the form. */
  method ClaimBatchCreate(db: Db, u: Viewer, isPost: bool, hmoName: Option<string>,
                          start: DateInput, end: DateInput, now: Instant) returns (o: Outcome)
    requires db.Valid()
    modifies db`batches
    ensures db.Valid()
    ensures StaffGate(u, ClaimRoles).Some? ==> o == StaffGate(u, ClaimRoles).value && unchanged(db)
    ensures StaffGate(u, ClaimRoles).None? && !isPost ==> o == Unchanged && unchanged(db)
    ensures StaffGate(u, ClaimRoles).None? && isPost && !(start.ADate? && end.ADate?) ==>
      o.Failed? && unchanged(db)
    ensures StaffGate(u, ClaimRoles).None? && isPost && start.ADate? && end.ADate? ==>
      o == Done && db.batches == old(db.batches) + [NewClaimBatch(Strip(hmoName.GetOr("")), start.day, end.day, now)]
  {
    var gate := StaffGate(u, ClaimRoles);
    if gate.Some? {
      return gate.value;
    }
    if !isPost {
      return Unchanged;
    }
    if !start.ADate? || !end.ADate? {
      return Failed("invalid date format");
    }
    var name := Strip(hmoName.GetOr(""));
    db.AppendBatch(NewClaimBatch(name, start.day, end.day, now));
    o := Done;
  }

  // ---------------------------------------------------------------- claims

  /** Some claim item, in any batch, references invoice `inv`. */
  predicate Claimed(items: seq<ClaimItem>, inv: nat) {
    exists i :: 0 <= i < |items| && items[i].invoice == inv
  }

  /** The claim item `claim_batch_add_invoices` creates for the invoice in
      row `k`: its current HMO amount, the patient's "last first" name and
      hospital number, and the visit number or "" without a visit. */
  function ClaimFor(batch: nat, invoices: seq<Invoice>, patients: seq<Patient>, visits: seq<Visit>, k: nat, now: Instant)
    : (c: ClaimItem)
    requires k < |invoices| && InRange(invoices[k].patient, |patients|) && OptInRange(invoices[k].visit, |visits|)
    ensures c.batch == batch && c.invoice == k + 1 && c.hmoAmount == invoices[k].hmoAmount
    ensures c.patient == DisplayName(patients[invoices[k].patient - 1])
    ensures c.hospitalNumber == patients[invoices[k].patient - 1].hospitalNumber
    ensures c.visitNumber == if invoices[k].visit.Some? then visits[invoices[k].visit.value - 1].visitNumber else ""
    ensures !c.disputed && c.disputeReason == "" && c.disputedAt.None?
  {
    var inv := invoices[k];
    var p := patients[inv.patient - 1];
    ClaimItem(batch, k + 1, inv.hmoAmount, p.lastName + " " + p.firstName, p.hospitalNumber,
              if inv.visit.Some? then visits[inv.visit.value - 1].visitNumber else "",
              now, false, "", None)
  }

  /** The POST filter: the invoice was posted, it has an HMO share, it is
      billed to the batch's HMO, and no claim item references it yet. The
      batch period plays no part. */
  predicate Addable(invoices: seq<Invoice>, items: seq<ClaimItem>, b: ClaimBatch, ids: set<nat>, k: nat)
    requires k < |invoices|
  {
    && k + 1 in ids
    && invoices[k].hmoAmount > 0
    && invoices[k].hmoName == b.hmoName
    && !Claimed(items, k + 1)
  }

  /** The claim items the POST creates while walking the first `n`
      invoice rows. */
  function NewClaims(batch: nat, b: ClaimBatch, invoices: seq<Invoice>, patients: seq<Patient>, visits: seq<Visit>,
                     items: seq<ClaimItem>, ids: set<nat>, now: Instant, n: nat): (r: seq<ClaimItem>)
    requires n <= |invoices| && InvoicesOk(invoices, |patients|, |visits|)
    ensures forall c :: c in r ==> c.batch == batch && 1 <= c.invoice <= n
  {
    if n == 0 then []
    else
      NewClaims(batch, b, invoices, patients, visits, items, ids, now, n - 1)
      + (if Addable(invoices, items, b, ids, n - 1) then [ClaimFor(batch, invoices, patients, visits, n - 1, now)] else [])
  }

  /** An invoice is claimed in a concatenation when it is claimed in either part. */
  lemma ClaimedAppend(a: seq<ClaimItem>, b: seq<ClaimItem>, inv: nat)
    ensures Claimed(a + b, inv) <==> Claimed(a, inv) || Claimed(b, inv)
  {
    if Claimed(a + b, inv) {
      var i :| 0 <= i < |a + b| && (a + b)[i].invoice == inv;
      if i >= |a| {
        assert b[i - |a|].invoice == inv;
      }
    }
    if Claimed(a, inv) {
      var i :| 0 <= i < |a| && a[i].invoice == inv;
      assert (a + b)[i] == a[i];
    }
    if Claimed(b, inv) {
      var i :| 0 <= i < |b| && b[i].invoice == inv;
      assert (a + b)[|a| + i] == b[i];
    }
  }

  /** The new items reference rows walked so far only. */
  lemma NewClaimsBelow(batch: nat, b: ClaimBatch, invoices: seq<Invoice>, patients: seq<Patient>, visits: seq<Visit>,
                       items: seq<ClaimItem>, ids: set<nat>, now: Instant, n: nat, inv: nat)
    requires n <= |invoices| && InvoicesOk(invoices, |patients|, |visits|)
    requires inv > n
    ensures !Claimed(NewClaims(batch, b, invoices, patients, visits, items, ids, now, n), inv)
  {
    var r := NewClaims(batch, b, invoices, patients, visits, items, ids, now, n);
    forall i | 0 <= i < |r| ensures r[i].invoice != inv {
      assert r[i] in r;
    }
  }

  /** The new items claim exactly the rows that passed the filter. */
  lemma {:induction false} NewClaimsClaim(batch: nat, b: ClaimBatch, invoices: seq<Invoice>, patients: seq<Patient>,
                                          visits: seq<Visit>, items: seq<ClaimItem>, ids: set<nat>, now: Instant, n: nat)
    requires n <= |invoices| && InvoicesOk(invoices, |patients|, |visits|)
    ensures forall inv: nat :: 1 <= inv <= n ==>
      (Claimed(NewClaims(batch, b, invoices, patients, visits, items, ids, now, n), inv) <==> Addable(invoices, items, b, ids, inv - 1))
  {
    if n > 0 {
      NewClaimsClaim(batch, b, invoices, patients, visits, items, ids, now, n - 1);
      var front := NewClaims(batch, b, invoices, patients, visits, items, ids, now, n - 1);
      var extra := if Addable(invoices, items, b, ids, n - 1) then [ClaimFor(batch, invoices, patients, visits, n - 1, now)] else [];
      assert NewClaims(batch, b, invoices, patients, visits, items, ids, now, n) == front + extra;
      forall inv: nat | 1 <= inv <= n
        ensures Claimed(front + extra, inv) <==> Addable(invoices, items, b, ids, inv - 1)
      {
        ClaimedAppend(front, extra, inv);
        if inv == n {
          NewClaimsBelow(batch, b, invoices, patients, visits, items, ids, now, n - 1, inv);
        }
        if extra != [] {
          assert Claimed(extra, inv) <==> inv == n by {
            assert extra[0].invoice == n;
          }
        }
      }
    }
  }

  /** After the POST an invoice is claimed exactly when it already was, or
      it was posted, has an HMO share and is billed to the batch's HMO. */
  lemma NewClaimsSpec(batch: nat, b: ClaimBatch, invoices: seq<Invoice>, patients: seq<Patient>,
                      visits: seq<Visit>, items: seq<ClaimItem>, ids: set<nat>, now: Instant, n: nat)
    requires n <= |invoices| && InvoicesOk(invoices, |patients|, |visits|)
    ensures forall inv: nat :: 1 <= inv <= n ==>
      (Claimed(items + NewClaims(batch, b, invoices, patients, visits, items, ids, now, n), inv)
       <==> Claimed(items, inv) || Addable(invoices, items, b, ids, inv - 1))
    ensures forall inv: nat :: inv > n ==>
      (Claimed(items + NewClaims(batch, b, invoices, patients, visits, items, ids, now, n), inv) <==> Claimed(items, inv))
  {
    var r := NewClaims(batch, b, invoices, patients, visits, items, ids, now, n);
    NewClaimsClaim(batch, b, invoices, patients, visits, items, ids, now, n);
    forall inv: nat
      ensures Claimed(items + r, inv) <==> Claimed(items, inv) || Claimed(r, inv)
    {
      ClaimedAppend(items, r, inv);
    }
    forall inv: nat | inv > n
      ensures !Claimed(r, inv)
    {
      NewClaimsBelow(batch, b, invoices, patients, visits, items, ids, now, n, inv);
    }
  }

  /** `c` is the snapshot of one of the first `n` rows that passed the filter. */
  predicate SnapshotOfAddable(c: ClaimItem, batch: nat, b: ClaimBatch, invoices: seq<Invoice>, patients: seq<Patient>,
                              visits: seq<Visit>, items: seq<ClaimItem>, ids: set<nat>, now: Instant, n: nat)
    requires n <= |invoices| && InvoicesOk(invoices, |patients|, |visits|)
  {
    exists k :: 0 <= k < n && Addable(invoices, items, b, ids, k) && c == ClaimFor(batch, invoices, patients, visits, k, now)
  }

  /** Each new item is the snapshot of a row that passed the filter. */
  lemma {:induction false} NewClaimsSnapshots(batch: nat, b: ClaimBatch, invoices: seq<Invoice>, patients: seq<Patient>,
                                              visits: seq<Visit>, items: seq<ClaimItem>, ids: set<nat>, now: Instant, n: nat)
    requires n <= |invoices| && InvoicesOk(invoices, |patients|, |visits|)
    ensures forall j :: 0 <= j < |NewClaims(batch, b, invoices, patients, visits, items, ids, now, n)| ==>
      SnapshotOfAddable(NewClaims(batch, b, invoices, patients, visits, items, ids, now, n)[j],
                        batch, b, invoices, patients, visits, items, ids, now, n)
  {
    if n > 0 {
      NewClaimsSnapshots(batch, b, invoices, patients, visits, items, ids, now, n - 1);
      var front := NewClaims(batch, b, invoices, patients, visits, items, ids, now, n - 1);
      var r := NewClaims(batch, b, invoices, patients, visits, items, ids, now, n);
      forall j | 0 <= j < |r|
        ensures SnapshotOfAddable(r[j], batch, b, invoices, patients, visits, items, ids, now, n)
      {
        if j < |front| {
          assert r[j] == front[j];
          var k :| 0 <= k < n - 1 && Addable(invoices, items, b, ids, k) && front[j] == ClaimFor(batch, invoices, patients, visits, k, now);
          assert 0 <= k < n;
        } else {
          assert Addable(invoices, items, b, ids, n - 1);
          assert r == front + [ClaimFor(batch, invoices, patients, visits, n - 1, now)];
          assert r[j] == ClaimFor(batch, invoices, patients, visits, n - 1, now);
        }
      }
    }
  }

  /** Claims of distinct rows reference distinct invoices, and none an
      invoice already claimed, so the one-item-per-invoice rule survives. */
  lemma {:induction false} ItemsOkAfterClaims(batch: nat, b: ClaimBatch, invoices: seq<Invoice>, patients: seq<Patient>, visits: seq<Visit>,
                           items: seq<ClaimItem>, batchCount: nat, ids: set<nat>, now: Instant, n: nat)
    requires n <= |invoices| && InvoicesOk(invoices, |patients|, |visits|)
    requires ItemsOk(items, batchCount, |invoices|) && InRange(batch, batchCount)
    ensures ItemsOk(items + NewClaims(batch, b, invoices, patients, visits, items, ids, now, n), batchCount, |invoices|)
  {
    if n > 0 {
      ItemsOkAfterClaims(batch, b, invoices, patients, visits, items, batchCount, ids, now, n - 1);
      var front := items + NewClaims(batch, b, invoices, patients, visits, items, ids, now, n - 1);
      if Addable(invoices, items, b, ids, n - 1) {
        var c := ClaimFor(batch, invoices, patients, visits, n - 1, now);
        assert items + NewClaims(batch, b, invoices, patients, visits, items, ids, now, n) == front + [c];
        assert !Claimed(front, n) by {
          ClaimedAppend(items, NewClaims(batch, b, invoices, patients, visits, items, ids, now, n - 1), n);
          NewClaimsBelow(batch, b, invoices, patients, visits, items, ids, now, n - 1, n);
        }
        ItemsOkAppend(front, c, batchCount, |invoices|);
      } else {
        assert items + NewClaims(batch, b, invoices, patients, visits, items, ids, now, n) == front;
      }
    }
  }

  /** Appending an item for an unclaimed invoice keeps the item constraints. */
  lemma ItemsOkAppend(items: seq<ClaimItem>, c: ClaimItem, batchCount: nat, invoiceCount: nat)
    requires ItemsOk(items, batchCount, invoiceCount)
    requires InRange(c.batch, batchCount) && InRange(c.invoice, invoiceCount) && !Claimed(items, c.invoice)
    ensures ItemsOk(items + [c], batchCount, invoiceCount)
  {
    var r := items + [c];
    forall i, j | 0 <= i < j < |r| ensures r[i].invoice != r[j].invoice {
      if j == |items| {
        assert r[i] == items[i];
      } else {
        assert r[i] == items[i] && r[j] == items[j];
      }
    }
  }

  /** `claim_batch_add_invoices`: a POST claims, in primary-key order, the
      posted invoices that pass the filter; a GET changes nothing (it only
      lists `EligibleInvoices`). `posted` is the posted id list read as
      integers, or `None` when one of them is not an integer, which makes
      the `id__in` filter raise before any claim is written. A negative id
      matches no invoice, so the ids are kept as naturals. */
  method ClaimBatchAddInvoices(db: Db, u: Viewer, batch: nat, isPost: bool, posted: Option<set<nat>>, now: Instant)
    returns (o: Outcome)
    requires db.Valid()
    modifies db`items
    ensures db.Valid()
    ensures StaffGate(u, ClaimRoles).Some? ==> o == StaffGate(u, ClaimRoles).value && unchanged(db)
    ensures StaffGate(u, ClaimRoles).None? && !InRange(batch, |db.batches|) ==> o == NotFound && unchanged(db)
    ensures StaffGate(u, ClaimRoles).None? && InRange(batch, |db.batches|) && !isPost ==> o == Unchanged && unchanged(db)
    ensures StaffGate(u, ClaimRoles).None? && InRange(batch, |db.batches|) && isPost && posted.None? ==>
      o.Failed? && unchanged(db)
    ensures StaffGate(u, ClaimRoles).None? && InRange(batch, |db.batches|) && isPost && posted.Some? ==>
      o == Done
      && db.items == old(db.items) + NewClaims(batch, db.batches[batch - 1], db.invoices, db.patients, db.visits,
                                               old(db.items), posted.value, now, |db.invoices|)
  {
    var gate := StaffGate(u, ClaimRoles);
    if gate.Some? {
      return gate.value;
    }
    if !InRange(batch, |db.batches|) {
      return NotFound;
    }
    if !isPost {
      return Unchanged;
    }
    if posted.None? {
      return Failed("Field 'id' expected a number");
    }
    ClaimInvoices(db, batch, posted.value, now);
    o := Done;
  }

  /** The loop over the posted invoices, each checked against the claim
      items as they stand at that point. */
  method ClaimInvoices(db: Db, batch: nat, ids: set<nat>, now: Instant)
    requires db.Valid() && InRange(batch, |db.batches|)
    modifies db`items
    ensures db.Valid()
    ensures db.items == old(db.items) + NewClaims(batch, db.batches[batch - 1], db.invoices, db.patients, db.visits,
                                                  old(db.items), ids, now, |db.invoices|)
  {
    var b := db.batches[batch - 1];
    var i := 0;
    while i < |db.invoices|
      invariant 0 <= i <= |db.invoices|
      invariant db.items == old(db.items) + NewClaims(batch, b, db.invoices, db.patients, db.visits, old(db.items), ids, now, i)
    {
      ClaimStep(db, batch, b, ids, now, i, old(db.items));
      i := i + 1;
    }
    ItemsOkAfterClaims(batch, b, db.invoices, db.patients, db.visits, old(db.items), |db.batches|, ids, now, i);
  }

  /** One turn of the loop: invoice row `i` is claimed when it was posted,
      has an HMO share for the batch's HMO and is not claimed yet. */
  method ClaimStep(db: Db, batch: nat, b: ClaimBatch, ids: set<nat>, now: Instant, i: nat, ghost before: seq<ClaimItem>)
    requires i < |db.invoices| && InvoicesOk(db.invoices, |db.patients|, |db.visits|)
    requires db.items == before + NewClaims(batch, b, db.invoices, db.patients, db.visits, before, ids, now, i)
    modifies db`items
    ensures db.items == before + NewClaims(batch, b, db.invoices, db.patients, db.visits, before, ids, now, i + 1)
  {
    ClaimedSoFar(batch, b, db.invoices, db.patients, db.visits, before, ids, now, i);
    if i + 1 in ids && db.invoices[i].hmoAmount > 0 && db.invoices[i].hmoName == b.hmoName && !Claimed(db.items, i + 1) {
      db.items := db.items + [ClaimFor(batch, db.invoices, db.patients, db.visits, i, now)];
    }
  }

  /** While walking row `k`, the items created so far reference earlier
      rows only, so the existence check sees the claims made before the POST. */
  lemma ClaimedSoFar(batch: nat, b: ClaimBatch, invoices: seq<Invoice>, patients: seq<Patient>, visits: seq<Visit>,
                     items: seq<ClaimItem>, ids: set<nat>, now: Instant, k: nat)
    requires k < |invoices| && InvoicesOk(invoices, |patients|, |visits|)
    ensures Claimed(items + NewClaims(batch, b, invoices, patients, visits, items, ids, now, k), k + 1) == Claimed(items, k + 1)
  {
    ClaimedAppend(items, NewClaims(batch, b, invoices, patients, visits, items, ids, now, k), k + 1);
    NewClaimsBelow(batch, b, invoices, patients, visits, items, ids, now, k, k + 1);
  }

  // ---------------------------------------------------------------- the eligible list

  /** The GET filter: an HMO share, the batch's HMO, created within the
      batch period (both ends included), and not claimed yet. */
  predicate Eligible(invoices: seq<Invoice>, items: seq<ClaimItem>, b: ClaimBatch, k: nat)
    requires k < |invoices|
  {
    && invoices[k].hmoAmount > 0
    && invoices[k].hmoName == b.hmoName
    && b.periodStart <= invoices[k].createdAt.date <= b.periodEnd
    && !Claimed(items, k + 1)
  }

  /** The eligible invoices `claim_batch_add_invoices` lists: newest first,
      at most 300, and an eligible invoice is left out only when the page is
      full of newer ones. */
  function EligibleInvoices(invoices: seq<Invoice>, items: seq<ClaimItem>, b: ClaimBatch): (r: seq<nat>)
    ensures |r| <= EligibleLimit && Descending(r)
    ensures forall k :: k in r ==> k < |invoices| && Eligible(invoices, items, b, k)
    ensures forall k: nat :: k < |invoices| && Eligible(invoices, items, b, k) && k !in r ==>
      |r| == EligibleLimit && forall j :: j in r ==> j > k
  {
    var keep := (k: nat) => k < |invoices| && Eligible(invoices, items, b, k);
    NewestPage(|invoices|, keep, EligibleLimit);
    Take(NewestFirst(|invoices|, keep), EligibleLimit)
  }

  // ---------------------------------------------------------------- claim_batch_detail

  /** `items.aggregate(total=Sum("hmo_amount"))["total"] or 0` over the
      batch's items among the first `n` item rows. */
  function BatchTotal(items: seq<ClaimItem>, batch: nat, n: nat): int
    requires n <= |items|
  {
    if n == 0 then 0
    else BatchTotal(items, batch, n - 1) + (if items[n - 1].batch == batch then items[n - 1].hmoAmount else 0)
  }

  /** The amounts in the last column of the export. */
  function AmountColumn(rows: seq<Row>): int {
    if rows == [] then 0
    else
      var row := rows[|rows| - 1];
      AmountColumn(rows[..|rows| - 1]) + (if |row| == 8 && row[7].Money? then row[7].cents else 0)
  }

  /** The detail page's total is the sum of the export's HMO Amount column. */
  lemma {:induction false} TotalMatchesExport(b: ClaimBatch, batch: nat, items: seq<ClaimItem>, invoices: seq<Invoice>, n: nat)
    requires n <= |items| && forall i :: 0 <= i < |items| ==> InRange(items[i].invoice, |invoices|)
    ensures AmountColumn(BatchRows(b, batch, items, invoices, n)) == BatchTotal(items, batch, n)
  {
    if n > 0 {
      TotalMatchesExport(b, batch, items, invoices, n - 1);
      var front := BatchRows(b, batch, items, invoices, n - 1);
      var rows := BatchRows(b, batch, items, invoices, n);
      if items[n - 1].batch == batch {
        assert rows[..|rows| - 1] == front;
      } else {
        assert rows == front;
      }
    }
  }

  /** What `claim_batch_detail` renders: the batch, the row indices of its
      items newest first, and their HMO total. */
  datatype BatchDetail = BatchDetail(batch: ClaimBatch, items: seq<nat>, totalHmo: int)

  /** `claim_batch_detail`: the batch, its items newest first, and their HMO total. */
  function ClaimBatchDetail(u: Viewer, batches: seq<ClaimBatch>, items: seq<ClaimItem>, batch: nat): (r: Page<BatchDetail>)
    ensures StaffGate(u, ClaimRoles).Some? ==> r == Stop(StaffGate(u, ClaimRoles).value)
    ensures StaffGate(u, ClaimRoles).None? && !InRange(batch, |batches|) ==> r == Stop(NotFound)
    ensures StaffGate(u, ClaimRoles).None? && InRange(batch, |batches|) ==>
      && r.Show? && r.content.batch == batches[batch - 1]
      && r.content.totalHmo == BatchTotal(items, batch, |items|)
      && Descending(r.content.items)
      && forall i: nat :: i in r.content.items <==> i < |items| && items[i].batch == batch
  {
    match StaffGate(u, ClaimRoles)
    case Some(o) => Stop(o)
    case None =>
      if !InRange(batch, |batches|) then Stop(NotFound)
      else
        var own := (i: nat) => i < |items| && items[i].batch == batch;
        NewestFirstSpec(|items|, own);
        Show(BatchDetail(batches[batch - 1], NewestFirst(|items|, own), BatchTotal(items, batch, |items|)))
  }

  /** `claim_batch_export_csv`: the same rows as `export_claim_batch_csv`. */
  method ClaimBatchExportCsv(db: Db, u: Viewer, batch: nat) returns (r: Page<seq<Row>>)
    requires db.Valid()
    ensures StaffGate(u, ClaimRoles).Some? ==> r == Stop(StaffGate(u, ClaimRoles).value)
    ensures StaffGate(u, ClaimRoles).None? && !InRange(batch, |db.batches|) ==> r == Stop(NotFound)
    ensures StaffGate(u, ClaimRoles).None? && InRange(batch, |db.batches|) ==>
      r == Show([Header] + BatchRows(db.batches[batch - 1], batch, db.items, db.invoices, |db.items|))
  {
    var gate := StaffGate(u, ClaimRoles);
    if gate.Some? {
      return Stop(gate.value);
    }
    if !InRange(batch, |db.batches|) {
      return Stop(NotFound);
    }
    var rows := WriteRows(db, batch);
    r := Show(rows);
  }

  // ---------------------------------------------------------------- claim_batch_submit

  /** DRAFT moves to SUBMITTED; any other status stays. */
  function SubmitStatus(s: string): (r: string)
    ensures s == BatchDraft ==> r == BatchSubmitted
    ensures s != BatchDraft ==> r == s
  {
    if s == BatchDraft then BatchSubmitted else s
  }

  /** `claim_batch_submit`, on any request method. */
  method ClaimBatchSubmit(db: Db, u: Viewer, batch: nat) returns (o: Outcome)
    requires db.Valid()
    modifies db`batches
    ensures db.Valid()
    ensures StaffGate(u, ClaimRoles).Some? ==> o == StaffGate(u, ClaimRoles).value && unchanged(db)
    ensures StaffGate(u, ClaimRoles).None? && !InRange(batch, |db.batches|) ==> o == NotFound && unchanged(db)
    ensures StaffGate(u, ClaimRoles).None? && InRange(batch, |old(db.batches)|) ==>
      o == Done
      && db.batches == old(db.batches)[batch - 1 := old(db.batches[batch - 1]).(status := SubmitStatus(old(db.batches[batch - 1]).status))]
  {
    var gate := StaffGate(u, ClaimRoles);
    if gate.Some? {
      return gate.value;
    }
    if !InRange(batch, |db.batches|) {
      return NotFound;
    }
    var b := db.batches[batch - 1];
    if b.status == BatchDraft {
      db.batches := db.batches[batch - 1 := b.(status := BatchSubmitted)];
    }
    o := Done;
  }

  // ---------------------------------------------------------------- claim_batch_mark_paid

  /** The invoice already has an HMO payment with this reference. */
  predicate HasSettlement(payments: seq<Payment>, inv: nat, reference: string) {
    exists i :: 0 <= i < |payments| && payments[i].invoice == inv
      && payments[i].payMethod == MethodHmo && payments[i].reference == reference
  }

  /** The item is one the loop settles: in the batch, with a positive amount. */
  predicate Payable(items: seq<ClaimItem>, batch: nat, i: nat)
    requires i < |items|
  {
    items[i].batch == batch && items[i].hmoAmount > 0
  }

  /** The payment table after the loop has walked the first `n` item rows:
      each payable item gets an HMO payment of its snapshot amount unless
      its invoice already has one with the same reference. */
  function Settled(payments: seq<Payment>, items: seq<ClaimItem>, batch: nat, reference: string,
                   user: Option<nat>, now: Instant, n: nat): (r: seq<Payment>)
    requires n <= |items|
    ensures |r| >= |payments| && r[..|payments|] == payments
  {
    if n == 0 then payments
    else
      var ps := Settled(payments, items, batch, reference, user, now, n - 1);
      var it := items[n - 1];
      if Payable(items, batch, n - 1) && !HasSettlement(ps, it.invoice, reference)
      then ps + [Payment(it.invoice, it.hmoAmount, MethodHmo, reference, now, user)]
      else ps
  }

  /** A settlement, once there, stays there as the table grows. */
  lemma HasSettlementGrows(ps: seq<Payment>, more: seq<Payment>, inv: nat, reference: string)
    requires HasSettlement(ps, inv, reference)
    ensures HasSettlement(ps + more, inv, reference)
  {
    var i :| 0 <= i < |ps| && ps[i].invoice == inv && ps[i].payMethod == MethodHmo && ps[i].reference == reference;
    assert (ps + more)[i] == ps[i];
  }

  /** After the loop every payable item's invoice has a settlement with the reference. */
  lemma {:induction false} SettledCovers(payments: seq<Payment>, items: seq<ClaimItem>, batch: nat, reference: string,
                                         user: Option<nat>, now: Instant, n: nat)
    requires n <= |items|
    ensures forall i: nat :: i < n && Payable(items, batch, i) ==>
      HasSettlement(Settled(payments, items, batch, reference, user, now, n), items[i].invoice, reference)
  {
    if n > 0 {
      SettledCovers(payments, items, batch, reference, user, now, n - 1);
      var ps := Settled(payments, items, batch, reference, user, now, n - 1);
      var r := Settled(payments, items, batch, reference, user, now, n);
      var extra := r[|ps|..];
      assert r == ps + extra;
      forall i: nat | i < n - 1 && Payable(items, batch, i)
        ensures HasSettlement(r, items[i].invoice, reference)
      {
        HasSettlementGrows(ps, extra, items[i].invoice, reference);
      }
      if Payable(items, batch, n - 1) && !HasSettlement(ps, items[n - 1].invoice, reference) {
        assert r[|ps|].invoice == items[n - 1].invoice;
      } else if Payable(items, batch, n - 1) {
        HasSettlementGrows(ps, extra, items[n - 1].invoice, reference);
      }
    }
  }

  /** Over a table that already settles every payable item, the loop posts nothing. */
  lemma {:induction false} SettledNothingToDo(payments: seq<Payment>, items: seq<ClaimItem>, batch: nat, reference: string,
                                              user: Option<nat>, now: Instant, n: nat)
    requires n <= |items|
    requires forall i: nat :: i < n && Payable(items, batch, i) ==> HasSettlement(payments, items[i].invoice, reference)
    ensures Settled(payments, items, batch, reference, user, now, n) == payments
  {
    if n > 0 {
      SettledNothingToDo(payments, items, batch, reference, user, now, n - 1);
    }
  }

  /** Marking the batch paid a second time with the same reference posts
      nothing new, whoever does it and whenever. */
  lemma SettledIdempotent(payments: seq<Payment>, items: seq<ClaimItem>, batch: nat, reference: string,
                          user: Option<nat>, now: Instant, user2: Option<nat>, now2: Instant)
    ensures var once := Settled(payments, items, batch, reference, user, now, |items|);
      Settled(once, items, batch, reference, user2, now2, |items|) == once
  {
    var once := Settled(payments, items, batch, reference, user, now, |items|);
    SettledCovers(payments, items, batch, reference, user, now, |items|);
    SettledNothingToDo(once, items, batch, reference, user2, now2, |items|);
  }

  /** Every payment the loop posts is an HMO settlement with the reference,
      for the amount and invoice of a payable item. */
  lemma {:induction false} SettledPostsSettlements(payments: seq<Payment>, items: seq<ClaimItem>, batch: nat, reference: string,
                                                   user: Option<nat>, now: Instant, n: nat)
    requires n <= |items|
    ensures forall j :: |payments| <= j < |Settled(payments, items, batch, reference, user, now, n)| ==>
        SettledBy(Settled(payments, items, batch, reference, user, now, n)[j], items, batch, reference, user, now, n)
  {
    if n > 0 {
      SettledPostsSettlements(payments, items, batch, reference, user, now, n - 1);
      var ps := Settled(payments, items, batch, reference, user, now, n - 1);
      var r := Settled(payments, items, batch, reference, user, now, n);
      forall j | |payments| <= j < |r|
        ensures SettledBy(r[j], items, batch, reference, user, now, n)
      {
        if j < |ps| {
          assert r[j] == ps[j];
          var i :| 0 <= i < n - 1 && Payable(items, batch, i) && ps[j].invoice == items[i].invoice && ps[j].amount == items[i].hmoAmount;
          assert 0 <= i < n;
        } else {
          var it := items[n - 1];
          assert Payable(items, batch, n - 1) && !HasSettlement(ps, it.invoice, reference);
          assert r == ps + [Payment(it.invoice, it.hmoAmount, MethodHmo, reference, now, user)];
          assert r[j] == Payment(it.invoice, it.hmoAmount, MethodHmo, reference, now, user);
        }
      }
    }
  }

  /** `p` is the settlement the loop posts for one of the first `n` items. */
  predicate SettledBy(p: Payment, items: seq<ClaimItem>, batch: nat, reference: string, user: Option<nat>, now: Instant, n: nat)
    requires n <= |items|
  {
    p.payMethod == MethodHmo && p.reference == reference && p.paidAt == now && p.receivedBy == user
    && exists i :: 0 <= i < n && Payable(items, batch, i) && p.invoice == items[i].invoice && p.amount == items[i].hmoAmount
  }

  /** `claim_batch_mark_paid`: a POST posts the settlements and sets the
      batch to PAID whatever its status was; the invoices' own figures are
      not recomputed. A GET changes nothing. */
  method ClaimBatchMarkPaid(db: Db, u: Viewer, batch: nat, isPost: bool, reference: Option<string>, now: Instant)
    returns (o: Outcome)
    requires db.Valid()
    modifies db`payments, db`batches
    ensures db.Valid()
    ensures StaffGate(u, ClaimRoles).Some? ==> o == StaffGate(u, ClaimRoles).value && unchanged(db)
    ensures StaffGate(u, ClaimRoles).None? && !InRange(batch, |db.batches|) ==> o == NotFound && unchanged(db)
    ensures StaffGate(u, ClaimRoles).None? && InRange(batch, |db.batches|) && !isPost ==> o == Unchanged && unchanged(db)
    ensures StaffGate(u, ClaimRoles).None? && InRange(batch, |old(db.batches)|) && isPost ==>
      && o == Done
      && db.payments == Settled(old(db.payments), db.items, batch, Strip(reference.GetOr("")), u.pk, now, |db.items|)
      && db.batches == old(db.batches)[batch - 1 := old(db.batches[batch - 1]).(status := BatchPaid)]
  {
    var gate := StaffGate(u, ClaimRoles);
    if gate.Some? {
      return gate.value;
    }
    if !InRange(batch, |db.batches|) {
      return NotFound;
    }
    if !isPost {
      return Unchanged;
    }
    var ref := Strip(reference.GetOr(""));
    SettleItems(db, batch, ref, u.pk, now);
    db.batches := db.batches[batch - 1 := db.batches[batch - 1].(status := BatchPaid)];
    o := Done;
  }

  /** The settlement loop over the batch's items. */
  method SettleItems(db: Db, batch: nat, reference: string, user: Option<nat>, now: Instant)
    requires db.Valid()
    modifies db`payments
    ensures db.Valid()
    ensures db.payments == Settled(old(db.payments), db.items, batch, reference, user, now, |db.items|)
  {
    var i := 0;
    while i < |db.items|
      invariant 0 <= i <= |db.items|
      invariant db.Valid()
      invariant db.payments == Settled(old(db.payments), db.items, batch, reference, user, now, i)
    {
      var it := db.items[i];
      if it.batch == batch && it.hmoAmount > 0 && !HasSettlement(db.payments, it.invoice, reference) {
        db.payments := db.payments + [Payment(it.invoice, it.hmoAmount, MethodHmo, reference, now, user)];
      }
      i := i + 1;
    }
  }
}
