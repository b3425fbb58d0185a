/** billing/claims.py: the rows of a claim batch's CSV export. */
module Claims {
  import opened Common
  import opened BillingModels
  import opened Store
  import opened Queries

  /** A CSV cell: text, a date, or an amount in cents. */
  datatype Cell = Text(text: string) | Day(day: Date) | Money(cents: int)

  type Row = seq<Cell>

  /** The fixed eight-column header. */
  const Header: Row := [Text("HMO"), Text("Period Start"), Text("Period End"), Text("Hospital No"),
                        Text("Patient"), Text("Visit No"), Text("Invoice"), Text("HMO Amount")]

  /** One data row: the batch's HMO and period, the item's snapshots, the
      claimed invoice's number and the item's own `hmo_amount`. */
  function ItemRow(b: ClaimBatch, item: ClaimItem, invoiceNumber: string): (r: Row)
    ensures |r| == |Header|
    ensures r[..3] == [Text(b.hmoName), Day(b.periodStart), Day(b.periodEnd)]
    ensures r[6] == Text(invoiceNumber) && r[7] == Money(item.hmoAmount)
  {
    [Text(b.hmoName), Day(b.periodStart), Day(b.periodEnd), Text(item.hospitalNumber),
     Text(item.patient), Text(item.visitNumber), Text(invoiceNumber), Money(item.hmoAmount)]
  }

  /** `batch.items.all()` over the first `n` item rows: the rows of the
      batch's items, in primary-key order. */
  function ItemsOfBatch(items: seq<ClaimItem>, batch: nat, n: nat): seq<nat> {
    OldestFirst(n, (i: nat) => i < |items| && items[i].batch == batch)
  }

  /** The data rows for the batch's items among the first `n` item rows. */
  function BatchRows(b: ClaimBatch, batch: nat, items: seq<ClaimItem>, invoices: seq<Invoice>, n: nat): seq<Row>
    requires n <= |items| && forall i :: 0 <= i < |items| ==> InRange(items[i].invoice, |invoices|)
  {
    if n == 0 then []
    else
      BatchRows(b, batch, items, invoices, n - 1)
      + (if items[n - 1].batch == batch then [ItemRow(b, items[n - 1], invoices[items[n - 1].invoice - 1].number)] else [])
  }

  /** `export_claim_batch_csv(batch_id)`: the header, then one row per item
      of the batch. A batch that does not exist raises `DoesNotExist`. */
  method ExportClaimBatchCsv(db: Db, batch: nat) returns (r: Result<seq<Row>>)
    requires db.Valid()
    ensures !InRange(batch, |db.batches|) ==> r.Err?
    ensures InRange(batch, |db.batches|) ==>
      r == Ok([Header] + BatchRows(db.batches[batch - 1], batch, db.items, db.invoices, |db.items|))
  {
    if !InRange(batch, |db.batches|) {
      return Err("HMOClaimBatch matching query does not exist.");
    }
    var rows := WriteRows(db, batch);
    r := Ok(rows);
  }

  /** The writer loop: the header row, then a row for each of the batch's
      items as the item table is walked in order. */
  method WriteRows(db: Db, batch: nat) returns (rows: seq<Row>)
    requires db.Valid() && InRange(batch, |db.batches|)
    ensures rows == [Header] + BatchRows(db.batches[batch - 1], batch, db.items, db.invoices, |db.items|)
  {
    var b := db.batches[batch - 1];
    rows := [Header];
    var i := 0;
    while i < |db.items|
      invariant 0 <= i <= |db.items|
      invariant rows == [Header] + BatchRows(b, batch, db.items, db.invoices, i)
    {
      var item := db.items[i];
      if item.batch == batch {
        rows := rows + [ItemRow(b, item, db.invoices[item.invoice - 1].number)];
      }
      i := i + 1;
    }
  }

  /** There is exactly one data row per item of the batch, and the `j`-th
      row is that of the `j`-th item in primary-key order. */
  lemma {:induction false} BatchRowsFollowItems(b: ClaimBatch, batch: nat, items: seq<ClaimItem>, invoices: seq<Invoice>, n: nat)
    requires n <= |items| && forall i :: 0 <= i < |items| ==> InRange(items[i].invoice, |invoices|)
    ensures var ids := ItemsOfBatch(items, batch, n);
      && |BatchRows(b, batch, items, invoices, n)| == |ids|
      && forall j :: 0 <= j < |ids| ==>
           ids[j] < |items| &&
           BatchRows(b, batch, items, invoices, n)[j] == ItemRow(b, items[ids[j]], invoices[items[ids[j]].invoice - 1].number)
  {
    if n > 0 {
      BatchRowsFollowItems(b, batch, items, invoices, n - 1);
      OldestFirstSpec(n - 1, (i: nat) => i < |items| && items[i].batch == batch);
      var ids := ItemsOfBatch(items, batch, n - 1);
      forall j | 0 <= j < |ids| ensures ids[j] < n - 1 {
        assert ids[j] in ids;
      }
    }
  }

  /** Every data row starts with the batch and ends with the item's snapshot amount. */
  lemma BatchRowsShape(b: ClaimBatch, batch: nat, items: seq<ClaimItem>, invoices: seq<Invoice>, n: nat)
    requires n <= |items| && forall i :: 0 <= i < |items| ==> InRange(items[i].invoice, |invoices|)
    ensures forall row :: row in BatchRows(b, batch, items, invoices, n) ==>
      |row| == 8 && row[..3] == [Text(b.hmoName), Day(b.periodStart), Day(b.periodEnd)]
      && exists i :: 0 <= i < n && items[i].batch == batch && row[7] == Money(items[i].hmoAmount)
  {
    if n > 0 {
      BatchRowsShape(b, batch, items, invoices, n - 1);
    }
  }
}
