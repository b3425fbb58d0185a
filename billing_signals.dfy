/** billing/signals.py: the post-save hook that numbers an invoice created
    with a blank number. */
module BillingSignals {
  import opened Common
  import opened Text
  import opened BillingModels
  import opened Store

  const InvoicePrefix := "EDH-INV-"

  /** `set_invoice_number(instance, created)` for the invoice in row `k`.
      It fires only on the creating save of a blank-numbered invoice. Its
      re-save goes through `Invoice.save`, so the assigned number still
      passes the uniqueness loop, drawing on `draws`; `Failed` when they
      run out. */
  method SetInvoiceNumber(db: Db, k: nat, created: bool, draws: seq<Draw>) returns (o: Outcome)
    requires k < |db.invoices|
    requires AllValidDraws(draws)
    modifies db`invoices
    ensures !created || old(db.invoices[k].number) != "" ==> o == Unchanged && db.invoices == old(db.invoices)
    ensures created && old(db.invoices[k].number) == "" ==>
      var u := UniqueNumber(old(db.invoices), Some(k + 1), PrefixedId(InvoicePrefix, k + 1), draws);
      if u.Some? then o == Done && db.invoices == old(db.invoices)[k := old(db.invoices[k]).(number := u.value)]
      else o.Failed? && db.invoices == old(db.invoices)
  {
    if !created || db.invoices[k].number != "" {
      return Unchanged;
    }
    var u := EnsureUniqueInvoiceNumber(db.invoices, Some(k + 1), PrefixedId(InvoicePrefix, k + 1), draws);
    if u.None? {
      return Failed("no free invoice number");
    }
    db.invoices := db.invoices[k := db.invoices[k].(number := u.value)];
    o := Done;
  }
}
