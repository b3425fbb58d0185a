/** billing/hmo_actions_views.py: recording HMO disputes on invoices and
    claim items, clearing them, and stamping the reminder time on an HMO's
    invoices. */
module HmoActionsViews {
  import opened Common
  import opened Text
  import opened Schema
  import opened BillingModels
  import opened Store
  import opened AccountsUtils

  const ActionRoles: set<string> := {"billing", "admin"}

  // ---------------------------------------------------------------- the field updates

  /** The three dispute fields of an invoice set to the given values; every
      other field as it was. */
  function MarkDisputed(inv: Invoice, reason: string, amount: int): (r: Invoice)
    ensures r.hmoState == HmoDisputed && r.disputeReason == reason && r.disputeAmount == amount
    ensures r.(hmoState := inv.hmoState, disputeReason := inv.disputeReason, disputeAmount := inv.disputeAmount) == inv
  {
    inv.(hmoState := HmoDisputed, disputeReason := reason, disputeAmount := amount)
  }

  /** The dispute fields reset: state OK, no reason, amount zero. */
  function ClearDispute(inv: Invoice): (r: Invoice)
    ensures r.hmoState == HmoOk && r.disputeReason == "" && r.disputeAmount == 0
    ensures r.(hmoState := inv.hmoState, disputeReason := inv.disputeReason, disputeAmount := inv.disputeAmount) == inv
  {
    inv.(hmoState := HmoOk, disputeReason := "", disputeAmount := 0)
  }

  /** Clearing undoes any dispute: a disputed then cleared invoice is the
      invoice cleared, and clearing twice is clearing once. */
  lemma ClearUndoesDispute(inv: Invoice, reason: string, amount: int)
    ensures ClearDispute(MarkDisputed(inv, reason, amount)) == ClearDispute(inv)
    ensures ClearDispute(ClearDispute(inv)) == ClearDispute(inv)
    ensures inv.hmoState == HmoOk && inv.disputeReason == "" && inv.disputeAmount == 0 ==> ClearDispute(inv) == inv
  {
  }

  /** Marking again overwrites: only the last reason and amount remain. */
  lemma MarkDisputedOverwrites(inv: Invoice, r1: string, a1: int, r2: string, a2: int)
    ensures MarkDisputed(MarkDisputed(inv, r1, a1), r2, a2) == MarkDisputed(inv, r2, a2)
  {
  }

  /** Only the dispute fields change, so the amounts the billing and the
      aging report read are untouched. */
  lemma DisputeKeepsAmounts(inv: Invoice, reason: string, amount: int)
    ensures var d := MarkDisputed(inv, reason, amount);
      && d.totalAmount == inv.totalAmount && d.patientAmount == inv.patientAmount
      && d.hmoAmount == inv.hmoAmount && d.amountPaid == inv.amountPaid && d.balance == inv.balance
      && d.status == inv.status && d.hmoName == inv.hmoName && d.createdAt == inv.createdAt
  {
  }

  /** A claim item flagged as disputed, with its reason and the time. */
  function FlagItem(item: ClaimItem, reason: string, now: Instant): (r: ClaimItem)
    ensures r.disputed && r.disputeReason == reason && r.disputedAt == Some(now)
    ensures r.(disputed := item.disputed, disputeReason := item.disputeReason, disputedAt := item.disputedAt) == item
  {
    item.(disputed := true, disputeReason := reason, disputedAt := Some(now))
  }

  /** The invoices the reminder stamps: those with an HMO share billed to exactly `name`. */
  predicate RemindedBy(inv: Invoice, name: string) {
    inv.hmoAmount > 0 && inv.hmoName == name
  }

  /** `Invoice.objects.filter(hmo_amount__gt=0, hmo_name=name).update(hmo_last_reminded_at=now)`. */
  function RemindAll(invoices: seq<Invoice>, name: string, now: Instant): (r: seq<Invoice>)
    ensures |r| == |invoices|
    ensures forall i :: 0 <= i < |r| ==>
      r[i] == if RemindedBy(invoices[i], name) then invoices[i].(lastRemindedAt := Some(now)) else invoices[i]
  {
    if invoices == [] then []
    else
      var last := |invoices| - 1;
      var inv := invoices[last];
      RemindAll(invoices[..last], name, now)
      + [if RemindedBy(inv, name) then inv.(lastRemindedAt := Some(now)) else inv]
  }

  /** Stamping twice at the same time is stamping once, and stamping one HMO
      never touches another HMO's invoices. */
  lemma RemindAllIdempotent(invoices: seq<Invoice>, name: string, other: string, now: Instant)
    requires name != other
    ensures RemindAll(RemindAll(invoices, name, now), name, now) == RemindAll(invoices, name, now)
    ensures forall i :: 0 <= i < |invoices| && RemindedBy(invoices[i], other) ==>
      RemindAll(invoices, name, now)[i] == invoices[i]
  {
    var once := RemindAll(invoices, name, now);
    var twice := RemindAll(once, name, now);
    assert forall i :: 0 <= i < |twice| ==> twice[i] == once[i];
  }

  // ---------------------------------------------------------------- the views

  /** `mark_invoice_disputed(invoice_id)`: a POST marks the invoice disputed
      with the stripped reason and the posted amount (blank reads as zero).
      An amount `Decimal` cannot parse fails the request. */
  method MarkInvoiceDisputed(db: Db, u: Viewer, id: nat, isPost: bool, reason: Option<string>, amount: DecimalInput)
    returns (o: Outcome)
    requires db.Valid()
    modifies db`invoices
    ensures db.Valid()
    ensures StaffGate(u, ActionRoles).Some? ==> o == StaffGate(u, ActionRoles).value && unchanged(db)
    ensures StaffGate(u, ActionRoles).None? && !InRange(id, |db.invoices|) ==> o == NotFound && unchanged(db)
    ensures StaffGate(u, ActionRoles).None? && InRange(id, |old(db.invoices)|) ==>
      if !isPost then o == Unchanged && unchanged(db)
      else Disputed(old(db.invoices), db.invoices, id - 1, Strip(reason.GetOr("")), amount, o)
  {
    var gate := StaffGate(u, ActionRoles);
    if gate.Some? {
      return gate.value;
    }
    if !InRange(id, |db.invoices|) {
      return NotFound;
    }
    if !isPost {
      return Unchanged;
    }
    o := DisputeInvoice(db, id - 1, Strip(reason.GetOr("")), amount);
  }

  /** The invoice table and the outcome after the POST, from the table
      before it: an amount `Decimal` cannot parse fails the request and
      changes nothing; otherwise the invoice at row `k` is marked disputed
      with the reason and the amount (blank reads as zero). */
  ghost predicate Disputed(invoices: seq<Invoice>, invoices': seq<Invoice>, k: nat, reason: string, amount: DecimalInput,
                           o: Outcome)
    requires k < |invoices|
  {
    if amount.BadDecimal? then o.Failed? && invoices' == invoices
    else o == Done && invoices' == invoices[k := MarkDisputed(invoices[k], reason, DecimalOrZero(amount).value)]
  }

  /** The save of the POST, once the invoice is found. */
  method DisputeInvoice(db: Db, k: nat, reason: string, amount: DecimalInput) returns (o: Outcome)
    requires db.Valid() && k < |db.invoices|
    modifies db`invoices
    ensures db.Valid()
    ensures Disputed(old(db.invoices), db.invoices, k, reason, amount, o)
  {
    var a := DecimalOrZero(amount);
    if a.None? {
      return Failed("invalid decimal amount");
    }
    db.SetInvoice(k, MarkDisputed(db.invoices[k], reason, a.value));
    o := Done;
  }

  /** `clear_invoice_dispute(invoice_id)`: on any request method, resets the
      invoice's dispute fields. Claim items keep their own flags. */
  method ClearInvoiceDispute(db: Db, u: Viewer, id: nat) returns (o: Outcome)
    requires db.Valid()
    modifies db`invoices
    ensures db.Valid()
    ensures StaffGate(u, ActionRoles).Some? ==> o == StaffGate(u, ActionRoles).value && unchanged(db)
    ensures StaffGate(u, ActionRoles).None? && !InRange(id, |db.invoices|) ==> o == NotFound && unchanged(db)
    ensures StaffGate(u, ActionRoles).None? && InRange(id, |old(db.invoices)|) ==>
      o == Done && db.invoices == old(db.invoices)[id - 1 := ClearDispute(old(db.invoices[id - 1]))]
  {
    var gate := StaffGate(u, ActionRoles);
    if gate.Some? {
      return gate.value;
    }
    if !InRange(id, |db.invoices|) {
      return NotFound;
    }
    db.SetInvoice(id - 1, ClearDispute(db.invoices[id - 1]));
    o := Done;
  }

  /** `flag_claim_item_disputed(item_id)`: a POST flags the item with the
      stripped reason and the time, then marks its invoice disputed with the
      same reason and the item's snapshot amount. */
  method FlagClaimItemDisputed(db: Db, u: Viewer, id: nat, isPost: bool, reason: Option<string>, now: Instant)
    returns (o: Outcome)
    requires db.Valid()
    modifies db`items, db`invoices
    ensures db.Valid()
    ensures StaffGate(u, ActionRoles).Some? ==> o == StaffGate(u, ActionRoles).value && unchanged(db)
    ensures StaffGate(u, ActionRoles).None? && !InRange(id, |db.items|) ==> o == NotFound && unchanged(db)
    ensures StaffGate(u, ActionRoles).None? && InRange(id, |old(db.items)|) ==>
      if !isPost then o == Unchanged && unchanged(db)
      else o == Done && Flagged(old(db.items), old(db.invoices), db.items, db.invoices, id - 1, Strip(reason.GetOr("")), now)
  {
    var gate := StaffGate(u, ActionRoles);
    if gate.Some? {
      return gate.value;
    }
    if !InRange(id, |db.items|) {
      return NotFound;
    }
    if !isPost {
      return Unchanged;
    }
    FlagAndDispute(db, id - 1, Strip(reason.GetOr("")), now);
    o := Done;
  }

  /** The item and invoice tables after the POST, from those before it: the
      item at row `k` flagged with the reason and the time, its invoice
      marked disputed with the same reason and the item's amount, and
      nothing else changed. */
  ghost predicate Flagged(items: seq<ClaimItem>, invoices: seq<Invoice>, items': seq<ClaimItem>, invoices': seq<Invoice>,
                          k: nat, r: string, now: Instant)
    requires k < |items|
  {
    var item := items[k];
    && InRange(item.invoice, |invoices|)
    && items' == items[k := FlagItem(item, r, now)]
    && invoices' == invoices[item.invoice - 1 := MarkDisputed(invoices[item.invoice - 1], r, item.hmoAmount)]
  }

  /** The two saves of the POST: the item at row `k` is flagged, then its
      invoice is marked disputed. */
  method FlagAndDispute(db: Db, k: nat, r: string, now: Instant)
    requires db.Valid() && k < |db.items|
    modifies db`items, db`invoices
    ensures db.Valid()
    ensures Flagged(old(db.items), old(db.invoices), db.items, db.invoices, k, r, now)
  {
    var item := db.items[k];
    var flagged := FlagItem(item, r, now);
    db.SetItem(k, flagged);
    var j := item.invoice - 1;
    db.SetInvoice(j, MarkDisputed(db.invoices[j], flagged.disputeReason, flagged.hmoAmount));
  }

  /** `mark_hmo_reminded`: with a non-blank stripped `hmo` parameter, stamps
      every invoice of that HMO with an HMO share; a blank one changes
      nothing. */
  method MarkHmoReminded(db: Db, u: Viewer, hmo: Option<string>, now: Instant) returns (o: Outcome)
    requires db.Valid()
    modifies db`invoices
    ensures db.Valid()
    ensures StaffGate(u, ActionRoles).Some? ==> o == StaffGate(u, ActionRoles).value && unchanged(db)
    ensures StaffGate(u, ActionRoles).None? && Strip(hmo.GetOr("")) == "" ==> o == Unchanged && unchanged(db)
    ensures StaffGate(u, ActionRoles).None? && Strip(hmo.GetOr("")) != "" ==>
      o == Done && db.invoices == RemindAll(old(db.invoices), Strip(hmo.GetOr("")), now)
  {
    var gate := StaffGate(u, ActionRoles);
    if gate.Some? {
      return gate.value;
    }
    var name := Strip(hmo.GetOr(""));
    if name == "" {
      return Unchanged;
    }
    db.SetInvoices(RemindAll(db.invoices, name, now));
    o := Done;
  }
}
