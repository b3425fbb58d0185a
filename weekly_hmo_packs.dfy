/** billing/management/commands/generate_weekly_hmo_packs.py: the weekly
    sweep. For every HMO that still has money outstanding it finds or
    creates the follow-up of the last thirty days and marks it reminded,
    with the next follow-up a week away. */
module WeeklyHmoPacks {
  import opened Common
  import opened Schema
  import opened BillingModels
  import opened Store
  import HmoAgingViews

  /** The rolling window reaches back thirty days; the next follow-up is a week out. */
  const WindowDays := 30
  const NextFollowUpDays := 7

  // ---------------------------------------------------------------- the HMOs swept

  /** The invoice's HMO share is billed to `name`. */
  predicate Billed(inv: Invoice, name: string) {
    inv.hmoName == name && inv.hmoAmount > 0
  }

  /** `Invoice.objects.filter(hmo_amount__gt=0).values_list("hmo_name").distinct()`,
      in the order the names first occur. */
  function SweepNames(invoices: seq<Invoice>): seq<string> {
    if invoices == [] then []
    else
      var last := |invoices| - 1;
      var front := SweepNames(invoices[..last]);
      if invoices[last].hmoAmount > 0 && invoices[last].hmoName !in front then front + [invoices[last].hmoName] else front
  }

  /** Each name with an HMO share is swept once. */
  lemma {:induction false} SweepNamesSpec(invoices: seq<Invoice>)
    ensures HmoAgingViews.Distinct(SweepNames(invoices))
    ensures forall n :: n in SweepNames(invoices) <==> exists i :: 0 <= i < |invoices| && Billed(invoices[i], n)
  {
    if invoices != [] {
      var last := |invoices| - 1;
      SweepNamesSpec(invoices[..last]);
      forall n ensures n in SweepNames(invoices) <==> exists i :: 0 <= i < |invoices| && Billed(invoices[i], n) {
        if exists i :: 0 <= i < |invoices[..last]| && Billed(invoices[..last][i], n) {
          var i :| 0 <= i < |invoices[..last]| && Billed(invoices[..last][i], n);
          assert Billed(invoices[i], n);
        }
        if exists i :: 0 <= i < |invoices| && Billed(invoices[i], n) {
          var i :| 0 <= i < |invoices| && Billed(invoices[i], n);
          if i < last {
            assert Billed(invoices[..last][i], n);
          }
        }
      }
    }
  }

  // ---------------------------------------------------------------- what an HMO owes

  /** `qs.aggregate(Sum("hmo_amount"))` over the first `n` invoices billed to `name`. */
  function HmoBilled(invoices: seq<Invoice>, name: string, n: nat): int
    requires n <= |invoices|
  {
    if n == 0 then 0
    else HmoBilled(invoices, name, n - 1) + (if Billed(invoices[n - 1], name) then invoices[n - 1].hmoAmount else 0)
  }

  /** The HMO-method payments on invoices billed to `name`, summed. */
  function PaidByHmo(payments: seq<Payment>, invoices: seq<Invoice>, name: string): int {
    if payments == [] then 0
    else
      var last := |payments| - 1;
      var p := payments[last];
      PaidByHmo(payments[..last], invoices, name)
      + (if p.payMethod == MethodHmo && InRange(p.invoice, |invoices|) && Billed(invoices[p.invoice - 1], name) then p.amount else 0)
  }

  /** What the sweep takes `name` to owe: everything billed to it, of any
      date, less its HMO payments. */
  function HmoOutstanding(invoices: seq<Invoice>, payments: seq<Payment>, name: string): int {
    HmoBilled(invoices, name, |invoices|) - PaidByHmo(payments, invoices, name)
  }

  /** The per-invoice amounts the aging report uses, summed over the first
      `n` invoices billed to `name`, overpaid ones included. */
  function OwedPerInvoice(invoices: seq<Invoice>, payments: seq<Payment>, name: string, n: nat): int
    requires n <= |invoices|
  {
    if n == 0 then 0
    else
      OwedPerInvoice(invoices, payments, name, n - 1)
      + (if Billed(invoices[n - 1], name) then HmoAgingViews.Outstanding(invoices, payments, n - 1) else 0)
  }

  /** The HMO payments of the first `n` invoices billed to `name`. */
  function PaidPerInvoice(invoices: seq<Invoice>, payments: seq<Payment>, name: string, n: nat): int
    requires n <= |invoices|
  {
    if n == 0 then 0
    else
      PaidPerInvoice(invoices, payments, name, n - 1)
      + (if Billed(invoices[n - 1], name) then HmoPaid(payments, n) else 0)
  }

  lemma {:induction false} OwedSplits(invoices: seq<Invoice>, payments: seq<Payment>, name: string, n: nat)
    requires n <= |invoices|
    ensures OwedPerInvoice(invoices, payments, name, n) == HmoBilled(invoices, name, n) - PaidPerInvoice(invoices, payments, name, n)
  {
    if n > 0 {
      OwedSplits(invoices, payments, name, n - 1);
    }
  }

  /** One more payment adds its amount to the invoice it is on, if that one is billed to `name`. */
  lemma {:induction false} PaidPerInvoiceAppend(invoices: seq<Invoice>, ps: seq<Payment>, p: Payment, name: string, n: nat)
    requires n <= |invoices|
    ensures PaidPerInvoice(invoices, ps + [p], name, n) == PaidPerInvoice(invoices, ps, name, n)
      + (if p.payMethod == MethodHmo && InRange(p.invoice, n) && Billed(invoices[p.invoice - 1], name) then p.amount else 0)
  {
    if n > 0 {
      PaidPerInvoiceAppend(invoices, ps, p, name, n - 1);
      assert (ps + [p])[..|ps|] == ps;
    }
  }

  /** The sweep's figure for an HMO is the sum of the aging report's
      per-invoice amounts over all of that HMO's invoices, not only the
      positive ones and not only those of the window. */
  lemma {:induction false} OutstandingIsPerInvoiceSum(invoices: seq<Invoice>, payments: seq<Payment>, name: string)
    requires PaymentsOk(payments, |invoices|)
    ensures HmoOutstanding(invoices, payments, name) == OwedPerInvoice(invoices, payments, name, |invoices|)
  {
    PaidSwap(invoices, payments, name);
    OwedSplits(invoices, payments, name, |invoices|);
  }

  lemma {:induction false} PaidSwap(invoices: seq<Invoice>, payments: seq<Payment>, name: string)
    requires PaymentsOk(payments, |invoices|)
    ensures PaidByHmo(payments, invoices, name) == PaidPerInvoice(invoices, payments, name, |invoices|)
  {
    if payments == [] {
      PaidPerInvoiceEmpty(invoices, name, |invoices|);
    } else {
      var last := |payments| - 1;
      var front := payments[..last];
      assert PaymentsOk(front, |invoices|);
      PaidSwap(invoices, front, name);
      assert payments == front + [payments[last]];
      PaidPerInvoiceAppend(invoices, front, payments[last], name, |invoices|);
    }
  }

  lemma {:induction false} PaidPerInvoiceEmpty(invoices: seq<Invoice>, name: string, n: nat)
    requires n <= |invoices|
    ensures PaidPerInvoice(invoices, [], name, n) == 0
  {
    if n > 0 {
      PaidPerInvoiceEmpty(invoices, name, n - 1);
    }
  }

  // ---------------------------------------------------------------- the follow-up upsert

  /** The key of the window ending `today`. */
  function WindowKey(name: string, today: Date): (string, Date, Date) {
    (name, today - WindowDays, today)
  }

  /** `.get(...)` on a key: the row holding it, if there is one. */
  function FindFollowUp(fs: seq<FollowUp>, key: (string, Date, Date)): (r: Option<nat>)
    ensures r.Some? ==> r.value < |fs| && FollowUpKey(fs[r.value]) == key
    ensures r.None? ==> forall i :: 0 <= i < |fs| ==> FollowUpKey(fs[i]) != key
  {
    if fs == [] then None
    else
      var last := |fs| - 1;
      if FollowUpKey(fs[last]) == key then Some(last)
      else
        var r := FindFollowUp(fs[..last], key);
        assert forall i :: 0 <= i < last ==> fs[..last][i] == fs[i];
        r
  }

  /** The row `get_or_create` makes: status OPEN, next follow-up a week away. */
  function NewFollowUp(name: string, today: Date, now: Instant): FollowUp {
    FollowUp(name, today - WindowDays, today, FollowUpOpen, None, Some(today + NextFollowUpDays), "", None, now)
  }

  /** The fields the sweep then overwrites. */
  function Stamp(f: FollowUp, today: Date, now: Instant): FollowUp {
    f.(status := FollowUpReminded, lastActionAt := Some(now), nextFollowUpAt := Some(today + NextFollowUpDays))
  }

  /** The get-or-create of the window's follow-up for `name`, then the stamp. */
  function Touch(fs: seq<FollowUp>, name: string, today: Date, now: Instant): seq<FollowUp> {
    match FindFollowUp(fs, WindowKey(name, today))
    case Some(k) => fs[k := Stamp(fs[k], today, now)]
    case None => fs + [Stamp(NewFollowUp(name, today, now), today, now)]
  }

  /** The follow-ups after the sweep has walked `names`. */
  function Sweep(fs: seq<FollowUp>, invoices: seq<Invoice>, payments: seq<Payment>, names: seq<string>, today: Date, now: Instant): seq<FollowUp> {
    if names == [] then fs
    else
      var last := |names| - 1;
      var prev := Sweep(fs, invoices, payments, names[..last], today, now);
      if HmoOutstanding(invoices, payments, names[last]) > 0 then Touch(prev, names[last], today, now) else prev
  }

  // ---------------------------------------------------------------- properties of the upsert

  /** The upsert never creates a second follow-up for a key. */
  lemma TouchKeepsOnePerKey(fs: seq<FollowUp>, name: string, today: Date, now: Instant)
    requires OneFollowUpPerKey(fs)
    ensures OneFollowUpPerKey(Touch(fs, name, today, now))
  {
    var t := Touch(fs, name, today, now);
    match FindFollowUp(fs, WindowKey(name, today))
    case Some(k) =>
      assert forall i :: 0 <= i < |fs| ==> FollowUpKey(t[i]) == FollowUpKey(fs[i]);
    case None =>
      assert forall i :: 0 <= i < |fs| ==> t[i] == fs[i];
  }

  lemma {:induction false} SweepKeepsOnePerKey(fs: seq<FollowUp>, invoices: seq<Invoice>, payments: seq<Payment>, names: seq<string>, today: Date, now: Instant)
    requires OneFollowUpPerKey(fs)
    ensures OneFollowUpPerKey(Sweep(fs, invoices, payments, names, today, now))
  {
    if names != [] {
      var last := |names| - 1;
      SweepKeepsOnePerKey(fs, invoices, payments, names[..last], today, now);
      TouchKeepsOnePerKey(Sweep(fs, invoices, payments, names[..last], today, now), names[last], today, now);
    }
  }

  /** The follow-up of `key` is there and reminded, next due a week after `today`. */
  ghost predicate Stamped(fs: seq<FollowUp>, key: (string, Date, Date), today: Date) {
    exists i :: 0 <= i < |fs| && FollowUpKey(fs[i]) == key && Reminded(fs[i], today)
  }

  predicate Reminded(f: FollowUp, today: Date) {
    f.status == FollowUpReminded && f.nextFollowUpAt == Some(today + NextFollowUpDays)
  }

  /** The upsert stamps its own key and keeps every key already stamped. */
  lemma TouchStamps(fs: seq<FollowUp>, name: string, today: Date, now: Instant, key: (string, Date, Date))
    ensures Stamped(Touch(fs, name, today, now), WindowKey(name, today), today)
    ensures Stamped(fs, key, today) ==> Stamped(Touch(fs, name, today, now), key, today)
  {
    var t := Touch(fs, name, today, now);
    match FindFollowUp(fs, WindowKey(name, today))
    case Some(k) =>
      assert FollowUpKey(t[k]) == WindowKey(name, today) && Reminded(t[k], today);
      if Stamped(fs, key, today) {
        var i :| 0 <= i < |fs| && FollowUpKey(fs[i]) == key && Reminded(fs[i], today);
        assert FollowUpKey(t[i]) == key && Reminded(t[i], today);
      }
    case None =>
      assert FollowUpKey(t[|fs|]) == WindowKey(name, today) && Reminded(t[|fs|], today);
      if Stamped(fs, key, today) {
        var i :| 0 <= i < |fs| && FollowUpKey(fs[i]) == key && Reminded(fs[i], today);
        assert t[i] == fs[i];
      }
  }

  /** The HMO is swept and owes something. */
  predicate Due(invoices: seq<Invoice>, payments: seq<Payment>, names: seq<string>, name: string) {
    name in names && HmoOutstanding(invoices, payments, name) > 0
  }

  /** After the sweep, every HMO that owes something has its window's
      follow-up reminded and next due a week from today. */
  lemma {:induction false} SweepStamps(fs: seq<FollowUp>, invoices: seq<Invoice>, payments: seq<Payment>, names: seq<string>, today: Date, now: Instant)
    ensures forall n :: Due(invoices, payments, names, n) ==>
      Stamped(Sweep(fs, invoices, payments, names, today, now), WindowKey(n, today), today)
  {
    if names != [] {
      var last := |names| - 1;
      var front := names[..last];
      SweepStamps(fs, invoices, payments, front, today, now);
      var prev := Sweep(fs, invoices, payments, front, today, now);
      assert names == front + [names[last]];
      if HmoOutstanding(invoices, payments, names[last]) > 0 {
        forall n | Due(invoices, payments, names, n)
          ensures Stamped(Touch(prev, names[last], today, now), WindowKey(n, today), today)
        {
          TouchStamps(prev, names[last], today, now, WindowKey(n, today));
        }
      } else {
        assert forall n :: Due(invoices, payments, names, n) ==> Due(invoices, payments, front, n);
      }
    }
  }

  /** The sweep only touches the window follow-ups of HMOs that owe
      something: every other follow-up keeps its row and its fields, and
      rows are only ever appended. */
  lemma {:induction false} SweepLeavesOthers(fs: seq<FollowUp>, invoices: seq<Invoice>, payments: seq<Payment>, names: seq<string>, today: Date, now: Instant)
    ensures var s := Sweep(fs, invoices, payments, names, today, now);
      |s| >= |fs| && Untouched(fs, s, invoices, payments, names, today)
  {
    if names != [] {
      var last := |names| - 1;
      var front := names[..last];
      SweepLeavesOthers(fs, invoices, payments, front, today, now);
      var prev := Sweep(fs, invoices, payments, front, today, now);
      var s := Sweep(fs, invoices, payments, names, today, now);
      assert names == front + [names[last]];
      assert forall n :: Due(invoices, payments, front, n) ==> Due(invoices, payments, names, n);
      if HmoOutstanding(invoices, payments, names[last]) > 0 {
        forall i | 0 <= i < |fs| && !(Due(invoices, payments, names, fs[i].hmoName)
                                      && fs[i].periodStart == today - WindowDays && fs[i].periodEnd == today)
          ensures s[i] == fs[i]
        {
          assert prev[i] == fs[i];
          match FindFollowUp(prev, WindowKey(names[last], today))
          case Some(k) =>
            assert Due(invoices, payments, names, names[last]);
            assert k != i;
          case None =>
        }
      }
    }
  }

  /** Every follow-up of `fs` whose key is not the window key of an HMO that
      owes something is the same row in `s`. */
  predicate Untouched(fs: seq<FollowUp>, s: seq<FollowUp>, invoices: seq<Invoice>, payments: seq<Payment>, names: seq<string>, today: Date)
    requires |s| >= |fs|
  {
    forall i :: 0 <= i < |fs| && !(Due(invoices, payments, names, fs[i].hmoName) && fs[i].periodStart == today - WindowDays && fs[i].periodEnd == today) ==>
      s[i] == fs[i]
  }

  // ---------------------------------------------------------------- re-running the sweep

  /** Two tables with the same rows except, maybe, for `last_action_at`. */
  predicate SameButAction(a: seq<FollowUp>, b: seq<FollowUp>) {
    |a| == |b| && forall i :: 0 <= i < |a| ==> a[i].(lastActionAt := None) == b[i].(lastActionAt := None)
  }

  /** Stamping a key already stamped only moves its `last_action_at`. */
  lemma TouchStampedAgain(fs: seq<FollowUp>, name: string, today: Date, now: Instant)
    requires OneFollowUpPerKey(fs) && Stamped(fs, WindowKey(name, today), today)
    ensures SameButAction(Touch(fs, name, today, now), fs)
  {
    var i :| 0 <= i < |fs| && FollowUpKey(fs[i]) == WindowKey(name, today) && Reminded(fs[i], today);
    var found := FindFollowUp(fs, WindowKey(name, today));
    assert found == Some(i);
  }

  lemma SameButActionKeeps(a: seq<FollowUp>, b: seq<FollowUp>, key: (string, Date, Date), today: Date)
    requires SameButAction(a, b)
    ensures Stamped(a, key, today) ==> Stamped(b, key, today)
    ensures OneFollowUpPerKey(a) ==> OneFollowUpPerKey(b)
  {
    assert forall i :: 0 <= i < |a| ==> FollowUpKey(a[i]) == FollowUpKey(b[i]) && (Reminded(a[i], today) <==> Reminded(b[i], today)) by {
      forall i | 0 <= i < |a| ensures FollowUpKey(a[i]) == FollowUpKey(b[i]) && (Reminded(a[i], today) <==> Reminded(b[i], today)) {
        assert a[i].(lastActionAt := None).hmoName == b[i].(lastActionAt := None).hmoName;
        assert a[i].(lastActionAt := None).status == b[i].(lastActionAt := None).status;
      }
    }
  }

  /** Sweeping a table in which every HMO that owes something is already
      stamped changes nothing but `last_action_at`. */
  lemma {:induction false} SweepStampedAgain(fs: seq<FollowUp>, invoices: seq<Invoice>, payments: seq<Payment>, names: seq<string>, today: Date, now: Instant)
    requires OneFollowUpPerKey(fs)
    requires forall n :: Due(invoices, payments, names, n) ==> Stamped(fs, WindowKey(n, today), today)
    ensures SameButAction(Sweep(fs, invoices, payments, names, today, now), fs)
  {
    if names != [] {
      var last := |names| - 1;
      var front := names[..last];
      assert names == front + [names[last]];
      assert forall n :: Due(invoices, payments, front, n) ==> Due(invoices, payments, names, n);
      SweepStampedAgain(fs, invoices, payments, front, today, now);
      var prev := Sweep(fs, invoices, payments, front, today, now);
      if HmoOutstanding(invoices, payments, names[last]) > 0 {
        assert Due(invoices, payments, names, names[last]);
        SameButActionKeeps(fs, prev, WindowKey(names[last], today), today);
        TouchStampedAgain(prev, names[last], today, now);
      }
    }
  }

  /** Running the sweep again on the same day creates no follow-up and
      leaves every status and next date as the first run left them. */
  lemma SweepRerun(fs: seq<FollowUp>, invoices: seq<Invoice>, payments: seq<Payment>, today: Date, now: Instant, now2: Instant)
    requires OneFollowUpPerKey(fs)
    ensures var names := SweepNames(invoices);
      var once := Sweep(fs, invoices, payments, names, today, now);
      SameButAction(Sweep(once, invoices, payments, names, today, now2), once)
  {
    var names := SweepNames(invoices);
    SweepKeepsOnePerKey(fs, invoices, payments, names, today, now);
    SweepStamps(fs, invoices, payments, names, today, now);
    SweepStampedAgain(Sweep(fs, invoices, payments, names, today, now), invoices, payments, names, today, now2);
  }

  // ---------------------------------------------------------------- the command

  /** `Command.handle`: the sweep over the HMOs with an HMO share. The
      console messages are not modelled. */
  method Handle(db: Db, today: Date, now: Instant)
    requires db.Valid()
    modifies db`followups
    ensures db.Valid()
    ensures db.followups == Sweep(old(db.followups), db.invoices, db.payments, SweepNames(db.invoices), today, now)
  {
    var names := SweepNames(db.invoices);
    var i := 0;
    while i < |names|
      invariant 0 <= i <= |names|
      invariant db.followups == Sweep(old(db.followups), db.invoices, db.payments, names[..i], today, now)
      invariant OneFollowUpPerKey(db.followups)
    {
      var name := names[i];
      assert names[..i + 1][..i] == names[..i];
      var outstanding := HmoBilled(db.invoices, name, |db.invoices|) - PaidByHmo(db.payments, db.invoices, name);
      if outstanding > 0 {
        TouchKeepsOnePerKey(db.followups, name, today, now);
        var found := FindFollowUp(db.followups, WindowKey(name, today));
        if found.Some? {
          var k := found.value;
          db.followups := db.followups[k := Stamp(db.followups[k], today, now)];
        } else {
          var f := NewFollowUp(name, today, now);
          db.followups := db.followups + [Stamp(f, today, now)];
        }
      }
      i := i + 1;
    }
    assert names[..i] == names;
  }
}
