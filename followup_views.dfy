/** billing/followup_views.py: the list of follow-ups due and the form that
    records an action on one. Both need only a logged-in user. */
module FollowupViews {
  import opened Common
  import opened Text
  import opened Schema
  import opened BillingModels
  import opened Store
  import opened AccountsUtils
  import opened Queries
  import opened Sorting

  // ---------------------------------------------------------------- followups_list

  /** Due by `today` (a follow-up with no next date never is) and not settled. */
  predicate IsDue(f: FollowUp, today: Date) {
    f.nextFollowUpAt.Some? && f.nextFollowUpAt.value <= today && f.status != FollowUpSettled
  }

  /** A follow-up with its primary key. */
  type Keyed = (nat, FollowUp)

  /** `order_by("next_follow_up_at", "hmo_name")`: earlier next date first,
      then the HMO name in code-point order. */
  predicate DueBefore(a: Keyed, b: Keyed) {
    var x := a.1.nextFollowUpAt.GetOr(0);
    var y := b.1.nextFollowUpAt.GetOr(0);
    x < y || (x == y && StrLe(a.1.hmoName, b.1.hmoName))
  }

  lemma DueBeforePreorder()
    ensures TotalPreorder(DueBefore)
  {
    forall a: Keyed, b: Keyed ensures DueBefore(a, b) || DueBefore(b, a) {
      StrLeTotal(a.1.hmoName, b.1.hmoName);
    }
    forall a: Keyed, b: Keyed, c: Keyed | DueBefore(a, b) && DueBefore(b, c) ensures DueBefore(a, c) {
      if a.1.nextFollowUpAt.GetOr(0) == b.1.nextFollowUpAt.GetOr(0) == c.1.nextFollowUpAt.GetOr(0) {
        StrLeTransitive(a.1.hmoName, b.1.hmoName, c.1.hmoName);
      }
    }
  }

  /** The due follow-ups among the first `n` rows, in primary-key order. */
  function DueRows(fs: seq<FollowUp>, today: Date, n: nat): seq<Keyed>
    requires n <= |fs|
  {
    if n == 0 then []
    else DueRows(fs, today, n - 1) + (if IsDue(fs[n - 1], today) then [(n, fs[n - 1])] else [])
  }

  /** `DueRows` holds exactly the due rows, each with its own key. */
  lemma {:induction false} DueRowsMembers(fs: seq<FollowUp>, today: Date, n: nat)
    requires n <= |fs|
    ensures forall k: Keyed :: k in DueRows(fs, today, n) <==> 1 <= k.0 <= n && k.1 == fs[k.0 - 1] && IsDue(k.1, today)
  {
    if n > 0 {
      DueRowsMembers(fs, today, n - 1);
    }
  }

  /** The due list, in the order the page shows it. */
  function DueList(fs: seq<FollowUp>, today: Date): seq<Keyed> {
    DueBeforePreorder();
    SortBy(DueRows(fs, today, |fs|), DueBefore)
  }

  /** `followups_list`: the follow-ups due by today and not settled, by next
      date and then HMO name. */
  function FollowupsList(u: Viewer, fs: seq<FollowUp>, today: Date): (r: Page<seq<Keyed>>)
    ensures LoginGate(u).Some? ==> r == Stop(LoginRequired)
    ensures LoginGate(u).None? ==> r == Show(DueList(fs, today))
  {
    if LoginGate(u).Some? then Stop(LoginRequired) else Show(DueList(fs, today))
  }

  /** The due list holds exactly the due follow-ups, once each, in order of
      next date and then HMO name. */
  lemma DueListSpec(fs: seq<FollowUp>, today: Date)
    ensures forall k: Keyed :: k in DueList(fs, today) <==> 1 <= k.0 <= |fs| && k.1 == fs[k.0 - 1] && IsDue(k.1, today)
    ensures SortedBy(DueList(fs, today), DueBefore)
    ensures |DueList(fs, today)| == CountDue(fs, today, |fs|)
  {
    DueBeforePreorder();
    DueRowsMembers(fs, today, |fs|);
    CountDueIsRows(fs, today, |fs|);
    var rows := DueRows(fs, today, |fs|);
    forall k: Keyed ensures k in DueList(fs, today) <==> k in rows {
      assert k in multiset(DueList(fs, today)) <==> k in multiset(rows);
    }
  }

  /** The number of due follow-ups among the first `n` rows (the dashboard's
      `.count()`). */
  function CountDue(fs: seq<FollowUp>, today: Date, n: nat): nat
    requires n <= |fs|
  {
    if n == 0 then 0 else CountDue(fs, today, n - 1) + (if IsDue(fs[n - 1], today) then 1 else 0)
  }

  lemma {:induction false} CountDueIsRows(fs: seq<FollowUp>, today: Date, n: nat)
    requires n <= |fs|
    ensures CountDue(fs, today, n) == |DueRows(fs, today, n)|
  {
    if n > 0 {
      CountDueIsRows(fs, today, n - 1);
    }
  }

  // ---------------------------------------------------------------- followup_update

  /** The posted fields: `status` and `notes` (absent when not sent) and the
      next follow-up date. */
  datatype FollowUpForm = FollowUpForm(status: Option<string>, notes: Option<string>, next: DateInput)

  /** The follow-up after a POST: the posted status or the old one, the
      posted notes or none, the posted next date when one was given, and the
      action time. */
  function Updated(f: FollowUp, form: FollowUpForm, now: Instant): (r: FollowUp)
    requires !form.next.BadDate?
    ensures r.status == form.status.GetOr(f.status)
    ensures r.notes == form.notes.GetOr("")
    ensures r.nextFollowUpAt == if form.next.ADate? then Some(form.next.day) else f.nextFollowUpAt
    ensures r.lastActionAt == Some(now)
    ensures FollowUpKey(r) == FollowUpKey(f) && r.owner == f.owner && r.createdAt == f.createdAt
  {
    f.(status := form.status.GetOr(f.status),
       notes := form.notes.GetOr(""),
       nextFollowUpAt := if form.next.ADate? then Some(form.next.day) else f.nextFollowUpAt,
       lastActionAt := Some(now))
  }

  /** Settling a follow-up takes it off the due list; posting a next date
      after today takes it off until then. */
  lemma UpdateLeavesDueList(f: FollowUp, form: FollowUpForm, now: Instant, today: Date)
    requires !form.next.BadDate?
    ensures form.status == Some(FollowUpSettled) ==> !IsDue(Updated(f, form, now), today)
    ensures form.next.ADate? && form.next.day > today ==> !IsDue(Updated(f, form, now), today)
    ensures form.status.None? && form.next.BlankDate? ==> (IsDue(Updated(f, form, now), today) <==> IsDue(f, today))
  {
  }

  /** `followup_update(followup_id)`. A next date the date field cannot
      parse makes the save fail, and nothing is written. */
  method FollowupUpdate(db: Db, u: Viewer, id: nat, isPost: bool, form: FollowUpForm, now: Instant) returns (o: Outcome)
    requires db.Valid()
    modifies db`followups
    ensures db.Valid()
    ensures LoginGate(u).Some? ==> o == LoginRequired && unchanged(db)
    ensures LoginGate(u).None? && !InRange(id, |db.followups|) ==> o == NotFound && unchanged(db)
    ensures LoginGate(u).None? && InRange(id, |old(db.followups)|) ==>
      if !isPost then o == Unchanged && unchanged(db)
      else if form.next.BadDate? then o.Failed? && unchanged(db)
      else o == Done && db.followups == old(db.followups)[id - 1 := Updated(old(db.followups[id - 1]), form, now)]
  {
    if LoginGate(u).Some? {
      return LoginRequired;
    }
    if !InRange(id, |db.followups|) {
      return NotFound;
    }
    if !isPost {
      return Unchanged;
    }
    if form.next.BadDate? {
      return Failed("invalid date");
    }
    var f := db.followups[id - 1];
    var g := Updated(f, form, now);
    assert forall i :: 0 <= i < |db.followups| ==> FollowUpKey(db.followups[id - 1 := g][i]) == FollowUpKey(db.followups[i]);
    db.followups := db.followups[id - 1 := g];
    o := Done;
  }
}
