/** billing/dashboard_views.py: the revenue dashboard's aggregates, all read
    straight from the tables. */
module DashboardViews {
  import opened Common
  import opened Schema
  import opened BillingModels
  import opened Store
  import opened AccountsUtils
  import opened Sorting
  import FollowupViews

  const DashboardRoles: set<string> := {"admin", "billing"}
  /** The trend and the method breakdown start 29 days before today. */
  const TrendDays := 29

  // ---------------------------------------------------------------- sums over payments

  /** `Payment.objects.filter(paid_at__date=day).aggregate(Sum("amount"))`, 0 when there are none. */
  function SumOn(payments: seq<Payment>, day: Date): int {
    if payments == [] then 0
    else
      var p := payments[|payments| - 1];
      SumOn(payments[..|payments| - 1], day) + (if p.paidAt.date == day then p.amount else 0)
  }

  /** The payments paid from `lo` to `hi`, both included, summed. */
  function SumBetween(payments: seq<Payment>, lo: Date, hi: Date): int {
    if payments == [] then 0
    else
      var p := payments[|payments| - 1];
      SumBetween(payments[..|payments| - 1], lo, hi) + (if lo <= p.paidAt.date <= hi then p.amount else 0)
  }

  /** A one-day range is that day, and a range splits at any day inside it:
      month-to-date is the days before today plus today. */
  lemma {:induction false} SumBetweenSplits(payments: seq<Payment>, lo: Date, mid: Date, hi: Date)
    requires lo <= mid <= hi
    ensures SumBetween(payments, mid, mid) == SumOn(payments, mid)
    ensures SumBetween(payments, lo, hi) == SumBetween(payments, lo, mid - 1) + SumOn(payments, mid) + SumBetween(payments, mid + 1, hi)
  {
    if payments != [] {
      SumBetweenSplits(payments[..|payments| - 1], lo, mid, hi);
    }
  }

  lemma {:induction false} SumBetweenEmpty(payments: seq<Payment>, lo: Date, hi: Date)
    requires hi < lo
    ensures SumBetween(payments, lo, hi) == 0
  {
    if payments != [] {
      SumBetweenEmpty(payments[..|payments| - 1], lo, hi);
    }
  }

  /** The payments of method `m` paid on or after `lo`, summed. */
  function MethodTotal(payments: seq<Payment>, lo: Date, m: string): int {
    if payments == [] then 0
    else
      var p := payments[|payments| - 1];
      MethodTotal(payments[..|payments| - 1], lo, m) + (if p.paidAt.date >= lo && p.payMethod == m then p.amount else 0)
  }

  /** `Invoice.objects.aggregate(Sum("balance"))`. */
  function SumBalances(invoices: seq<Invoice>): int {
    if invoices == [] then 0 else SumBalances(invoices[..|invoices| - 1]) + invoices[|invoices| - 1].balance
  }

  /** `Invoice.objects.aggregate(Sum("hmo_amount"))`, whatever has been settled. */
  function SumHmoAmounts(invoices: seq<Invoice>): int {
    if invoices == [] then 0 else SumHmoAmounts(invoices[..|invoices| - 1]) + invoices[|invoices| - 1].hmoAmount
  }

  // ---------------------------------------------------------------- grouping

  predicate NoDup<T(==)>(s: seq<T>) {
    forall i, j :: 0 <= i < j < |s| ==> s[i] != s[j]
  }

  /** The distinct values of `s`, in the order they first occur (`.values(f)` grouped). */
  function Dedup<T(==)>(s: seq<T>): seq<T> {
    if s == [] then []
    else
      var front := Dedup(s[..|s| - 1]);
      if s[|s| - 1] in front then front else front + [s[|s| - 1]]
  }

  lemma {:induction false} DedupSpec<T>(s: seq<T>)
    ensures NoDup(Dedup(s))
    ensures forall x :: x in Dedup(s) <==> x in s
  {
    if s != [] {
      DedupSpec(s[..|s| - 1]);
      assert s == s[..|s| - 1] + [s[|s| - 1]];
    }
  }

  /** Whether a sequence has repeats depends only on its multiset. */
  lemma {:induction false} NoDupCounts<T>(s: seq<T>)
    ensures NoDup(s) <==> forall x :: multiset(s)[x] <= 1
  {
    if s != [] {
      var front := s[..|s| - 1];
      var x := s[|s| - 1];
      NoDupCounts(front);
      assert s == front + [x];
      assert multiset(s) == multiset(front) + multiset{x};
      if NoDup(s) {
        assert NoDup(front);
        forall i | 0 <= i < |front| ensures front[i] != x {
          assert s[i] == front[i];
        }
        assert x !in front;
      }
      if forall y :: multiset(s)[y] <= 1 {
        assert forall y :: multiset(front)[y] <= multiset(s)[y];
        assert x !in multiset(front);
        forall i, j | 0 <= i < j < |s| ensures s[i] != s[j] {
          if j == |s| - 1 {
            assert s[i] == front[i];
            assert front[i] in multiset(front);
          } else {
            assert s[i] == front[i] && s[j] == front[j];
          }
        }
      }
    }
  }

  lemma NoDupPermutation<T>(a: seq<T>, b: seq<T>)
    requires multiset(a) == multiset(b) && NoDup(a)
    ensures NoDup(b)
  {
    NoDupCounts(a);
    NoDupCounts(b);
  }

  /** The paid dates of the payments on or after `lo`, in table order. */
  function DatesFrom(payments: seq<Payment>, lo: Date): seq<Date> {
    if payments == [] then []
    else
      var p := payments[|payments| - 1];
      DatesFrom(payments[..|payments| - 1], lo) + (if p.paidAt.date >= lo then [p.paidAt.date] else [])
  }

  /** The methods of the payments on or after `lo`, in table order. */
  function MethodsFrom(payments: seq<Payment>, lo: Date): seq<string> {
    if payments == [] then []
    else
      var p := payments[|payments| - 1];
      MethodsFrom(payments[..|payments| - 1], lo) + (if p.paidAt.date >= lo then [p.payMethod] else [])
  }

  lemma {:induction false} FromMembers(payments: seq<Payment>, lo: Date)
    ensures forall d :: d in DatesFrom(payments, lo) <==> exists p :: p in payments && p.paidAt.date == d && d >= lo
    ensures forall m :: m in MethodsFrom(payments, lo) <==> exists p :: p in payments && p.payMethod == m && p.paidAt.date >= lo
  {
    if payments != [] {
      var front := payments[..|payments| - 1];
      FromMembers(front, lo);
      assert payments == front + [payments[|payments| - 1]];
    }
  }

  predicate DayLe(a: Date, b: Date) {
    a <= b
  }

  /** One trend point per day. */
  function TrendRows(days: seq<Date>, payments: seq<Payment>): (r: seq<(Date, int)>)
    ensures |r| == |days|
    ensures forall i :: 0 <= i < |r| ==> r[i] == (days[i], SumOn(payments, days[i]))
  {
    if days == [] then [] else [(days[0], SumOn(payments, days[0]))] + TrendRows(days[1..], payments)
  }

  /** The days the trend has a point for, earliest first. */
  function TrendDaysOf(payments: seq<Payment>, lo: Date): seq<Date> {
    assert TotalPreorder(DayLe);
    SortBy(Dedup(DatesFrom(payments, lo)), DayLe)
  }

  /** The trend: `.filter(paid_at__date__gte=lo).values("day").annotate(Sum).order_by("day")`.
      Only days with a payment appear, and the window has no upper end. */
  function Trend(payments: seq<Payment>, lo: Date): seq<(Date, int)> {
    TrendRows(TrendDaysOf(payments, lo), payments)
  }

  /** Some payment was paid on `d`, on or after `lo`. */
  ghost predicate PaidOn(payments: seq<Payment>, d: Date, lo: Date) {
    exists p :: p in payments && p.paidAt.date == d && d >= lo
  }

  /** Some payment of method `m` was paid on or after `lo`. */
  ghost predicate PaidWith(payments: seq<Payment>, m: string, lo: Date) {
    exists p :: p in payments && p.payMethod == m && p.paidAt.date >= lo
  }

  predicate Increasing(days: seq<Date>) {
    forall i, j :: 0 <= i < j < |days| ==> days[i] < days[j]
  }

  lemma TrendDaysSpec(payments: seq<Payment>, lo: Date)
    ensures Increasing(TrendDaysOf(payments, lo))
    ensures forall d :: d in TrendDaysOf(payments, lo) <==> PaidOn(payments, d, lo)
  {
    assert TotalPreorder(DayLe);
    var dates := DatesFrom(payments, lo);
    var days := TrendDaysOf(payments, lo);
    DedupSpec(dates);
    NoDupPermutation(Dedup(dates), days);
    FromMembers(payments, lo);
    forall d ensures d in days <==> d in Dedup(dates) {
      assert d in days <==> d in multiset(days);
      assert d in Dedup(dates) <==> d in multiset(Dedup(dates));
    }
  }

  /** The trend has one point per day on or after `lo` with a payment, in
      strictly increasing day order, each with that day's total. */
  lemma TrendSpec(payments: seq<Payment>, lo: Date)
    ensures Increasing(Keys(Trend(payments, lo)))
    ensures forall d :: d in Keys(Trend(payments, lo)) <==> PaidOn(payments, d, lo)
    ensures forall i :: 0 <= i < |Trend(payments, lo)| ==> Trend(payments, lo)[i].1 == SumOn(payments, Trend(payments, lo)[i].0)
  {
    TrendDaysSpec(payments, lo);
    var t := Trend(payments, lo);
    assert Keys(t) == TrendDaysOf(payments, lo);
  }

  /** The keys of a grouped result, in order: the days of a trend, the
      methods of a breakdown. */
  function Keys<K>(t: seq<(K, int)>): (r: seq<K>)
    ensures |r| == |t|
    ensures forall i :: 0 <= i < |t| ==> r[i] == t[i].0
  {
    if t == [] then [] else [t[0].0] + Keys(t[1..])
  }

  predicate ByTotalDesc(a: (string, int), b: (string, int)) {
    a.1 >= b.1
  }

  /** One row per method. */
  function MethodRows(methods: seq<string>, payments: seq<Payment>, lo: Date): (r: seq<(string, int)>)
    ensures |r| == |methods|
    ensures forall i :: 0 <= i < |r| ==> r[i] == (methods[i], MethodTotal(payments, lo, methods[i]))
  {
    if methods == [] then [] else [(methods[0], MethodTotal(payments, lo, methods[0]))] + MethodRows(methods[1..], payments, lo)
  }

  /** The unsorted breakdown: one row per method, in order of first payment. */
  function MethodTable(payments: seq<Payment>, lo: Date): seq<(string, int)> {
    MethodRows(Dedup(MethodsFrom(payments, lo)), payments, lo)
  }

  /** `by_method`: the window's payments grouped by method, largest total first. */
  function ByMethod(payments: seq<Payment>, lo: Date): seq<(string, int)> {
    assert TotalPreorder(ByTotalDesc);
    SortBy(MethodTable(payments, lo), ByTotalDesc)
  }

  /** Each row has its method's total; methods are listed once each, exactly
      the methods paid in the window. */
  predicate TotalsRight(payments: seq<Payment>, lo: Date, b: seq<(string, int)>) {
    forall i :: 0 <= i < |b| ==> b[i].1 == MethodTotal(payments, lo, b[i].0)
  }

  lemma MethodTableSpec(payments: seq<Payment>, lo: Date)
    ensures TotalsRight(payments, lo, MethodTable(payments, lo))
    ensures NoDup(Keys(MethodTable(payments, lo)))
    ensures forall m :: m in Keys(MethodTable(payments, lo)) <==> PaidWith(payments, m, lo)
  {
    var methods := Dedup(MethodsFrom(payments, lo));
    DedupSpec(MethodsFrom(payments, lo));
    FromMembers(payments, lo);
    assert Keys(MethodTable(payments, lo)) == methods;
  }

  /** Rows with the right totals and distinct methods stay so when reordered. */
  lemma ReorderKeepsTotals(payments: seq<Payment>, lo: Date, a: seq<(string, int)>, b: seq<(string, int)>)
    requires multiset(a) == multiset(b) && TotalsRight(payments, lo, a) && NoDup(Keys(a))
    ensures TotalsRight(payments, lo, b) && NoDup(Keys(b))
    ensures forall m :: m in Keys(b) <==> m in Keys(a)
  {
    assert NoDup(a) by {
      forall k, l | 0 <= k < l < |a| ensures a[k] != a[l] {
        assert Keys(a)[k] != Keys(a)[l];
      }
    }
    NoDupPermutation(a, b);
    assert TotalsRight(payments, lo, b) by {
      forall i | 0 <= i < |b| ensures b[i].1 == MethodTotal(payments, lo, b[i].0) {
        assert b[i] in multiset(a);
      }
    }
    forall i, j | 0 <= i < j < |b| ensures Keys(b)[i] != Keys(b)[j] {
      assert b[i] != b[j];
    }
    SameNames(a, b);
  }

  lemma SameNames(a: seq<(string, int)>, b: seq<(string, int)>)
    requires multiset(a) == multiset(b)
    ensures forall m :: m in Keys(b) <==> m in Keys(a)
  {
    forall m ensures m in Keys(b) <==> m in Keys(a) {
      if m in Keys(b) {
        var i :| 0 <= i < |b| && Keys(b)[i] == m;
        assert b[i] in multiset(a);
        var x :| 0 <= x < |a| && a[x] == b[i];
        assert Keys(a)[x] == m;
      }
      if m in Keys(a) {
        var x :| 0 <= x < |a| && Keys(a)[x] == m;
        assert a[x] in multiset(b);
        var i :| 0 <= i < |b| && b[i] == a[x];
        assert Keys(b)[i] == m;
      }
    }
  }

  /** The breakdown lists every method paid in the window once, with its
      total, largest total first. */
  lemma ByMethodSpec(payments: seq<Payment>, lo: Date)
    ensures SortedBy(ByMethod(payments, lo), ByTotalDesc)
    ensures TotalsRight(payments, lo, ByMethod(payments, lo))
    ensures NoDup(Keys(ByMethod(payments, lo)))
    ensures forall m :: m in Keys(ByMethod(payments, lo)) <==> PaidWith(payments, m, lo)
  {
    assert TotalPreorder(ByTotalDesc);
    MethodTableSpec(payments, lo);
    ReorderKeepsTotals(payments, lo, MethodTable(payments, lo), ByMethod(payments, lo));
  }

  // ---------------------------------------------------------------- the view

  datatype Dashboard = Dashboard(
    paymentsToday: int,
    paymentsMtd: int,
    outstanding: int,
    hmoReceivables: int,
    trend: seq<(Date, int)>,
    byMethod: seq<(string, int)>,
    followupsDue: nat)

  /** `revenue_dashboard` for billing and admin staff. `dayOfMonth` is
      today's day within its month, so that the month starts
      `dayOfMonth - 1` days before today. */
  function RevenueDashboard(u: Viewer, invoices: seq<Invoice>, payments: seq<Payment>, fs: seq<FollowUp>, today: Date, dayOfMonth: nat): (r: Page<Dashboard>)
    requires 1 <= dayOfMonth
    ensures StaffGate(u, DashboardRoles).Some? ==> r == Stop(StaffGate(u, DashboardRoles).value)
    ensures StaffGate(u, DashboardRoles).None? ==>
      && r.Show?
      && r.content.followupsDue == |FollowupViews.DueList(fs, today)|
      && r.content.paymentsToday == SumBetween(payments, today, today)
      && r.content.paymentsMtd == SumBetween(payments, today - (dayOfMonth - 1), today - 1) + r.content.paymentsToday
  {
    match StaffGate(u, DashboardRoles)
    case Some(o) => Stop(o)
    case None =>
      var start := today - (dayOfMonth - 1);
      var lo := today - TrendDays;
      FollowupViews.DueListSpec(fs, today);
      SumBetweenSplits(payments, start, today, today);
      SumBetweenEmpty(payments, today + 1, today);
      Show(Dashboard(
        SumOn(payments, today),
        SumBetween(payments, start, today),
        SumBalances(invoices),
        SumHmoAmounts(invoices),
        Trend(payments, lo),
        ByMethod(payments, lo),
        FollowupViews.CountDue(fs, today, |fs|)))
  }
}
