/** visits/signals.py: the post-save hook that gives a new visit its number. */
module VisitsSignals {
  import opened Common
  import opened Text
  import opened VisitsModels
  import opened Store

  /** The number the hook assigns to the visit with primary key `id`. */
  function VisitNumberFor(id: nat): (r: string)
    ensures |r| >= 12 && r[..6] == VisitPrefix
  {
    PrefixedId(VisitPrefix, id)
  }

  /** Distinct visits get distinct visit numbers. */
  lemma VisitNumbersDistinct(a: nat, b: nat)
    requires a != b
    ensures VisitNumberFor(a) != VisitNumberFor(b)
  {
    if VisitNumberFor(a) == VisitNumberFor(b) {
      PrefixedIdInjective(VisitPrefix, a, b);
    }
  }

  /** Some visit other than the one in row `k` holds visit number `n`. */
  predicate HeldByOther(visits: seq<Visit>, k: nat, n: string) {
    exists j :: 0 <= j < |visits| && j != k && visits[j].visitNumber == n
  }

  /** `set_visit_number(instance, created)` for the visit in row `k`: only on
      the creating save and only over a blank number, and only the visit
      number is written. When another visit already holds the number, the
      unique column rejects the save and nothing is written. */
  method SetVisitNumber(db: Db, k: nat, created: bool) returns (o: Outcome)
    requires k < |db.visits|
    modifies db`visits
    ensures !created || old(db.visits[k].visitNumber) != "" ==> o == Unchanged && db.visits == old(db.visits)
    ensures created && old(db.visits[k].visitNumber) == "" && HeldByOther(old(db.visits), k, VisitNumberFor(k + 1)) ==>
      o == Failed(VisitNumberTaken) && db.visits == old(db.visits)
    ensures created && old(db.visits[k].visitNumber) == "" && !HeldByOther(old(db.visits), k, VisitNumberFor(k + 1)) ==>
      o == Done && db.visits == old(db.visits)[k := old(db.visits[k]).(visitNumber := VisitNumberFor(k + 1))]
    ensures old(db.Linked()) ==> db.Linked()
  {
    if !created || db.visits[k].visitNumber != "" {
      return Unchanged;
    }
    if HeldByOther(db.visits, k, VisitNumberFor(k + 1)) {
      return Failed(VisitNumberTaken);
    }
    db.visits := db.visits[k := db.visits[k].(visitNumber := VisitNumberFor(k + 1))];
    o := Done;
  }

  const VisitNumberTaken := "UNIQUE constraint failed: visits_visit.visit_number"

  /** A visit just appended to a numbered table finds its number free, and
      numbering it leaves the table numbered. */
  lemma HookNumbersNewVisit(visits: seq<Visit>, v: Visit)
    requires VisitsNumbered(visits)
    ensures !HeldByOther(visits + [v], |visits|, VisitNumberFor(|visits| + 1))
    ensures VisitsNumbered(visits + [v.(visitNumber := VisitNumberFor(|visits| + 1))])
  {
    VisitNumberFree(visits, v);
    VisitNumberKept(visits, v.(visitNumber := VisitNumberFor(|visits| + 1)));
  }

  lemma VisitNumberFree(visits: seq<Visit>, v: Visit)
    requires VisitsNumbered(visits)
    ensures !HeldByOther(visits + [v], |visits|, VisitNumberFor(|visits| + 1))
  {
    var n := VisitNumberFor(|visits| + 1);
    var vs := visits + [v];
    forall j | 0 <= j < |vs| && j != |visits|
      ensures vs[j].visitNumber != n
    {
      assert vs[j] == visits[j];
      assert visits[j].visitNumber == PrefixedId(VisitPrefix, j + 1);
      if visits[j].visitNumber == n {
        VisitNumbersDistinct(j + 1, |visits| + 1);
      }
    }
  }

  lemma VisitNumberKept(visits: seq<Visit>, v: Visit)
    requires VisitsNumbered(visits) && v.visitNumber == VisitNumberFor(|visits| + 1)
    ensures VisitsNumbered(visits + [v])
  {
    var numbered := visits + [v];
    forall id | 1 <= id <= |numbered|
      ensures numbered[id - 1].visitNumber == PrefixedId(VisitPrefix, id)
    {
      if id <= |visits| {
        assert numbered[id - 1] == visits[id - 1];
      }
    }
  }
}
