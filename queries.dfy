/** The query shapes the views use: filter a table, order it by creation
    (row order, since rows are appended as they are created), and slice. */
module Queries {

  /** The indices `i < n` for which `keep(i)` holds, newest (highest) first:
      `.filter(...).order_by("-created_at")`. */
  function NewestFirst(n: nat, keep: nat -> bool): (r: seq<nat>)
    ensures |r| <= n
  {
    if n == 0 then []
    else (if keep(n - 1) then [n - 1] else []) + NewestFirst(n - 1, keep)
  }

  /** The indices `i < n` for which `keep(i)` holds, oldest first:
      `.filter(...).order_by("created_at")`. */
  function OldestFirst(n: nat, keep: nat -> bool): (r: seq<nat>)
    ensures |r| <= n
  {
    if n == 0 then []
    else OldestFirst(n - 1, keep) + (if keep(n - 1) then [n - 1] else [])
  }

  /** `qs[:k]`. */
  function Take<T>(s: seq<T>, k: nat): (r: seq<T>)
    ensures |r| == if |s| < k then |s| else k
    ensures r == s[..|r|]
  {
    if |s| <= k then s else s[..k]
  }

  predicate Descending(r: seq<nat>) {
    forall a, b :: 0 <= a < b < |r| ==> r[a] > r[b]
  }

  predicate Ascending(r: seq<nat>) {
    forall a, b :: 0 <= a < b < |r| ==> r[a] < r[b]
  }

  /** `NewestFirst` holds exactly the kept indices, each once, highest first. */
  lemma {:induction false} NewestFirstSpec(n: nat, keep: nat -> bool)
    ensures forall i: nat :: i in NewestFirst(n, keep) <==> i < n && keep(i)
    ensures Descending(NewestFirst(n, keep))
  {
    if n > 0 {
      NewestFirstSpec(n - 1, keep);
      var rest := NewestFirst(n - 1, keep);
      assert forall k :: 0 <= k < |rest| ==> rest[k] in rest && rest[k] < n - 1;
    }
  }

  /** `OldestFirst` holds exactly the kept indices, each once, lowest first. */
  lemma {:induction false} OldestFirstSpec(n: nat, keep: nat -> bool)
    ensures forall i: nat :: i in OldestFirst(n, keep) <==> i < n && keep(i)
    ensures Ascending(OldestFirst(n, keep))
  {
    if n > 0 {
      OldestFirstSpec(n - 1, keep);
      var rest := OldestFirst(n - 1, keep);
      forall k | 0 <= k < |rest| ensures rest[k] < n - 1 {
        assert rest[k] in rest;
      }
    }
  }

  /** The two orders list the same rows, one the reverse of the other. */
  lemma {:induction false} NewestIsReversedOldest(n: nat, keep: nat -> bool)
    ensures |NewestFirst(n, keep)| == |OldestFirst(n, keep)|
    ensures forall i :: 0 <= i < |NewestFirst(n, keep)| ==>
      NewestFirst(n, keep)[i] == OldestFirst(n, keep)[|OldestFirst(n, keep)| - 1 - i]
  {
    if n > 0 {
      NewestIsReversedOldest(n - 1, keep);
    }
  }

  /** With nothing filtered out, the newest-first listing has every row. */
  lemma {:induction false} NewestFirstAll(n: nat, keep: nat -> bool)
    requires forall i: nat :: i < n ==> keep(i)
    ensures |NewestFirst(n, keep)| == n
  {
    if n > 0 {
      NewestFirstAll(n - 1, keep);
    }
  }

  /** `qs.filter(keep).order_by("-created_at")[:limit]`: every listed row is
      kept, newest first, and a kept row is missing only when the page is
      full of rows newer than it. */
  lemma NewestPage(n: nat, keep: nat -> bool, limit: nat)
    ensures var r := Take(NewestFirst(n, keep), limit);
      && |r| <= limit
      && (forall i :: i in r ==> i < n && keep(i))
      && Descending(r)
      && (forall i: nat :: i < n && keep(i) && i !in r ==>
            |r| == limit && forall j :: j in r ==> j > i)
  {
    var all := NewestFirst(n, keep);
    NewestFirstSpec(n, keep);
    var r := Take(all, limit);
    forall i: nat | i < n && keep(i) && i !in r
      ensures |r| == limit && forall j :: j in r ==> j > i
    {
      assert i in all;
      var p :| 0 <= p < |all| && all[p] == i;
      assert p >= |r|;
      forall j | j in r ensures j > i {
        var q :| 0 <= q < |r| && r[q] == j;
        assert all[q] == j;
      }
    }
  }

  /** `OldestFirst` reads `keep` only below `n`. */
  lemma {:induction false} OldestFirstFrame(n: nat, keep: nat -> bool, keep': nat -> bool)
    requires forall i: nat :: i < n ==> keep(i) == keep'(i)
    ensures OldestFirst(n, keep) == OldestFirst(n, keep')
  {
    if n > 0 {
      OldestFirstFrame(n - 1, keep, keep');
    }
  }
}
