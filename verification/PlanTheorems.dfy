/** What merging a revised brief into a stored plan guarantees. */
module PlanTheorems {
  import opened Wrappers
  import opened QueryStates
  import opened Plan

  // ---- What is added ----

  /** The rows are queued under consecutive ids. */
  ghost predicate FreshRows(added: seq<Query>, next: int) {
    forall t :: 0 <= t < |added| ==> added[t].id == next + t && added[t].status == Queued
  }

  lemma {:induction false} AddsShape(compiled: seq<Query>, isNew: seq<bool>, next: int, n: nat)
    requires n <= |compiled| == |isNew|
    ensures FreshRows(Adds(compiled, isNew, next, n), next)
  {
    if n > 0 { AddsShape(compiled, isNew, next, n - 1); }
  }

  lemma AddedShape(stored: seq<Query>, compiled: seq<Query>, n: nat)
    requires n <= |compiled|
    ensures FreshRows(Added(stored, compiled, n), NextId(stored))
  {
    AddsShape(compiled, NewOnes(stored, compiled), NextId(stored), n);
  }

  /** How far one count is over another. */
  function Over(m: nat, n: nat): nat { if m > n then m - n else 0 }

  /** Among the first `n` compiled queries, those of the key are new once as many as the store
      holds came before. */
  ghost predicate NewPast(compiled: seq<Query>, isNew: seq<bool>, k: Key, held: nat, n: nat)
    requires n <= |compiled| == |isNew|
  {
    n == 0 || (NewPast(compiled, isNew, k, held, n - 1)
               && (KeyOf(compiled[n - 1]) == k ==> (isNew[n - 1] <==> Count(compiled[..n - 1], k) >= held)))
  }

  lemma {:induction false} NewOnesPast(stored: seq<Query>, compiled: seq<Query>, isNew: seq<bool>, k: Key, n: nat)
    requires n <= |compiled| && isNew == NewOnes(stored, compiled)
    ensures NewPast(compiled, isNew, k, Count(stored, k), n)
  {
    if n > 0 {
      NewOnesPast(stored, compiled, isNew, k, n - 1);
      assert isNew[n - 1] == IsNew(stored, compiled, n - 1);
    }
  }

  lemma {:induction false} AddsCount(compiled: seq<Query>, isNew: seq<bool>, next: int, n: nat, k: Key, held: nat)
    requires n <= |compiled| == |isNew| && NewPast(compiled, isNew, k, held, n)
    ensures Count(Adds(compiled, isNew, next, n), k) == Over(Count(compiled[..n], k), held)
  {
    if n > 0 {
      AddsCount(compiled, isNew, next, n - 1, k, held);
      Longer(compiled, n - 1);
      OverStep(Adds(compiled, isNew, next, n - 1), compiled[..n - 1], compiled[n - 1], isNew[n - 1], next, held, k);
    }
  }

  lemma AddedCount(stored: seq<Query>, compiled: seq<Query>, n: nat, k: Key)
    requires n <= |compiled|
    ensures Count(Added(stored, compiled, n), k) == Over(Count(compiled[..n], k), Count(stored, k))
  {
    NewOnesPast(stored, compiled, NewOnes(stored, compiled), k, n);
    AddsCount(compiled, NewOnes(stored, compiled), NextId(stored), n, k, Count(stored, k));
  }

  lemma OverStep(before: seq<Query>, earlier: seq<Query>, c: Query, isNew: bool, next: int, held: nat, k: Key)
    requires KeyOf(c) == k ==> (isNew <==> Count(earlier, k) >= held)
    requires Count(before, k) == Over(Count(earlier, k), held)
    ensures Count(Join(before, c, isNew, next), k) == Over(Count(earlier + [c], k), held)
  {
    CountSnoc(before, c.(id := next + |before|, status := Queued));
    CountSnoc(earlier, c);
  }

  lemma Longer(qs: seq<Query>, n: nat)
    requires n < |qs|
    ensures qs[..n + 1] == qs[..n] + [qs[n]]
  {
  }

  lemma AddedCountAll(stored: seq<Query>, compiled: seq<Query>, k: Key)
    ensures Count(Added(stored, compiled, |compiled|), k) == Over(Count(compiled, k), Count(stored, k))
  {
    AddedCount(stored, compiled, |compiled|, k);
    assert compiled[..|compiled|] == compiled;
  }

  lemma {:induction false} AddsPrefix(compiled: seq<Query>, isNew: seq<bool>, next: int, n: nat, m: nat)
    requires n <= m <= |compiled| == |isNew|
    ensures Adds(compiled, isNew, next, n) <= Adds(compiled, isNew, next, m)
    decreases m
  {
    if n < m { AddsPrefix(compiled, isNew, next, n, m - 1); }
  }

  lemma AddedPrefix(stored: seq<Query>, compiled: seq<Query>, n: nat, m: nat)
    requires n <= m <= |compiled|
    ensures Added(stored, compiled, n) <= Added(stored, compiled, m)
  {
    AddsPrefix(compiled, NewOnes(stored, compiled), NextId(stored), n, m);
  }

  /** The plan is the stored rows, as far as keys and ids go, and the first `a` added ones. */
  ghost predicate Extends(p: seq<Query>, stored: seq<Query>, all: seq<Query>, a: nat) {
    && a <= |all| && |p| == |stored| + a
    && (forall i :: 0 <= i < |stored| ==> KeyOf(p[i]) == KeyOf(stored[i]) && p[i].id == stored[i].id)
    && (forall i :: |stored| <= i < |p| ==> p[i] == all[i - |stored|])
  }

  ghost predicate SameRows(a: seq<Query>, b: seq<Query>) {
    |a| == |b| && forall i :: 0 <= i < |a| ==> KeyOf(a[i]) == KeyOf(b[i]) && a[i].id == b[i].id
  }

  lemma Split(p: seq<Query>, stored: seq<Query>, all: seq<Query>, a: nat)
    requires Extends(p, stored, all, a)
    ensures p == p[..|stored|] + all[..a] && SameRows(p[..|stored|], stored)
  {
    var q := p[..|stored|] + all[..a];
    forall i | 0 <= i < |p| ensures p[i] == q[i] { }
  }

  lemma ExtendsLess(p: seq<Query>, stored: seq<Query>, all: seq<Query>, a: nat, b: nat)
    requires Extends(p, stored, all, a) && b <= a
    ensures Extends(p[..|stored| + b], stored, all, b)
  {
  }

  /** Where an appended row ranks among those of its key. */
  lemma RankAfter(p: seq<Query>, stored: seq<Query>, all: seq<Query>, a: nat, t: nat)
    requires Extends(p, stored, all, a) && t < a
    ensures Rank(p, |stored| + t) == Count(stored, KeyOf(all[t])) + Rank(all, t)
  {
    assert p[|stored| + t] == all[t];
    ExtendsLess(p, stored, all, a, t);
    ExtendsCount(p[..|stored| + t], stored, all, t, KeyOf(all[t]));
  }

  lemma ExtendsCount(p: seq<Query>, stored: seq<Query>, all: seq<Query>, a: nat, k: Key)
    requires Extends(p, stored, all, a)
    ensures Count(p, k) == Count(stored, k) + Count(all[..a], k)
  {
    Split(p, stored, all, a);
    CountAppend(p[..|stored|], all[..a], k);
    CountSameKeys(p[..|stored|], stored, k);
  }

  /** A row the merge appended, seen from the whole plan, is in the plan. */
  lemma AddedInPlan(p: seq<Query>, stored: seq<Query>, compiled: seq<Query>, all: seq<Query>, a: nat, t: nat)
    requires all == Added(stored, compiled, |compiled|) && Extends(p, stored, all, a) && t < a
    ensures InPlan(p, compiled, |stored| + t)
  {
    RankAfter(p, stored, all, a, t);
    AddedCountAll(stored, compiled, KeyOf(all[t]));
    RankBelowCount(all, t);
    assert p[|stored| + t] == all[t];
  }

  // ---- Ids ----

  lemma {:induction false} MaxIdBounds(qs: seq<Query>, n: nat)
    requires 0 < n <= |qs|
    ensures forall i :: 0 <= i < n ==> qs[i].id <= MaxId(qs, n)
  {
    if n > 1 { MaxIdBounds(qs, n - 1); }
  }

  lemma {:induction false} MaxIdSame(a: seq<Query>, b: seq<Query>, n: nat)
    requires 0 < n <= |a| && n <= |b| && forall i :: 0 <= i < n ==> a[i].id == b[i].id
    ensures MaxId(a, n) == MaxId(b, n)
  {
    if n > 1 { MaxIdSame(a, b, n - 1); }
  }

  lemma NextIdSame(a: seq<Query>, b: seq<Query>)
    requires |a| == |b| && forall i :: 0 <= i < |a| ==> a[i].id == b[i].id
    ensures NextId(a) == NextId(b)
  {
    if a != [] { MaxIdSame(a, b, |a|); }
  }

  ghost predicate DistinctIds(qs: seq<Query>) {
    forall i, j :: 0 <= i < j < |qs| ==> qs[i].id != qs[j].id
  }

  // ---- One merge ----

  lemma MergedRow(stored: seq<Query>, compiled: seq<Query>, lanes: Option<set<string>>, i: nat)
    requires i < |stored|
    ensures Merged(stored, compiled, lanes)[i] == MergeRow(stored[i], InPlan(stored, compiled, i), lanes)
    ensures KeyOf(Merged(stored, compiled, lanes)[i]) == KeyOf(stored[i])
  {
  }

  /** Who a query is, and what it has found: everything but its status and note. */
  function Identity(q: Query): Query { q.(status := Queued, notes := "") }

  lemma AddedRow(stored: seq<Query>, compiled: seq<Query>, lanes: Option<set<string>>, j: nat)
    requires |stored| <= j < |Merged(stored, compiled, lanes)|
    ensures j - |stored| < |Added(stored, compiled, |compiled|)|
    ensures var m := Merged(stored, compiled, lanes);
            && m[j] == Added(stored, compiled, |compiled|)[j - |stored|]
            && m[j].id == NextId(stored) + j - |stored| && m[j].status == Queued
  {
    Appended(Revised(stored, PlanRows(stored, compiled), lanes), Added(stored, compiled, |compiled|), j);
    AddedShape(stored, compiled, |compiled|);
  }

  lemma Appended(rows: seq<Query>, all: seq<Query>, j: nat)
    requires |rows| <= j < |rows + all|
    ensures (rows + all)[j] == all[j - |rows|]
  {
  }

  lemma RowKept(q: Query, inPlan: bool, lanes: Option<set<string>>)
    ensures var r := MergeRow(q, inPlan, lanes);
            && Identity(r) == Identity(q) && r.id == q.id && KeyOf(r) == KeyOf(q)
            && (q.status == Done || q.status == Errored ==> r == q)
            && (r.status == q.status || r.status == Skipped || r.status == Queued)
  {
  }

  lemma StoredIdsBelow(stored: seq<Query>, i: nat)
    requires i < |stored|
    ensures stored[i].id < NextId(stored)
  {
    MaxIdBounds(stored, |stored|);
  }

  /** No row is deleted or re-identified, and finished rows stay exactly as they were. */
  lemma MergeKeepsRows(stored: seq<Query>, compiled: seq<Query>, lanes: Option<set<string>>, i: nat)
    requires i < |stored|
    ensures var m := Merged(stored, compiled, lanes);
            && i < |m| && Identity(m[i]) == Identity(stored[i])
            && (stored[i].status == Done || stored[i].status == Errored ==> m[i] == stored[i])
            && (m[i].status == Done ==> stored[i].status == Done)
  {
    MergedRow(stored, compiled, lanes, i);
    RowKept(stored[i], InPlan(stored, compiled, i), lanes);
  }

  /** New rows are queued under ids no row of the plan carries, in order. */
  lemma MergeIdsFresh(stored: seq<Query>, compiled: seq<Query>, lanes: Option<set<string>>, i: nat, j: nat)
    requires i < j < |Merged(stored, compiled, lanes)| && |stored| <= j
    ensures var m := Merged(stored, compiled, lanes); m[i].id < m[j].id && m[j].status == Queued
  {
    AddedRow(stored, compiled, lanes, j);
    if i < |stored| {
      MergedRow(stored, compiled, lanes, i);
      RowKept(stored[i], InPlan(stored, compiled, i), lanes);
      StoredIdsBelow(stored, i);
    } else {
      AddedRow(stored, compiled, lanes, i);
    }
  }

  lemma MergeKeepsIdsDistinct(stored: seq<Query>, compiled: seq<Query>, lanes: Option<set<string>>)
    requires DistinctIds(stored)
    ensures DistinctIds(Merged(stored, compiled, lanes))
  {
    var m := Merged(stored, compiled, lanes);
    forall i, j | 0 <= i < j < |m| ensures m[i].id != m[j].id {
      if j < |stored| {
        MergeKeepsRows(stored, compiled, lanes, i);
        MergeKeepsRows(stored, compiled, lanes, j);
        assert Identity(m[i]).id == stored[i].id && Identity(m[j]).id == stored[j].id;
      } else {
        MergeIdsFresh(stored, compiled, lanes, i, j);
      }
    }
  }

  /** Ranks and plan membership read the keys only, so the merged plan has those of the
      stored one on the rows they share. */
  lemma PlanAgrees(a: seq<Query>, b: seq<Query>, compiled: seq<Query>, i: nat)
    requires i < |a| && i < |b| && forall j :: 0 <= j <= i ==> KeyOf(a[j]) == KeyOf(b[j])
    ensures InPlan(a, compiled, i) <==> InPlan(b, compiled, i)
  {
    RankSameKeys(a, b, i);
  }

  /** The brief decides what runs: every runnable row of the merged plan is in the plan, and
      every row in the plan is either as the store left it or queued again. */
  lemma MergeFollowsBrief(stored: seq<Query>, compiled: seq<Query>, lanes: Option<set<string>>, i: nat)
    requires i < |Merged(stored, compiled, lanes)|
    ensures var m := Merged(stored, compiled, lanes);
            && (Runnable(m[i].status) ==> InPlan(m, compiled, i))
            && (InPlan(m, compiled, i) ==> !(m[i].status == Skipped && Requeuable(m[i].notes)))
            && (i >= |stored| ==> InPlan(m, compiled, i))
  {
    var m := Merged(stored, compiled, lanes);
    if i < |stored| {
      MergedKeys(stored, compiled, lanes);
      PlanAgrees(stored, m, compiled, i);
      MergedRow(stored, compiled, lanes, i);
    } else {
      MergedExtends(stored, compiled, lanes, m, Added(stored, compiled, |compiled|));
      NewRowInPlan(m, stored, compiled, Added(stored, compiled, |compiled|), i);
      AddedRow(stored, compiled, lanes, i);
    }
  }

  lemma MergedKeys(stored: seq<Query>, compiled: seq<Query>, lanes: Option<set<string>>)
    ensures forall j :: 0 <= j < |stored| ==> KeyOf(Merged(stored, compiled, lanes)[j]) == KeyOf(stored[j])
  {
    forall j | 0 <= j < |stored| ensures KeyOf(Merged(stored, compiled, lanes)[j]) == KeyOf(stored[j]) {
      MergedRow(stored, compiled, lanes, j);
    }
  }

  lemma NewRowInPlan(m: seq<Query>, stored: seq<Query>, compiled: seq<Query>, all: seq<Query>, i: nat)
    requires all == Added(stored, compiled, |compiled|) && Extends(m, stored, all, |all|)
    requires |stored| <= i < |m|
    ensures InPlan(m, compiled, i)
  {
    AddedInPlan(m, stored, compiled, all, |all|, i - |stored|);
  }

  lemma MergedExtends(stored: seq<Query>, compiled: seq<Query>, lanes: Option<set<string>>, m: seq<Query>, all: seq<Query>)
    requires m == Merged(stored, compiled, lanes) && all == Added(stored, compiled, |compiled|)
    ensures Extends(m, stored, all, |all|)
  {
    RevisedRows(stored, PlanRows(stored, compiled), lanes);
    RowsExtend(Revised(stored, PlanRows(stored, compiled), lanes), stored, all);
  }

  lemma RevisedRows(stored: seq<Query>, matched: set<nat>, lanes: Option<set<string>>)
    ensures SameRows(Revised(stored, matched, lanes), stored)
  {
    forall i | 0 <= i < |stored|
      ensures var q := Revised(stored, matched, lanes)[i]; KeyOf(q) == KeyOf(stored[i]) && q.id == stored[i].id
    {
      RowKept(stored[i], i in matched, lanes);
    }
  }

  lemma RowsExtend(rows: seq<Query>, stored: seq<Query>, all: seq<Query>)
    requires SameRows(rows, stored)
    ensures Extends(rows + all, stored, all, |all|)
  {
  }

  /** Every compiled query has a row of its key and rank in the merged plan, so a key the
      brief compiles n times is covered n times. */
  lemma MergeCovers(stored: seq<Query>, compiled: seq<Query>, lanes: Option<set<string>>, j: nat)
    returns (i: nat)
    requires j < |compiled|
    ensures var m := Merged(stored, compiled, lanes);
            && i < |m| && KeyOf(m[i]) == KeyOf(compiled[j]) && Rank(m, i) == Rank(compiled, j)
            && InPlan(m, compiled, i)
  {
    var m, all := Merged(stored, compiled, lanes), Added(stored, compiled, |compiled|);
    MergedExtends(stored, compiled, lanes, m, all);
    EnoughRows(m, stored, compiled, all, KeyOf(compiled[j]));
    RankBelowCount(compiled, j);
    i := RankReached(m, KeyOf(compiled[j]), Rank(compiled, j));
  }

  lemma EnoughRows(m: seq<Query>, stored: seq<Query>, compiled: seq<Query>, all: seq<Query>, k: Key)
    requires all == Added(stored, compiled, |compiled|) && Extends(m, stored, all, |all|)
    ensures Count(m, k) >= Count(compiled, k)
  {
    ExtendsCount(m, stored, all, |all|, k);
    AddedCountAll(stored, compiled, k);
    assert all[..|all|] == all;
  }

  // ---- Merging again ----

  /** The plan as the store holds it when the sync after a merge was cut after `j` rows. */
  function Partial(stored: seq<Query>, merged: seq<Query>, j: nat): seq<Query>
    requires |stored| <= |merged| && j <= |merged|
  {
    if j <= |stored| then merged[..j] + stored[j..] else merged[..j]
  }

  lemma MergeRowTwice(q: Query, inPlan: bool, lanes: Option<set<string>>)
    ensures MergeRow(MergeRow(q, inPlan, lanes), inPlan, lanes) == MergeRow(q, inPlan, lanes)
    ensures KeyOf(MergeRow(q, inPlan, lanes)) == KeyOf(q)
  {
  }

  /** A plan whose first rows are the stored ones and whose others are the first `a` added. */
  ghost predicate HalfMerged(p: seq<Query>, stored: seq<Query>, compiled: seq<Query>, a: nat) {
    Extends(p, stored, Added(stored, compiled, |compiled|), a)
  }

  /** Appending rows under the next ids moves the next id along. */
  lemma {:induction false} MaxIdAlong(p: seq<Query>, stored: seq<Query>, all: seq<Query>, a: nat, b: nat)
    requires Extends(p, stored, all, a) && FreshRows(all, NextId(stored)) && b <= a && 0 < |stored| + b
    ensures MaxId(p, |stored| + b) + 1 == NextId(stored) + b
  {
    if b == 0 {
      MaxIdSame(p, stored, |stored|);
    } else {
      assert p[|stored| + (b - 1)] == all[b - 1];
      if |stored| + b > 1 { MaxIdAlong(p, stored, all, a, b - 1); }
    }
  }

  lemma ExtendsNextId(p: seq<Query>, stored: seq<Query>, all: seq<Query>, a: nat)
    requires Extends(p, stored, all, a) && FreshRows(all, NextId(stored))
    ensures NextId(p) == NextId(stored) + a
  {
    if p != [] { MaxIdAlong(p, stored, all, a, a); }
  }

  lemma HalfMergedNextId(p: seq<Query>, stored: seq<Query>, compiled: seq<Query>, a: nat)
    requires HalfMerged(p, stored, compiled, a)
    ensures NextId(p) == NextId(stored) + a
  {
    AddedShape(stored, compiled, |compiled|);
    ExtendsNextId(p, stored, Added(stored, compiled, |compiled|), a);
  }

  /** The n-th compiled query is still new to a half-merged plan exactly when it was new
      and has not been appended yet. */
  lemma StillNew(p: seq<Query>, stored: seq<Query>, compiled: seq<Query>, a: nat, n: nat)
    requires HalfMerged(p, stored, compiled, a) && n < |compiled|
    ensures IsNew(p, compiled, n) <==> IsNew(stored, compiled, n) && |Added(stored, compiled, n)| >= a
  {
    var all, upto, k := Added(stored, compiled, |compiled|), Added(stored, compiled, n), KeyOf(compiled[n]);
    ExtendsCount(p, stored, all, a, k);
    AddedCount(stored, compiled, n, k);
    AddedUpTo(stored, compiled, n, upto, all);
    NewAgain(upto, compiled[n].(id := NextId(stored) + |upto|, status := Queued), all, a, k,
             Count(stored, k), Count(compiled[..n], k), Count(p, k));
  }

  lemma AddedUpTo(stored: seq<Query>, compiled: seq<Query>, n: nat, upto: seq<Query>, all: seq<Query>)
    requires n < |compiled| && upto == Added(stored, compiled, n) && all == Added(stored, compiled, |compiled|)
    ensures upto <= all
    ensures IsNew(stored, compiled, n) ==> upto + [compiled[n].(id := NextId(stored) + |upto|, status := Queued)] <= all
  {
    AddedPrefix(stored, compiled, n, |compiled|);
    AddedPrefix(stored, compiled, n + 1, |compiled|);
    AddedStep(stored, compiled, n);
  }

  lemma NewAgain(upto: seq<Query>, q: Query, all: seq<Query>, a: nat, k: Key, held: nat, asked: nat, holds: nat)
    requires upto <= all && a <= |all| && KeyOf(q) == k && (asked >= held ==> upto + [q] <= all)
    requires Count(upto, k) == Over(asked, held) && holds == held + Count(all[..a], k)
    ensures asked >= holds <==> asked >= held && |upto| >= a
  {
    if |upto| >= a {
      TakeTwice(upto, all, a);
      CountPrefix(upto, a, k);
    } else if asked >= held {
      CountSnoc(upto, q);
      CountPrefix(all[..a], |upto| + 1, k);
      assert all[..a][..|upto| + 1] == upto + [q];
    }
  }

  lemma TakeTwice(xs: seq<Query>, ys: seq<Query>, n: nat)
    requires xs <= ys && n <= |xs|
    ensures xs[..n] == ys[..n] && (n == |xs| ==> xs[..n] == xs)
  {
  }

  /** Merging the same brief into a half-merged plan adds exactly the other new rows, under
      the ids they were going to get. */
  lemma AddedRest(p: seq<Query>, stored: seq<Query>, compiled: seq<Query>, a: nat, all: seq<Query>)
    requires all == Added(stored, compiled, |compiled|) && Extends(p, stored, all, a)
    ensures Added(p, compiled, |compiled|) == From(all, a)
  {
    HalfMergedNextId(p, stored, compiled, a);
    AddsAgain(p, stored, compiled, a, NewOnes(stored, compiled), NewOnes(p, compiled), NextId(stored));
  }

  lemma AddsAgain(p: seq<Query>, stored: seq<Query>, compiled: seq<Query>, a: nat, isNew: seq<bool>, still: seq<bool>, next: int)
    requires HalfMerged(p, stored, compiled, a)
    requires isNew == NewOnes(stored, compiled) && still == NewOnes(p, compiled) && next == NextId(stored)
    ensures Adds(compiled, still, next + a, |compiled|) == From(Adds(compiled, isNew, next, |compiled|), a)
  {
    StillFlags(p, stored, compiled, a, isNew, still, next);
    AddsRest(compiled, isNew, still, next, a, |compiled|);
  }

  lemma StillFlags(p: seq<Query>, stored: seq<Query>, compiled: seq<Query>, a: nat, isNew: seq<bool>, still: seq<bool>, next: int)
    requires HalfMerged(p, stored, compiled, a)
    requires isNew == NewOnes(stored, compiled) && still == NewOnes(p, compiled) && next == NextId(stored)
    ensures forall j: nat :: j < |compiled| ==> (still[j] <==> isNew[j] && |Adds(compiled, isNew, next, j)| >= a)
  {
    forall j: nat | j < |compiled| ensures still[j] <==> isNew[j] && |Adds(compiled, isNew, next, j)| >= a {
      StillNew(p, stored, compiled, a, j);
    }
  }

  lemma {:induction false} AddsRest(compiled: seq<Query>, isNew: seq<bool>, still: seq<bool>, next: int, a: nat, n: nat)
    requires n <= |compiled| == |isNew| == |still|
    requires forall j: nat :: j < |compiled| ==> (still[j] <==> isNew[j] && |Adds(compiled, isNew, next, j)| >= a)
    ensures Adds(compiled, still, next + a, n) == From(Adds(compiled, isNew, next, n), a)
  {
    if n > 0 {
      AddsRest(compiled, isNew, still, next, a, n - 1);
      RestStep(Adds(compiled, isNew, next, n - 1), a, compiled[n - 1], isNew[n - 1], next);
    }
  }

  lemma RestStep(upto: seq<Query>, a: nat, c: Query, isNew: bool, next: int)
    ensures From(Join(upto, c, isNew, next), a) == Join(From(upto, a), c, isNew && |upto| >= a, next + a)
  {
    FromSnoc(upto, a, c.(id := next + |upto|, status := Queued));
  }

  function From(xs: seq<Query>, a: nat): seq<Query> { if |xs| <= a then [] else xs[a..] }

  lemma FromSnoc(xs: seq<Query>, a: nat, x: Query)
    ensures From(xs + [x], a) == if |xs| >= a then From(xs, a) + [x] else []
    ensures |xs| >= a ==> |From(xs, a)| == |xs| - a
  {
  }

  /** A cut sync leaves a half-merged plan. */
  lemma PartialExtends(stored: seq<Query>, m: seq<Query>, all: seq<Query>, j: nat)
    requires Extends(m, stored, all, |all|) && j <= |m|
    ensures Extends(Partial(stored, m, j), stored, all, if j <= |stored| then 0 else j - |stored|)
    ensures forall i :: 0 <= i < |stored| ==> Partial(stored, m, j)[i] == stored[i] || Partial(stored, m, j)[i] == m[i]
  {
  }

  lemma StoredRowAgain(p: seq<Query>, stored: seq<Query>, compiled: seq<Query>, lanes: Option<set<string>>, a: nat, i: nat)
    requires HalfMerged(p, stored, compiled, a) && i < |stored|
    requires p[i] == stored[i] || p[i] == Merged(stored, compiled, lanes)[i]
    ensures Merged(p, compiled, lanes)[i] == Merged(stored, compiled, lanes)[i]
  {
    PlanAgrees(p, stored, compiled, i);
    MergedRow(p, compiled, lanes, i);
    MergedRow(stored, compiled, lanes, i);
    MergeRowTwice(stored[i], InPlan(stored, compiled, i), lanes);
  }

  lemma AddedRowAgain(p: seq<Query>, stored: seq<Query>, compiled: seq<Query>, lanes: Option<set<string>>,
                      all: seq<Query>, a: nat, t: nat)
    requires all == Added(stored, compiled, |compiled|) && Extends(p, stored, all, a) && t < a
    ensures Merged(p, compiled, lanes)[|stored| + t] == all[t]
  {
    AddedInPlan(p, stored, compiled, all, a, t);
    AddedShape(stored, compiled, |compiled|);
    assert p[|stored| + t] == all[t];
    MergedRow(p, compiled, lanes, |stored| + t);
  }

  /** A merge is crash-convergent: from whatever prefix of the revised rows the store holds
      when the sync was cut, merging the same brief again arrives at the same plan. */
  lemma MergeConverges(stored: seq<Query>, compiled: seq<Query>, lanes: Option<set<string>>, j: nat)
    requires j <= |Merged(stored, compiled, lanes)|
    ensures var m := Merged(stored, compiled, lanes);
            Merged(Partial(stored, m, j), compiled, lanes) == m
  {
    var m, all := Merged(stored, compiled, lanes), Added(stored, compiled, |compiled|);
    MergedExtends(stored, compiled, lanes, m, all);
    PartialExtends(stored, m, all, j);
    Converges(Partial(stored, m, j), stored, compiled, lanes, if j <= |stored| then 0 else j - |stored|, m, all);
  }

  lemma Converges(p: seq<Query>, stored: seq<Query>, compiled: seq<Query>, lanes: Option<set<string>>, a: nat,
                  m: seq<Query>, all: seq<Query>)
    requires m == Merged(stored, compiled, lanes) && all == Added(stored, compiled, |compiled|)
    requires Extends(m, stored, all, |all|) && Extends(p, stored, all, a)
    requires forall i :: 0 <= i < |stored| ==> p[i] == stored[i] || p[i] == m[i]
    ensures Merged(p, compiled, lanes) == m
  {
    FirstRowsAgain(p, stored, compiled, lanes, a, m, all, Merged(p, compiled, lanes));
    RestAgain(p, stored, compiled, lanes, a, all, Merged(p, compiled, lanes));
    SameEverywhere(p, stored, a, m, Merged(p, compiled, lanes), all, From(all, a));
  }

  lemma FirstRowsAgain(p: seq<Query>, stored: seq<Query>, compiled: seq<Query>, lanes: Option<set<string>>, a: nat,
                       m: seq<Query>, all: seq<Query>, again: seq<Query>)
    requires m == Merged(stored, compiled, lanes) && all == Added(stored, compiled, |compiled|)
    requires Extends(p, stored, all, a) && again == Merged(p, compiled, lanes)
    requires forall i :: 0 <= i < |stored| ==> p[i] == stored[i] || p[i] == m[i]
    ensures forall i: nat :: i < |stored| ==> again[i] == m[i]
    ensures forall t: nat :: t < a ==> again[|stored| + t] == all[t]
  {
    forall i: nat | i < |stored| ensures again[i] == m[i] {
      StoredRowAgain(p, stored, compiled, lanes, a, i);
    }
    forall t: nat | t < a ensures again[|stored| + t] == all[t] {
      AddedRowAgain(p, stored, compiled, lanes, all, a, t);
    }
  }

  lemma RestAgain(p: seq<Query>, stored: seq<Query>, compiled: seq<Query>, lanes: Option<set<string>>, a: nat,
                  all: seq<Query>, again: seq<Query>)
    requires all == Added(stored, compiled, |compiled|) && Extends(p, stored, all, a) && again == Merged(p, compiled, lanes)
    ensures Extends(again, p, From(all, a), |From(all, a)|)
  {
    AddedRest(p, stored, compiled, a, all);
    MergedExtends(p, compiled, lanes, again, From(all, a));
  }

  lemma SameEverywhere(p: seq<Query>, stored: seq<Query>, a: nat, m: seq<Query>, again: seq<Query>, all: seq<Query>, rest: seq<Query>)
    requires Extends(m, stored, all, |all|) && Extends(again, p, rest, |rest|)
    requires a <= |all| && |p| == |stored| + a && rest == From(all, a)
    requires forall i :: 0 <= i < |stored| ==> again[i] == m[i]
    requires forall t: nat :: t < a ==> again[|stored| + t] == all[t]
    ensures again == m
  {
    forall i | 0 <= i < |m| ensures again[i] == m[i] {
      if |stored| <= i < |p| {
        assert again[|stored| + (i - |stored|)] == all[i - |stored|];
      } else if i >= |p| {
        assert again[i] == rest[i - |p|];
      }
    }
  }

  /** Merging twice is merging once, whatever the multiplicities and the statuses, and the
      second merge reports no change. */
  lemma MergeIdempotent(stored: seq<Query>, compiled: seq<Query>, lanes: Option<set<string>>)
    ensures var m := Merged(stored, compiled, lanes); Merged(m, compiled, lanes) == m
  {
    var m := Merged(stored, compiled, lanes);
    MergeConverges(stored, compiled, lanes, |m|);
    assert Partial(stored, m, |m|) == m by {
      if |m| == |stored| { assert m[..|m|] + stored[|m|..] == m; }
    }
  }

  // ---- Undoing an edit ----

  /** Undoing an edit.  From a plan settled on brief 1, merging brief 2 and then brief 1
      again leaves every row as it was, but for the note of a row that was queued or retired,
      and an interrupted row that comes back queued; every row brief 2 added is retired. */
  lemma UndoRestores(stored: seq<Query>, c1: seq<Query>, l1: Option<set<string>>,
                     c2: seq<Query>, l2: Option<set<string>>, i: nat)
    requires Merged(stored, c1, l1) == stored
    requires i < |Merged(Merged(stored, c2, l2), c1, l1)|
    ensures var back := Merged(Merged(stored, c2, l2), c1, l1);
            && |back| >= |stored|
            && (i < |stored| ==>
                  && Identity(back[i]) == Identity(stored[i])
                  && (stored[i].status == Queued ==> back[i].status == Queued)
                  && (stored[i].status == InProgress ==> Runnable(back[i].status))
                  && (stored[i].status != InProgress ==> back[i].status == stored[i].status)
                  && (back[i].notes == stored[i].notes || Runnable(stored[i].status) || Requeuable(stored[i].notes)))
            && (i >= |stored| ==> !Runnable(back[i].status))
  {
    var there := Merged(stored, c2, l2);
    if i < |stored| {
      MergedKeys(stored, c2, l2);
      PlanAgrees(there, stored, c1, i);
      MergedRow(stored, c1, l1, i);
      MergedRow(stored, c2, l2, i);
      MergedRow(there, c1, l1, i);
      ThereAndBack(stored[i], InPlan(stored, c1, i), l1, InPlan(stored, c2, i), l2);
    } else {
      MergedKeys(stored, c2, l2);
      NothingNew(stored, there, c1, l1);
      OutsidePlan(stored, there, c1, i);
      MergedRow(there, c1, l1, i);
    }
  }

  /** One row through an edit and its undoing, when the first brief leaves it alone. */
  lemma ThereAndBack(q: Query, in1: bool, l1: Option<set<string>>, in2: bool, l2: Option<set<string>>)
    requires MergeRow(q, in1, l1) == q
    ensures var back := MergeRow(MergeRow(q, in2, l2), in1, l1);
            && Identity(back) == Identity(q)
            && (q.status == Queued ==> back.status == Queued)
            && (q.status == InProgress ==> Runnable(back.status))
            && (q.status != InProgress ==> back.status == q.status)
            && (back.notes == q.notes || Runnable(q.status) || Requeuable(q.notes))
  {
  }

  lemma OutsidePlan(stored: seq<Query>, grown: seq<Query>, compiled: seq<Query>, i: nat)
    requires Added(stored, compiled, |compiled|) == [] && |stored| <= i < |grown|
    requires forall j :: 0 <= j < |stored| ==> KeyOf(grown[j]) == KeyOf(stored[j])
    ensures !InPlan(grown, compiled, i)
  {
    var k := KeyOf(grown[i]);
    NoneMissing(stored, compiled, k);
    CountSameKeys(grown[..|stored|], stored, k);
    assert grown[..i][..|stored|] == grown[..|stored|];
    CountPrefix(grown[..i], |stored|, k);
  }

  /** A plan the brief adds nothing to holds at least as many rows of every key. */
  lemma NoneMissing(stored: seq<Query>, compiled: seq<Query>, k: Key)
    requires Added(stored, compiled, |compiled|) == []
    ensures Count(compiled, k) <= Count(stored, k)
  {
    AddedCount(stored, compiled, |compiled|, k);
    assert compiled[..|compiled|] == compiled;
  }

  lemma NothingNew(stored: seq<Query>, grown: seq<Query>, compiled: seq<Query>, lanes: Option<set<string>>)
    requires Merged(stored, compiled, lanes) == stored
    requires |grown| >= |stored| && forall i :: 0 <= i < |stored| ==> KeyOf(grown[i]) == KeyOf(stored[i])
    ensures Added(stored, compiled, |compiled|) == [] && |Merged(grown, compiled, lanes)| == |grown|
  {
    assert |Merged(stored, compiled, lanes)| == |stored| + |Added(stored, compiled, |compiled|)|;
    var more := Added(grown, compiled, |compiled|);
    if more != [] {
      var k := KeyOf(more[|more| - 1]);
      assert Count(more, k) > 0;
      AddedCount(grown, compiled, |compiled|, k);
      assert compiled[..|compiled|] == compiled;
      NoneMissing(stored, compiled, k);
      CountSameKeys(grown[..|stored|], stored, k);
      CountPrefix(grown, |stored|, k);
      assert false;
    }
  }
}
