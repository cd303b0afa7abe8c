/** Reconciling a stored query plan with the plan a revised brief compiles to. */
module Plan {
  import opened Wrappers
  import opened QueryStates

  const LANE_DROPPED := "lane no longer in brief"
  const PLAN_DROPPED := "no longer in the brief's plan"

  predicate Requeuable(note: string) { note == LANE_DROPPED || note == PLAN_DROPPED }

  datatype Query = Query(id: int, lane: string, firm: string, archetypeId: string, text: string,
                         status: QueryStatus, notes: string, results: nat, discovered: nat)

  /** The family a query's numbers are reported under: its stable identity with the lane. */
  function CoverageKey(q: Query): string {
    if q.lane == "archetype" && q.archetypeId != "" then "archetype:" + q.archetypeId else q.firm
  }

  type Key = (string, string)

  function KeyOf(q: Query): Key { (q.lane, CoverageKey(q)) }

  // ---- Matching by key, with multiplicity ----

  /** How many queries carry the key. */
  function Count(qs: seq<Query>, k: Key): nat {
    if qs == [] then 0
    else Count(qs[..|qs| - 1], k) + if KeyOf(qs[|qs| - 1]) == k then 1 else 0
  }

  /** How many queries before the i-th carry its key. */
  function Rank(qs: seq<Query>, i: nat): nat
    requires i < |qs|
  {
    Count(qs[..i], KeyOf(qs[i]))
  }

  /** A stored row is in the plan when the brief still compiles enough queries of its key. */
  predicate InPlan(stored: seq<Query>, compiled: seq<Query>, i: nat)
    requires i < |stored|
  {
    Rank(stored, i) < Count(compiled, KeyOf(stored[i]))
  }

  /** A compiled query is new when the store has too few rows of its key. */
  predicate IsNew(stored: seq<Query>, compiled: seq<Query>, j: nat)
    requires j < |compiled|
  {
    Rank(compiled, j) >= Count(stored, KeyOf(compiled[j]))
  }

  // ---- What the merge makes of a row, and of the plan ----

  function MergeRow(q: Query, inPlan: bool, lanes: Option<set<string>>): Query {
    if inPlan then
      if q.status == Skipped && Requeuable(q.notes) then q.(status := Queued, notes := "") else q
    else if Runnable(q.status) then
      q.(status := Skipped,
         notes := if lanes.Some? && q.lane !in lanes.value then LANE_DROPPED else PLAN_DROPPED)
    else q
  }

  /** The largest id of the first `n` rows. */
  function MaxId(qs: seq<Query>, n: nat): int
    requires 0 < n <= |qs|
  {
    if n == 1 then qs[0].id
    else
      var rest := MaxId(qs, n - 1);
      if qs[n - 1].id > rest then qs[n - 1].id else rest
  }

  function NextId(stored: seq<Query>): int { if stored == [] then 1 else MaxId(stored, |stored|) + 1 }

  function NewOnes(stored: seq<Query>, compiled: seq<Query>): seq<bool> {
    seq(|compiled|, j requires 0 <= j < |compiled| => IsNew(stored, compiled, j))
  }

  /** One more compiled query: a new one joins the added rows, queued under the next id. */
  function Join(added: seq<Query>, q: Query, isNew: bool, next: int): seq<Query> {
    if isNew then added + [q.(id := next + |added|, status := Queued)] else added
  }

  function Adds(compiled: seq<Query>, isNew: seq<bool>, next: int, n: nat): seq<Query>
    requires n <= |compiled| == |isNew|
  {
    if n == 0 then [] else Join(Adds(compiled, isNew, next, n - 1), compiled[n - 1], isNew[n - 1], next)
  }

  /** The new queries among the first `n` compiled ones, queued under fresh ids in order. */
  function Added(stored: seq<Query>, compiled: seq<Query>, n: nat): seq<Query>
    requires n <= |compiled|
  {
    Adds(compiled, NewOnes(stored, compiled), NextId(stored), n)
  }

  /** The positions of the stored rows the compiled plan still has. */
  function PlanRows(stored: seq<Query>, compiled: seq<Query>): set<nat> {
    set i | 0 <= i < |stored| && InPlan(stored, compiled, i)
  }

  function Revised(stored: seq<Query>, matched: set<nat>, lanes: Option<set<string>>): seq<Query> {
    seq(|stored|, i requires 0 <= i < |stored| => MergeRow(stored[i], i in matched, lanes))
  }

  function Merged(stored: seq<Query>, compiled: seq<Query>, lanes: Option<set<string>>): (r: seq<Query>)
    ensures |r| >= |stored|
  {
    Revised(stored, PlanRows(stored, compiled), lanes) + Added(stored, compiled, |compiled|)
  }

  // ---- Counting lemmas ----

  lemma {:induction false} CountAppend(a: seq<Query>, b: seq<Query>, k: Key)
    ensures Count(a + b, k) == Count(a, k) + Count(b, k)
  {
    if b == [] {
      assert a + b == a;
    } else {
      var n := |b| - 1;
      CountAppend(a, b[..n], k);
      assert (a + b)[..|a + b| - 1] == a + b[..n];
    }
  }

  lemma CountPrefix(qs: seq<Query>, n: nat, k: Key)
    requires n <= |qs|
    ensures Count(qs[..n], k) <= Count(qs, k)
  {
    assert qs == qs[..n] + qs[n..];
    CountAppend(qs[..n], qs[n..], k);
  }

  /** Rows that agree on their keys agree on every count and rank. */
  lemma {:induction false} CountSameKeys(a: seq<Query>, b: seq<Query>, k: Key)
    requires |a| == |b| && forall i :: 0 <= i < |a| ==> KeyOf(a[i]) == KeyOf(b[i])
    ensures Count(a, k) == Count(b, k)
  {
    if a != [] {
      CountSameKeys(a[..|a| - 1], b[..|b| - 1], k);
    }
  }

  lemma RankSameKeys(a: seq<Query>, b: seq<Query>, i: nat)
    requires i < |a| && i < |b| && forall j :: 0 <= j <= i ==> KeyOf(a[j]) == KeyOf(b[j])
    ensures Rank(a, i) == Rank(b, i)
  {
    CountSameKeys(a[..i], b[..i], KeyOf(a[i]));
  }

  /** The i-th row's rank is below its key's count. */
  lemma RankBelowCount(qs: seq<Query>, i: nat)
    requires i < |qs|
    ensures Rank(qs, i) < Count(qs, KeyOf(qs[i]))
  {
    assert qs[..i + 1][..i] == qs[..i];
    CountPrefix(qs, i + 1, KeyOf(qs[i]));
  }

  /** Every rank below a key's count is some row's. */
  lemma {:induction false} RankReached(qs: seq<Query>, k: Key, r: nat) returns (i: nat)
    requires r < Count(qs, k)
    ensures i < |qs| && KeyOf(qs[i]) == k && Rank(qs, i) == r
  {
    var n := |qs| - 1;
    if r < Count(qs[..n], k) {
      i := RankReached(qs[..n], k, r);
      assert qs[..n][..i] == qs[..i];
    } else {
      i := n;
    }
  }

  /** Within one key, position order is rank order. */
  lemma RankOrder(qs: seq<Query>, i: nat, j: nat)
    requires i < j < |qs| && KeyOf(qs[i]) == KeyOf(qs[j])
    ensures Rank(qs, i) < Rank(qs, j)
  {
    RankBelowCount(qs[..j], i);
    assert qs[..j][..i] == qs[..i];
  }

  // ---- The merge, in place ----

  datatype PlanMerge = PlanMerge(added: seq<Query>, skipped: seq<Query>, dropped: seq<Query>, requeued: seq<Query>)
  {
    predicate Changed() { added != [] || skipped != [] || dropped != [] || requeued != [] }
  }

  datatype Change = Keep | Requeue | DropLane | DropPlan

  function ChangeOf(q: Query, inPlan: bool, lanes: Option<set<string>>): Change {
    if inPlan then (if q.status == Skipped && Requeuable(q.notes) then Requeue else Keep)
    else if Runnable(q.status) then (if lanes.Some? && q.lane !in lanes.value then DropLane else DropPlan)
    else Keep
  }

  /** What becomes of a stored row.  In the plan, one a merge retired comes back; out of it, one
      that could run is retired, under the note that tells a dropped lane from a dropped query,
      and so reported; any other row stays as it is. */
  lemma RowByStatus(q: Query, inPlan: bool, lanes: Option<set<string>>)
    ensures var taken := inPlan && q.status == Skipped
                         && (q.notes == "lane no longer in brief" || q.notes == "no longer in the brief's plan");
            var retired := !inPlan && (q.status == Queued || q.status == InProgress);
            var laneGone := lanes.Some? && q.lane !in lanes.value;
            && MergeRow(q, inPlan, lanes) ==
                 (if taken then q.(status := Queued, notes := "")
                  else if retired then
                    q.(status := Skipped, notes := if laneGone then "lane no longer in brief" else "no longer in the brief's plan")
                  else q)
            && ChangeOf(q, inPlan, lanes) ==
                 if taken then Requeue else if retired then (if laneGone then DropLane else DropPlan) else Keep
  {
  }

  /** The revised rows among the first `n` that underwent one kind of change. */
  function Changes(stored: seq<Query>, matched: set<nat>, lanes: Option<set<string>>, n: nat, c: Change): seq<Query>
    requires n <= |stored|
  {
    if n == 0 then []
    else
      Changes(stored, matched, lanes, n - 1, c)
      + if ChangeOf(stored[n - 1], n - 1 in matched, lanes) == c
        then [MergeRow(stored[n - 1], n - 1 in matched, lanes)] else []
  }

  /** A report list names the rows that underwent its change, as they are now, in plan order. */
  lemma {:induction false} ChangesAt(stored: seq<Query>, matched: set<nat>, lanes: Option<set<string>>, n: nat, c: Change)
    returns (at: seq<nat>)
    requires n <= |stored|
    ensures var rows := Changes(stored, matched, lanes, n, c);
            && |at| == |rows|
            && (forall m :: 0 <= m < |at| ==>
                  at[m] < n && ChangeOf(stored[at[m]], at[m] in matched, lanes) == c
                  && rows[m] == MergeRow(stored[at[m]], at[m] in matched, lanes))
    ensures forall m, m' :: 0 <= m < m' < |at| ==> at[m] < at[m']
    ensures forall i: nat :: i < n && ChangeOf(stored[i], i in matched, lanes) == c ==> i in at
  {
    at := [];
    if n > 0 {
      at := ChangesAt(stored, matched, lanes, n - 1, c);
      if ChangeOf(stored[n - 1], n - 1 in matched, lanes) == c { at := at + [n - 1]; }
    }
  }

  function Note(noted: PlanMerge, change: Change, q: Query): PlanMerge {
    match change
    case Requeue => noted.(requeued := noted.requeued + [q])
    case DropLane => noted.(skipped := noted.skipped + [q])
    case DropPlan => noted.(dropped := noted.dropped + [q])
    case Keep => noted
  }

  /** What revising the first `n` rows is reported to have done. */
  function Noted(stored: seq<Query>, matched: set<nat>, lanes: Option<set<string>>, n: nat): (noted: PlanMerge)
    requires n <= |stored|
    ensures noted == PlanMerge([], Changes(stored, matched, lanes, n, DropLane), Changes(stored, matched, lanes, n, DropPlan),
                               Changes(stored, matched, lanes, n, Requeue))
  {
    if n == 0 then PlanMerge([], [], [], [])
    else Note(Noted(stored, matched, lanes, n - 1), ChangeOf(stored[n - 1], n - 1 in matched, lanes),
              MergeRow(stored[n - 1], n - 1 in matched, lanes))
  }

  lemma {:induction false} NoChanges(stored: seq<Query>, matched: set<nat>, lanes: Option<set<string>>, n: nat)
    requires n <= |stored|
    requires Changes(stored, matched, lanes, n, DropLane) == []
    requires Changes(stored, matched, lanes, n, DropPlan) == []
    requires Changes(stored, matched, lanes, n, Requeue) == []
    ensures forall i :: 0 <= i < n ==> MergeRow(stored[i], i in matched, lanes) == stored[i]
  {
    if n > 0 {
      NoChanges(stored, matched, lanes, n - 1);
      var c := ChangeOf(stored[n - 1], n - 1 in matched, lanes);
      assert c != Keep ==> |Changes(stored, matched, lanes, n, c)| > 0;
    }
  }

  lemma {:induction false} SomeChange(stored: seq<Query>, matched: set<nat>, lanes: Option<set<string>>, n: nat, c: Change)
    requires n <= |stored| && c != Keep && Changes(stored, matched, lanes, n, c) != []
    ensures exists i :: 0 <= i < n && MergeRow(stored[i], i in matched, lanes) != stored[i]
  {
    var i := n - 1;
    if ChangeOf(stored[i], i in matched, lanes) == c {
      assert MergeRow(stored[i], i in matched, lanes) != stored[i];
    } else {
      SomeChange(stored, matched, lanes, n - 1, c);
    }
  }

  /** The stored positions a key's bucket still holds after its first `used` were popped. */
  ghost predicate BucketOk(stored: seq<Query>, k: Key, used: nat, bucket: seq<nat>) {
    && |bucket| == (if used < Count(stored, k) then Count(stored, k) - used else 0)
    && forall r :: 0 <= r < |bucket| ==>
         bucket[r] < |stored| && KeyOf(stored[bucket[r]]) == k && Rank(stored, bucket[r]) == used + r
  }

  class Progress {
    var queries: seq<Query>

    /** Group the stored rows by key, in order. */
    method Buckets() returns (byKey: map<Key, seq<nat>>)
      ensures forall k :: k in byKey <==> Count(queries, k) > 0
      ensures forall k :: k in byKey ==> BucketOk(queries, k, 0, byKey[k])
    {
      byKey := map[];
      var n := 0;
      while n < |queries|
        invariant 0 <= n <= |queries|
        invariant forall k :: k in byKey <==> Count(queries[..n], k) > 0
        invariant forall k :: k in byKey ==> BucketOk(queries[..n], k, 0, byKey[k])
      {
        var k := KeyOf(queries[n]);
        var bucket := if k in byKey then byKey[k] else [];
        GrowBucket(queries, n, bucket);
        forall j | j in byKey && j != k ensures BucketOk(queries[..n + 1], j, 0, byKey[j]) {
          KeepBucket(queries, n, j, byKey[j]);
        }
        assert queries[..n + 1][..n] == queries[..n];
        byKey := byKey[k := bucket + [n]];
        n := n + 1;
      }
      assert queries[..n] == queries;
    }

    /** `merge_plan`: pop a stored match for every compiled query, append what found none,
        then requeue or retire the stored rows. */
    method MergePlan(compiled: Option<seq<Query>>, lanes: Option<set<string>>) returns (merge: PlanMerge)
      modifies this
      ensures compiled.None? ==> queries == old(queries) && !merge.Changed()
      ensures compiled.Some? ==>
                && queries == Merged(old(queries), compiled.value, lanes)
                && merge == PlanMerge(
                     Added(old(queries), compiled.value, |compiled.value|),
                     Changes(old(queries), PlanRows(old(queries), compiled.value), lanes, |old(queries)|, DropLane),
                     Changes(old(queries), PlanRows(old(queries), compiled.value), lanes, |old(queries)|, DropPlan),
                     Changes(old(queries), PlanRows(old(queries), compiled.value), lanes, |old(queries)|, Requeue))
      ensures merge.Changed() <==> queries != old(queries)
    {
      if compiled.None? {
        return PlanMerge([], [], [], []);
      }
      ghost var stored := queries;
      var matched, added := Match(compiled.value);
      var skipped, dropped, requeued := Revise(lanes, matched);
      queries := queries + added;
      merge := PlanMerge(added, skipped, dropped, requeued);
      ChangedIffMoved(stored, compiled.value, lanes);
    }

    /** The second loop: a matched row is taken back, an unmatched runnable one is retired. */
    method Revise(lanes: Option<set<string>>, matched: set<nat>)
      returns (skipped: seq<Query>, dropped: seq<Query>, requeued: seq<Query>)
      modifies this
      ensures queries == Revised(old(queries), matched, lanes)
      ensures skipped == Changes(old(queries), matched, lanes, |old(queries)|, DropLane)
      ensures dropped == Changes(old(queries), matched, lanes, |old(queries)|, DropPlan)
      ensures requeued == Changes(old(queries), matched, lanes, |old(queries)|, Requeue)
    {
      ghost var stored := queries;
      var noted := PlanMerge([], [], [], []);
      for i := 0 to |queries|
        invariant |queries| == |stored|
        invariant forall j :: 0 <= j < i ==> queries[j] == MergeRow(stored[j], j in matched, lanes)
        invariant forall j :: i <= j < |stored| ==> queries[j] == stored[j]
        invariant noted == Noted(stored, matched, lanes, i)
      {
        var change := ReviseRow(i, i in matched, lanes);
        noted := Note(noted, change, queries[i]);
      }
      skipped, dropped, requeued := noted.skipped, noted.dropped, noted.requeued;
    }

    method ReviseRow(i: nat, inPlan: bool, lanes: Option<set<string>>) returns (change: Change)
      requires i < |queries|
      modifies this
      ensures queries == old(queries)[i := MergeRow(old(queries)[i], inPlan, lanes)]
      ensures change == ChangeOf(old(queries)[i], inPlan, lanes)
    {
      change := Keep;
      var q := queries[i];
      if inPlan {
        if q.status == Skipped && Requeuable(q.notes) {
          queries := queries[i := q.(status := Queued, notes := "")];
          change := Requeue;
        }
      } else if Runnable(q.status) {
        var laneGone := lanes.Some? && q.lane !in lanes.value;
        queries := queries[i := q.(status := Skipped, notes := if laneGone then LANE_DROPPED else PLAN_DROPPED)];
        change := if laneGone then DropLane else DropPlan;
      }
    }

    /** The first loop: which stored positions the compiled plan consumes, and what is new. */
    method Match(compiled: seq<Query>) returns (matched: set<nat>, added: seq<Query>)
      ensures matched == PlanRows(queries, compiled)
      ensures added == Added(queries, compiled, |compiled|)
    {
      var byKey := Buckets();
      matched, added := {}, [];
      var next := NextId(queries);
      ghost var isNew := NewOnes(queries, compiled);
      assert forall k :: Count(compiled[..0], k) == 0;
      for n := 0 to |compiled|
        invariant BucketsOk(queries, compiled[..n], byKey)
        invariant matched == PlanRows(queries, compiled[..n])
        invariant added == Adds(compiled, isNew, NextId(queries), n) && next == NextId(queries) + |added|
      {
        assert compiled[..n + 1] == compiled[..n] + [compiled[n]];
        var hit;
        hit, byKey := Pop(byKey, compiled[n], compiled[..n]);
        assert isNew[n] == IsNew(queries, compiled, n);
        matched, added, next := Take(hit, matched, added, next, compiled[n]);
      }
      assert compiled[..|compiled|] == compiled;
    }

    method Take(hit: Option<nat>, matched: set<nat>, added: seq<Query>, next: int, q: Query)
      returns (matched': set<nat>, added': seq<Query>, next': int)
      ensures matched' == matched + if hit.Some? then {hit.value} else {}
      ensures added' == Join(added, q, hit.None?, next - |added|) && next' - |added'| == next - |added|
    {
      if hit.Some? {
        return matched + {hit.value}, added, next;
      }
      return matched, added + [q.(id := next, status := Queued)], next + 1;
    }

    /** Take the next stored row of a compiled query's key, if one is left. */
    method Pop(byKey: map<Key, seq<nat>>, q: Query, ghost popped: seq<Query>)
      returns (hit: Option<nat>, rest: map<Key, seq<nat>>)
      requires BucketsOk(queries, popped, byKey)
      ensures BucketsOk(queries, popped + [q], rest)
      ensures hit.Some? <==> Count(popped, KeyOf(q)) < Count(queries, KeyOf(q))
      ensures PlanRows(queries, popped + [q]) ==
              PlanRows(queries, popped) + if hit.Some? then {hit.value} else {}
    {
      var k := KeyOf(q);
      if k in byKey && byKey[k] != [] {
        PopMatches(queries, popped, q, byKey);
        hit, rest := Some(byKey[k][0]), byKey[k := byKey[k][1..]];
      } else {
        NothingToPop(queries, popped, q, byKey);
        hit, rest := None, byKey;
      }
    }
  }

  ghost predicate BucketsOk(stored: seq<Query>, popped: seq<Query>, byKey: map<Key, seq<nat>>) {
    && (forall k :: k in byKey <==> Count(stored, k) > 0)
    && forall k :: k in byKey ==> BucketOk(stored, k, Count(popped, k), byKey[k])
  }

  lemma AddedStep(stored: seq<Query>, compiled: seq<Query>, n: nat)
    requires n < |compiled|
    ensures var q, before := compiled[n], Added(stored, compiled, n);
            Added(stored, compiled, n + 1) ==
            if Count(compiled[..n], KeyOf(q)) >= Count(stored, KeyOf(q))
            then before + [q.(id := NextId(stored) + |before|, status := Queued)] else before
  {
    assert NewOnes(stored, compiled)[n] == IsNew(stored, compiled, n);
  }

  lemma CountSnoc(qs: seq<Query>, q: Query)
    ensures forall k :: Count(qs + [q], k) == Count(qs, k) + if KeyOf(q) == k then 1 else 0
  {
    assert (qs + [q])[..|qs|] == qs;
  }

  lemma GrowBucket(qs: seq<Query>, n: nat, bucket: seq<nat>)
    requires n < |qs| && BucketOk(qs[..n], KeyOf(qs[n]), 0, bucket)
    ensures BucketOk(qs[..n + 1], KeyOf(qs[n]), 0, bucket + [n])
  {
    assert qs[..n + 1][..n] == qs[..n];
    forall r | 0 <= r < |bucket| ensures Rank(qs[..n + 1], bucket[r]) == r {
      assert qs[..n + 1][..bucket[r]] == qs[..n][..bucket[r]];
    }
  }

  lemma KeepBucket(qs: seq<Query>, n: nat, k: Key, bucket: seq<nat>)
    requires n < |qs| && k != KeyOf(qs[n]) && BucketOk(qs[..n], k, 0, bucket)
    ensures BucketOk(qs[..n + 1], k, 0, bucket)
  {
    assert qs[..n + 1][..n] == qs[..n];
    forall r | 0 <= r < |bucket| ensures Rank(qs[..n + 1], bucket[r]) == r {
      assert qs[..n + 1][..bucket[r]] == qs[..n][..bucket[r]];
    }
  }

  /** Popping the head of a key's bucket consumes exactly the stored row of the next rank. */
  lemma PopMatches(stored: seq<Query>, popped: seq<Query>, q: Query, byKey: map<Key, seq<nat>>)
    requires KeyOf(q) in byKey && byKey[KeyOf(q)] != []
    requires BucketsOk(stored, popped, byKey)
    ensures var b := byKey[KeyOf(q)];
            && PlanRows(stored, popped + [q]) == PlanRows(stored, popped) + {b[0]}
            && BucketsOk(stored, popped + [q], byKey[KeyOf(q) := b[1..]])
            && Count(popped, KeyOf(q)) < Count(stored, KeyOf(q))
  {
    CountSnoc(popped, q);
    var k := KeyOf(q);
    var b := byKey[k][0];
    assert BucketOk(stored, k, Count(popped, k), byKey[k]);
    forall i: nat | i < |stored| && KeyOf(stored[i]) == k && Rank(stored, i) == Count(popped, k)
      ensures i == b
    {
      if i < b { RankOrder(stored, i, b); } else if b < i { RankOrder(stored, b, i); }
    }
    assert BucketOk(stored, k, Count(popped + [q], k), byKey[k][1..]);
  }

  /** With nothing left to pop, the compiled query is new and consumes no row. */
  lemma NothingToPop(stored: seq<Query>, popped: seq<Query>, q: Query, byKey: map<Key, seq<nat>>)
    requires KeyOf(q) !in byKey || byKey[KeyOf(q)] == []
    requires BucketsOk(stored, popped, byKey)
    ensures PlanRows(stored, popped + [q]) == PlanRows(stored, popped) && BucketsOk(stored, popped + [q], byKey)
    ensures Count(popped, KeyOf(q)) >= Count(stored, KeyOf(q))
  {
    CountSnoc(popped, q);
    var k := KeyOf(q);
    if k in byKey { assert BucketOk(stored, k, Count(popped, k), byKey[k]); }
    forall i: nat | i < |stored| && KeyOf(stored[i]) == k ensures InPlan(stored, popped, i) {
      RankBelowCount(stored, i);
    }
    forall j | j in byKey ensures BucketOk(stored, j, Count(popped + [q], j), byKey[j]) {
      assert BucketOk(stored, j, Count(popped, j), byKey[j]);
    }
  }

  /** The merge reports a change exactly when it made one. */
  lemma ChangedIffMoved(stored: seq<Query>, compiled: seq<Query>, lanes: Option<set<string>>)
    ensures var n, matched := |stored|, PlanRows(stored, compiled);
            (Added(stored, compiled, |compiled|) != [] || Changes(stored, matched, lanes, n, DropLane) != []
             || Changes(stored, matched, lanes, n, DropPlan) != [] || Changes(stored, matched, lanes, n, Requeue) != [])
            <==> Merged(stored, compiled, lanes) != stored
  {
    var n, matched := |stored|, PlanRows(stored, compiled);
    var added := Added(stored, compiled, |compiled|);
    if Changes(stored, matched, lanes, n, DropLane) == [] && Changes(stored, matched, lanes, n, DropPlan) == []
       && Changes(stored, matched, lanes, n, Requeue) == [] {
      NoChanges(stored, matched, lanes, n);
      assert Revised(stored, matched, lanes) == stored;
      assert |stored + added| == |stored| + |added|;
      assert added == [] ==> stored + added == stored;
    } else {
      var c :| c != Keep && Changes(stored, matched, lanes, n, c) != [];
      SomeChange(stored, matched, lanes, n, c);
      var i :| 0 <= i < n && MergeRow(stored[i], i in matched, lanes) != stored[i];
      assert Merged(stored, compiled, lanes)[i] != stored[i];
    }
  }
}
