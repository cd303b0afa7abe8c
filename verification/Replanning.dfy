/** What a resume does to the stored plan before it runs, as one step of the campaign. */
module Replanning {
  import opened Wrappers
  import opened QueryStates
  import opened Plan
  import opened PlanTheorems
  import opened Recovery
  import Campaign

  function Statuses(qs: seq<Query>): seq<QueryStatus> { seq(|qs|, i requires 0 <= i < |qs| => qs[i].status) }

  /** A query a transient fault errored goes back in the queue. */
  function Retried(q: Query, transient: set<string>): Query {
    if q.status == Errored && q.notes in transient then q.(status := Queued, notes := "") else q
  }

  method RequeueTransientErrors(progress: Progress, transient: set<string>) returns (retried: seq<nat>)
    modifies progress
    ensures |progress.queries| == |old(progress.queries)|
    ensures forall i :: 0 <= i < |progress.queries| ==>
              var q := old(progress.queries)[i];
              progress.queries[i] == if q.status == Errored && q.notes in transient then q.(status := Queued, notes := "") else q
    ensures forall i: nat :: i in retried <==> i < |progress.queries| && progress.queries[i] != old(progress.queries)[i]
  {
    ghost var was := progress.queries;
    retried := [];
    for i := 0 to |progress.queries|
      invariant progress.queries == was
      invariant forall j: nat :: j in retried <==> j < i && was[j].status == Errored && was[j].notes in transient
    {
      if progress.queries[i].status == Errored && progress.queries[i].notes in transient {
        retried := retried + [i];
      }
    }
    for n := 0 to |retried|
      invariant |progress.queries| == |was|
      invariant forall i: nat :: i < |was| ==> progress.queries[i] == if i in retried[..n] then Retried(was[i], transient) else was[i]
    {
      assert retried[n] in retried;
      assert retried[..n + 1] == retried[..n] + [retried[n]];
      var i := retried[n];
      progress.queries := progress.queries[i := progress.queries[i].(status := Queued, notes := "")];
    }
    assert retried[..|retried|] == retried;
  }

  /** The change deletes no row, completes no query and reopens no completed one. */
  ghost predicate Replans(before: seq<Query>, after: seq<Query>) {
    && |before| <= |after|
    && (forall i :: 0 <= i < |before| ==> (after[i].status == Done <==> before[i].status == Done))
    && (forall i :: |before| <= i < |after| ==> after[i].status != Done)
  }

  /** Such a change is a step the campaign's theorems allow a booting session. */
  lemma ReplansIsAStep(s: Campaign.State, before: seq<Query>, after: seq<Query>)
    requires s.process.Booting? && s.process.w == 2 && s.queries == Statuses(before)
    ensures Replans(before, after) <==> Campaign.Enabled(s, Campaign.Replan(Statuses(after)))
  {
    if Campaign.Enabled(s, Campaign.Replan(Statuses(after))) {
      assert |s.queries| == |before|;
      forall i | 0 <= i < |before| ensures after[i].status == Done <==> before[i].status == Done {
        assert Statuses(after)[i] == after[i].status && s.queries[i] == before[i].status;
      }
      forall i | |before| <= i < |after| ensures after[i].status != Done {
        assert Statuses(after)[i] == after[i].status;
      }
    }
  }

  /** The merge of any brief's compiled plan is one, and so is the same merge when the sync
      that stores it is cut after any number of rows. */
  lemma MergeReplans(stored: seq<Query>, compiled: seq<Query>, lanes: Option<set<string>>, cut: nat)
    requires cut <= |Merged(stored, compiled, lanes)|
    ensures Replans(stored, Merged(stored, compiled, lanes))
    ensures Replans(stored, Partial(stored, Merged(stored, compiled, lanes), cut))
  {
    WholeReplans(stored, compiled, lanes, Merged(stored, compiled, lanes));
    CutReplans(stored, Merged(stored, compiled, lanes), cut);
  }

  lemma WholeReplans(stored: seq<Query>, compiled: seq<Query>, lanes: Option<set<string>>, m: seq<Query>)
    requires m == Merged(stored, compiled, lanes)
    ensures Replans(stored, m)
  {
    forall i | 0 <= i < |stored| ensures m[i].status == Done <==> stored[i].status == Done {
      MergeKeepsRows(stored, compiled, lanes, i);
    }
    forall i | |stored| <= i < |m| ensures m[i].status != Done {
      AddedRow(stored, compiled, lanes, i);
    }
  }

  lemma CutReplans(stored: seq<Query>, m: seq<Query>, cut: nat)
    requires Replans(stored, m) && cut <= |m|
    ensures Replans(stored, Partial(stored, m, cut))
  {
  }

  /** So are the requeue of transient errors and the recovery of lost payloads. */
  lemma RepairReplans(stored: seq<Query>, transient: set<string>, readable: seq<bool>, compiled: seq<Query>)
    requires |readable| == |stored|
    ensures Replans(stored, seq(|stored|, i requires 0 <= i < |stored| => Retried(stored[i], transient)))
    ensures Replans(stored, AllRecovered(seq(|stored|, i requires 0 <= i < |stored| => RowOf(stored[i], readable[i])), compiled))
  {
    forall i | 0 <= i < |stored|
      ensures Recovered(RowOf(stored[i], readable[i]), compiled).status == Done <==> stored[i].status == Done
    {
    }
  }
}
