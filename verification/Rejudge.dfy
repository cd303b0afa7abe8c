/** Which stored verdicts a resume judges again, and how a re-judge's samples combine. */
module Rejudge {
  import opened Wrappers
  import opened Verdicts

  datatype Status = Current | Stale | Cleared | StaleReject

  /** Classify one stored row.  `verdict` is None for a row whose terminal columns
      were cleared; `terminal` says the row is in the full-terminal state. */
  function RejudgeStatus(touched: bool, terminal: bool, verdict: Option<Stored>, hash: string,
                         currentFingerprint: string, currentHash: string): Status {
    if touched || !terminal then Current
    else match verdict
      case None => Cleared
      case Some(v) =>
        if v.path != Model then Current
        else
          var moved :=
            if v.fingerprint != "" && currentFingerprint != "" then v.fingerprint != currentFingerprint
            else hash != "" && currentHash != "" && hash != currentHash;
          if !moved then Current
          else if OnSlate(Classify(v.decision)) then Stale else StaleReject
  }

  /** The statuses a resume re-judges under the campaign's opt-ins. */
  function SelectedStatuses(slate: bool, rejects: bool): set<Status> {
    {Cleared} + (if slate then {Stale} else {}) + (if rejects then {StaleReject} else {})
  }

  /** `oldBucket` is None for a cleared row whose old verdict is unknown. */
  function SamplesFor(oldBucket: Option<Bucket>): nat {
    if oldBucket == Some(Rejected) then 1 else 2
  }

  datatype Resolution = Kept(tooFew: bool) | Becomes(outcome: Outcome, split: bool)

  function Others(outs: seq<Outcome>): seq<Outcome> {
    if outs == [] then []
    else (if outs[0].bucket == Rejected then [] else [outs[0]]) + Others(outs[1..])
  }

  function FirstShortList(outs: seq<Outcome>): Option<Outcome> {
    if outs == [] then None
    else if outs[0].bucket == ShortList then Some(outs[0])
    else FirstShortList(outs[1..])
  }

  predicate Holds(outs: seq<Outcome>, b: Bucket) {
    exists i :: 0 <= i < |outs| && outs[i].bucket == b
  }

  /** Combine a re-judge's samples, in the order they came in. */
  function Resolve(oldBucket: Option<Bucket>, outs: seq<Outcome>): Resolution {
    if outs == [] || Holds(outs, Failure) then Kept(false)
    else if |outs| < SamplesFor(oldBucket) then Kept(true)
    else
      var others := Others(outs);
      if others == [] then Becomes(outs[0], false)
      else
        var best := match FirstShortList(others) case Some(o) => o case None => others[0];
        if Holds(outs, Rejected) then Becomes(Outcome(best.decision, WorthALook), true)
        else Becomes(best, false)
  }

  lemma {:induction false} OthersHold(outs: seq<Outcome>)
    ensures forall b :: b != Rejected ==> (Holds(Others(outs), b) <==> Holds(outs, b))
    ensures !Holds(Others(outs), Rejected)
    ensures Others(outs) == [] <==> (forall i :: 0 <= i < |outs| ==> outs[i].bucket == Rejected)
    ensures forall i :: 0 <= i < |Others(outs)| ==> Others(outs)[i] in outs
  {
    if outs != [] {
      var rest := outs[1..];
      OthersHold(rest);
      assert outs == [outs[0]] + rest;
      forall b | b != Rejected ensures Holds(Others(outs), b) <==> Holds(outs, b) {
        HoldsConcat([outs[0]], rest, b);
        HoldsConcat(if outs[0].bucket == Rejected then [] else [outs[0]], Others(rest), b);
        assert Holds([outs[0]], b) <==> [outs[0]][0].bucket == b;
      }
      HoldsConcat(if outs[0].bucket == Rejected then [] else [outs[0]], Others(rest), Rejected);
    }
  }

  lemma HoldsConcat(a: seq<Outcome>, c: seq<Outcome>, b: Bucket)
    ensures Holds(a + c, b) <==> Holds(a, b) || Holds(c, b)
  {
    if Holds(a, b) {
      var i :| 0 <= i < |a| && a[i].bucket == b;
      assert (a + c)[i].bucket == b;
    }
    if Holds(c, b) {
      var i :| 0 <= i < |c| && c[i].bucket == b;
      assert (a + c)[|a| + i].bucket == b;
    }
  }

  lemma {:induction false} FirstShortListFound(outs: seq<Outcome>)
    ensures FirstShortList(outs).Some? <==> Holds(outs, ShortList)
    ensures FirstShortList(outs).Some? ==>
              FirstShortList(outs).value in outs && FirstShortList(outs).value.bucket == ShortList
  {
    if outs != [] {
      FirstShortListFound(outs[1..]);
      assert outs == [outs[0]] + outs[1..];
      HoldsConcat([outs[0]], outs[1..], ShortList);
    }
  }

  /** What the samples decide, told without their order: which buckets occur among them. */
  lemma ResolveByBuckets(oldBucket: Option<Bucket>, outs: seq<Outcome>)
    ensures var r := Resolve(oldBucket, outs);
            && (r.Kept? <==> outs == [] || Holds(outs, Failure) || |outs| < SamplesFor(oldBucket))
            && (r.Becomes? ==>
                && (r.split <==> Holds(outs, Rejected) && (Holds(outs, ShortList) || Holds(outs, WorthALook)))
                && r.outcome.bucket ==
                     (if r.split then WorthALook
                      else if Holds(outs, Rejected) then Rejected
                      else if Holds(outs, ShortList) then ShortList
                      else WorthALook))
  {
    OthersHold(outs);
    FirstShortListFound(Others(outs));
    if outs != [] && Others(outs) == [] {
      assert outs[0].bucket == Rejected;
      assert forall b :: b != Rejected ==> !Holds(outs, b);
    } else if outs != [] {
      var o := Others(outs)[0];
      assert o in outs;
      assert Holds(Others(outs), o.bucket);
    }
  }

  /** The bucket and the split flag do not depend on the order the samples came in. */
  lemma ResolveOrderIndependent(oldBucket: Option<Bucket>, a: seq<Outcome>, b: seq<Outcome>)
    requires multiset(a) == multiset(b)
    ensures var r, s := Resolve(oldBucket, a), Resolve(oldBucket, b);
            && (r.Kept? <==> s.Kept?)
            && (r.Becomes? ==> r.outcome.bucket == s.outcome.bucket && r.split == s.split)
  {
    ResolveByBuckets(oldBucket, a);
    ResolveByBuckets(oldBucket, b);
    assert |a| == |multiset(a)| == |multiset(b)| == |b|;
    forall x ensures Holds(a, x) <==> Holds(b, x) {
      if Holds(a, x) { HoldsInMultiset(a, b, x); }
      if Holds(b, x) { HoldsInMultiset(b, a, x); }
    }
  }

  lemma HoldsInMultiset(a: seq<Outcome>, b: seq<Outcome>, x: Bucket)
    requires multiset(a) == multiset(b) && Holds(a, x)
    ensures Holds(b, x)
  {
    var i :| 0 <= i < |a| && a[i].bucket == x;
    assert a[i] in multiset(b);
    var j :| 0 <= j < |b| && b[j] == a[i];
  }

  /** A slate verdict is taken off the slate only when both samples rejected, the
      slate's shorter list is reached only without a rejecting sample, and every
      outcome handed to the live path is bucketed the way that path expects. */
  lemma SlateLeavesOnTwoRejects(oldBucket: Option<Bucket>, outs: seq<Outcome>)
    requires Resolve(oldBucket, outs).Becomes?
    requires forall i :: 0 <= i < |outs| ==> Sampled(outs[i])
    ensures var r := Resolve(oldBucket, outs);
            && WellBucketed(r.outcome, r.split)
            && r.outcome.bucket != Failure
            && (r.outcome.bucket == Rejected ==> forall i :: 0 <= i < |outs| ==> outs[i].bucket == Rejected)
            && (r.outcome.bucket == Rejected && oldBucket != Some(Rejected) ==> |outs| >= 2)
            && (r.outcome.bucket == ShortList ==> !Holds(outs, Rejected))
  {
    ResolveByBuckets(oldBucket, outs);
    OthersHold(outs);
    FirstShortListFound(Others(outs));
    var others := Others(outs);
    if others != [] {
      var best := match FirstShortList(others) case Some(o) => o case None => others[0];
      assert best in others;
      var i :| 0 <= i < |others| && others[i] == best;
      assert others[i] in outs;
      var j :| 0 <= j < |outs| && outs[j] == best;
      assert Sampled(outs[j]) && Holds(outs, best.bucket);
      assert Holds(others, best.bucket);
    }
  }

  // ---- The sample pool ----

  /** One finished sample: the job it belongs to, and what it said. */
  datatype Completion = Completion(job: nat, outcome: Outcome)

  /** The outcomes of one job, in completion order. */
  function OutcomesOf(done: seq<Completion>, job: nat): seq<Outcome> {
    if done == [] then []
    else
      var last := done[|done| - 1];
      OutcomesOf(done[..|done| - 1], job) + (if last.job == job then [last.outcome] else [])
  }

  /** These positions are where a job's samples came in, in order, and there is no other. */
  ghost predicate CameInAt(done: seq<Completion>, job: nat, outs: seq<Outcome>, at: seq<nat>) {
    && |at| == |outs| && (forall m, n :: 0 <= m < n < |at| ==> at[m] < at[n])
    && (forall m :: 0 <= m < |at| ==> at[m] < |done| && done[at[m]] == Completion(job, outs[m]))
    && (forall i: nat :: i < |done| && done[i].job == job ==> i in at)
  }

  /** A job's samples are the completions that name it, in the order they came in. */
  lemma {:induction false} OutcomesAt(done: seq<Completion>, job: nat) returns (at: seq<nat>)
    ensures CameInAt(done, job, OutcomesOf(done, job), at)
  {
    at := [];
    if done != [] {
      var n := |done| - 1;
      at := OutcomesAt(done[..n], job);
      assert done == done[..n] + [done[n]];
      at := OneCameIn(done[..n], done[n], job, OutcomesOf(done[..n], job), at);
    }
  }

  lemma OneCameIn(done: seq<Completion>, c: Completion, job: nat, outs: seq<Outcome>, at: seq<nat>) returns (now: seq<nat>)
    requires CameInAt(done, job, outs, at)
    ensures CameInAt(done + [c], job, outs + if c.job == job then [c.outcome] else [], now)
  {
    if c.job == job {
      now := at + [|done|];
      CameInMore(done, c, job, outs, at, now, outs + [c.outcome]);
    } else {
      now := at;
      assert outs + [] == outs;
      CameInOther(done, c, job, outs, at);
    }
  }

  lemma CameInMore(done: seq<Completion>, c: Completion, job: nat, outs: seq<Outcome>, at: seq<nat>, now: seq<nat>, more: seq<Outcome>)
    requires CameInAt(done, job, outs, at) && c.job == job && now == at + [|done|] && more == outs + [c.outcome]
    ensures CameInAt(done + [c], job, more, now)
  {
    var all := done + [c];
    forall m | 0 <= m < |now| ensures now[m] < |all| && all[now[m]] == Completion(job, more[m]) {
      if m < |at| { assert now[m] == at[m] && more[m] == outs[m] && done[at[m]] == Completion(job, outs[m]); }
    }
    forall m, n | 0 <= m < n < |now| ensures now[m] < now[n] {
      if n == |at| { assert now[m] == at[m] < |done|; }
    }
    forall i: nat | i < |all| && all[i].job == job ensures i in now {
      if i < |done| { assert done[i] == all[i] && i in at; }
    }
  }

  lemma CameInOther(done: seq<Completion>, c: Completion, job: nat, outs: seq<Outcome>, at: seq<nat>)
    requires CameInAt(done, job, outs, at) && c.job != job
    ensures CameInAt(done + [c], job, outs, at)
  {
    var all := done + [c];
    forall m | 0 <= m < |at| ensures all[at[m]] == Completion(job, outs[m]) { assert done[at[m]] == all[at[m]]; }
    forall i: nat | i < |all| && all[i].job == job ensures i in at { assert done[i] == all[i]; }
  }

  /** A completion order the pool can produce: known jobs, and no more samples of a
      job than were submitted for it. */
  predicate Submitted(jobs: seq<Option<Bucket>>, done: seq<Completion>) {
    && (forall i :: 0 <= i < |done| ==> done[i].job < |jobs|)
    && forall j :: 0 <= j < |jobs| ==> |OutcomesOf(done, j)| <= SamplesFor(jobs[j])
  }

  /** The jobs settled so far are those whose samples are all in, each once, each on the
      resolution of its own samples. */
  ghost predicate SettledSoFar(jobs: seq<Option<Bucket>>, outcomes: seq<seq<Outcome>>, settled: seq<nat>, verdicts: map<nat, Resolution>) {
    && |outcomes| == |jobs|
    && (forall j: nat :: j in settled <==> j < |jobs| && |outcomes[j]| == SamplesFor(jobs[j]))
    && (forall a, b :: 0 <= a < b < |settled| ==> settled[a] != settled[b])
    && (forall j :: j in verdicts <==> j in settled)
    && (forall j :: j in verdicts ==> j < |jobs| && verdicts[j] == Resolve(jobs[j], outcomes[j]))
  }

  ghost predicate Collected(outcomes: seq<seq<Outcome>>, done: seq<Completion>) {
    forall j :: 0 <= j < |outcomes| ==> outcomes[j] == OutcomesOf(done, j)
  }

  lemma CollectedGrows(outcomes: seq<seq<Outcome>>, done: seq<Completion>, c: Completion)
    requires Collected(outcomes, done) && c.job < |outcomes|
    ensures Collected(outcomes[c.job := outcomes[c.job] + [c.outcome]], done + [c])
  {
    assert (done + [c])[..|done|] == done;
  }

  method TakeSample(jobs: seq<Option<Bucket>>, outcomes: seq<seq<Outcome>>, settled: seq<nat>, verdicts: map<nat, Resolution>,
                    c: Completion) returns (outcomes': seq<seq<Outcome>>, settled': seq<nat>, verdicts': map<nat, Resolution>)
    requires SettledSoFar(jobs, outcomes, settled, verdicts)
    requires c.job < |jobs| && |outcomes[c.job]| < SamplesFor(jobs[c.job])
    ensures outcomes' == outcomes[c.job := outcomes[c.job] + [c.outcome]]
    ensures SettledSoFar(jobs, outcomes', settled', verdicts')
  {
    var j := c.job;
    outcomes' := outcomes[j := outcomes[j] + [c.outcome]];
    settled', verdicts' := settled, verdicts;
    if |outcomes'[j]| == SamplesFor(jobs[j]) {
      settled' := settled + [j];
      verdicts' := verdicts[j := Resolve(jobs[j], outcomes'[j])];
    }
  }

  /** The settlement loop over completed samples.  It may be cut at any completion
      (a budget stop, an interrupt), so `done` is any prefix of a full order.  Each
      job is settled at most once, exactly when all its samples are in, and on the
      resolution of precisely its own samples. */
  method SettlePool(jobs: seq<Option<Bucket>>, done: seq<Completion>)
    returns (settled: seq<nat>, verdicts: map<nat, Resolution>)
    requires Submitted(jobs, done)
    ensures forall j: nat :: j in settled <==> j < |jobs| && |OutcomesOf(done, j)| == SamplesFor(jobs[j])
    ensures forall a, b :: 0 <= a < b < |settled| ==> settled[a] != settled[b]
    ensures forall j :: j in verdicts <==> j in settled
    ensures forall j :: j in verdicts ==> j < |jobs| && verdicts[j] == Resolve(jobs[j], OutcomesOf(done, j))
  {
    settled, verdicts := [], map[];
    var outcomes: seq<seq<Outcome>> := seq(|jobs|, i => []);
    for n := 0 to |done|
      invariant SettledSoFar(jobs, outcomes, settled, verdicts)
      invariant Collected(outcomes, done[..n])
    {
      var c := done[n];
      assert done[..n + 1] == done[..n] + [c];
      OutcomesGrow(done, n + 1, c.job);
      CollectedGrows(outcomes, done[..n], c);
      outcomes, settled, verdicts := TakeSample(jobs, outcomes, settled, verdicts, c);
    }
    assert done[..|done|] == done;
  }

  lemma {:induction false} OutcomesGrow(done: seq<Completion>, n: nat, j: nat)
    requires n <= |done|
    ensures |OutcomesOf(done[..n], j)| <= |OutcomesOf(done, j)|
    decreases |done|
  {
    if n == |done| {
      assert done[..n] == done;
    } else {
      var shorter := done[..|done| - 1];
      OutcomesGrow(shorter, n, j);
      assert shorter[..n] == done[..n];
    }
  }

  lemma {:induction false} OutcomesCount(done: seq<Completion>, j: nat, o: Outcome)
    ensures multiset(OutcomesOf(done, j))[o] == multiset(done)[Completion(j, o)]
  {
    if done != [] {
      var shorter := done[..|done| - 1];
      assert done == shorter + [done[|done| - 1]];
      OutcomesCount(shorter, j, o);
    }
  }

  /** Confluence: two completion orders of the same samples leave every job with the
      same fate: both settle it or neither does, in the same bucket, with the same
      split flag. */
  lemma PoolConfluent(jobs: seq<Option<Bucket>>, a: seq<Completion>, b: seq<Completion>, j: nat)
    requires multiset(a) == multiset(b) && j < |jobs|
    ensures |OutcomesOf(a, j)| == |OutcomesOf(b, j)|
    ensures var r, s := Resolve(jobs[j], OutcomesOf(a, j)), Resolve(jobs[j], OutcomesOf(b, j));
            && (r.Kept? <==> s.Kept?)
            && (r.Becomes? ==> r.outcome.bucket == s.outcome.bucket && r.split == s.split)
  {
    var x, y := OutcomesOf(a, j), OutcomesOf(b, j);
    forall o ensures multiset(x)[o] == multiset(y)[o] {
      OutcomesCount(a, j, o);
      OutcomesCount(b, j, o);
    }
    assert multiset(x) == multiset(y);
    assert |x| == |multiset(x)| && |y| == |multiset(y)|;
    ResolveOrderIndependent(jobs[j], x, y);
  }

  /** A verdict written under the current criteria is never selected again: settling
      a re-judge ends it, whichever plane (fingerprint or brief hash) compares. */
  lemma SettledIsCurrent(c: Checks, o: Outcome, split: bool, touched: bool, fp: string, hash: string)
    requires JudgeOne(c, o, split, fp).stored.Some?
    ensures RejudgeStatus(touched, true, JudgeOne(c, o, split, fp).stored, hash, fp, hash) == Current
  {
  }
}
