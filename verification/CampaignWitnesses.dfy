/** Concrete runs showing that the exceptions in `CampaignTheorems` do happen. */
module CampaignWitnesses {
  import opened Wrappers
  import opened QueryStates
  import opened Verdicts
  import opened Rejudge
  import opened Lifecycle
  import opened Campaign
  import opened CampaignInvariant
  import opened CampaignHistory
  import opened CampaignTheorems

  const OPEN_BRIEF := Brief({}, {}, {}, {}, "fp", "hash")
  const LATER_BRIEF := Brief({}, {}, {}, {}, "fp2", "hash2")
  const YES := Outcome(Save, ShortList)
  const NO := Outcome(Reject, Rejected)

  /** Take one more step of a run that starts in `Start([Queued])`. */
  lemma Continue(steps: seq<Step>, at: State, step: Step) returns (more: seq<Step>, next: State)
    requires Legal(Start([Queued]), steps) && After(Start([Queued]), steps) == at && Enabled(at, step)
    ensures more == steps + [step] && next == Apply(at, step)
    ensures Legal(Start([Queued]), more) && After(Start([Queued]), more) == next
  {
    Extend(Start([Queued]), steps, step);
    more, next := steps + [step], Apply(at, step);
  }

  /** A session boots: attempts, then effects, are reconciled. */
  lemma Boot(steps: seq<Step>, at: State, b: Brief) returns (more: seq<Step>, next: State)
    requires Legal(Start([Queued]), steps) && After(Start([Queued]), steps) == at && at.process.Down?
    ensures Legal(Start([Queued]), more) && After(Start([Queued]), more) == next
    ensures next == at.(rows := map k | k in at.rows :: Reconciled(at.rows[k]),
                        effects := map k | k in at.effects :: EffectReconciled(at.effects[k]),
                        process := Up(b, Idle))
  {
    more, next := Continue(steps, at, Launch(b));
    more, next := Continue(more, next, ReconcileAttempts);
    more, next := Continue(more, next, ReconcileEffects);
    more, next := Continue(more, next, Ready);
  }

  /** The session sends the query, which finds `k`, and makes the first two writes. */
  lemma Find(k: Key) returns (steps: seq<Step>, at: State)
    ensures Legal(Start([Queued]), steps) && After(Start([Queued]), steps) == at
    ensures at == Start([InProgress]).(rows := map[k := Ensured()], searches := [0],
                                       process := Up(OPEN_BRIEF, Harvest(0, [k], [], 2)))
  {
    steps, at := [], Start([Queued]);
    steps, at := Boot(steps, at, OPEN_BRIEF);
    assert at == Start([Queued]).(process := Up(OPEN_BRIEF, Idle));
    steps, at := Continue(steps, at, OpenQuery(0));
    steps, at := Continue(steps, at, Search([k]));
    steps, at := Continue(steps, at, Persist);
    steps, at := Continue(steps, at, Persist);
  }

  /** A first session finds `k`, persists them and closes its query. */
  lemma FirstSession(k: Key) returns (steps: seq<Step>, at: State)
    ensures Legal(Start([Queued]), steps) && After(Start([Queued]), steps) == at
    ensures at == Start([Done]).(
                    rows := map[k := Row(SnippetExtracted, None, true, false, false, "")],
                    process := Up(OPEN_BRIEF, Idle), kept := map[0 := {k}], searches := [0])
  {
    steps, at := Find(k);
    steps, at := Continue(steps, at, Persist);
    assert at.rows == map[k := SnippetStarted(Ensured())];
    steps, at := Continue(steps, at, Persist);
    assert at.rows == map[k := Row(SnippetExtracted, None, true, false, false, "")];
    assert at.process.task == Harvest(0, [], [k], 0);
    assert (set x | x in [k]) == {k};
    steps, at := Continue(steps, at, CloseQuery(false));
    assert at.kept == map[0 := {k}];
  }

  /** A crash between the two writes of `start_stage` abandons somebody a completed
      query kept: with `AbandonedForever`, nobody ever judges them. */
  lemma JudgmentCutHappens(k: Key) returns (steps: seq<Step>)
    ensures Legal(Start([Queued]), steps)
    ensures var t := After(Start([Queued]), steps);
            && t.queries == [Done] && 0 in t.kept && k in t.kept[0]
            && t.process.Down? && Abandoned(t, k)
  {
    var at;
    steps, at := FirstSession(k);
    steps, at := Continue(steps, at, StartPending(k));
    steps, at := Continue(steps, at, MarkStage);
    steps, at := Continue(steps, at, Crash);
  }

  /** A crash before the snippet attempt leaves a row with no record; with
      `UnrecordedForever`, the person stays unjudged although the query runs again. */
  lemma PersistCutHappens(k: Key) returns (steps: seq<Step>)
    ensures Legal(Start([Queued]), steps)
    ensures var t := After(Start([Queued]), steps);
            && t.queries == [InProgress] && t.process.Down?
            && k in t.rows && !t.rows[k].record && !Persisting(t, k)
  {
    var at;
    steps, at := Find(k);
    steps, at := Continue(steps, at, Crash);
  }

  /** A judgment's first two writes. */
  lemma Stage(steps: seq<Step>, at: State) returns (more: seq<Step>, next: State)
    requires Legal(Start([Queued]), steps) && After(Start([Queued]), steps) == at
    requires at.process.Up? && at.process.task.Judge? && at.process.task.w == 0 && at.process.task.k in at.rows
    ensures Legal(Start([Queued]), more) && After(Start([Queued]), more) == next
    ensures var t := at.process.task;
            next == at.(rows := at.rows[t.k := AttemptOpened(StageMarked(at.rows[t.k]))],
                        process := Up(at.process.brief, Judge(t.k, t.src, 2)))
  {
    more, next := Continue(steps, at, MarkStage);
    more, next := Continue(more, next, OpenAttempt);
    assert next.rows == at.rows[at.process.task.k := AttemptOpened(StageMarked(at.rows[at.process.task.k]))];
  }

  const SAVED := Stored(Save, Model, false, "fp")
  const SAVED_ROW := Row(FullTerminal, Some(SAVED), true, false, false, "hash")

  /** The person of `FirstSession`, in the middle of being judged. */
  lemma Judging(k: Key) returns (steps: seq<Step>, at: State)
    ensures Legal(Start([Queued]), steps) && After(Start([Queued]), steps) == at
    ensures at == Start([Done]).(
                    rows := map[k := Row(FullStarted, None, true, true, false, "")],
                    process := Up(OPEN_BRIEF, Judge(k, Fresh, 2)), kept := map[0 := {k}], searches := [0])
  {
    steps, at := FirstSession(k);
    steps, at := Continue(steps, at, StartPending(k));
    steps, at := Stage(steps, at);
    assert at.rows == map[k := Row(FullStarted, None, true, true, false, "")];
  }

  /** ... judged a save, before the workspace is written. */
  lemma JudgedSave(k: Key) returns (steps: seq<Step>, at: State)
    ensures Legal(Start([Queued]), steps) && After(Start([Queued]), steps) == at
    ensures at == Start([Done]).(
                    rows := map[k := SAVED_ROW],
                    process := Up(OPEN_BRIEF, SaveTo(k, 0, false)), kept := map[0 := {k}], searches := [0])
  {
    steps, at := Judging(k);
    steps, at := Continue(steps, at, Decide(YES));
    assert at.rows == map[k := SAVED_ROW];
    assert at.limbo == map[];
  }

  /** ... and written to the workspace, before that is on record. */
  lemma WrittenSave(k: Key) returns (steps: seq<Step>, at: State)
    ensures Legal(Start([Queued]), steps) && After(Start([Queued]), steps) == at
    ensures at.process == Up(OPEN_BRIEF, SaveTo(k, 2, true)) && at.effects == map[k := Effect(Pending, 1)]
    ensures at.landed == [] && at.limbo == map[] && at.writes == [(k, OPEN_BRIEF, SAVED_ROW)]
    ensures at.rows == map[k := SAVED_ROW] && at.queries == [Done] && at.kept == map[0 := {k}]
  {
    steps, at := JudgedSave(k);
    steps, at := Continue(steps, at, BeginEffect);
    steps, at := Continue(steps, at, WriteWorkspace(true));
  }

  /** A crash falls between the write and its record; the next session replays the save. */
  lemma Replaying(k: Key) returns (steps: seq<Step>, at: State)
    ensures Legal(Start([Queued]), steps) && After(Start([Queued]), steps) == at
    ensures at.process == Up(OPEN_BRIEF, SaveTo(k, 0, false)) && at.effects == map[k := Effect(Interrupted, 1)]
    ensures at.landed == [] && at.writes == [(k, OPEN_BRIEF, SAVED_ROW)] && at.rows == map[k := SAVED_ROW]
  {
    steps, at := WrittenSave(k);
    steps, at := Continue(steps, at, Crash);
    steps, at := Boot(steps, at, OPEN_BRIEF);
    assert at.rows == map[k := SAVED_ROW] && at.effects == map[k := Effect(Interrupted, 1)];
    steps, at := Continue(steps, at, StartReplay(k));
  }

  lemma Rewriting(k: Key) returns (steps: seq<Step>, at: State)
    ensures Legal(Start([Queued]), steps) && After(Start([Queued]), steps) == at
    ensures at.process == Up(OPEN_BRIEF, SaveTo(k, 1, false)) && at.effects == map[k := Effect(Pending, 1)]
    ensures at.landed == [] && at.writes == [(k, OPEN_BRIEF, SAVED_ROW)] && at.rows == map[k := SAVED_ROW]
  {
    steps, at := Replaying(k);
    steps, at := Continue(steps, at, BeginEffect);
    assert at.effects == map[k := Effect(Pending, 1)];
  }

  lemma Rewritten(k: Key) returns (steps: seq<Step>, at: State)
    ensures Legal(Start([Queued]), steps) && After(Start([Queued]), steps) == at
    ensures at.landed == [k] && at.writes == [(k, OPEN_BRIEF, SAVED_ROW), (k, OPEN_BRIEF, SAVED_ROW)]
  {
    steps, at := Rewriting(k);
    steps, at := Continue(steps, at, WriteWorkspace(true));
    steps, at := Continue(steps, at, CompleteEffect);
  }

  /** The store does not refuse it, and the person is written a second time. */
  lemma WrittenTwice(k: Key) returns (steps: seq<Step>)
    ensures Legal(Start([Queued]), steps)
    ensures var t := After(Start([Queued]), steps); t.landed == [k] && WritesFor(t.writes, k) == 2
  {
    var at;
    steps, at := Rewritten(k);
    var w := (k, OPEN_BRIEF, SAVED_ROW);
    assert WritesFor([w], k) == 1;
    assert [w, w][..1] == [w];
  }

  /** A later session, under a brief that judges by other criteria, finds the save on record. */
  lemma NextSession(k: Key) returns (steps: seq<Step>, at: State)
    ensures Legal(Start([Queued]), steps) && After(Start([Queued]), steps) == at
    ensures at.process == Up(LATER_BRIEF, Idle) && at.landed == [k] && at.limbo == map[]
    ensures at.rows == map[k := SAVED_ROW] && at.queries == [Done] && at.kept == map[0 := {k}]
  {
    steps, at := WrittenSave(k);
    steps, at := Continue(steps, at, CompleteEffect);
    steps, at := Continue(steps, at, Crash);
    steps, at := Boot(steps, at, LATER_BRIEF);
    assert at.rows == map[k := SAVED_ROW];
  }

  lemma TwoYes()
    ensures Settles(Some(ShortList), [YES, YES])
  {
    ResolveByBuckets(Some(ShortList), [YES, YES]);
  }

  /** Its re-judge pass takes the save up, and both samples save again. */
  lemma Retiring(k: Key) returns (steps: seq<Step>, at: State)
    ensures Legal(Start([Queued]), steps) && After(Start([Queued]), steps) == at
    ensures at.landed == [k] && at.limbo == map[]
    ensures at.process == Up(LATER_BRIEF, Retire(k, SAVED, Resampled(Some(ShortList), [YES, YES]), 0))
    ensures at.rows == map[k := SAVED_ROW] && at.queries == [Done] && at.kept == map[0 := {k}]
  {
    steps, at := NextSession(k);
    TwoYes();
    assert OldBucket(at, k) == Some(ShortList);
    assert at.rows[k] == SAVED_ROW && Selected(SAVED_ROW, LATER_BRIEF, OptIn(true, true));
    steps, at := Continue(steps, at, StartRejudge(k, [YES, YES]));
  }

  /** The saved person's verdict, logged and cleared for a re-judge that will restore it. */
  lemma ClearedSave(k: Key) returns (steps: seq<Step>, at: State)
    ensures Legal(Start([Queued]), steps) && After(Start([Queued]), steps) == at
    ensures at.landed == [k] && at.limbo == map[k := SAVED]
    ensures at.process == Up(LATER_BRIEF, Judge(k, Resampled(Some(ShortList), [YES, YES]), 0))
    ensures at.rows == map[k := Row(FullTerminal, None, true, false, false, "hash")]
    ensures at.queries == [Done] && at.kept == map[0 := {k}]
  {
    steps, at := Retiring(k);
    steps, at := Continue(steps, at, LogOld);
    steps, at := Continue(steps, at, ClearOld);
  }

  /** ... and cut after its attempt is opened. */
  lemma RejudgeCut(k: Key) returns (steps: seq<Step>, at: State)
    ensures Legal(Start([Queued]), steps) && After(Start([Queued]), steps) == at
    ensures at.process == Down && at.landed == [k] && k in at.halved
    ensures at.rows == map[k := Row(FullStarted, None, true, true, false, "hash")]
  {
    steps, at := ClearedSave(k);
    steps, at := Stage(steps, at);
    steps, at := Continue(steps, at, Crash);
  }

  lemma PendingAfterCut(k: Key) returns (steps: seq<Step>, at: State)
    ensures Legal(Start([Queued]), steps) && After(Start([Queued]), steps) == at
    ensures at.process == Up(LATER_BRIEF, Judge(k, Fresh, 2)) && at.landed == [k] && k in at.halved
    ensures at.rows == map[k := Row(FullStarted, None, true, true, false, "hash")]
  {
    steps, at := RejudgeCut(k);
    steps, at := Boot(steps, at, LATER_BRIEF);
    assert at.rows == map[k := Row(FailedRetryable, None, true, false, false, "hash")];
    steps, at := Continue(steps, at, StartPending(k));
    steps, at := Stage(steps, at);
  }

  /** A re-judge whose two samples both saved, cut between its attempt and its verdict:
      the next session's pending pass judges the person on one fresh sample, and one
      reject takes a landed save off the slate. */
  lemma OneRejectAfterCut(k: Key) returns (steps: seq<Step>)
    ensures Legal(Start([Queued]), steps)
    ensures var t := After(Start([Queued]), steps);
            && t.landed == [k] && k in t.rows
            && t.rows[k].verdict == Some(Stored(Reject, Model, false, "fp2"))
  {
    var at;
    steps, at := PendingAfterCut(k);
    steps, at := Continue(steps, at, Decide(NO));
  }

  /** A cleared verdict on which a recruiter acts before the next session: the row stays
      cleared, and no resume takes it up. */
  lemma TouchedWhileCleared(k: Key, b: Brief) returns (steps: seq<Step>)
    ensures Legal(Start([Queued]), steps)
    ensures var t := After(Start([Queued]), steps);
            && t.process.Down? && t.queries == [Done] && 0 in t.kept && k in t.kept[0] && k in t.rows
            && ClearedRow(Reconciled(t.rows[k])) && t.rows[k].touched
            && !HasVerdict(Reconciled(t.rows[k])) && !TakenUp(Reconciled(t.rows[k]), b)
  {
    var at;
    steps, at := ClearedSave(k);
    steps, at := Continue(steps, at, Crash);
    steps, at := Continue(steps, at, Recruit(k));
    assert at.rows[k] == Row(FullTerminal, None, true, false, true, "hash");
  }
}
