/** What the crashes of a campaign's past say about each person's row. */
module CampaignHistory {
  import opened Wrappers
  import opened QueryStates
  import opened Verdicts
  import opened Rejudge
  import opened Lifecycle
  import opened Campaign
  import opened CampaignInvariant

  // ---- What a step leaves alone ----

  predicate Starts(step: Step) { step.StartPending? || step.StartRejudge? || step.StartReplay? }

  predicate Saves(step: Step) { step.BeginEffect? || step.WriteWorkspace? || step.CompleteEffect? }

  /** A task is taken up from rest, and nothing else changes. */
  ghost predicate TakesUp(s: State, t: State) {
    && AtRest(s) && t.process.Up? && t == s.(process := t.process)
    && match t.process.task
       case Retire(_, _, _, _) => true
       case Judge(_, _, w) => w == 0
       case SaveTo(_, w, _) => w == 0
       case _ => false
  }

  lemma StartTakesUp(s: State, step: Step)
    requires Enabled(s, step) && Starts(step)
    ensures TakesUp(s, Apply(s, step))
  {
  }

  /** Only effects and what is known of them change, in a save. */
  ghost predicate SavesOnly(s: State, t: State) {
    && s.process.Up? && s.process.task.SaveTo? && t.process.Up? && (t.process.task.SaveTo? || t.process.task.Idle?)
    && t == s.(process := t.process, effects := t.effects, writes := t.writes, landed := t.landed)
  }

  lemma SaveSavesOnly(s: State, step: Step)
    requires Enabled(s, step) && Saves(step)
    ensures SavesOnly(s, Apply(s, step))
  {
  }

  /** The person a step writes about, when it writes about one. */
  ghost function Subject(s: State, step: Step): Option<Key>
    requires Enabled(s, step)
  {
    match step
    case Persist => Some(s.process.task.todo[0])
    case ClearOld => Some(s.process.task.k)
    case MarkStage => Some(s.process.task.k)
    case OpenAttempt => Some(s.process.task.k)
    case Decide(_) => Some(s.process.task.k)
    case _ => None
  }

  /** The person as another state has them: their row but for a reconcile or a recruiter's
      mark, and not newly in the middle of being persisted or judged. */
  ghost predicate SamePerson(s: State, t: State, k: Key)
    requires k in s.rows
  {
    && k in t.rows
    && (t.rows[k] == s.rows[k] || t.rows[k] == Reconciled(s.rows[k]) || t.rows[k] == s.rows[k].(touched := true))
    && (BetweenStageWrites(t, k) ==> BetweenStageWrites(s, k))
    && (Persisting(t, k) ==> Persisting(s, k))
  }

  /** A step leaves everybody alone but the one it writes about. */
  lemma RowsElsewhere(s: State, step: Step, k: Key)
    requires Enabled(s, step) && k in s.rows && Subject(s, step) != Some(k)
    ensures SamePerson(s, Apply(s, step), k)
  {
    if Starts(step) {
      StartTakesUp(s, step);
      OthersStay(s, Apply(s, step), k);
    } else if Saves(step) {
      SaveSavesOnly(s, step);
      OthersStay(s, Apply(s, step), k);
    } else if JudgesOrSaves(step) {
      JudgingKeepsOthers(s, step, k);
    } else {
      SessionKeepsOthers(s, step, k);
    }
  }

  lemma SessionKeepsOthers(s: State, step: Step, k: Key)
    requires Enabled(s, step) && k in s.rows && Subject(s, step) != Some(k) && !JudgesOrSaves(step)
    ensures SamePerson(s, Apply(s, step), k)
  {
  }

  lemma JudgingKeepsOthers(s: State, step: Step, k: Key)
    requires Enabled(s, step) && k in s.rows && JudgesOrSaves(step) && !Starts(step) && !Saves(step)
    requires Subject(s, step) != Some(k)
    ensures SamePerson(s, Apply(s, step), k)
  {
  }

  lemma OthersStay(s: State, t: State, k: Key)
    requires k in s.rows && (TakesUp(s, t) || SavesOnly(s, t))
    ensures SamePerson(s, t, k)
  {
  }

  ghost predicate Persisting(s: State, k: Key) {
    && s.process.Up? && s.process.task.Harvest? && s.process.task.w > 0
    && s.process.task.todo != [] && s.process.task.todo[0] == k
  }

  /** A person whose judgment was cut between its two starting writes. */
  ghost predicate Abandoned(s: State, k: Key) {
    k in s.rows && Stranded(s.rows[k]) && !BetweenStageWrites(s, k)
  }

  lemma NotSubject(s: State, step: Step, k: Key)
    requires Inv(s) && Enabled(s, step) && k in s.rows
    requires Abandoned(s, k) || (!s.rows[k].record && !Persisting(s, k))
    ensures Subject(s, step) != Some(k)
  {
    if s.process.Up? && s.process.task.Harvest? { NotPersisted(s, k); }
    if s.process.Up? && s.process.task.Retire? { NotRetired(s, k); }
    if s.process.Up? && s.process.task.Judge? { NotJudged(s, k); }
  }

  lemma NotPersisted(s: State, k: Key)
    requires Inv(s) && k in s.rows && s.process.Up? && s.process.task.Harvest?
    requires Abandoned(s, k) || (!s.rows[k].record && !Persisting(s, k))
    ensures s.process.task.todo != [] ==> s.process.task.todo[0] != k
  {
    assert TaskOk(s);
  }

  lemma NotRetired(s: State, k: Key)
    requires Inv(s) && k in s.rows && s.process.Up? && s.process.task.Retire?
    requires Abandoned(s, k) || !s.rows[k].record
    ensures s.process.task.k != k
  {
    assert RowOk(s, k) && TaskOk(s);
  }

  lemma NotJudged(s: State, k: Key)
    requires Inv(s) && k in s.rows && s.process.Up? && s.process.task.Judge?
    requires Abandoned(s, k) || !s.rows[k].record
    ensures s.process.task.k != k
  {
    assert TaskOk(s);
  }

  // ---- The past, person by person ----

  /** The row exists and its snippet attempt, which carries the record, does not yet. */
  ghost predicate Unwritten(s: State, k: Key) { Persisting(s, k) && s.process.task.w < 3 }

  ghost predicate Resampling(s: State, k: Key) {
    s.process.Up? && s.process.task.Judge? && s.process.task.k == k && s.process.task.src.Resampled?
  }

  /** A cut person is abandoned; a halved one waits, its verdict cleared, for a fresh judgment;
      a row has no record exactly when it is being persisted or a crash kept it from being. */
  ghost predicate PastOk(s: State, k: Key) {
    && (k in s.cut ==> Abandoned(s, k))
    && (k in s.halved ==>
          k in s.limbo && k in s.rows && (s.rows[k].life == FullStarted || s.rows[k].life == FailedRetryable) && !Resampling(s, k))
    && (k in s.unwritten ==> k in s.rows && !Unwritten(s, k))
    && (k in s.rows ==> (!s.rows[k].record <==> k in s.unwritten || Unwritten(s, k)))
  }

  ghost predicate History(s: State) { forall k :: k in s.rows || k in s.cut || k in s.halved || k in s.unwritten ==> PastOk(s, k) }

  lemma HistoryAt(s: State, k: Key)
    requires History(s)
    ensures PastOk(s, k)
  {
  }

  lemma CrashPast(s: State, k: Key)
    requires Inv(s) && Enabled(s, Crash) && PastOk(s, k)
    ensures PastOk(Apply(s, Crash), k)
  {
    if k in s.rows { assert RowOk(s, k); }
    if s.process.Up? {
      if s.process.task.Judge? { JudgeCutPast(s, k); }
      if s.process.task.Harvest? { PersistCutPast(s, k); }
    }
  }

  lemma JudgeCutPast(s: State, k: Key)
    requires Inv(s) && s.process.Up? && s.process.task.Judge? && PastOk(s, k)
    ensures PastOk(Apply(s, Crash), k)
  {
    assert TaskOk(s);
  }

  lemma PersistCutPast(s: State, k: Key)
    requires Inv(s) && s.process.Up? && s.process.task.Harvest? && PastOk(s, k)
    ensures PastOk(Apply(s, Crash), k)
  {
    assert TaskOk(s);
  }

  lemma PersistPast(s: State, k: Key)
    requires Inv(s) && Enabled(s, Persist) && PastOk(s, k)
    ensures PastOk(Apply(s, Persist), k)
  {
    assert TaskOk(s);
    if k in s.rows { assert RowOk(s, k); }
    if k in s.limbo { assert LimboOk(s, k); }
  }

  /** A judgment's own writes, seen from the person judged. */
  lemma JudgedPast(s: State, step: Step, k: Key)
    requires Inv(s) && Enabled(s, step) && PastOk(s, k) && Subject(s, step) == Some(k) && !step.Persist?
    ensures PastOk(Apply(s, step), k)
  {
    assert TaskOk(s) && RowOk(s, k);
    match step
    case ClearOld =>
    case MarkStage =>
    case OpenAttempt =>
    case Decide(_) =>
  }

  lemma StartPast(s: State, step: Step, k: Key)
    requires Inv(s) && Enabled(s, step) && PastOk(s, k) && Starts(step)
    ensures PastOk(Apply(s, step), k)
  {
    StartTakesUp(s, step);
    if step.StartRejudge? && k in s.halved { NotHalved(s, k, step.samples); }
    if k in s.rows { assert RowOk(s, k); }
    TaskPast(s, Apply(s, step), k);
  }

  lemma NotHalved(s: State, k: Key, samples: seq<Outcome>)
    requires Inv(s) && PastOk(s, k) && k in s.halved
    ensures !Enabled(s, StartRejudge(k, samples))
  {
  }

  lemma TaskPast(s: State, t: State, k: Key)
    requires Inv(s) && PastOk(s, k) && TakesUp(s, t) && (k in s.halved ==> !Resampling(t, k))
    ensures PastOk(t, k)
  {
  }

  /** Every other step leaves the past as it was. */
  lemma OtherPast(s: State, step: Step, k: Key)
    requires Inv(s) && Enabled(s, step) && PastOk(s, k)
    requires !step.Crash? && !step.Persist? && !Starts(step)
    requires Subject(s, step) != Some(k)
    ensures PastOk(Apply(s, step), k)
  {
    if k in s.rows {
      RowsElsewhere(s, step, k);
      assert RowOk(s, k);
    }
    SetsElsewhere(s, step, k);
  }

  /** What the crashes left, as another state has it for this person. */
  ghost predicate SamePast(s: State, t: State, k: Key) {
    && (k in t.cut <==> k in s.cut) && (k in t.halved <==> k in s.halved) && (k in t.unwritten <==> k in s.unwritten)
    && (k in t.limbo <==> k in s.limbo) && (k in t.rows <==> k in s.rows)
    && (Resampling(t, k) ==> Resampling(s, k)) && (Unwritten(t, k) <==> Unwritten(s, k))
  }

  lemma SetsElsewhere(s: State, step: Step, k: Key)
    requires Inv(s) && Enabled(s, step)
    requires !step.Crash? && !step.Persist? && !Starts(step)
    requires Subject(s, step) != Some(k)
    ensures SamePast(s, Apply(s, step), k)
  {
    if JudgesOrSaves(step) { JudgingKeepsPast(s, step, k); } else { SessionKeepsPast(s, step, k); }
  }

  lemma SessionKeepsPast(s: State, step: Step, k: Key)
    requires Inv(s) && Enabled(s, step) && !JudgesOrSaves(step) && !step.Crash? && !step.Persist?
    ensures SamePast(s, Apply(s, step), k)
  {
    if s.process.Up? { assert TaskOk(s); }
  }

  lemma JudgingKeepsPast(s: State, step: Step, k: Key)
    requires Enabled(s, step) && JudgesOrSaves(step) && !Starts(step)
    requires Subject(s, step) != Some(k)
    ensures SamePast(s, Apply(s, step), k)
  {
    if Saves(step) {
      SaveSavesOnly(s, step);
      SavingKeepsPast(s, Apply(s, step), k);
    }
  }

  lemma SavingKeepsPast(s: State, t: State, k: Key)
    requires SavesOnly(s, t)
    ensures SamePast(s, t, k)
  {
  }

  lemma StepKeepsHistory(s: State, step: Step)
    requires Inv(s) && History(s) && Enabled(s, step)
    ensures History(Apply(s, step))
  {
    forall k ensures PastOk(Apply(s, step), k) {
      HistoryAt(s, k);
      if step.Crash? { CrashPast(s, k); }
      else if step.Persist? { PersistPast(s, k); }
      else if Starts(step) { StartPast(s, step, k); }
      else if Subject(s, step) == Some(k) { JudgedPast(s, step, k); }
      else { OtherPast(s, step, k); }
    }
  }

  lemma {:induction false} RunKeepsHistory(s: State, steps: seq<Step>)
    requires Inv(s) && History(s) && Legal(s, steps)
    ensures Inv(After(s, steps)) && History(After(s, steps))
    decreases |steps|
  {
    if steps != [] {
      StepKeeps(s, steps[0]);
      StepKeepsHistory(s, steps[0]);
      RunKeepsHistory(Apply(s, steps[0]), steps[1..]);
    }
  }

  // ---- How often a person is written ----

  function Times(ks: seq<Key>, k: Key): nat { multiset(ks)[k] }

  /** How many writes of the workspace were made for a person. */
  function WritesFor(writes: seq<(Key, Brief, Row)>, k: Key): nat {
    if writes == [] then 0
    else WritesFor(writes[..|writes| - 1], k) + if writes[|writes| - 1].0 == k then 1 else 0
  }

  lemma {:induction false} WritesForIs(writes: seq<(Key, Brief, Row)>, k: Key)
    ensures WritesFor(writes, k) > 0 <==> Written(writes, k)
  {
    if writes != [] {
      var n := |writes| - 1;
      WritesForIs(writes[..n], k);
      if i :| 0 <= i < |writes| && writes[i].0 == k && i < n { assert writes[..n][i].0 == k; }
      if i :| 0 <= i < |writes[..n]| && writes[..n][i].0 == k { assert writes[i].0 == k; }
    }
  }

  /** The process has written this person and not recorded it yet. */
  ghost predicate Unconfirmed(s: State, k: Key) {
    s.process.Up? && s.process.task.SaveTo? && s.process.task.k == k && s.process.task.w == 2 && s.process.task.wrote
  }

  /** Each write is recorded as landed, lost to a crash, or about to be either. */
  ghost predicate WritesOf(s: State, k: Key) {
    WritesFor(s.writes, k) == Times(s.unrecorded, k) + Times(s.landed, k) + if Unconfirmed(s, k) then 1 else 0
  }

  /** The writes and what became of them, as another state has them. */
  ghost predicate SameWrites(s: State, t: State, k: Key) {
    && t.writes == s.writes && t.unrecorded == s.unrecorded && t.landed == s.landed
    && (Unconfirmed(t, k) <==> Unconfirmed(s, k))
  }

  predicate Confirms(step: Step) { step.Crash? || step.WriteWorkspace? || step.CompleteEffect? }

  lemma StepCountsWrites(s: State, step: Step, k: Key)
    requires Enabled(s, step) && WritesOf(s, k)
    ensures WritesOf(Apply(s, step), k)
  {
    if step.Crash? { CrashCountsWrites(s, k); }
    else if step.WriteWorkspace? { WriteCounts(s, step.ok, k); }
    else if step.CompleteEffect? { CompleteCounts(s, k); }
    else if Starts(step) { StartTakesUp(s, step); }
    else if JudgesOrSaves(step) { JudgingKeepsWrites(s, step, k); }
    else { SessionKeepsWrites(s, step, k); }
  }

  lemma SessionKeepsWrites(s: State, step: Step, k: Key)
    requires Enabled(s, step) && !JudgesOrSaves(step) && !Confirms(step)
    ensures SameWrites(s, Apply(s, step), k)
  {
  }

  lemma JudgingKeepsWrites(s: State, step: Step, k: Key)
    requires Enabled(s, step) && JudgesOrSaves(step) && !Confirms(step) && !Starts(step)
    ensures SameWrites(s, Apply(s, step), k)
  {
  }

  lemma CrashCountsWrites(s: State, k: Key)
    requires Enabled(s, Crash) && WritesOf(s, k)
    ensures WritesOf(Apply(s, Crash), k)
  {
  }

  lemma WriteCounts(s: State, ok: bool, k: Key)
    requires Enabled(s, WriteWorkspace(ok)) && WritesOf(s, k)
    ensures WritesOf(Apply(s, WriteWorkspace(ok)), k)
  {
    if ok { assert Apply(s, WriteWorkspace(ok)).writes[..|s.writes|] == s.writes; }
  }

  lemma CompleteCounts(s: State, k: Key)
    requires Enabled(s, CompleteEffect) && WritesOf(s, k)
    ensures WritesOf(Apply(s, CompleteEffect), k)
  {
  }

  lemma {:induction false} RunCountsWrites(s: State, steps: seq<Step>, k: Key)
    requires Legal(s, steps) && WritesOf(s, k)
    ensures WritesOf(After(s, steps), k)
    decreases |steps|
  {
    if steps != [] {
      StepCountsWrites(s, steps[0], k);
      RunCountsWrites(Apply(s, steps[0]), steps[1..], k);
    }
  }
}
