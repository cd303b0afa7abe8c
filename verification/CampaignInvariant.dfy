/** What every step of a campaign keeps. */
module CampaignInvariant {
  import opened Wrappers
  import opened QueryStates
  import opened Verdicts
  import opened Rejudge
  import opened Lifecycle
  import opened Campaign

  /** The live process holds the person's open attempt, or no process has reconciled yet. */
  ghost predicate OpenOwned(s: State, k: Key) {
    || s.process.Down?
    || (s.process.Booting? && s.process.w == 0)
    || (s.process.Up? && s.process.task.Harvest? && s.process.task.w == 3
        && s.process.task.todo != [] && s.process.task.todo[0] == k)
    || (s.process.Up? && s.process.task.Judge? && s.process.task.k == k && s.process.task.w == 2)
  }

  ghost predicate BetweenStageWrites(s: State, k: Key) {
    s.process.Up? && s.process.task.Judge? && s.process.task.k == k && s.process.task.w == 1
  }

  ghost predicate RowOk(s: State, k: Key)
    requires k in s.rows
  {
    var r := s.rows[k];
    && (r.open ==> r.record && (r.life == Discovered || r.life == FullStarted) && OpenOwned(s, k))
    && (r.verdict.Some? ==> r.life == FullTerminal)
    && (r.life != Discovered ==> r.record)
    && (r.life == Discovered && r.record ==> r.open)
    && (Stranded(r) ==> k in s.cut || BetweenStageWrites(s, k))
    && (ClearedRow(r) ==> k in s.limbo)
  }

  ghost predicate LimboOk(s: State, k: Key)
    requires k in s.limbo
  {
    && k in s.rows
    && s.rows[k].verdict.None?
    && LastLogged(s.events, k) == Some(s.limbo[k])
    && s.rows[k].life != Discovered && s.rows[k].life != SnippetExtracted
    && (s.rows[k].life == FailedRetryable ==> k in s.halved)
    && (s.rows[k].open && !s.process.Up? ==> k in s.halved)
  }

  ghost predicate SourceOk(s: State, k: Key, src: Source, prior: Option<Stored>)
    requires s.process.Up?
  {
    match src
    case Fresh => prior.Some? ==> s.process.brief.Of(k).Gated()
    case Resampled(before, samples) =>
      prior.Some? && before == Some(Classify(prior.value.decision)) && Settles(before, samples)
  }

  ghost predicate TaskOk(s: State)
    requires s.process.Up?
  {
    match s.process.task
    case Idle => true
    case Running(q) => q < |s.queries| && s.queries[q] == InProgress
    case Harvest(q, todo, kept, w) =>
      && q < |s.queries| && s.queries[q] == InProgress && w <= 3 && Distinct(todo)
      && (forall k :: k in kept ==> k in s.rows && s.rows[k].life != Discovered && k !in todo)
      && (forall i :: (if w == 0 then 0 else 1) <= i < |todo| ==> todo[i] !in s.rows)
      && (w > 0 ==>
            && todo != [] && todo[0] in s.rows && s.rows[todo[0]].life == Discovered
            && (w == 3 <==> s.rows[todo[0]].open))
    case Retire(k, prior, src, w) =>
      && k in s.rows && w <= 1 && s.rows[k].life == FullTerminal && s.rows[k].verdict == Some(prior)
      && SourceOk(s, k, src, Some(prior))
      && (w == 1 ==> LastLogged(s.events, k) == Some(prior))
    case Judge(k, src, w) =>
      && k in s.rows && w <= 2 && s.rows[k].verdict.None? && s.rows[k].record
      && (w == 0 ==> s.rows[k].life != Discovered && s.rows[k].life != FullStarted)
      && (w > 0 ==> s.rows[k].life == FullStarted)
      && (w == 2 <==> s.rows[k].open)
      && (src.Resampled? ==> k in s.limbo)
      && (k in s.limbo ==> SourceOk(s, k, src, Some(s.limbo[k])) || (src == Fresh && k in s.halved))
    case SaveTo(k, w, wrote) =>
      && k in s.rows && w <= 2 && HasVerdict(s.rows[k])
      && ReplayWrites(s.process.brief.Of(k), s.rows[k].verdict.value, false)
      && (w > 0 ==> EffectOf(s, k).Some? && s.effects[k].status == Pending)
      && (wrote ==> w == 2 && Written(s.writes, k))
  }

  ghost predicate Written(writes: seq<(Key, Brief, Row)>, k: Key) {
    exists i :: 0 <= i < |writes| && writes[i].0 == k
  }

  /** A pending effect belongs to the live process, or waits for the next reconcile. */
  ghost predicate PendingOwned(s: State, k: Key) {
    || s.process.Down?
    || (s.process.Booting? && s.process.w < 2)
    || (s.process.Up? && s.process.task.SaveTo? && s.process.task.k == k && s.process.task.w > 0)
  }

  ghost predicate EffectsOk(s: State) {
    && (forall k :: k in s.effects && s.effects[k].status == Pending ==> PendingOwned(s, k))
    && (forall k :: k in s.landed <==> Landed(EffectOf(s, k)))
    && Distinct(s.landed)
    && (forall k :: k in s.landed ==> Written(s.writes, k))
  }

  /** A workspace write was made on a durable short-list verdict that the gates, the
      scope check and the split rule of that session's brief all let through. */
  ghost predicate WriteOk(w: (Key, Brief, Row)) {
    HasVerdict(w.2) && ReplayWrites(w.1.Of(w.0), w.2.verdict.value, false)
  }

  ghost predicate QueriesOk(s: State) {
    && (forall q: nat :: q in s.kept <==> q < |s.queries| && s.queries[q] == Done)
    && (forall q, k :: q in s.kept && k in s.kept[q] ==> k in s.rows && s.rows[k].life != Discovered)
  }

  ghost predicate Inv(s: State) {
    && (s.process.Up? ==> TaskOk(s))
    && RowsOk(s)
    && LimbosOk(s)
    && EffectsOk(s)
    && WritesOk(s)
    && QueriesOk(s)
  }

  ghost predicate RowsOk(s: State) { forall k :: k in s.rows ==> RowOk(s, k) }

  ghost predicate LimbosOk(s: State) { forall k :: k in s.limbo ==> LimboOk(s, k) }

  ghost predicate WritesOk(s: State) { forall i :: 0 <= i < |s.writes| ==> WriteOk(s.writes[i]) }

  lemma InitialInv(s: State)
    requires Initial(s)
    ensures Inv(s)
  {
  }

  // ---- One step ----

  lemma CrashKeeps(s: State)
    requires Inv(s) && Enabled(s, Crash)
    ensures Inv(Apply(s, Crash))
  {
    var t := Apply(s, Crash);
    forall k | k in s.rows && BetweenStageWrites(s, k) ensures k in t.cut { }
    forall k | k in s.limbo && s.rows[k].open && s.process.Up? ensures k in t.halved {
      assert LimboOk(s, k) && RowOk(s, k);
    }
    DownKeeps(s, t);
  }

  /** Losing the process keeps everything durable, as long as what it was in the middle of is
      on record. */
  lemma DownKeeps(s: State, t: State)
    requires Inv(s) && t == s.(process := Down, cut := t.cut, halved := t.halved, unwritten := t.unwritten, unrecorded := t.unrecorded)
    requires s.cut <= t.cut && s.halved <= t.halved
    requires forall k :: k in s.rows && BetweenStageWrites(s, k) ==> k in t.cut
    requires forall k :: k in s.limbo && k in s.rows && s.rows[k].open && s.process.Up? ==> k in t.halved
    ensures Inv(t)
  {
    forall k | k in t.rows ensures RowOk(t, k) { assert RowOk(s, k); }
    forall k | k in t.limbo ensures LimboOk(t, k) { assert LimboOk(s, k); }
  }

  lemma BootKeeps(s: State, step: Step)
    requires Inv(s) && Enabled(s, step)
    requires step.Launch? || step.ReconcileAttempts? || step.ReconcileEffects? || step.Ready?
    ensures Inv(Apply(s, step))
  {
    var t := Apply(s, step);
    forall k | k in t.rows ensures RowOk(t, k) { assert RowOk(s, k); }
    forall k | k in t.limbo ensures LimboOk(t, k) { assert LimboOk(s, k); assert RowOk(s, k); }
    assert EffectsOk(t);
    assert QueriesOk(t);
  }

  lemma ReplanKeeps(s: State, qs: seq<QueryStatus>)
    requires Inv(s) && Enabled(s, Replan(qs))
    ensures Inv(Apply(s, Replan(qs)))
  {
    var t := Apply(s, Replan(qs));
    forall k | k in t.rows ensures RowOk(t, k) { assert RowOk(s, k); }
    forall k | k in t.limbo ensures LimboOk(t, k) { assert LimboOk(s, k); }
  }

  lemma RecruitKeeps(s: State, p: Key)
    requires Inv(s) && Enabled(s, Recruit(p))
    ensures Inv(Apply(s, Recruit(p)))
  {
    var t := Apply(s, Recruit(p));
    forall k | k in t.rows ensures RowOk(t, k) { assert RowOk(s, k); }
    forall k | k in t.limbo ensures LimboOk(t, k) { assert LimboOk(s, k); }
    if t.process.Up? { RecruitTask(s, p); }
  }

  lemma RecruitTask(s: State, p: Key)
    requires Inv(s) && Enabled(s, Recruit(p)) && s.process.Up?
    ensures TaskOk(Apply(s, Recruit(p)))
  {
    assert TaskOk(s);
  }

  /** What the query steps leave alone is the rows, the effects and the writes. */
  lemma RowsUntouched(s: State, t: State)
    requires Inv(s) && s.process.Up? && t.process.Up?
    requires t == s.(queries := t.queries, kept := t.kept, searches := t.searches, process := t.process)
    requires !s.process.task.Judge? && !s.process.task.SaveTo?
    requires s.process.task.Harvest? ==> s.process.task.w == 0
    ensures RowsOk(t) && LimbosOk(t) && EffectsOk(t) && WritesOk(t)
  {
    forall k | k in t.rows ensures RowOk(t, k) { assert RowOk(s, k); }
    forall k | k in t.limbo ensures LimboOk(t, k) { assert LimboOk(s, k); }
  }

  lemma QueryKeeps(s: State, step: Step)
    requires Inv(s) && Enabled(s, step)
    requires step.OpenQuery? || step.Search? || step.Requeue?
    ensures Inv(Apply(s, step))
  {
    RowsUntouched(s, Apply(s, step));
  }

  lemma CloseKeeps(s: State, noted: bool)
    requires Inv(s) && Enabled(s, CloseQuery(noted))
    ensures Inv(Apply(s, CloseQuery(noted)))
  {
    var t := Apply(s, CloseQuery(noted));
    assert TaskOk(s);
    RowsUntouched(s, t);
    var q := s.process.task.q;
    assert q !in s.kept;
    forall p, k | p in t.kept && k in t.kept[p] ensures k in t.rows && t.rows[k].life != Discovered {
      if p == q { assert k in s.process.task.kept; }
    }
  }

  lemma PersistKeeps(s: State)
    requires Inv(s) && Enabled(s, Persist)
    ensures Inv(Apply(s, Persist))
  {
    PersistRows(s);
    PersistTask(s);
    PersistOthers(s);
  }

  lemma PersistOthers(s: State)
    requires Inv(s) && Enabled(s, Persist)
    ensures var t := Apply(s, Persist); EffectsOk(t) && WritesOk(t) && QueriesOk(t)
  {
    var t := Apply(s, Persist);
    assert TaskOk(s);
    forall q, k | q in t.kept && k in t.kept[q] ensures k in t.rows && t.rows[k].life != Discovered {
      assert k in s.rows && s.rows[k].life != Discovered;
    }
  }

  lemma PersistRows(s: State)
    requires Inv(s) && Enabled(s, Persist)
    ensures RowsOk(Apply(s, Persist)) && LimbosOk(Apply(s, Persist))
  {
    var t := Apply(s, Persist);
    var p := s.process.task.todo[0];
    assert TaskOk(s);
    assert p !in s.limbo;
    forall k | k in t.rows ensures RowOk(t, k) { if k in s.rows { assert RowOk(s, k); } }
    forall k | k in t.limbo ensures LimboOk(t, k) { assert LimboOk(s, k); }
  }

  lemma PersistTask(s: State)
    requires Inv(s) && Enabled(s, Persist)
    ensures TaskOk(Apply(s, Persist))
  {
    var t := Apply(s, Persist);
    var h := s.process.task;
    assert TaskOk(s);
    assert forall k :: k in t.rows ==> k in s.rows || k == h.todo[0];
    if h.w == 3 {
      assert h.todo[0] !in h.todo[1..];
      assert forall i :: 0 <= i < |h.todo[1..]| ==> h.todo[1..][i] == h.todo[i + 1];
    }
  }

  lemma PendingKeeps(s: State, k: Key)
    requires Inv(s) && Enabled(s, StartPending(k))
    ensures Inv(Apply(s, StartPending(k)))
  {
    GotoKeeps(s, Apply(s, StartPending(k)));
    assert RowOk(s, k);
    if k in s.limbo { assert LimboOk(s, k); }
  }

  lemma ReplayKeeps(s: State, k: Key)
    requires Inv(s) && Enabled(s, StartReplay(k))
    ensures Inv(Apply(s, StartReplay(k)))
  {
    GotoKeeps(s, Apply(s, StartReplay(k)));
  }

  lemma RejudgeKeeps(s: State, k: Key, samples: seq<Outcome>)
    requires Inv(s) && Enabled(s, StartRejudge(k, samples))
    ensures Inv(Apply(s, StartRejudge(k, samples)))
  {
    GotoKeeps(s, Apply(s, StartRejudge(k, samples)));
    assert RowOk(s, k);
    if k in s.limbo { assert LimboOk(s, k); }
  }

  /** Taking up a task from rest changes nothing durable. */
  lemma GotoKeeps(s: State, t: State)
    requires Inv(s) && AtRest(s) && t.process.Up?
    requires t == s.(process := t.process) && !(t.process.task.Judge? && t.process.task.w > 0)
    ensures RowsOk(t) && LimbosOk(t) && EffectsOk(t) && WritesOk(t) && QueriesOk(t)
  {
    forall k | k in t.rows ensures RowOk(t, k) { assert RowOk(s, k); }
    forall k | k in t.limbo ensures LimboOk(t, k) { assert LimboOk(s, k); }
  }

  lemma LogKeeps(s: State)
    requires Inv(s) && Enabled(s, LogOld)
    ensures Inv(Apply(s, LogOld))
  {
    var t := Apply(s, LogOld);
    LogLimbos(s);
    forall k | k in t.rows ensures RowOk(t, k) { assert RowOk(s, k); }
    assert TaskOk(t) by { LastLoggedIs(s.events, s.process.task.k, s.process.task.prior); }
  }

  lemma LogLimbos(s: State)
    requires Inv(s) && Enabled(s, LogOld)
    ensures LimbosOk(Apply(s, LogOld))
  {
    var t := Apply(s, LogOld);
    assert s.process.task.k !in s.limbo;
    LastLoggedIs(s.events, s.process.task.k, s.process.task.prior);
    forall k | k in t.limbo ensures LimboOk(t, k) { assert LimboOk(s, k); }
  }

  lemma LastLoggedIs(events: seq<(Key, Stored)>, k: Key, v: Stored)
    ensures forall j :: LastLogged(events + [(k, v)], j) == if j == k then Some(v) else LastLogged(events, j)
  {
    assert (events + [(k, v)])[..|events|] == events;
  }

  lemma ClearKeeps(s: State)
    requires Inv(s) && Enabled(s, ClearOld)
    ensures Inv(Apply(s, ClearOld))
  {
    var t := Apply(s, ClearOld);
    forall k | k in t.rows ensures RowOk(t, k) { assert RowOk(s, k); }
    forall k | k in t.limbo ensures LimboOk(t, k) {
      if k in s.limbo { assert LimboOk(s, k); } else { assert RowOk(s, k); }
    }
    assert EffectsOk(t);
    assert QueriesOk(t);
    assert TaskOk(t);
  }

  lemma MarkKeeps(s: State)
    requires Inv(s) && Enabled(s, MarkStage)
    ensures Inv(Apply(s, MarkStage))
  {
    var t := Apply(s, MarkStage);
    forall k | k in t.rows ensures RowOk(t, k) { assert RowOk(s, k); }
    forall k | k in t.limbo ensures LimboOk(t, k) { assert LimboOk(s, k); }
  }

  lemma OpenKeeps(s: State)
    requires Inv(s) && Enabled(s, OpenAttempt)
    ensures Inv(Apply(s, OpenAttempt))
  {
    var t := Apply(s, OpenAttempt);
    forall k | k in t.rows ensures RowOk(t, k) { assert RowOk(s, k); }
    forall k | k in t.limbo ensures LimboOk(t, k) { assert LimboOk(s, k); }
  }

  lemma DecideKeeps(s: State, o: Outcome)
    requires Inv(s) && Enabled(s, Decide(o))
    ensures Inv(Apply(s, Decide(o)))
  {
    DecideRows(s, o);
    DecideLimbos(s, o);
    DecideTask(s, o);
  }

  lemma DecideRows(s: State, o: Outcome)
    requires Inv(s) && Enabled(s, Decide(o))
    ensures RowsOk(Apply(s, Decide(o)))
  {
    var t := Apply(s, Decide(o));
    DecisionSettles(s, o);
    forall k | k in t.rows ensures RowOk(t, k) { assert RowOk(s, k); }
  }

  lemma DecideLimbos(s: State, o: Outcome)
    requires Inv(s) && Enabled(s, Decide(o))
    ensures LimbosOk(Apply(s, Decide(o)))
  {
    var t := Apply(s, Decide(o));
    DecisionSettles(s, o);
    forall k | k in t.limbo ensures LimboOk(t, k) { assert LimboOk(s, k); }
  }

  lemma DecideTask(s: State, o: Outcome)
    requires Inv(s) && Enabled(s, Decide(o))
    ensures var t := Apply(s, Decide(o)); TaskOk(t) && EffectsOk(t) && WritesOk(t) && QueriesOk(t)
  {
    DecisionSettles(s, o);
  }

  /** A decision that returns the short list wrote a verdict a workspace write may follow,
      and a re-judge's decision always writes a verdict. */
  lemma DecisionSettles(s: State, o: Outcome)
    requires Inv(s) && Enabled(s, Decide(o))
    ensures var c, d := s.process.brief.Of(s.process.task.k), DecisionOf(s, o);
            && (d.bucket == ShortList ==> d.stored.Some? && ReplayWrites(c, d.stored.value, false))
            && (d.stored.None? <==> d.bucket == Failure)
            && (s.process.task.src.Resampled? ==> d.stored.Some?)
            && (c.Gated() ==> d.stored.Some?)
  {
    var t := s.process.task;
    var c := s.process.brief.Of(t.k);
    if t.src.Resampled? {
      assert TaskOk(s);
      SlateLeavesOnTwoRejects(t.src.oldBucket, t.src.samples);
    }
    var (x, split) := OutcomeOf(t.src, o);
    if JudgeOne(c, x, split, s.process.brief.fingerprint).stored.Some? {
      LiveReplaySlateAgree(c, x, split, s.process.brief.fingerprint, false);
    }
  }

  lemma SaveKeeps(s: State, step: Step)
    requires Inv(s) && Enabled(s, step)
    requires step.BeginEffect? || step.WriteWorkspace? || step.CompleteEffect?
    ensures Inv(Apply(s, step))
  {
    SaveRows(s, Apply(s, step));
    SaveEffects(s, step);
  }

  /** What a save leaves alone is the rows and the queries. */
  lemma SaveRows(s: State, t: State)
    requires Inv(s) && s.process.Up? && s.process.task.SaveTo? && t.process.Up? && (t.process.task.Idle? || t.process.task.SaveTo?)
    requires t == s.(effects := t.effects, landed := t.landed, writes := t.writes, process := t.process)
    ensures RowsOk(t) && LimbosOk(t) && QueriesOk(t)
  {
    forall k | k in t.rows ensures RowOk(t, k) { assert RowOk(s, k); }
    forall k | k in t.limbo ensures LimboOk(t, k) { assert LimboOk(s, k); }
  }

  lemma SaveEffects(s: State, step: Step)
    requires Inv(s) && Enabled(s, step)
    requires step.BeginEffect? || step.WriteWorkspace? || step.CompleteEffect?
    ensures EffectsOk(Apply(s, step)) && WritesOk(Apply(s, step)) && TaskOk(Apply(s, step))
  {
    match step
    case BeginEffect => BeginEffects(s);
    case WriteWorkspace(ok) => WriteEffects(s, ok);
    case CompleteEffect => CompleteEffects(s);
  }

  lemma BeginEffects(s: State)
    requires Inv(s) && Enabled(s, BeginEffect)
    ensures var t := Apply(s, BeginEffect); EffectsOk(t) && WritesOk(t) && TaskOk(t)
  {
    var t := Apply(s, BeginEffect);
    var p := s.process.task.k;
    assert TaskOk(s);
    BegunExecutes(EffectOf(s, p));
    assert forall k :: k != p ==> EffectOf(t, k) == EffectOf(s, k);
  }

  lemma WriteEffects(s: State, ok: bool)
    requires Inv(s) && Enabled(s, WriteWorkspace(ok))
    ensures var t := Apply(s, WriteWorkspace(ok)); EffectsOk(t) && WritesOk(t) && TaskOk(t)
  {
    var t := Apply(s, WriteWorkspace(ok));
    var p := s.process.task.k;
    assert TaskOk(s);
    forall k | Written(s.writes, k) ensures Written(t.writes, k) { WrittenGrows(s, t, k); }
    if ok { assert t.writes[|s.writes|].0 == p; }
  }

  lemma CompleteEffects(s: State)
    requires Inv(s) && Enabled(s, CompleteEffect)
    ensures var t := Apply(s, CompleteEffect); EffectsOk(t) && WritesOk(t) && TaskOk(t)
  {
    var t := Apply(s, CompleteEffect);
    var p := s.process.task.k;
    assert TaskOk(s);
    assert p !in s.landed;
    assert forall k :: k != p ==> EffectOf(t, k) == EffectOf(s, k);
    assert forall k :: k in t.landed <==> k in s.landed || (k == p && s.process.task.wrote);
  }

  lemma WrittenGrows(s: State, t: State, k: Key)
    requires Written(s.writes, k) && s.writes <= t.writes
    ensures Written(t.writes, k)
  {
    var i :| 0 <= i < |s.writes| && s.writes[i].0 == k;
    assert t.writes[i].0 == k;
  }

  // ---- Every run ----

  lemma StepKeeps(s: State, step: Step)
    requires Inv(s) && Enabled(s, step)
    ensures Inv(Apply(s, step))
  {
    if JudgesOrSaves(step) { JudgmentStepKeeps(s, step); } else { SessionStepKeeps(s, step); }
  }

  predicate JudgesOrSaves(step: Step) {
    || step.StartPending? || step.StartRejudge? || step.StartReplay? || step.LogOld? || step.ClearOld? || step.MarkStage?
    || step.OpenAttempt? || step.Decide? || step.BeginEffect? || step.WriteWorkspace? || step.CompleteEffect?
  }

  lemma SessionStepKeeps(s: State, step: Step)
    requires Inv(s) && Enabled(s, step) && !JudgesOrSaves(step)
    ensures Inv(Apply(s, step))
  {
    match step
    case Crash => CrashKeeps(s);
    case Launch(_) => BootKeeps(s, step);
    case ReconcileAttempts => BootKeeps(s, step);
    case ReconcileEffects => BootKeeps(s, step);
    case Ready => BootKeeps(s, step);
    case Replan(qs) => ReplanKeeps(s, qs);
    case Recruit(k) => RecruitKeeps(s, k);
    case OpenQuery(_) => QueryKeeps(s, step);
    case Search(_) => QueryKeeps(s, step);
    case Requeue => QueryKeeps(s, step);
    case CloseQuery(noted) => CloseKeeps(s, noted);
    case Persist => PersistKeeps(s);
  }

  lemma JudgmentStepKeeps(s: State, step: Step)
    requires Inv(s) && Enabled(s, step) && JudgesOrSaves(step)
    ensures Inv(Apply(s, step))
  {
    match step
    case StartPending(k) => PendingKeeps(s, k);
    case StartRejudge(k, samples) => RejudgeKeeps(s, k, samples);
    case StartReplay(k) => ReplayKeeps(s, k);
    case LogOld => LogKeeps(s);
    case ClearOld => ClearKeeps(s);
    case MarkStage => MarkKeeps(s);
    case OpenAttempt => OpenKeeps(s);
    case Decide(o) => DecideKeeps(s, o);
    case BeginEffect => SaveKeeps(s, step);
    case WriteWorkspace(_) => SaveKeeps(s, step);
    case CompleteEffect => SaveKeeps(s, step);
  }

  lemma {:induction false} RunKeeps(s: State, steps: seq<Step>)
    requires Inv(s) && Legal(s, steps)
    ensures Inv(After(s, steps))
    decreases |steps|
  {
    if steps != [] {
      StepKeeps(s, steps[0]);
      RunKeeps(Apply(s, steps[0]), steps[1..]);
    }
  }
}
