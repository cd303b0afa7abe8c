/** What holds over every run of a campaign: any number of sessions, a crash between
    any two durable writes, any briefs, any search results, any verdicts. */
module CampaignTheorems {
  import opened Wrappers
  import opened QueryStates
  import opened Verdicts
  import opened Rejudge
  import opened Lifecycle
  import opened Campaign
  import opened CampaignInvariant
  import opened CampaignHistory

  lemma {:induction false} Reached(s: State, steps: seq<Step>)
    requires Initial(s) && Legal(s, steps)
    ensures Inv(After(s, steps)) && History(After(s, steps))
  {
    InitialInv(s);
    RunKeepsHistory(s, steps);
  }

  lemma {:induction false} Extend(s: State, steps: seq<Step>, step: Step)
    requires Legal(s, steps) && Enabled(After(s, steps), step)
    ensures Legal(s, steps + [step])
    ensures After(s, steps + [step]) == Apply(After(s, steps), step)
    decreases |steps|
  {
    if steps == [] {
      assert steps + [step] == [step];
      assert Legal(Apply(s, step), []);
    } else {
      Extend(Apply(s, steps[0]), steps[1..], step);
      assert (steps + [step])[1..] == steps[1..] + [step];
    }
  }

  // ---- Nobody is lost ----

  /** Between sessions, every person the campaign ever found holds a verdict or is taken up by
      the next resume, unless one of three things happened: a crash fell before the write that
      carries their record, a crash fell between the two writes that start their judgment, or
      a recruiter decided about them while their verdict was cleared. */
  lemma EveryRowAccounted(s: State, steps: seq<Step>, k: Key, b: Brief)
    requires Initial(s) && Legal(s, steps) && After(s, steps).process.Down? && k in After(s, steps).rows
    ensures var t := After(s, steps); var r := Reconciled(t.rows[k]);
            && (HasVerdict(r) || TakenUp(r, b)
                <==> k !in t.unwritten && k !in t.cut && !(ClearedRow(r) && r.touched))
            && (!r.record <==> k in t.unwritten)
            && (Stranded(r) <==> k in t.cut)
            && (ClearedRow(r) ==> k in t.limbo)
  {
    Reached(s, steps);
    var t := After(s, steps);
    HistoryAt(t, k);
    assert RowOk(t, k);
  }

  /** Everyone kept from the run that completed a query has a stored record in every later
      state, and between sessions holds a verdict or is taken up by the next resume, unless a
      crash fell between the two writes that start their judgment, or a recruiter decided
      about them while their verdict was cleared. */
  lemma NobodyLost(s: State, steps: seq<Step>, q: nat, k: Key, b: Brief)
    requires Initial(s) && Legal(s, steps)
    requires var t := After(s, steps); q < |t.queries| && t.queries[q] == Done
    ensures var t := After(s, steps);
            && q in t.kept
            && (k in t.kept[q] ==>
                && k in t.rows && t.rows[k].record
                && (t.process.Down? ==>
                    var r := Reconciled(t.rows[k]);
                    && (HasVerdict(r) || TakenUp(r, b)
                        <==> k !in t.cut && !(ClearedRow(r) && r.touched))))
  {
    Reached(s, steps);
    var t := After(s, steps);
    if k in t.kept[q] {
      assert RowOk(t, k);
      if t.process.Down? { EveryRowAccounted(s, steps, k, b); }
    }
  }

  /** A completed query stays completed, and nothing ever searches it again. */
  lemma {:induction false} DoneIsNeverSearched(s: State, steps: seq<Step>, q: nat)
    requires Inv(s) && Legal(s, steps) && q < |s.queries| && s.queries[q] == Done
    ensures var t := After(s, steps);
            && q < |t.queries| && t.queries[q] == Done
            && multiset(t.searches)[q] == multiset(s.searches)[q]
            && q in s.kept && q in t.kept && t.kept[q] == s.kept[q]
    decreases |steps|
  {
    if steps != [] {
      DoneStays(s, steps[0], q);
      StepKeeps(s, steps[0]);
      DoneIsNeverSearched(Apply(s, steps[0]), steps[1..], q);
    }
  }

  lemma DoneStays(s: State, step: Step, q: nat)
    requires Inv(s) && Enabled(s, step) && q < |s.queries| && s.queries[q] == Done
    ensures var t := Apply(s, step);
            && q < |t.queries| && t.queries[q] == Done
            && multiset(t.searches)[q] == multiset(s.searches)[q]
            && q in s.kept && q in t.kept && t.kept[q] == s.kept[q]
  {
    assert QueriesOk(s);
    if s.process.Up? { assert TaskOk(s); }
    if !step.Replan? { QueriesElsewhere(s, step, q); }
  }

  /** The query as another state has it: its status, its searches and whom it kept. */
  ghost predicate SameQuery(s: State, t: State, q: nat)
    requires q < |s.queries|
  {
    && q < |t.queries| && t.queries[q] == s.queries[q]
    && multiset(t.searches)[q] == multiset(s.searches)[q]
    && (q in s.kept ==> q in t.kept && t.kept[q] == s.kept[q])
  }

  /** A step that is not about a query leaves it alone. */
  lemma QueriesElsewhere(s: State, step: Step, q: nat)
    requires Enabled(s, step) && !step.Replan? && q < |s.queries|
    requires step.OpenQuery? ==> step.q != q
    requires step.Search? || step.Requeue? || step.CloseQuery? ==> s.process.task.q != q
    ensures SameQuery(s, Apply(s, step), q)
  {
    if Starts(step) {
      StartTakesUp(s, step);
    } else if Saves(step) {
      SaveSavesOnly(s, step);
    } else if JudgesOrSaves(step) {
      JudgingKeepsQueries(s, step, q);
    } else if step.OpenQuery? || step.Search? || step.Requeue? || step.CloseQuery? {
      RunningKeepsOthers(s, step, q);
    } else {
      SessionKeepsQueries(s, step, q);
    }
  }

  lemma SessionKeepsQueries(s: State, step: Step, q: nat)
    requires Enabled(s, step) && !step.Replan? && q < |s.queries| && !JudgesOrSaves(step)
    requires !(step.OpenQuery? || step.Search? || step.Requeue? || step.CloseQuery?)
    ensures SameQuery(s, Apply(s, step), q)
  {
  }

  lemma RunningKeepsOthers(s: State, step: Step, q: nat)
    requires Enabled(s, step) && q < |s.queries|
    requires step.OpenQuery? ==> step.q != q
    requires step.Search? || step.Requeue? || step.CloseQuery? ==> s.process.task.q != q
    requires step.OpenQuery? || step.Search? || step.Requeue? || step.CloseQuery?
    ensures SameQuery(s, Apply(s, step), q)
  {
  }

  lemma JudgingKeepsQueries(s: State, step: Step, q: nat)
    requires Enabled(s, step) && q < |s.queries| && JudgesOrSaves(step) && !Starts(step) && !Saves(step)
    ensures SameQuery(s, Apply(s, step), q)
  {
  }

  /** Such a person is left alone by every later session. */
  lemma {:induction false} AbandonedForever(s: State, steps: seq<Step>, k: Key)
    requires Inv(s) && Legal(s, steps) && Abandoned(s, k)
    ensures var t := After(s, steps);
            Abandoned(t, k) && t.rows[k].(touched := false) == s.rows[k].(touched := false)
    decreases |steps|
  {
    if steps != [] {
      NotSubject(s, steps[0], k);
      RowsElsewhere(s, steps[0], k);
      StepKeeps(s, steps[0]);
      AbandonedForever(Apply(s, steps[0]), steps[1..], k);
    }
  }

  /** A person whose persistence was cut before the snippet attempt has a row and no
      record, and never gets one: the query's re-run finds them already seen. */
  lemma {:induction false} UnrecordedForever(s: State, steps: seq<Step>, k: Key)
    requires Inv(s) && Legal(s, steps) && k in s.rows && !s.rows[k].record && !Persisting(s, k)
    ensures var t := After(s, steps); k in t.rows && !t.rows[k].record && !Persisting(t, k)
    decreases |steps|
  {
    if steps != [] {
      NotSubject(s, steps[0], k);
      RowsElsewhere(s, steps[0], k);
      StepKeeps(s, steps[0]);
      UnrecordedForever(Apply(s, steps[0]), steps[1..], k);
    }
  }

  // ---- Effects ----

  /** A workspace effect is recorded as succeeded at most once per person, after a write
      that itself was made on a durable short-list verdict which the gates, the scope
      check and the split rule let through under that session's brief. */
  lemma SavedOnceAfterVerdict(s: State, steps: seq<Step>)
    requires Initial(s) && Legal(s, steps)
    ensures var t := After(s, steps);
            && Distinct(t.landed)
            && (forall k :: k in t.landed <==> Landed(EffectOf(t, k)))
            && (forall k :: k in t.landed ==> Written(t.writes, k))
            && forall i :: 0 <= i < |t.writes| ==>
                 var (k, b, r) := t.writes[i];
                 && r.life == FullTerminal && r.verdict.Some? && !r.verdict.value.split
                 && (r.verdict.value.decision == Save || r.verdict.value.decision == InferentialSave)
                 && k !in b.employer && k !in b.alumni && k !in b.outside && k !in b.outOfScope
  {
    Reached(s, steps);
    var t := After(s, steps);
    forall i | 0 <= i < |t.writes|
      ensures var (k, b, r) := t.writes[i];
              && r.life == FullTerminal && r.verdict.Some? && !r.verdict.value.split
              && (r.verdict.value.decision == Save || r.verdict.value.decision == InferentialSave)
              && k !in b.employer && k !in b.alumni && k !in b.outside && k !in b.outOfScope
    {
      var (k, b, r) := t.writes[i];
      assert WriteOk(t.writes[i]);
      ReplayByDecision(b.Of(k), r.verdict.value, false);
    }
  }

  /** A person is written to the workspace once for the record of it, if there is one, and once
      more for every crash that fell between a write and its record; so a write is made for
      nobody recorded as landed, and for a second time exactly after such a crash. */
  lemma WritesAccounted(s: State, steps: seq<Step>, k: Key)
    requires Initial(s) && Legal(s, steps)
    ensures var t := After(s, steps);
            && (!t.process.Up? || !t.process.task.SaveTo? ==>
                  WritesFor(t.writes, k) == Times(t.unrecorded, k) + if k in t.landed then 1 else 0)
            && (Enabled(t, WriteWorkspace(true)) && t.process.task.k == k ==>
                  && k !in t.landed && WritesFor(t.writes, k) == Times(t.unrecorded, k)
                  && (Written(t.writes, k) <==> k in t.unrecorded))
  {
    Reached(s, steps);
    RunCountsWrites(s, steps, k);
    var t := After(s, steps);
    OnceEach(t.landed, k);
    if Enabled(t, WriteWorkspace(true)) && t.process.task.k == k { WriteAhead(t); }
  }

  /** About to write somebody, the process has nobody's write on record for them. */
  lemma WriteAhead(t: State)
    requires Inv(t) && Enabled(t, WriteWorkspace(true)) && WritesOf(t, t.process.task.k)
    ensures var k := t.process.task.k;
            && k !in t.landed && WritesFor(t.writes, k) == Times(t.unrecorded, k)
            && (Written(t.writes, k) <==> k in t.unrecorded)
  {
    assert TaskOk(t) && EffectsOk(t);
    WritesForIs(t.writes, t.process.task.k);
    OnceEach(t.landed, t.process.task.k);
  }

  lemma {:induction false} OnceEach(ks: seq<Key>, k: Key)
    requires Distinct(ks)
    ensures Times(ks, k) == if k in ks then 1 else 0
  {
    if ks != [] {
      OnceEach(ks[..|ks| - 1], k);
      assert ks == ks[..|ks| - 1] + [ks[|ks| - 1]];
    }
  }

  // ---- Re-judging ----

  /** From the moment a verdict is cleared until another replaces it, the event log's
      newest entry about the person is that verdict.  Between sessions the re-judge pass
      finds the row cleared, unless the crash fell after `start_stage` began. */
  lemma ClearedVerdictLogged(s: State, steps: seq<Step>, k: Key)
    requires Initial(s) && Legal(s, steps) && k in After(s, steps).limbo
    ensures var t := After(s, steps);
            && k in t.rows && LastLogged(t.events, k) == Some(t.limbo[k])
            && (t.process.Down? ==>
                var r := Reconciled(t.rows[k]);
                && (ClearedRow(r) || PendingPass(r) || Stranded(r))
                && (PendingPass(r) ==> k in t.halved)
                && (Stranded(r) ==> k in t.cut))
  {
    Reached(s, steps);
    assert LimboOk(After(s, steps), k) && RowOk(After(s, steps), k);
  }

  /** A cleared slate verdict that becomes the model's reject does so on two rejecting samples
      exactly when no crash, since the person was last judged, cut a re-judge of theirs between
      its attempt and its verdict. */
  lemma TwoRejectsUnlessHalved(s: State, steps: seq<Step>, sample: Outcome)
    requires Initial(s) && Legal(s, steps) && Enabled(After(s, steps), Decide(sample))
    requires var t := After(s, steps);
             && t.process.task.k in t.limbo
             && OnSlate(Classify(t.limbo[t.process.task.k].decision))
             && DecisionOf(t, sample).stored.Some?
             && DecisionOf(t, sample).stored.value.path == Model
             && DecisionOf(t, sample).bucket == Rejected
    ensures var t := After(s, steps); var src := t.process.task.src;
            t.process.task.k !in t.halved <==>
              && src.Resampled? && |src.samples| == 2
              && forall i :: 0 <= i < |src.samples| ==> src.samples[i].bucket == Rejected
  {
    Reached(s, steps);
    var t := After(s, steps);
    HistoryAt(t, t.process.task.k);
    assert TaskOk(t);
    var src := t.process.task.src;
    if src.Resampled? {
      SlateLeavesOnTwoRejects(src.oldBucket, src.samples);
    }
  }

  // ---- The store's own guards ----

  /** No write of a session is ever refused by the store's lifecycle or save-family guard. */
  lemma GuardsNeverFire(s: State, steps: seq<Step>, step: Step)
    requires Initial(s) && Legal(s, steps) && Enabled(After(s, steps), step)
    ensures var t := After(s, steps);
            && (step.MarkStage? ==>
                  var k := t.process.task.k;
                  k in t.rows && Allowed(t.rows[k].life, FullStarted) && SaveGuard(t.rows[k], FullStarted))
            && (step.Persist? && t.process.task.w == 3 ==>
                  var k := t.process.task.todo[0];
                  k in t.rows && Allowed(t.rows[k].life, SnippetExtracted) && SaveGuard(t.rows[k], SnippetExtracted))
            && (step.Decide? ==>
                  var k := t.process.task.k;
                  k in t.rows && Allowed(t.rows[k].life, FullTerminal) && Allowed(t.rows[k].life, FailedRetryable))
            && (step.ReconcileAttempts? ==>
                  forall k :: k in t.rows && t.rows[k].open ==> Allowed(t.rows[k].life, FailedRetryable))
  {
    Reached(s, steps);
    var t := After(s, steps);
    assert t.process.Up? ==> TaskOk(t);
    forall k | k in t.rows && t.rows[k].open ensures Allowed(t.rows[k].life, FailedRetryable) {
      assert RowOk(t, k);
    }
  }
}
