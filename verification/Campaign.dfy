/** One Exa campaign as a transition system over its durable writes.

    Every step is one committed write of the live process, a decision of that process,
    a crash, or a recruiter's action from outside.  The passes of a session may run in
    any order here, which only adds behaviours.  `Session.dfy` runs them in theirs. */
module Campaign {
  import opened Wrappers
  import opened QueryStates
  import opened Verdicts
  import opened Rejudge
  import opened Lifecycle

  type Key = string

  /** What the brief a session was launched with says about each person. */
  datatype Brief = Brief(employer: set<Key>, alumni: set<Key>, outside: set<Key>,
                         outOfScope: set<Key>, fingerprint: string, hash: string)
  {
    function Of(k: Key): Checks {
      Checks(k in employer, k in alumni, k in outside, k in outOfScope)
    }
  }

  /** Where a judgment's outcome comes from: a fresh call, or a re-judge's samples. */
  datatype Source = Fresh | Resampled(oldBucket: Option<Bucket>, samples: seq<Outcome>)

  /** What the live process is in the middle of; `w` counts the writes already made. */
  datatype Task =
    | Idle
    | Running(q: nat)
    | Harvest(q: nat, todo: seq<Key>, kept: seq<Key>, w: nat)
    | Retire(k: Key, prior: Stored, src: Source, w: nat)
    | Judge(k: Key, src: Source, w: nat)
    | SaveTo(k: Key, w: nat, wrote: bool)

  datatype Process = Down | Booting(brief: Brief, w: nat) | Up(brief: Brief, task: Task)

  datatype State = State(
    // durable
    queries: seq<QueryStatus>, rows: map<Key, Row>, effects: map<Key, Effect>,
    events: seq<(Key, Stored)>,
    // volatile
    process: Process,
    // history, read by no step
    kept: map<nat, set<Key>>,        // whom the run that completed a query kept
    searches: seq<nat>,              // every search sent, by query
    landed: seq<Key>,                // every workspace effect recorded as succeeded
    writes: seq<(Key, Brief, Row)>,  // every workspace write, with what it was made on
    unrecorded: seq<Key>,            // crashed between a workspace write and its record
    cut: set<Key>,                   // crashed between the two writes of `start_stage`
    limbo: map<Key, Stored>,         // verdicts cleared and not replaced yet
    halved: set<Key>,                // re-judges crashed between attempt and verdict, not judged since
    unwritten: set<Key>)             // persisting crashed between the row and its snippet attempt

  datatype Step =
    | Crash
    | Launch(brief: Brief)
    | ReconcileAttempts
    | ReconcileEffects
    | Replan(queries: seq<QueryStatus>)
    | Ready
    | Recruit(k: Key)
    | OpenQuery(q: nat)
    | Search(found: seq<Key>)
    | Requeue
    | Persist
    | CloseQuery(noted: bool)
    | StartPending(k: Key)
    | StartRejudge(k: Key, samples: seq<Outcome>)
    | LogOld
    | ClearOld
    | MarkStage
    | OpenAttempt
    | Decide(sample: Outcome)
    | StartReplay(k: Key)
    | BeginEffect
    | WriteWorkspace(ok: bool)
    | CompleteEffect

  function Start(queries: seq<QueryStatus>): State {
    State(queries, map[], map[], [], Down, map[], [], [], [], [], {}, map[], {}, {})
  }

  predicate Initial(s: State) {
    s == Start(s.queries) && forall q :: 0 <= q < |s.queries| ==> s.queries[q] != Done
  }

  function EffectOf(s: State, k: Key): Option<Effect> {
    if k in s.effects then Some(s.effects[k]) else None
  }

  predicate AtRest(s: State) { s.process.Up? && s.process.task == Idle }

  predicate Distinct(ks: seq<Key>) { forall i, j :: 0 <= i < j < |ks| ==> ks[i] != ks[j] }

  /** The old verdict the event log holds for a person, newest first. */
  function LastLogged(events: seq<(Key, Stored)>, k: Key): Option<Stored> {
    if events == [] then None
    else if events[|events| - 1].0 == k then Some(events[|events| - 1].1)
    else LastLogged(events[..|events| - 1], k)
  }

  /** The bucket a re-judge holds a row's old verdict under: the verdict's own, or for
      a cleared row that of the newest event about the person. */
  function OldBucket(s: State, k: Key): Option<Bucket>
    requires k in s.rows
  {
    match s.rows[k].verdict
    case Some(v) => Some(Classify(v.decision))
    case None => match LastLogged(s.events, k)
                 case Some(v) => Some(Classify(v.decision))
                 case None => None
  }

  /** The samples of a finished re-judge: all in, none failed. */
  predicate Settles(oldBucket: Option<Bucket>, samples: seq<Outcome>) {
    && (forall i :: 0 <= i < |samples| ==> Sampled(samples[i]))
    && |samples| == SamplesFor(oldBucket)
    && Resolve(oldBucket, samples).Becomes?
  }

  function SourceOf(s: State, k: Key, samples: seq<Outcome>): Source
    requires s.process.Up? && k in s.rows
  {
    if s.process.brief.Of(k).Gated() then Fresh else Resampled(OldBucket(s, k), samples)
  }

  /** The campaign's opt-ins for the re-judge pass. */
  datatype OptIn = OptIn(slate: bool, rejects: bool)

  /** The re-judge pass takes the row up under these opt-ins. */
  predicate Selected(r: Row, b: Brief, opts: OptIn) {
    && r.record
    && RejudgeStatus(r.touched, r.life == FullTerminal, r.verdict, r.hash, b.fingerprint, b.hash)
       in SelectedStatuses(opts.slate, opts.rejects)
  }

  /** The criteria a verdict was made under are not the brief's: by fingerprint where both carry
      one, else by the hash of the brief. */
  ghost predicate Moved(v: Stored, hash: string, b: Brief) {
    if v.fingerprint != "" && b.fingerprint != "" then v.fingerprint != b.fingerprint
    else hash != "" && b.hash != "" && hash != b.hash
  }

  /** A re-judge is due: the verdict was cleared, or the model made it under other criteria and
      the campaign opted in, for the saves and reviews or for all the rest. */
  ghost predicate Due(r: Row, b: Brief, opts: OptIn) {
    && r.record && r.life == FullTerminal && !r.touched
    && match r.verdict
       case None => true
       case Some(v) =>
         var d := v.decision;
         var onSlate := d == Save || d == InferentialSave || d == TransferableSave || d == SignalSave
                        || d == ReviewInferred || d == ReviewFlagged;
         v.path == Model && Moved(v, r.hash, b) && if onSlate then opts.slate else opts.rejects
  }

  lemma SelectedIsDue(r: Row, b: Brief, opts: OptIn)
    ensures Selected(r, b, opts) <==> Due(r, b, opts)
  {
  }

  /** A resume with no opt-in at all takes the reconciled row up: the pending pass
      judges it, or the re-judge pass finds it cleared. */
  predicate TakenUp(r: Row, b: Brief) { PendingPass(r) || Selected(r, b, OptIn(false, false)) }

  predicate Enabled(s: State, step: Step) {
    match step
    case Crash => !s.process.Down?
    case Launch(b) => s.process.Down?
    case ReconcileAttempts => s.process.Booting? && s.process.w == 0
    case ReconcileEffects => s.process.Booting? && s.process.w == 1
    case Replan(qs) =>
      // cloning, plan merge and the transient-error requeue, each row synced by itself:
      // rows are never deleted, a done row never changes, and none becomes done
      && s.process.Booting? && s.process.w == 2
      && |s.queries| <= |qs|
      && (forall q :: 0 <= q < |s.queries| ==> (qs[q] == Done <==> s.queries[q] == Done))
      && (forall q :: |s.queries| <= q < |qs| ==> qs[q] != Done)
    case Ready => s.process.Booting? && s.process.w == 2
    case Recruit(k) => k in s.rows
    case OpenQuery(q) => AtRest(s) && q < |s.queries| && Runnable(s.queries[q])
    case Search(found) =>
      // dedupe keeps nobody this campaign has a row for, and nobody twice
      && s.process.Up? && s.process.task.Running?
      && Distinct(found) && forall k :: k in found ==> k !in s.rows
    case Requeue => s.process.Up? && s.process.task.Running?
    case Persist => s.process.Up? && s.process.task.Harvest? && s.process.task.todo != []
    case CloseQuery(noted) =>
      && s.process.Up? && s.process.task.Harvest? && s.process.task.todo == []
      && (noted ==> s.process.task.kept == [])
    case StartPending(k) => AtRest(s) && k in s.rows && PendingPass(s.rows[k])
    case StartRejudge(k, samples) =>
      && AtRest(s) && k in s.rows && Selected(s.rows[k], s.process.brief, OptIn(true, true))
      && (!s.process.brief.Of(k).Gated() ==> Settles(OldBucket(s, k), samples))
    case LogOld => s.process.Up? && s.process.task.Retire? && s.process.task.w == 0
    case ClearOld => s.process.Up? && s.process.task.Retire? && s.process.task.w == 1
    case MarkStage => s.process.Up? && s.process.task.Judge? && s.process.task.w == 0
    case OpenAttempt => s.process.Up? && s.process.task.Judge? && s.process.task.w == 1
    case Decide(o) => s.process.Up? && s.process.task.Judge? && s.process.task.w == 2 && Sampled(o)
    case StartReplay(k) =>
      && AtRest(s) && k in s.rows && s.rows[k].record && HasVerdict(s.rows[k])
      && ReplayWrites(s.process.brief.Of(k), s.rows[k].verdict.value, Landed(EffectOf(s, k)))
    case BeginEffect => s.process.Up? && s.process.task.SaveTo? && s.process.task.w == 0
    case WriteWorkspace(ok) => s.process.Up? && s.process.task.SaveTo? && s.process.task.w == 1
    case CompleteEffect => s.process.Up? && s.process.task.SaveTo? && s.process.task.w == 2
  }

  /** The row a step's task is about is always there; `Inv` proves it. */
  function RowAt(s: State, k: Key): Row { if k in s.rows then s.rows[k] else Ensured() }

  function SetRow(s: State, k: Key, r: Row, t: Task): State
    requires s.process.Up?
  {
    s.(rows := s.rows[k := r], process := s.process.(task := t))
  }

  function Goto(s: State, t: Task): State
    requires s.process.Up?
  {
    s.(process := s.process.(task := t))
  }

  function OutcomeOf(src: Source, sample: Outcome): (Outcome, bool) {
    match src
    case Fresh => (sample, false)
    case Resampled(before, samples) =>
      match Resolve(before, samples)
      case Becomes(o, split) => (o, split)
      case Kept(_) => (sample, false)
  }

  function DecisionOf(s: State, sample: Outcome): Settlement
    requires s.process.Up? && s.process.task.Judge?
  {
    var b, t := s.process.brief, s.process.task;
    var (o, split) := OutcomeOf(t.src, sample);
    JudgeOne(b.Of(t.k), o, split, b.fingerprint)
  }

  /** What a crash of the live process leaves on record of it. */
  function Cut(s: State): State
    requires s.process.Up?
  {
    match s.process.task
    case Judge(k, _, w) =>
      if w == 1 then s.(cut := s.cut + {k})
      else if w == 2 && k in s.limbo then s.(halved := s.halved + {k})
      else s
    case Harvest(_, todo, _, w) => if todo != [] && 0 < w < 3 then s.(unwritten := s.unwritten + {todo[0]}) else s
    case SaveTo(k, w, wrote) => if w == 2 && wrote then s.(unrecorded := s.unrecorded + [k]) else s
    case _ => s
  }

  /** The next write of `_persist_candidate` for the first person still to persist. */
  function Persisted(s: State): State
    requires s.process.Up? && s.process.task.Harvest? && s.process.task.todo != []
  {
    var t := s.process.task;
    var k := t.todo[0];
    if t.w == 0 then SetRow(s, k, Ensured(), Harvest(t.q, t.todo, t.kept, 1))
    else if t.w == 1 then SetRow(s, k, Rediscovered(RowAt(s, k)), Harvest(t.q, t.todo, t.kept, 2))
    else if t.w == 2 then SetRow(s, k, SnippetStarted(RowAt(s, k)), Harvest(t.q, t.todo, t.kept, 3))
    else SetRow(s, k, SnippetFinished(RowAt(s, k)), Harvest(t.q, t.todo[1..], t.kept + [k], 0))
  }

  function Closed(s: State, noted: bool): State
    requires s.process.Up? && s.process.task.Harvest?
  {
    var t := s.process.task;
    var done := if noted then s.(queries := if t.q < |s.queries| then s.queries[t.q := Errored] else s.queries)
                else s.(queries := if t.q < |s.queries| then s.queries[t.q := Done] else s.queries,
                        kept := s.kept[t.q := set k | k in t.kept]);
    Goto(done, Idle)
  }

  function Decided(s: State, sample: Outcome): State
    requires s.process.Up? && s.process.task.Judge?
  {
    var b, t := s.process.brief, s.process.task;
    var d := DecisionOf(s, sample);
    SetRow(if d.stored.Some? then s.(limbo := s.limbo - {t.k}, halved := s.halved - {t.k}) else s,
           t.k, Judged(RowAt(s, t.k), d, b.hash),
           if d.bucket == ShortList then SaveTo(t.k, 0, false) else Idle)
  }

  function Apply(s: State, step: Step): State
    requires Enabled(s, step)
  {
    match step
    case Crash => if s.process.Up? then Cut(s).(process := Down) else s.(process := Down)
    case Launch(b) => s.(process := Booting(b, 0))
    case ReconcileAttempts =>
      s.(rows := map k | k in s.rows :: Reconciled(s.rows[k]), process := s.process.(w := 1))
    case ReconcileEffects =>
      s.(effects := map k | k in s.effects :: EffectReconciled(s.effects[k]), process := s.process.(w := 2))
    case Replan(qs) => s.(queries := qs)
    case Ready => s.(process := Up(s.process.brief, Idle))
    case Recruit(k) => s.(rows := s.rows[k := s.rows[k].(touched := true)])
    case OpenQuery(q) => Goto(s.(queries := s.queries[q := InProgress]), Running(q))
    case Search(found) =>
      var q := s.process.task.q;
      Goto(s.(searches := s.searches + [q]), Harvest(q, found, [], 0))
    case Requeue =>
      var q := s.process.task.q;
      Goto(if q < |s.queries| then s.(queries := s.queries[q := Queued]) else s, Idle)
    case Persist => Persisted(s)
    case CloseQuery(noted) => Closed(s, noted)
    case StartPending(k) => Goto(s, Judge(k, Fresh, 0))
    case StartRejudge(k, samples) =>
      var src := SourceOf(s, k, samples);
      if s.rows[k].verdict.Some? then Goto(s, Retire(k, s.rows[k].verdict.value, src, 0))
      else Goto(s, Judge(k, src, 0))
    case LogOld =>
      var t := s.process.task;
      Goto(s.(events := s.events + [(t.k, t.prior)]), Retire(t.k, t.prior, t.src, 1))
    case ClearOld =>
      var t := s.process.task;
      SetRow(s.(limbo := s.limbo[t.k := t.prior]), t.k, VerdictCleared(RowAt(s, t.k)), Judge(t.k, t.src, 0))
    case MarkStage =>
      var t := s.process.task;
      SetRow(s, t.k, StageMarked(RowAt(s, t.k)), Judge(t.k, t.src, 1))
    case OpenAttempt =>
      var t := s.process.task;
      SetRow(s, t.k, AttemptOpened(RowAt(s, t.k)), Judge(t.k, t.src, 2))
    case Decide(sample) => Decided(s, sample)
    case StartReplay(k) => Goto(s, SaveTo(k, 0, false))
    case BeginEffect =>
      var t := s.process.task;
      var (e, execute) := Begun(EffectOf(s, t.k));
      Goto(s.(effects := s.effects[t.k := e]), if execute then SaveTo(t.k, 1, false) else Idle)
    case WriteWorkspace(ok) =>
      var t := s.process.task;
      Goto(if ok then s.(writes := s.writes + [(t.k, s.process.brief, RowAt(s, t.k))]) else s,
           SaveTo(t.k, 2, ok))
    case CompleteEffect =>
      var t := s.process.task;
      var e := if t.k in s.effects then s.effects[t.k] else Effect(Pending, 1);
      Goto(s.(effects := s.effects[t.k := Completed(e, t.wrote)],
              landed := if t.wrote then s.landed + [t.k] else s.landed), Idle)
  }

  // ---- Runs ----

  predicate Legal(s: State, steps: seq<Step>)
    decreases |steps|
  {
    steps == [] || (Enabled(s, steps[0]) && Legal(Apply(s, steps[0]), steps[1..]))
  }

  function After(s: State, steps: seq<Step>): State
    requires Legal(s, steps)
    decreases |steps|
  {
    if steps == [] then s else After(Apply(s, steps[0]), steps[1..])
  }
}
