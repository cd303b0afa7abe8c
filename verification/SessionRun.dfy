/** A resumed session, person by person and pass by pass, is a run of the campaign. */
module SessionRun {
  import opened Wrappers
  import opened QueryStates
  import opened Verdicts
  import opened Rejudge
  import opened Lifecycle
  import opened Campaign
  import opened CampaignInvariant
  import opened CampaignTheorems
  import opened Session

  function CellAt(s: State, k: Key): Cell
    requires k in s.rows
  {
    Cell(s.rows[k], EffectOf(s, k))
  }

  ghost predicate Reaches(s: State, steps: seq<Step>, t: State) { Legal(s, steps) && After(s, steps) == t }

  lemma OneStep(s: State, step: Step)
    requires Enabled(s, step)
    ensures Reaches(s, [step], Apply(s, step))
  {
    assert Legal(Apply(s, step), []);
    assert [step][1..] == [];
  }

  lemma {:induction false} Then(s: State, a: seq<Step>, t: State, b: seq<Step>, u: State)
    requires Reaches(s, a, t) && Reaches(t, b, u)
    ensures Reaches(s, a + b, u)
    decreases |a|
  {
    if a == [] {
      assert a + b == b;
    } else {
      Then(Apply(s, a[0]), a[1..], t, b, u);
      assert (a + b)[1..] == a[1..] + b;
    }
  }

  /** One more step of a run. */
  lemma Next(s: State, a: seq<Step>, t: State, step: Step) returns (more: seq<Step>, u: State)
    requires Reaches(s, a, t) && Enabled(t, step)
    ensures more == a + [step] && u == Apply(t, step) && Reaches(s, more, u)
  {
    OneStep(t, step);
    Then(s, a, t, [step], Apply(t, step));
    more, u := a + [step], Apply(t, step);
  }

  lemma Stay(s: State)
    ensures Reaches(s, [], s)
  {
  }

  // ---- One person ----

  /** At rest again under the same brief, with one person's cell and what it logs changed. */
  ghost predicate Moves(s: State, t: State, k: Key, c: Cell, logged: seq<(Key, Stored)>) {
    && s.process.Up? && AtRest(t) && t.process.brief == s.process.brief
    && t.rows.Keys == s.rows.Keys && k in t.rows && CellAt(t, k) == c
    && (forall j :: j in t.rows && j != k ==> CellAt(t, j) == CellAt(s, j))
    && t.events == s.events + logged
  }

  lemma SaveRun(s: State, k: Key, ok: bool) returns (steps: seq<Step>, t: State)
    requires s.process.Up? && s.process.task == SaveTo(k, 0, false) && k in s.rows
    ensures Reaches(s, steps, t) && Moves(s, t, k, SaveCell(CellAt(s, k), ok), [])
  {
    var (e, execute) := Begun(EffectOf(s, k));
    Stay(s);
    steps, t := Next(s, [], s, BeginEffect);
    assert s.events + [] == s.events;
    if execute {
      var more, u := WriteRun(t, k, ok);
      Then(s, steps, t, more, u);
      steps, t := steps + more, u;
      assert t.effects == s.effects[k := Completed(e, ok)];
    }
  }

  /** The write itself, and what the store records of it. */
  lemma WriteRun(s: State, k: Key, ok: bool) returns (steps: seq<Step>, t: State)
    requires s.process.Up? && s.process.task == SaveTo(k, 1, false) && k in s.effects
    ensures Reaches(s, steps, t) && AtRest(t) && t.process.brief == s.process.brief && t.rows == s.rows && t.events == s.events
    ensures t.effects == s.effects[k := Completed(s.effects[k], ok)]
  {
    Stay(s);
    steps, t := Next(s, [], s, WriteWorkspace(ok));
    steps, t := Next(s, steps, t, CompleteEffect);
  }

  /** The two writes that start a judgment. */
  lemma StageRun(s: State, k: Key, src: Source) returns (steps: seq<Step>, t: State)
    requires s.process.Up? && s.process.task == Judge(k, src, 0) && k in s.rows
    ensures Reaches(s, steps, t)
    ensures t == s.(rows := s.rows[k := AttemptOpened(StageMarked(s.rows[k]))], process := s.process.(task := Judge(k, src, 2)))
  {
    Stay(s);
    steps, t := Next(s, [], s, MarkStage);
    steps, t := Next(s, steps, t, OpenAttempt);
    assert t.rows == s.rows[k := AttemptOpened(StageMarked(s.rows[k]))];
  }

  lemma JudgeRun(s: State, k: Key, src: Source, sample: Outcome, ok: bool) returns (steps: seq<Step>, t: State)
    requires s.process.Up? && s.process.task == Judge(k, src, 0) && k in s.rows && Sampled(sample)
    ensures var (o, split) := OutcomeOf(src, sample);
            Reaches(s, steps, t) && Moves(s, t, k, JudgeCell(CellAt(s, k), s.process.brief, k, o, split, ok), [])
  {
    var at, more;
    steps, at := StageRun(s, k, src);
    more, t := DecideRun(at, k, src, sample, ok);
    Then(s, steps, at, more, t);
    steps := steps + more;
  }

  /** The verdict of a judgment, and the save it calls for. */
  lemma DecideRun(s: State, k: Key, src: Source, sample: Outcome, ok: bool) returns (steps: seq<Step>, t: State)
    requires s.process.Up? && s.process.task == Judge(k, src, 2) && k in s.rows && Sampled(sample)
    ensures var d := DecisionOf(s, sample); var c := Cell(Judged(s.rows[k], d, s.process.brief.hash), EffectOf(s, k));
            Reaches(s, steps, t) && Moves(s, t, k, if d.bucket == ShortList then SaveCell(c, ok) else c, [])
  {
    var d := DecisionOf(s, sample);
    Stay(s);
    steps, t := Next(s, [], s, Decide(sample));
    assert t.rows == s.rows[k := Judged(s.rows[k], d, s.process.brief.hash)];
    assert s.events + [] == s.events;
    if d.bucket == ShortList {
      var more, u := SaveRun(t, k, ok);
      Then(s, steps, t, more, u);
      steps, t := steps + more, u;
    }
  }

  lemma PendingRun(s: State, k: Key, o: Outcome, ok: bool) returns (steps: seq<Step>, t: State)
    requires AtRest(s) && k in s.rows && Sampled(o) && (PendingPass(s.rows[k]) ==> s.rows[k].life != Discovered)
    ensures Reaches(s, steps, t) && Moves(s, t, k, PendingCell(CellAt(s, k), s.process.brief, k, o, ok), [])
  {
    Stay(s);
    if PendingPass(s.rows[k]) {
      var at;
      steps, at := Next(s, [], s, StartPending(k));
      var more, u := JudgeRun(at, k, Fresh, o, ok);
      Then(s, steps, at, more, u);
      steps, t := steps + more, u;
    } else {
      steps, t := [], s;
      assert s.events + [] == s.events;
    }
  }

  lemma ReplayRun(s: State, k: Key, ok: bool) returns (steps: seq<Step>, t: State)
    requires AtRest(s) && k in s.rows
    ensures Reaches(s, steps, t) && Moves(s, t, k, ReplayCell(CellAt(s, k), s.process.brief, k, ok), [])
  {
    Stay(s);
    if Replayable(CellAt(s, k), s.process.brief, k) {
      var at;
      steps, at := Next(s, [], s, StartReplay(k));
      var more, u := SaveRun(at, k, ok);
      Then(s, steps, at, more, u);
      steps, t := steps + more, u;
    } else {
      steps, t := [], s;
      assert s.events + [] == s.events;
    }
  }

  /** The samples a re-judge of this person may get: as many as are submitted, or fewer. */
  ghost predicate Drawn(before: Option<Bucket>, samples: seq<Outcome>) {
    |samples| <= SamplesFor(before) && forall i :: 0 <= i < |samples| ==> Sampled(samples[i])
  }

  const ANY := Outcome(Reject, Rejected)

  /** A re-judge up to its judgment: the old verdict, if one stands, is logged and cleared. */
  lemma RetireRun(s: State, k: Key, opts: OptIn, samples: seq<Outcome>) returns (steps: seq<Step>, t: State)
    requires AtRest(s) && k in s.rows && Drawn(OldBucket(s, k), samples)
    requires Settling(CellAt(s, k), s.process.brief, k, opts, LastLogged(s.events, k), samples)
    ensures Reaches(s, steps, t)
    ensures t.process == s.process.(task := Judge(k, SourceOf(s, k, samples), 0))
    ensures t.rows == s.rows[k := VerdictCleared(s.rows[k])] && t.effects == s.effects
    ensures t.events == s.events + Retired(CellAt(s, k), s.process.brief, k, opts, LastLogged(s.events, k), samples)
  {
    Stay(s);
    assert OldBucket(s, k) == BucketBefore(s.rows[k], LastLogged(s.events, k));
    steps, t := Next(s, [], s, StartRejudge(k, samples));
    if s.rows[k].verdict.Some? {
      var more, u := ClearRun(t, k, s.rows[k].verdict.value, SourceOf(s, k, samples));
      Then(s, steps, t, more, u);
      steps, t := steps + more, u;
    } else {
      assert s.rows == s.rows[k := VerdictCleared(s.rows[k])];
    }
  }

  lemma ClearRun(s: State, k: Key, prior: Stored, src: Source) returns (steps: seq<Step>, t: State)
    requires s.process.Up? && s.process.task == Retire(k, prior, src, 0) && k in s.rows
    ensures Reaches(s, steps, t)
    ensures t.process == s.process.(task := Judge(k, src, 0)) && t.effects == s.effects
    ensures t.rows == s.rows[k := VerdictCleared(s.rows[k])] && t.events == s.events + [(k, prior)]
  {
    Stay(s);
    steps, t := Next(s, [], s, LogOld);
    steps, t := Next(s, steps, t, ClearOld);
  }

  lemma RejudgeRun(s: State, k: Key, opts: OptIn, samples: seq<Outcome>, ok: bool) returns (steps: seq<Step>, t: State)
    requires AtRest(s) && k in s.rows && Drawn(OldBucket(s, k), samples)
    ensures var b, logged := s.process.brief, LastLogged(s.events, k);
            Reaches(s, steps, t)
            && Moves(s, t, k, RejudgeCell(CellAt(s, k), b, k, opts, logged, samples, ok), Retired(CellAt(s, k), b, k, opts, logged, samples))
  {
    var b, logged := s.process.brief, LastLogged(s.events, k);
    if Settling(CellAt(s, k), b, k, opts, logged, samples) {
      var at;
      steps, at := RetireRun(s, k, opts, samples);
      var more, u := JudgeRun(at, k, SourceOf(s, k, samples), ANY, ok);
      Then(s, steps, at, more, u);
      steps, t := steps + more, u;
      SettledCell(s, k, opts, samples, ok);
      assert CellAt(at, k) == CellAt(s, k).(row := VerdictCleared(s.rows[k]));
      assert at.events + [] == at.events;
    } else {
      Stay(s);
      steps, t := [], s;
      assert s.events + [] == s.events;
    }
  }

  /** What the judgment of a settling re-judge is made on. */
  lemma SettledCell(s: State, k: Key, opts: OptIn, samples: seq<Outcome>, ok: bool)
    requires AtRest(s) && k in s.rows
    requires Settling(CellAt(s, k), s.process.brief, k, opts, LastLogged(s.events, k), samples)
    ensures var b, c := s.process.brief, CellAt(s, k); var (o, split) := OutcomeOf(SourceOf(s, k, samples), ANY);
            RejudgeCell(c, b, k, opts, LastLogged(s.events, k), samples, ok)
            == JudgeCell(c.(row := VerdictCleared(c.row)), b, k, o, split, ok)
  {
    assert OldBucket(s, k) == BucketBefore(s.rows[k], LastLogged(s.events, k));
  }

  // ---- A pass over everybody ----

  datatype Pass =
    | Rejudging(opts: OptIn, log: seq<(Key, Stored)>, samples: Key -> seq<Outcome>, ok: Key -> bool)
    | Replaying(ok: Key -> bool)
    | JudgingPending(judge: Key -> Outcome, ok: Key -> bool)

  function PassCell(p: Pass, b: Brief, k: Key, c: Cell): Cell {
    match p
    case Rejudging(opts, log, samples, ok) => RejudgeCell(c, b, k, opts, LastLogged(log, k), samples(k), ok(k))
    case Replaying(ok) => ReplayCell(c, b, k, ok(k))
    case JudgingPending(judge, ok) => PendingCell(c, b, k, judge(k), ok(k))
  }

  function PassLog(p: Pass, b: Brief, k: Key, c: Cell): seq<(Key, Stored)> {
    match p
    case Rejudging(opts, log, samples, _) => Retired(c, b, k, opts, LastLogged(log, k), samples(k))
    case _ => []
  }

  /** What a pass may be given for a person: samples as they are drawn, and an event log nothing
      was written to about the person since the pass read it. */
  ghost predicate Given(p: Pass, s: State, k: Key)
    requires k in s.rows
  {
    match p
    case Rejudging(_, log, samples, _) => LastLogged(s.events, k) == LastLogged(log, k) && Drawn(OldBucket(s, k), samples(k))
    case Replaying(_) => true
    case JudgingPending(judge, _) => Sampled(judge(k)) && (PendingPass(s.rows[k]) ==> s.rows[k].life != Discovered)
  }

  lemma PersonRun(s: State, k: Key, p: Pass) returns (steps: seq<Step>, t: State)
    requires AtRest(s) && k in s.rows && Given(p, s, k)
    ensures var b := s.process.brief;
            Reaches(s, steps, t) && Moves(s, t, k, PassCell(p, b, k, CellAt(s, k)), PassLog(p, b, k, CellAt(s, k)))
  {
    match p
    case Rejudging(opts, log, samples, ok) =>
      steps, t := RejudgeRun(s, k, opts, samples(k), ok(k));
    case Replaying(ok) =>
      steps, t := ReplayRun(s, k, ok(k));
    case JudgingPending(judge, ok) =>
      steps, t := PendingRun(s, k, judge(k), ok(k));
  }

  /** Where a pass takes each of these people, and what it logs for them. */
  datatype Aim = Aim(cell: Cell, logged: seq<(Key, Stored)>)

  ghost predicate AimedAt(p: Pass, s: State, k: Key, a: Aim) {
    && s.process.Up? && k in s.rows && Given(p, s, k)
    && a == Aim(PassCell(p, s.process.brief, k, CellAt(s, k)), PassLog(p, s.process.brief, k, CellAt(s, k)))
  }

  /** The first `n` people's aims are the pass's. */
  ghost predicate Aimed(p: Pass, s: State, ks: seq<Key>, aims: seq<Aim>, n: nat)
    requires n <= |ks| == |aims|
  {
    n == 0 || (Aimed(p, s, ks, aims, n - 1) && AimedAt(p, s, ks[n - 1], aims[n - 1]))
  }

  lemma {:induction false} AimedEach(p: Pass, s: State, ks: seq<Key>, aims: seq<Aim>, n: nat, j: nat)
    requires j < n <= |ks| == |aims| && Aimed(p, s, ks, aims, n)
    ensures AimedAt(p, s, ks[j], aims[j])
  {
    if j < n - 1 { AimedEach(p, s, ks, aims, n - 1, j); }
  }

  lemma {:induction false} Aiming(p: Pass, s: State, ks: seq<Key>, n: nat) returns (aims: seq<Aim>)
    requires n <= |ks| && s.process.Up? && forall k :: k in ks ==> k in s.rows && Given(p, s, k)
    ensures |aims| == n && Aimed(p, s, ks[..n], aims, n)
  {
    aims := [];
    if n > 0 {
      aims := Aiming(p, s, ks, n - 1);
      var k := ks[n - 1];
      assert k in ks;
      var a := Aim(PassCell(p, s.process.brief, k, CellAt(s, k)), PassLog(p, s.process.brief, k, CellAt(s, k)));
      AimedLonger(p, s, ks[..n - 1], aims, k, a, n - 1);
      assert ks[..n] == ks[..n - 1] + [k];
      aims := aims + [a];
    }
  }

  lemma {:induction false} AimedLonger(p: Pass, s: State, ks: seq<Key>, aims: seq<Aim>, k: Key, a: Aim, n: nat)
    requires n <= |ks| == |aims| && Aimed(p, s, ks, aims, n)
    ensures Aimed(p, s, ks + [k], aims + [a], n)
  {
    if n > 0 { AimedLonger(p, s, ks, aims, k, a, n - 1); }
  }

  /** Everybody's cell once the pass is through the first `n` people. */
  ghost function CellsThrough(cells: map<Key, Cell>, ks: seq<Key>, aims: seq<Aim>, n: nat): map<Key, Cell>
    requires n <= |ks| == |aims|
  {
    if n == 0 then cells else CellsThrough(cells, ks, aims, n - 1)[ks[n - 1] := aims[n - 1].cell]
  }

  lemma {:induction false} CellReached(cells: map<Key, Cell>, ks: seq<Key>, aims: seq<Aim>, n: nat, j: nat)
    requires n <= |ks| == |aims| && j < |ks| && Distinct(ks) && ks[j] in cells
    ensures ks[j] in CellsThrough(cells, ks, aims, n)
    ensures CellsThrough(cells, ks, aims, n)[ks[j]] == if j < n then aims[j].cell else cells[ks[j]]
  {
    if n > 0 {
      CellReached(cells, ks, aims, n - 1, j);
      assert j != n - 1 ==> ks[j] != ks[n - 1];
    }
  }

  /** The event log once the pass is through the first `n` people. */
  ghost function LogThrough(log: seq<(Key, Stored)>, aims: seq<Aim>, n: nat): seq<(Key, Stored)>
    requires n <= |aims|
  {
    if n == 0 then log else LogThrough(log, aims, n - 1) + aims[n - 1].logged
  }

  /** So far the log says nothing new about the people to come. */
  lemma {:induction false} NotLogged(p: Pass, s: State, ks: seq<Key>, aims: seq<Aim>, n: nat, j: nat)
    requires n <= j < |ks| == |aims| && Distinct(ks) && Aimed(p, s, ks, aims, n)
    ensures LastLogged(LogThrough(s.events, aims, n), ks[j]) == LastLogged(s.events, ks[j])
  {
    if n > 0 {
      NotLogged(p, s, ks, aims, n - 1, j);
      AboutThem(p, s, ks[n - 1], aims[n - 1]);
      LoggedOfOthers(aims[n - 1].logged, ks[n - 1], LogThrough(s.events, aims, n - 1), ks[j]);
    }
  }

  lemma AboutThem(p: Pass, s: State, k: Key, a: Aim)
    requires AimedAt(p, s, k, a)
    ensures About(a.logged, k)
  {
  }

  function CellsOf(s: State): map<Key, Cell> { map k | k in s.rows :: CellAt(s, k) }

  /** The pass is through the first `n` people. */
  ghost predicate Through(s: State, t: State, ks: seq<Key>, aims: seq<Aim>, n: nat)
    requires n <= |ks| == |aims|
  {
    && s.process.Up? && AtRest(t) && t.process.brief == s.process.brief && t.rows.Keys == s.rows.Keys
    && CellsOf(t) == CellsThrough(CellsOf(s), ks, aims, n)
    && t.events == LogThrough(s.events, aims, n)
  }

  lemma {:induction false} PassRun(p: Pass, s: State, ks: seq<Key>, aims: seq<Aim>, n: nat) returns (steps: seq<Step>, t: State)
    requires AtRest(s) && n <= |ks| == |aims| && Distinct(ks) && Aimed(p, s, ks, aims, |ks|)
    ensures Reaches(s, steps, t) && Through(s, t, ks, aims, n)
    decreases n
  {
    if n == 0 {
      Stay(s);
      steps, t := [], s;
    } else {
      var at, more;
      steps, at := PassRun(p, s, ks, aims, n - 1);
      more, t := NextPerson(p, s, at, ks, aims, n);
      Then(s, steps, at, more, t);
      OneFurther(s, at, t, ks, aims, n);
      steps := steps + more;
    }
  }

  lemma NextPerson(p: Pass, s: State, at: State, ks: seq<Key>, aims: seq<Aim>, n: nat) returns (steps: seq<Step>, t: State)
    requires 0 < n <= |ks| == |aims| && Distinct(ks) && Aimed(p, s, ks, aims, |ks|) && Through(s, at, ks, aims, n - 1)
    ensures Reaches(at, steps, t) && Moves(at, t, ks[n - 1], aims[n - 1].cell, aims[n - 1].logged)
  {
    AimedEach(p, s, ks, aims, |ks|, n - 1);
    AimedFewer(p, s, ks, aims, |ks|, n - 1);
    CellReached(CellsOf(s), ks, aims, n - 1, n - 1);
    NotLogged(p, s, ks, aims, n - 1, n - 1);
    steps, t := PersonAimed(p, s, at, ks[n - 1], aims[n - 1]);
  }

  lemma {:induction false} AimedFewer(p: Pass, s: State, ks: seq<Key>, aims: seq<Aim>, n: nat, m: nat)
    requires m <= n <= |ks| == |aims| && Aimed(p, s, ks, aims, n)
    ensures Aimed(p, s, ks, aims, m)
  {
    if m < n { AimedFewer(p, s, ks, aims, n - 1, m); }
  }

  /** A person the pass has not come to yet goes where they would have gone at its start. */
  lemma PersonAimed(p: Pass, s: State, at: State, k: Key, a: Aim) returns (steps: seq<Step>, t: State)
    requires AtRest(at) && AimedAt(p, s, k, a) && at.process.brief == s.process.brief
    requires k in CellsOf(at) && CellsOf(at)[k] == CellsOf(s)[k] && LastLogged(at.events, k) == LastLogged(s.events, k)
    ensures Reaches(at, steps, t) && Moves(at, t, k, a.cell, a.logged)
  {
    assert CellAt(at, k) == CellAt(s, k);
    assert Given(p, at, k);
    steps, t := PersonRun(at, k, p);
  }

  lemma OneFurther(s: State, at: State, t: State, ks: seq<Key>, aims: seq<Aim>, n: nat)
    requires 0 < n <= |ks| == |aims| && Through(s, at, ks, aims, n - 1)
    requires Moves(at, t, ks[n - 1], aims[n - 1].cell, aims[n - 1].logged)
    ensures Through(s, t, ks, aims, n)
  {
    assert CellsOf(t) == CellsOf(at)[ks[n - 1] := aims[n - 1].cell];
  }

  ghost predicate About(logged: seq<(Key, Stored)>, k: Key) { forall i :: 0 <= i < |logged| ==> logged[i].0 == k }

  lemma {:induction false} LoggedOfOthers(more: seq<(Key, Stored)>, k: Key, log: seq<(Key, Stored)>, j: Key)
    requires j != k && About(more, k)
    ensures LastLogged(log + more, j) == LastLogged(log, j)
  {
    if more == [] {
      assert log + more == log;
    } else {
      var n := |more| - 1;
      LoggedOfOthers(more[..n], k, log, j);
      LastLoggedIs(log + more[..n], k, more[n].1);
      assert log + more == log + more[..n] + [(k, more[n].1)];
    }
  }

  // ---- The resume ----

  /** What a session reconciles as it boots. */
  lemma BootRun(s: State, b: Brief) returns (steps: seq<Step>, t: State)
    requires s.process.Down?
    ensures Reaches(s, steps, t) && AtRest(t) && t.process.brief == b && t.events == s.events
    ensures CellsOf(t) == Reconciling(CellsOf(s)) && t.rows.Keys == s.rows.Keys
  {
    Stay(s);
    steps, t := Next(s, [], s, Launch(b));
    steps, t := Next(s, steps, t, ReconcileAttempts);
    steps, t := Next(s, steps, t, ReconcileEffects);
    steps, t := Next(s, steps, t, Ready);
  }

  /** A resume nothing interrupts is a run of the campaign: some legal steps take every person,
      and the event log, where the resume takes them. */
  lemma ResumeIsARun(s: State, b: Brief, opts: OptIn, samples: Key -> seq<Outcome>, judge: Key -> Outcome,
                     takes: Workspace, ks: seq<Key>) returns (steps: seq<Step>, t: State)
    requires Inv(s) && s.process.Down? && Distinct(ks) && forall k :: k in ks <==> k in s.rows
    requires AllDrawn(Reconciling(CellsOf(s)), s.events, samples, judge)
    ensures Reaches(s, steps, t) && AtRest(t) && t.process.brief == b
    ensures CellsOf(t) == ResumedCells(CellsOf(s), b, opts, s.events, samples, judge, takes)
    ensures t.events == ResumedLog(CellsOf(s), b, opts, s.events, samples, ks)
  {
    var s1, more;
    steps, s1 := BootRun(s, b);
    RunKeeps(s, steps);
    more, t := PassesRun(s1, CellsOf(s1), opts, s.events, samples, judge, takes, ks);
    Then(s, steps, s1, more, t);
    steps := steps + more;
    PassesResume(CellsOf(s), CellsOf(t), b, opts, s.events, samples, judge, takes);
  }

  /** The samples and answers a session may get for everybody. */
  ghost predicate AllDrawn(cells: map<Key, Cell>, log: seq<(Key, Stored)>, samples: Key -> seq<Outcome>, judge: Key -> Outcome) {
    forall k :: k in cells ==> Drawn(BucketBefore(cells[k].row, LastLogged(log, k)), samples(k)) && Sampled(judge(k))
  }

  /** Where the passes take everybody. */
  ghost predicate Passed(cells: map<Key, Cell>, now: map<Key, Cell>, b: Brief, opts: OptIn, log: seq<(Key, Stored)>,
                         samples: Key -> seq<Outcome>, judge: Key -> Outcome, takes: Workspace) {
    && now.Keys == cells.Keys
    && forall k :: k in cells ==>
         now[k] == PendingCell(ReplayCell(RejudgeCell(cells[k], b, k, opts, LastLogged(log, k), samples(k), takes.rejudged(k)),
                                          b, k, takes.replayed(k)),
                               b, k, judge(k), takes.pending(k))
  }

  lemma PassesResume(cells: map<Key, Cell>, now: map<Key, Cell>, b: Brief, opts: OptIn, log: seq<(Key, Stored)>,
                     samples: Key -> seq<Outcome>, judge: Key -> Outcome, takes: Workspace)
    requires Passed(Reconciling(cells), now, b, opts, log, samples, judge, takes)
    ensures now == ResumedCells(cells, b, opts, log, samples, judge, takes)
  {
    ResumedAre(cells, now, b, opts, log, samples, judge, takes);
  }

  /** The three passes, from a session that has booted. */
  lemma PassesRun(s: State, cells: map<Key, Cell>, opts: OptIn, log: seq<(Key, Stored)>, samples: Key -> seq<Outcome>,
                  judge: Key -> Outcome, takes: Workspace, ks: seq<Key>) returns (steps: seq<Step>, t: State)
    requires AtRest(s) && Inv(s) && log == s.events && Distinct(ks) && forall k :: k in ks <==> k in s.rows
    requires cells == CellsOf(s) && AllDrawn(cells, log, samples, judge)
    ensures Reaches(s, steps, t) && AtRest(t) && t.process.brief == s.process.brief
    ensures Passed(cells, CellsOf(t), s.process.brief, opts, log, samples, judge, takes)
    ensures t.events == Logged(log, Retiring(cells, s.process.brief, opts, log, samples), ks, |ks|)
  {
    var b, s2, s3, more := s.process.brief, s, s, [];
    var p1, p2, p3 := Rejudging(opts, log, samples, takes.rejudged), Replaying(takes.replayed), JudgingPending(judge, takes.pending);
    RejudgeGiven(s, ks, p1, judge);
    var aims := Aiming(p1, s, ks, |ks|);
    assert ks[..|ks|] == ks;
    steps, s2 := WholePass(p1, s, ks, aims);
    more, s3 := QuietPass(p2, s2, ks);
    Then(s, steps, s2, more, s3);
    steps := steps + more;
    RunKeeps(s, steps);
    PendingGiven(s3, ks, p3);
    more, t := QuietPass(p3, s3, ks);
    Then(s, steps, s3, more, t);
    steps := steps + more;
    RejudgeAims(p1, s, cells, ks, aims);
    RejudgeLogs(log, ks, aims, Retiring(cells, b, opts, log, samples), |ks|);
    ThreePasses(s, s2, s3, t, ks, opts, log, samples, judge, takes);
  }

  lemma RejudgeGiven(s: State, ks: seq<Key>, p: Pass, judge: Key -> Outcome)
    requires p.Rejudging? && p.log == s.events && AllDrawn(CellsOf(s), p.log, p.samples, judge)
    requires forall k :: k in ks ==> k in s.rows
    ensures forall k :: k in ks ==> k in s.rows && Given(p, s, k)
  {
    forall k | k in ks ensures Given(p, s, k) {
      assert k in CellsOf(s) && OldBucket(s, k) == BucketBefore(s.rows[k], LastLogged(s.events, k));
    }
  }

  lemma PendingGiven(s: State, ks: seq<Key>, p: Pass)
    requires p.JudgingPending? && AtRest(s) && Inv(s) && forall k :: k in ks ==> k in s.rows && Sampled(p.judge(k))
    ensures forall k :: k in ks ==> k in s.rows && Given(p, s, k)
  {
    AtRestOk(s);
  }

  lemma ThreePasses(s: State, s2: State, s3: State, t: State, ks: seq<Key>, opts: OptIn, log: seq<(Key, Stored)>,
                    samples: Key -> seq<Outcome>, judge: Key -> Outcome, takes: Workspace)
    requires forall k :: k in ks <==> k in s.rows
    requires PassDone(Rejudging(opts, log, samples, takes.rejudged), s, s2, ks)
    requires PassDone(Replaying(takes.replayed), s2, s3, ks)
    requires PassDone(JudgingPending(judge, takes.pending), s3, t, ks)
    ensures Passed(CellsOf(s), CellsOf(t), s.process.brief, opts, log, samples, judge, takes)
  {
    var b := s.process.brief;
    forall k | k in CellsOf(s)
      ensures CellsOf(t)[k] == PendingCell(ReplayCell(RejudgeCell(CellsOf(s)[k], b, k, opts, LastLogged(log, k), samples(k), takes.rejudged(k)),
                                                      b, k, takes.replayed(k)),
                                           b, k, judge(k), takes.pending(k))
    {
      assert k in ks;
      assert CellAt(s2, k) == RejudgeCell(CellAt(s, k), b, k, opts, LastLogged(log, k), samples(k), takes.rejudged(k));
      assert CellAt(s3, k) == ReplayCell(CellAt(s2, k), b, k, takes.replayed(k));
    }
  }

  lemma AtRestOk(s: State)
    requires AtRest(s) && Inv(s)
    ensures forall k :: k in s.rows && PendingPass(s.rows[k]) ==> s.rows[k].life != Discovered
  {
    forall k | k in s.rows && PendingPass(s.rows[k]) ensures s.rows[k].life != Discovered {
      assert RowOk(s, k);
    }
  }

  /** Everybody is where the pass takes them from where they were. */
  ghost predicate PassDone(p: Pass, s: State, t: State, ks: seq<Key>) {
    && s.process.Up? && AtRest(t) && t.process.brief == s.process.brief && t.rows.Keys == s.rows.Keys
    && forall k :: k in ks ==> k in s.rows && k in t.rows && CellAt(t, k) == PassCell(p, s.process.brief, k, CellAt(s, k))
  }

  /** A pass over everybody takes everybody where it should. */
  lemma WholePass(p: Pass, s: State, ks: seq<Key>, aims: seq<Aim>) returns (steps: seq<Step>, t: State)
    requires AtRest(s) && Distinct(ks) && |aims| == |ks| && Aimed(p, s, ks, aims, |ks|)
    ensures Reaches(s, steps, t) && PassDone(p, s, t, ks) && t.events == LogThrough(s.events, aims, |ks|)
  {
    steps, t := PassRun(p, s, ks, aims, |ks|);
    forall k | k in ks
      ensures k in s.rows && k in t.rows && CellAt(t, k) == PassCell(p, s.process.brief, k, CellAt(s, k))
    {
      var j :| 0 <= j < |ks| && ks[j] == k;
      AimedEach(p, s, ks, aims, |ks|, j);
      CellReached(CellsOf(s), ks, aims, |ks|, j);
      assert CellsOf(t)[k] == CellAt(t, k);
    }
  }

  /** A pass that retires no verdict. */
  lemma QuietPass(p: Pass, s: State, ks: seq<Key>) returns (steps: seq<Step>, t: State)
    requires AtRest(s) && Distinct(ks) && !p.Rejudging?
    requires forall k :: k in ks ==> k in s.rows && Given(p, s, k)
    ensures Reaches(s, steps, t) && PassDone(p, s, t, ks) && t.events == s.events
  {
    var aims := Aiming(p, s, ks, |ks|);
    assert ks[..|ks|] == ks;
    steps, t := WholePass(p, s, ks, aims);
    NothingMore(p, s, ks, aims, |ks|);
  }

  lemma {:induction false} NothingMore(p: Pass, s: State, ks: seq<Key>, aims: seq<Aim>, n: nat)
    requires n <= |ks| == |aims| && Aimed(p, s, ks, aims, n) && !p.Rejudging?
    ensures LogThrough(s.events, aims, n) == s.events
  {
    if n > 0 { NothingMore(p, s, ks, aims, n - 1); }
  }

  /** What the re-judge pass logs for each person is the verdict it retires. */
  lemma RejudgeAims(p: Pass, s: State, cells: map<Key, Cell>, ks: seq<Key>, aims: seq<Aim>)
    requires p.Rejudging? && |aims| == |ks| && Aimed(p, s, ks, aims, |ks|) && s.process.Up?
    requires cells == CellsOf(s)
    ensures var retiring := Retiring(cells, s.process.brief, p.opts, p.log, p.samples);
            forall j :: 0 <= j < |ks| ==> ks[j] in retiring && retiring[ks[j]] == aims[j].logged
  {
    var retiring := Retiring(cells, s.process.brief, p.opts, p.log, p.samples);
    forall j | 0 <= j < |ks| ensures ks[j] in retiring && retiring[ks[j]] == aims[j].logged {
      AimedEach(p, s, ks, aims, |ks|, j);
    }
  }

  lemma {:induction false} RejudgeLogs(log: seq<(Key, Stored)>, ks: seq<Key>, aims: seq<Aim>, retiring: map<Key, seq<(Key, Stored)>>, n: nat)
    requires n <= |ks| == |aims|
    requires forall j :: 0 <= j < |ks| ==> ks[j] in retiring && retiring[ks[j]] == aims[j].logged
    ensures LogThrough(log, aims, n) == Logged(log, retiring, ks, n)
  {
    if n > 0 { RejudgeLogs(log, ks, aims, retiring, n - 1); }
  }

  // ---- Who is judged ----

  /** In every reachable state between sessions, a fault-free resume leaves a person with a
      verdict exactly unless one of three things happened to them: a crash before the write
      that carries their record, a crash between the two writes that start their judgment, or a
      recruiter's decision while their verdict was cleared. */
  lemma ResumeJudgesEverybody(s: State, steps: seq<Step>, k: Key, b: Brief, opts: OptIn, samples: seq<Outcome>, o: Outcome)
    requires Initial(s) && Legal(s, steps) && After(s, steps).process.Down? && k in After(s, steps).rows
    requires var t := After(s, steps); Answered(CellAt(t, k), LastLogged(t.events, k), samples, o)
    ensures var t := After(s, steps); var r := Reconciled(t.rows[k]);
            HasVerdict(ResumeCell(CellAt(t, k), b, k, opts, LastLogged(t.events, k), samples, o, FAULT_FREE).row)
            <==> k !in t.unwritten && k !in t.cut && !(ClearedRow(r) && r.touched)
  {
    var t := After(s, steps);
    EveryRowAccounted(s, steps, k, b);
    JudgedIffTakenUp(CellAt(t, k), b, k, opts, LastLogged(t.events, k), samples, o);
  }
}
