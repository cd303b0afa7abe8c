/** The passes a resume makes over the store before it acquires anyone new, in the
    order and with the loops they have, for a session nothing interrupts. */
module Session {
  import opened Wrappers
  import opened Verdicts
  import opened Rejudge
  import opened Lifecycle
  import opened Campaign

  /** Everything the store holds about one person. */
  datatype Cell = Cell(row: Row, effect: Option<Effect>)

  function Saved(e: Option<Effect>, ok: bool): Effect {
    var (begun, execute) := Begun(e);
    if execute then Completed(begun, ok) else begun
  }

  function SaveCell(c: Cell, ok: bool): Cell { c.(effect := Some(Saved(c.effect, ok))) }

  function JudgeCell(c: Cell, brief: Brief, k: Key, o: Outcome, split: bool, ok: bool): Cell {
    var s := JudgeOne(brief.Of(k), o, split, brief.fingerprint);
    var judged := Cell(Judged(AttemptOpened(StageMarked(c.row)), s, brief.hash), c.effect);
    if s.bucket == ShortList then SaveCell(judged, ok) else judged
  }

  function ReconcileCell(c: Cell): Cell {
    Cell(Reconciled(c.row), if c.effect.Some? then Some(EffectReconciled(c.effect.value)) else None)
  }

  predicate Replayable(c: Cell, brief: Brief, k: Key) {
    c.row.record && HasVerdict(c.row) && ReplayWrites(brief.Of(k), c.row.verdict.value, Landed(c.effect))
  }

  function ReplayCell(c: Cell, brief: Brief, k: Key, ok: bool): Cell {
    if Replayable(c, brief, k) then SaveCell(c, ok) else c
  }

  function PendingCell(c: Cell, brief: Brief, k: Key, o: Outcome, ok: bool): Cell {
    if !PendingPass(c.row) then c
    else
      var ready := if c.row.life == Discovered then SnippetFinished(SnippetStarted(c.row)) else c.row;
      JudgeCell(c.(row := ready), brief, k, o, false, ok)
  }

  /** Whether the workspace takes a write for a person, in each pass of a session. */
  datatype Workspace = Workspace(rejudged: Key -> bool, replayed: Key -> bool, pending: Key -> bool)

  datatype Takes = Takes(rejudged: bool, replayed: bool, pending: bool)

  const FAULT_FREE := Takes(true, true, true)

  function BucketBefore(r: Row, logged: Option<Stored>): Option<Bucket> {
    if r.verdict.Some? then Some(Classify(r.verdict.value.decision))
    else if logged.Some? then Some(Classify(logged.value.decision))
    else None
  }

  function RejudgeCell(c: Cell, brief: Brief, k: Key, opts: OptIn, logged: Option<Stored>,
                       samples: seq<Outcome>, ok: bool): Cell {
    if !Selected(c.row, brief, opts) then c
    else
      var cleared := c.(row := VerdictCleared(c.row));
      if brief.Of(k).Gated() then JudgeCell(cleared, brief, k, Outcome(Reject, Rejected), false, ok)
      else match Resolve(BucketBefore(c.row, logged), samples)
           case Kept(_) => c
           case Becomes(o, split) => JudgeCell(cleared, brief, k, o, split, ok)
  }

  /** A replay reaches the workspace for this person. */
  predicate Lands(c: Cell, brief: Brief, k: Key) { Replayable(c, brief, k) && Executable(c.effect) }

  /** Whom a replay saves, when the workspace takes a write for a person exactly when `ok`. */
  ghost function Landing(cells: map<Key, Cell>, brief: Brief, ok: Key -> bool): set<Key> {
    set k | k in cells && Lands(cells[k], brief, k) && ok(k)
  }

  /** How many of the first `n` people are among those landing. */
  ghost function Replays(landing: set<Key>, ks: seq<Key>, n: nat): nat
    requires n <= |ks|
  {
    if n == 0 then 0 else Replays(landing, ks, n - 1) + if ks[n - 1] in landing then 1 else 0
  }

  /** A re-judge settles this person: a gate rules today, or the samples resolve. */
  predicate Settling(c: Cell, brief: Brief, k: Key, opts: OptIn, logged: Option<Stored>, samples: seq<Outcome>) {
    Selected(c.row, brief, opts) && (brief.Of(k).Gated() || Resolve(BucketBefore(c.row, logged), samples).Becomes?)
  }

  /** The old verdict a settled re-judge puts in the event log. */
  function Retired(c: Cell, brief: Brief, k: Key, opts: OptIn, logged: Option<Stored>, samples: seq<Outcome>): seq<(Key, Stored)> {
    if Settling(c, brief, k, opts, logged, samples) && c.row.verdict.Some? then [(k, c.row.verdict.value)] else []
  }

  ghost function Retiring(cells: map<Key, Cell>, brief: Brief, opts: OptIn, log: seq<(Key, Stored)>,
                          samples: Key -> seq<Outcome>): map<Key, seq<(Key, Stored)>> {
    map k | k in cells :: Retired(cells[k], brief, k, opts, LastLogged(log, k), samples(k))
  }

  /** The event log once the first `n` people are re-judged, by what each one puts in it. */
  ghost function Logged(log: seq<(Key, Stored)>, retiring: map<Key, seq<(Key, Stored)>>, ks: seq<Key>, n: nat): seq<(Key, Stored)>
    requires n <= |ks|
  {
    if n == 0 then log
    else Logged(log, retiring, ks, n - 1) + if ks[n - 1] in retiring then retiring[ks[n - 1]] else []
  }

  /** The old log stands, and every event after it holds the verdict of somebody a re-judge was
      due for. */
  ghost predicate OnlyDueLogged(cells: map<Key, Cell>, brief: Brief, opts: OptIn, log: seq<(Key, Stored)>, now: seq<(Key, Stored)>) {
    && log <= now
    && forall i :: |log| <= i < |now| ==>
         var (k, v) := now[i]; k in cells && Due(cells[k].row, brief, opts) && cells[k].row.verdict == Some(v)
  }

  /** Everybody's cell after the re-judge pass. */
  ghost function RejudgedCells(cells: map<Key, Cell>, brief: Brief, opts: OptIn, log: seq<(Key, Stored)>,
                               samples: Key -> seq<Outcome>, ok: Key -> bool): map<Key, Cell> {
    map k | k in cells :: RejudgeCell(cells[k], brief, k, opts, LastLogged(log, k), samples(k), ok(k))
  }

  lemma NotDueStay(was: map<Key, Cell>, goal: map<Key, Cell>, brief: Brief, opts: OptIn, log: seq<(Key, Stored)>,
                   samples: Key -> seq<Outcome>, ok: Key -> bool)
    requires goal == RejudgedCells(was, brief, opts, log, samples, ok)
    ensures forall k :: k in was && !Due(was[k].row, brief, opts) ==> goal[k] == was[k]
  {
    forall k | k in was && !Due(was[k].row, brief, opts) ensures goal[k] == was[k] {
      SelectedIsDue(was[k].row, brief, opts);
    }
  }

  lemma {:induction false} OnlyDueRetired(cells: map<Key, Cell>, brief: Brief, opts: OptIn, log: seq<(Key, Stored)>,
                                          samples: Key -> seq<Outcome>, ks: seq<Key>, n: nat)
    requires n <= |ks|
    ensures OnlyDueLogged(cells, brief, opts, log, Logged(log, Retiring(cells, brief, opts, log, samples), ks, n))
  {
    if n > 0 {
      OnlyDueRetired(cells, brief, opts, log, samples, ks, n - 1);
      if ks[n - 1] in cells { SelectedIsDue(cells[ks[n - 1]].row, brief, opts); }
    }
  }

  /** A pass over people in this order, at the `i`-th: those before it are where the pass takes
      them, the others where it found them. */
  ghost predicate Midway(order: seq<Key>, was: map<Key, Cell>, goal: map<Key, Cell>, now: map<Key, Cell>, i: nat) {
    && now.Keys == was.Keys == goal.Keys
    && forall j :: 0 <= j < |order| ==> order[j] in now && now[order[j]] == if j < i then goal[order[j]] else was[order[j]]
  }

  lemma MidwayStep(order: seq<Key>, was: map<Key, Cell>, goal: map<Key, Cell>, now: map<Key, Cell>, next: map<Key, Cell>, i: nat)
    requires Distinct(order) && i < |order| && Midway(order, was, goal, now, i)
    requires next == now[order[i] := goal[order[i]]]
    ensures Midway(order, was, goal, next, i + 1)
  {
  }

  lemma Through(order: seq<Key>, was: map<Key, Cell>, goal: map<Key, Cell>, now: map<Key, Cell>)
    requires Midway(order, was, goal, now, |order|) && forall k :: k in now ==> k in order
    ensures now == goal
  {
  }

  /** What the replay takes this person to, and whether they land. */
  ghost predicate LandsAt(was: map<Key, Cell>, goal: map<Key, Cell>, landing: set<Key>, k: Key, brief: Brief, ok: bool) {
    && k in was && k in goal
    && goal[k] == ReplayCell(was[k], brief, k, ok)
    && (k in landing <==> Lands(was[k], brief, k) && ok)
  }

  ghost predicate LandsAs(was: map<Key, Cell>, goal: map<Key, Cell>, landing: set<Key>, ks: seq<Key>, n: nat, brief: Brief, ok: Key -> bool)
    requires n <= |ks|
  {
    n == 0 || (LandsAs(was, goal, landing, ks, n - 1, brief, ok) && LandsAt(was, goal, landing, ks[n - 1], brief, ok(ks[n - 1])))
  }

  lemma {:induction false} LandsAsEach(was: map<Key, Cell>, goal: map<Key, Cell>, landing: set<Key>, ks: seq<Key>, n: nat, i: nat,
                                       brief: Brief, ok: Key -> bool)
    requires i < n <= |ks| && LandsAs(was, goal, landing, ks, n, brief, ok)
    ensures LandsAt(was, goal, landing, ks[i], brief, ok(ks[i]))
  {
    if i < n - 1 { LandsAsEach(was, goal, landing, ks, n - 1, i, brief, ok); }
  }

  lemma {:induction false} LandsAsAll(was: map<Key, Cell>, goal: map<Key, Cell>, landing: set<Key>, ks: seq<Key>, n: nat,
                                      brief: Brief, ok: Key -> bool)
    requires n <= |ks| && landing == Landing(was, brief, ok)
    requires forall k :: k in ks ==> k in was && k in goal && goal[k] == ReplayCell(was[k], brief, k, ok(k))
    ensures LandsAs(was, goal, landing, ks, n, brief, ok)
  {
    if n > 0 { LandsAsAll(was, goal, landing, ks, n - 1, brief, ok); }
  }

  /** What the re-judge pass takes this person to, and puts in the event log for them. */
  ghost predicate AimsAt(was: map<Key, Cell>, goal: map<Key, Cell>, retired: seq<(Key, Stored)>, k: Key, brief: Brief,
                         opts: OptIn, logged: Option<Stored>, samples: seq<Outcome>, ok: bool) {
    && k in was && k in goal
    && goal[k] == RejudgeCell(was[k], brief, k, opts, logged, samples, ok)
    && retired == Retired(was[k], brief, k, opts, logged, samples)
  }

  ghost predicate AimsAtAll(was: map<Key, Cell>, goal: map<Key, Cell>, retiring: map<Key, seq<(Key, Stored)>>, ks: seq<Key>, n: nat,
                            brief: Brief, opts: OptIn, log: seq<(Key, Stored)>, samples: Key -> seq<Outcome>, ok: Key -> bool)
    requires n <= |ks|
  {
    n == 0 || (AimsAtAll(was, goal, retiring, ks, n - 1, brief, opts, log, samples, ok)
               && ks[n - 1] in retiring
               && AimsAt(was, goal, retiring[ks[n - 1]], ks[n - 1], brief, opts, LastLogged(log, ks[n - 1]), samples(ks[n - 1]), ok(ks[n - 1])))
  }

  lemma {:induction false} AimsAtEach(was: map<Key, Cell>, goal: map<Key, Cell>, retiring: map<Key, seq<(Key, Stored)>>, ks: seq<Key>,
                                      n: nat, i: nat, brief: Brief, opts: OptIn, log: seq<(Key, Stored)>,
                                      samples: Key -> seq<Outcome>, ok: Key -> bool)
    requires i < n <= |ks| && AimsAtAll(was, goal, retiring, ks, n, brief, opts, log, samples, ok)
    ensures ks[i] in retiring
    ensures AimsAt(was, goal, retiring[ks[i]], ks[i], brief, opts, LastLogged(log, ks[i]), samples(ks[i]), ok(ks[i]))
  {
    if i < n - 1 { AimsAtEach(was, goal, retiring, ks, n - 1, i, brief, opts, log, samples, ok); }
  }

  lemma {:induction false} AimedAtAll(was: map<Key, Cell>, goal: map<Key, Cell>, retiring: map<Key, seq<(Key, Stored)>>, ks: seq<Key>,
                                      n: nat, brief: Brief, opts: OptIn, log: seq<(Key, Stored)>,
                                      samples: Key -> seq<Outcome>, ok: Key -> bool)
    requires n <= |ks| && forall k :: k in ks ==> k in was && k in goal
    requires forall k :: k in ks ==> goal[k] == RejudgeCell(was[k], brief, k, opts, LastLogged(log, k), samples(k), ok(k))
    requires retiring == Retiring(was, brief, opts, log, samples)
    ensures AimsAtAll(was, goal, retiring, ks, n, brief, opts, log, samples, ok)
  {
    if n > 0 { AimedAtAll(was, goal, retiring, ks, n - 1, brief, opts, log, samples, ok); }
  }

  class RuntimeStore {
    var order: seq<Key>              // candidate ids, ascending
    var rows: map<Key, Row>
    var effects: map<Key, Effect>
    var events: seq<(Key, Stored)>   // the re-judge event log

    ghost predicate Valid()
      reads this
    {
      Distinct(order) && forall k :: k in order <==> k in rows
    }

    function CellOf(k: Key): Cell
      reads this
      requires k in rows
    {
      Cell(rows[k], if k in effects then Some(effects[k]) else None)
    }

    ghost function Cells(): map<Key, Cell>
      reads this
    {
      map k | k in rows :: CellOf(k)
    }

    twostate lemma OneCellChanged(k: Key)
      requires k in rows && rows.Keys == old(rows.Keys)
      requires forall j :: j in rows && j != k ==> CellOf(j) == old(CellOf(j))
      ensures Cells() == old(Cells())[k := CellOf(k)]
    {
    }

    method ReconcileOpenAttempts()
      requires Valid()
      modifies this`rows
      ensures Valid()
      ensures rows == map k | k in old(rows) :: Reconciled(old(rows)[k])
    {
      ghost var was := rows;
      var i := 0;
      while i < |order|
        invariant 0 <= i <= |order|
        invariant rows.Keys == was.Keys
        invariant forall j :: 0 <= j < |order| ==>
                    rows[order[j]] == if j < i then Reconciled(was[order[j]]) else was[order[j]]
      {
        rows := rows[order[i] := Reconciled(rows[order[i]])];
        i := i + 1;
      }
      forall k | k in rows ensures rows[k] == Reconciled(was[k]) {
        var j :| 0 <= j < |order| && order[j] == k;
      }
    }

    method ReconcilePendingSideEffects()
      requires Valid()
      modifies this`effects
      ensures effects == map k | k in old(effects) :: if k in rows then EffectReconciled(old(effects)[k]) else old(effects)[k]
    {
      ghost var was := effects;
      var i := 0;
      while i < |order|
        invariant 0 <= i <= |order|
        invariant effects.Keys == was.Keys
        invariant forall k :: k in effects && k !in order ==> effects[k] == was[k]
        invariant forall j :: 0 <= j < |order| && order[j] in was ==>
                    effects[order[j]] == if j < i then EffectReconciled(was[order[j]]) else was[order[j]]
      {
        if order[i] in effects {
          effects := effects[order[i] := EffectReconciled(effects[order[i]])];
        }
        i := i + 1;
      }
      forall k | k in effects && k in rows ensures effects[k] == EffectReconciled(was[k]) {
        var j :| 0 <= j < |order| && order[j] == k;
      }
    }

    method SaveToWorkspace(k: Key, ok: bool) returns (landed: bool)
      requires Valid() && k in rows
      modifies this`effects
      ensures effects == old(effects)[k := Saved(old(CellOf(k)).effect, ok)]
      ensures landed <==> Executable(old(CellOf(k)).effect) && ok
    {
      var before := CellOf(k).effect;
      BegunExecutes(before);
      var (begun, execute) := Begun(before);
      effects := effects[k := begun];
      if !execute {
        return false;
      }
      effects := effects[k := Completed(effects[k], ok)];
      landed := ok;
    }

    method Judge(brief: Brief, k: Key, o: Outcome, split: bool, ok: bool)
      requires Valid() && k in rows
      modifies this`rows, this`effects
      ensures Valid() && rows.Keys == old(rows.Keys)
      ensures CellOf(k) == JudgeCell(old(CellOf(k)), brief, k, o, split, ok)
      ensures forall j :: j in rows && j != k ==> CellOf(j) == old(CellOf(j))
    {
      rows := rows[k := StageMarked(rows[k])];
      rows := rows[k := AttemptOpened(rows[k])];
      var s := JudgeOne(brief.Of(k), o, split, brief.fingerprint);
      rows := rows[k := Judged(rows[k], s, brief.hash)];
      if s.bucket == ShortList {
        var landed := SaveToWorkspace(k, ok);
      }
    }

    method ReplayOne(brief: Brief, k: Key, ok: bool) returns (landed: bool)
      requires Valid() && k in rows
      modifies this`effects
      ensures CellOf(k) == ReplayCell(old(CellOf(k)), brief, k, ok)
      ensures forall j :: j in rows && j != k ==> CellOf(j) == old(CellOf(j))
      ensures landed <==> Lands(old(CellOf(k)), brief, k) && ok
    {
      landed := false;
      if Replayable(CellOf(k), brief, k) {
        landed := SaveToWorkspace(k, ok);
      }
    }

    /** One person of the replay, counted if they land. */
    method ReplayNext(brief: Brief, ok: Key -> bool, i: nat, count: nat, ghost was: map<Key, Cell>, ghost goal: map<Key, Cell>,
                      ghost landing: set<Key>, ghost now: map<Key, Cell>) returns (replayed: nat, ghost next: map<Key, Cell>)
      requires Valid() && i < |order| && now == Cells() && Midway(order, was, goal, now, i)
      requires LandsAs(was, goal, landing, order, |order|, brief, ok) && count == Replays(landing, order, i)
      modifies this`effects
      ensures Valid() && next == Cells() && Midway(order, was, goal, next, i + 1)
      ensures replayed == Replays(landing, order, i + 1)
    {
      LandsAsEach(was, goal, landing, order, |order|, i, brief, ok);
      var landed := ReplayOne(brief, order[i], ok(order[i]));
      replayed := if landed then count + 1 else count;
      OneCellChanged(order[i]);
      next := Cells();
      MidwayStep(order, was, goal, now, next, i);
    }

    /** Finish the saves a previous session decided and never landed. */
    method ReplayInterruptedSaves(brief: Brief, ok: Key -> bool) returns (replayed: nat)
      requires Valid()
      modifies this`effects
      ensures forall k :: k in rows ==> CellOf(k) == ReplayCell(old(CellOf(k)), brief, k, ok(k))
      ensures replayed == Replays(Landing(old(Cells()), brief, ok), order, |order|)
    {
      ghost var was := Cells();
      ghost var landing := Landing(was, brief, ok);
      ghost var goal := map k | k in rows :: ReplayCell(was[k], brief, k, ok(k));
      LandsAsAll(was, goal, landing, order, |order|, brief, ok);
      replayed := ReplayEach(brief, ok, was, goal, landing);
      Through(order, was, goal, Cells());
    }

    method ReplayEach(brief: Brief, ok: Key -> bool, ghost was: map<Key, Cell>, ghost goal: map<Key, Cell>, ghost landing: set<Key>)
      returns (replayed: nat)
      requires Valid() && was == Cells() && Midway(order, was, goal, was, 0)
      requires LandsAs(was, goal, landing, order, |order|, brief, ok)
      modifies this`effects
      ensures Midway(order, was, goal, Cells(), |order|)
      ensures replayed == Replays(landing, order, |order|)
    {
      replayed := 0;
      var ks := order;
      ghost var now := was;
      for i := 0 to |ks|
        invariant Valid() && order == ks && now == Cells() && Midway(ks, was, goal, now, i)
        invariant replayed == Replays(landing, ks, i)
      {
        replayed, now := ReplayNext(brief, ok, i, replayed, was, goal, landing, now);
      }
    }

    method PendingOne(brief: Brief, k: Key, o: Outcome, ok: bool)
      requires Valid() && k in rows
      modifies this`rows, this`effects
      ensures Valid() && rows.Keys == old(rows.Keys)
      ensures CellOf(k) == PendingCell(old(CellOf(k)), brief, k, o, ok)
      ensures forall j :: j in rows && j != k ==> CellOf(j) == old(CellOf(j))
    {
      if PendingPass(rows[k]) {
        if rows[k].life == Discovered {
          rows := rows[k := SnippetStarted(rows[k])];
          rows := rows[k := SnippetFinished(rows[k])];
        }
        Judge(brief, k, o, false, ok);
      }
    }

    /** Judge everyone a previous session acquired and never judged. */
    method JudgePending(brief: Brief, judge: Key -> Outcome, ok: Key -> bool)
      requires Valid()
      modifies this`rows, this`effects
      ensures Valid() && rows.Keys == old(rows.Keys)
      ensures forall k :: k in rows ==> CellOf(k) == PendingCell(old(CellOf(k)), brief, k, judge(k), ok(k))
    {
      ghost var was := Cells();
      ghost var goal := map k | k in rows :: PendingCell(was[k], brief, k, judge(k), ok(k));
      for i := 0 to |order|
        invariant Valid() && Midway(order, was, goal, Cells(), i)
      {
        ghost var now := Cells();
        label Before:
        PendingOne(brief, order[i], judge(order[i]), ok(order[i]));
        OneCellChanged@Before(order[i]);
        MidwayStep(order, was, goal, now, Cells(), i);
      }
      Through(order, was, goal, Cells());
    }

    /** The old verdict goes to the event log before the row is emptied. */
    method Retire(k: Key)
      requires Valid() && k in rows
      modifies this`rows, this`events
      ensures Valid() && rows == old(rows)[k := VerdictCleared(old(rows)[k])]
      ensures events == old(events) + if old(rows)[k].verdict.Some? then [(k, old(rows)[k].verdict.value)] else []
    {
      if rows[k].verdict.Some? {
        events := events + [(k, rows[k].verdict.value)];
        rows := rows[k := VerdictCleared(rows[k])];
      }
    }

    /** The old verdict is retired and the person judged afresh. */
    method Resettle(brief: Brief, k: Key, o: Outcome, split: bool, ok: bool)
      requires Valid() && k in rows
      modifies this`rows, this`effects, this`events
      ensures Valid() && rows.Keys == old(rows.Keys)
      ensures var was := old(CellOf(k));
              && CellOf(k) == JudgeCell(was.(row := VerdictCleared(was.row)), brief, k, o, split, ok)
              && events == old(events) + if was.row.verdict.Some? then [(k, was.row.verdict.value)] else []
      ensures forall j :: j in rows && j != k ==> CellOf(j) == old(CellOf(j))
    {
      Retire(k);
      Judge(brief, k, o, split, ok);
    }

    method RejudgeOne(brief: Brief, k: Key, opts: OptIn, logged: Option<Stored>, samples: seq<Outcome>, ok: bool)
      requires Valid() && k in rows
      modifies this`rows, this`effects, this`events
      ensures Valid() && rows.Keys == old(rows.Keys)
      ensures CellOf(k) == RejudgeCell(old(CellOf(k)), brief, k, opts, logged, samples, ok)
      ensures forall j :: j in rows && j != k ==> CellOf(j) == old(CellOf(j))
      ensures events == old(events) + Retired(old(CellOf(k)), brief, k, opts, logged, samples)
    {
      if !Selected(rows[k], brief, opts) { return; }
      if brief.Of(k).Gated() {
        Resettle(brief, k, Outcome(Reject, Rejected), false, ok);
        return;
      }
      var resolution := Resolve(BucketBefore(rows[k], logged), samples);
      if resolution.Becomes? {
        Resettle(brief, k, resolution.outcome, resolution.split, ok);
      }
    }

    /** One person of the re-judge pass, and what they put in the event log. */
    method RejudgeNext(brief: Brief, opts: OptIn, log: seq<(Key, Stored)>, samples: Key -> seq<Outcome>, ok: Key -> bool, i: nat,
                       ghost was: map<Key, Cell>, ghost goal: map<Key, Cell>, ghost retired: seq<(Key, Stored)>)
      requires Valid() && i < |order| && Midway(order, was, goal, Cells(), i)
      requires AimsAt(was, goal, retired, order[i], brief, opts, LastLogged(log, order[i]), samples(order[i]), ok(order[i]))
      modifies this`rows, this`effects, this`events
      ensures Valid() && Midway(order, was, goal, Cells(), i + 1)
      ensures events == old(events) + retired
    {
      ghost var now := Cells();
      RejudgeOne(brief, order[i], opts, LastLogged(log, order[i]), samples(order[i]), ok(order[i]));
      OneCellChanged(order[i]);
      MidwayStep(order, was, goal, now, Cells(), i);
    }

    /** Judge stored verdicts again when the criteria have moved past them.  The event
        log is read once, before anyone is settled. */
    method RejudgeStaleVerdicts(brief: Brief, opts: OptIn, samples: Key -> seq<Outcome>, ok: Key -> bool)
      requires Valid()
      modifies this`rows, this`effects, this`events
      ensures Valid() && rows.Keys == old(rows.Keys)
      ensures forall k :: k in rows ==>
                CellOf(k) == RejudgeCell(old(CellOf(k)), brief, k, opts, LastLogged(old(events), k), samples(k), ok(k))
      ensures events == Logged(old(events), Retiring(old(Cells()), brief, opts, old(events), samples), order, |order|)
      ensures forall k :: k in rows && !Due(old(rows)[k], brief, opts) ==> CellOf(k) == old(CellOf(k))
      ensures OnlyDueLogged(old(Cells()), brief, opts, old(events), events)
    {
      ghost var was, log := Cells(), events;
      RejudgeAll(brief, opts, samples, ok);
      OnlyDueRetired(was, brief, opts, log, samples, order, |order|);
      NotDueStay(was, Cells(), brief, opts, log, samples, ok);
    }

    method RejudgeAll(brief: Brief, opts: OptIn, samples: Key -> seq<Outcome>, ok: Key -> bool)
      requires Valid()
      modifies this`rows, this`effects, this`events
      ensures Valid() && order == old(order) && Cells() == RejudgedCells(old(Cells()), brief, opts, old(events), samples, ok)
      ensures events == Logged(old(events), Retiring(old(Cells()), brief, opts, old(events), samples), order, |order|)
    {
      ghost var was := Cells();
      ghost var goal := RejudgedCells(was, brief, opts, events, samples, ok);
      ghost var retiring := Retiring(was, brief, opts, events, samples);
      AimedAtAll(was, goal, retiring, order, |order|, brief, opts, events, samples, ok);
      RejudgeEach(brief, opts, events, samples, ok, was, goal, retiring);
      Through(order, was, goal, Cells());
    }

    method RejudgeEach(brief: Brief, opts: OptIn, log: seq<(Key, Stored)>, samples: Key -> seq<Outcome>, ok: Key -> bool,
                       ghost was: map<Key, Cell>, ghost goal: map<Key, Cell>, ghost retiring: map<Key, seq<(Key, Stored)>>)
      requires Valid() && Midway(order, was, goal, Cells(), 0) && log == events
      requires AimsAtAll(was, goal, retiring, order, |order|, brief, opts, log, samples, ok)
      modifies this`rows, this`effects, this`events
      ensures Valid() && Midway(order, was, goal, Cells(), |order|)
      ensures events == Logged(log, retiring, order, |order|)
    {
      for i := 0 to |order|
        invariant Valid() && Midway(order, was, goal, Cells(), i)
        invariant events == Logged(log, retiring, order, i)
      {
        AimsAtEach(was, goal, retiring, order, |order|, i, brief, opts, log, samples, ok);
        RejudgeNext(brief, opts, log, samples, ok, i, was, goal, retiring[order[i]]);
      }
    }

    /** The start of a resumed session: reconcile, re-judge, replay, then the pending. */
    method Resume(brief: Brief, opts: OptIn, samples: Key -> seq<Outcome>, judge: Key -> Outcome, takes: Workspace)
      requires Valid()
      modifies this
      ensures Valid() && order == old(order)
      ensures Cells() == ResumedCells(old(Cells()), brief, opts, old(events), samples, judge, takes)
      ensures events == ResumedLog(old(Cells()), brief, opts, old(events), samples, order)
    {
      ghost var was, log := Cells(), events;
      Reconcile();
      assert Cells() == Reconciling(was);
      RejudgeStaleVerdicts(brief, opts, samples, takes.rejudged);
      ghost var c2 := Cells();
      var replayed := ReplayInterruptedSaves(brief, takes.replayed);
      ghost var c3 := Cells();
      JudgePending(brief, judge, takes.pending);
      forall k | k in was
        ensures Cells()[k] == ResumeCell(was[k], brief, k, opts, LastLogged(log, k), samples(k), judge(k),
                                         Takes(takes.rejudged(k), takes.replayed(k), takes.pending(k)))
      {
        assert c2[k] == RejudgeCell(ReconcileCell(was[k]), brief, k, opts, LastLogged(log, k), samples(k), takes.rejudged(k));
        assert c3[k] == ReplayCell(c2[k], brief, k, takes.replayed(k));
      }
      ResumedAre(was, Cells(), brief, opts, log, samples, judge, takes);
    }

    /** What `start_or_resume_run` reconciles before it reads anything. */
    method Reconcile()
      requires Valid()
      modifies this`rows, this`effects
      ensures Valid() && rows.Keys == old(rows.Keys)
      ensures forall k :: k in rows ==> CellOf(k) == ReconcileCell(old(CellOf(k)))
    {
      ReconcileOpenAttempts();
      ReconcilePendingSideEffects();
    }
  }

  function ResumeCell(c: Cell, brief: Brief, k: Key, opts: OptIn, logged: Option<Stored>,
                      samples: seq<Outcome>, o: Outcome, ok: Takes): Cell {
    var reconciled := ReconcileCell(c);
    var rejudged := RejudgeCell(reconciled, brief, k, opts, logged, samples, ok.rejudged);
    var replayed := ReplayCell(rejudged, brief, k, ok.replayed);
    PendingCell(replayed, brief, k, o, ok.pending)
  }

  ghost function Reconciling(cells: map<Key, Cell>): map<Key, Cell> { map k | k in cells :: ReconcileCell(cells[k]) }

  /** Everybody's cell after a resume. */
  ghost function ResumedCells(cells: map<Key, Cell>, brief: Brief, opts: OptIn, log: seq<(Key, Stored)>,
                              samples: Key -> seq<Outcome>, judge: Key -> Outcome, takes: Workspace): map<Key, Cell> {
    map k | k in cells ::
      ResumeCell(cells[k], brief, k, opts, LastLogged(log, k), samples(k), judge(k),
                 Takes(takes.rejudged(k), takes.replayed(k), takes.pending(k)))
  }

  lemma ResumedAre(cells: map<Key, Cell>, now: map<Key, Cell>, brief: Brief, opts: OptIn, log: seq<(Key, Stored)>,
                   samples: Key -> seq<Outcome>, judge: Key -> Outcome, takes: Workspace)
    requires now.Keys == cells.Keys
    requires forall k :: k in cells ==> now[k] == ResumeCell(cells[k], brief, k, opts, LastLogged(log, k), samples(k), judge(k),
                                                             Takes(takes.rejudged(k), takes.replayed(k), takes.pending(k)))
    ensures now == ResumedCells(cells, brief, opts, log, samples, judge, takes)
  {
  }

  /** The event log after a resume that takes people in this order. */
  ghost function ResumedLog(cells: map<Key, Cell>, brief: Brief, opts: OptIn, log: seq<(Key, Stored)>,
                            samples: Key -> seq<Outcome>, order: seq<Key>): seq<(Key, Stored)> {
    Logged(log, Retiring(Reconciling(cells), brief, opts, log, samples), order, |order|)
  }

  /** A save no resume will ever try again. */
  predicate Exhausted(e: Option<Effect>) {
    e.Some? && e.value.status == FailedPermanent && e.value.tries >= MAX_TRIES
  }

  /** A save whose attempts are used up: it failed as often as it may be tried. */
  predicate UsedUp(e: Option<Effect>) {
    e.Some? && (e.value.status == Failed || e.value.status == FailedPermanent) && e.value.tries >= MAX_TRIES
  }

  /** A save the brief makes, landed or not. */
  predicate Eligible(r: Row, brief: Brief, k: Key) {
    r.record && HasVerdict(r) && ReplayWrites(brief.Of(k), r.verdict.value, false)
  }

  /** A fault-free resume lands a save the brief still makes exactly when its attempts were not
      used up before, and it leaves nobody half done: a row it could judge is judged, and no
      verdict it was asked to re-judge is left stale. */
  lemma ResumeLandsEverySave(c: Cell, brief: Brief, k: Key, opts: OptIn, logged: Option<Stored>,
                             samples: seq<Outcome>, o: Outcome)
    requires Answered(c, logged, samples, o)
    ensures var d := ResumeCell(c, brief, k, opts, logged, samples, o, FAULT_FREE);
            && (Eligible(d.row, brief, k) ==> (Landed(d.effect) <==> !UsedUp(c.effect)))
            && !PendingPass(d.row) && !d.row.open
            && !Selected(d.row, brief, opts)
            && (d.effect.Some? ==> d.effect.value.status != Pending)
  {
    Settled(c, brief, k, opts, logged, samples, o);
    UsedUpStays(c, brief, k, opts, logged, samples, o);
  }

  /** A fault-free pass uses nobody's attempts up, and gives none back. */
  lemma UsedUpStays(c: Cell, brief: Brief, k: Key, opts: OptIn, logged: Option<Stored>, samples: seq<Outcome>, o: Outcome)
    ensures UsedUp(ResumeCell(c, brief, k, opts, logged, samples, o, FAULT_FREE).effect) <==> UsedUp(c.effect)
  {
    var c1 := ReconcileCell(c);
    var c2 := RejudgeCell(c1, brief, k, opts, logged, samples, true);
    var c3 := ReplayCell(c2, brief, k, true);
    SavedOrSame(c1, c2);
    SavedOrSame(c2, c3);
    SavedOrSame(c3, PendingCell(c3, brief, k, o, true));
  }

  lemma SavedOrSame(c: Cell, d: Cell)
    requires d.effect == c.effect || d.effect == Some(Saved(c.effect, true))
    ensures UsedUp(d.effect) <==> UsedUp(c.effect)
  {
  }

  /** A save that failed three times: the brief makes it, and no fault-free resume lands it. */
  lemma UsedUpNeverLands(k: Key, opts: OptIn, logged: Option<Stored>, samples: seq<Outcome>, o: Outcome)
    ensures var brief := Brief({}, {}, {}, {}, "fp", "hash");
            var c := Cell(Row(FullTerminal, Some(Stored(Save, Model, false, "fp")), true, false, false, "hash"), Some(Effect(Failed, 3)));
            var d := ResumeCell(c, brief, k, opts, logged, samples, o, FAULT_FREE);
            Eligible(d.row, brief, k) && !Landed(d.effect)
  {
    var brief := Brief({}, {}, {}, {}, "fp", "hash");
    var r := Row(FullTerminal, Some(Stored(Save, Model, false, "fp")), true, false, false, "hash");
    assert RejudgeStatus(r.touched, true, r.verdict, r.hash, brief.fingerprint, brief.hash) == Current;
  }

  /** No sample of the session failed, and a re-judge got all it asked for. */
  ghost predicate Answered(c: Cell, logged: Option<Stored>, samples: seq<Outcome>, o: Outcome) {
    && Sampled(o) && o.bucket != Failure
    && (forall i :: 0 <= i < |samples| ==> Sampled(samples[i]) && samples[i].bucket != Failure)
    && |samples| == SamplesFor(BucketBefore(Reconciled(c.row), logged))
  }

  /** A cell no pass changes any more. */
  ghost predicate Quiet(c: Cell, brief: Brief, k: Key, opts: OptIn) {
    && !c.row.open && (c.effect.Some? ==> c.effect.value.status != Pending)
    && !Selected(c.row, brief, opts)
    && !PendingPass(c.row)
    && (Replayable(c, brief, k) ==> Exhausted(c.effect))
  }

  lemma JudgedIsQuiet(c: Cell, brief: Brief, k: Key, opts: OptIn, o: Outcome, split: bool)
    requires WellBucketed(o, split) && o.bucket != Failure && c.row.record
    requires c.effect.Some? ==> c.effect.value.status != Pending
    ensures Quiet(JudgeCell(c, brief, k, o, split, true), brief, k, opts)
  {
    var s := JudgeOne(brief.Of(k), o, split, brief.fingerprint);
    var d := JudgeCell(c, brief, k, o, split, true);
    LiveReplaySlateAgree(brief.Of(k), o, split, brief.fingerprint, false);
    BegunExecutes(c.effect);
    assert RejudgeStatus(d.row.touched, true, d.row.verdict, d.row.hash, brief.fingerprint, brief.hash) == Current;
  }

  lemma Settled(c: Cell, brief: Brief, k: Key, opts: OptIn, logged: Option<Stored>,
                samples: seq<Outcome>, o: Outcome)
    requires Answered(c, logged, samples, o)
    ensures Quiet(ResumeCell(c, brief, k, opts, logged, samples, o, FAULT_FREE), brief, k, opts)
  {
    var c1 := ReconcileCell(c);
    var c2 := RejudgeCell(c1, brief, k, opts, logged, samples, true);
    if Selected(c1.row, brief, opts) {
      var before := BucketBefore(c1.row, logged);
      ResolveByBuckets(before, samples);
      if !brief.Of(k).Gated() {
        assert Resolve(before, samples).Becomes?;
        SlateLeavesOnTwoRejects(before, samples);
        var r := Resolve(before, samples);
        JudgedIsQuiet(c1.(row := VerdictCleared(c1.row)), brief, k, opts, r.outcome, r.split);
      } else {
        JudgedIsQuiet(c1.(row := VerdictCleared(c1.row)), brief, k, opts, Outcome(Reject, Rejected), false);
      }
      QuietStays(c2, brief, k, opts, o);
    } else {
      var c3 := ReplayCell(c2, brief, k, true);
      BegunExecutes(c2.effect);
      if PendingPass(c3.row) {
        var ready := if c3.row.life == Discovered then SnippetFinished(SnippetStarted(c3.row)) else c3.row;
        JudgedIsQuiet(c3.(row := ready), brief, k, opts, o, false);
      }
    }
  }

  lemma QuietStays(c: Cell, brief: Brief, k: Key, opts: OptIn, o: Outcome)
    requires Quiet(c, brief, k, opts)
    ensures ReplayCell(c, brief, k, true) == c
    ensures PendingCell(c, brief, k, o, true) == c
  {
  }

  /** After a fault-free resume exactly those hold a verdict who held one, reconciled, or were
      taken up with no opt-in. */
  lemma JudgedIffTakenUp(c: Cell, brief: Brief, k: Key, opts: OptIn, logged: Option<Stored>, samples: seq<Outcome>, o: Outcome)
    requires Answered(c, logged, samples, o)
    ensures var r := Reconciled(c.row);
            HasVerdict(ResumeCell(c, brief, k, opts, logged, samples, o, FAULT_FREE).row) <==> HasVerdict(r) || TakenUp(r, brief)
  {
    var c1 := ReconcileCell(c);
    var c2 := RejudgeCell(c1, brief, k, opts, logged, samples, true);
    RejudgedHasVerdict(c1, brief, k, opts, logged, samples);
    if PendingPass(c2.row) { JudgedHasVerdict(c2, brief, k, o, false); }
  }

  lemma RejudgedHasVerdict(c: Cell, brief: Brief, k: Key, opts: OptIn, logged: Option<Stored>, samples: seq<Outcome>)
    requires |samples| == SamplesFor(BucketBefore(c.row, logged))
    requires forall i :: 0 <= i < |samples| ==> Sampled(samples[i]) && samples[i].bucket != Failure
    ensures var d := RejudgeCell(c, brief, k, opts, logged, samples, true);
            if Selected(c.row, brief, opts) then HasVerdict(d.row) else d == c
  {
    if Selected(c.row, brief, opts) {
      var before := BucketBefore(c.row, logged);
      ResolveByBuckets(before, samples);
      JudgedHasVerdict(c.(row := VerdictCleared(c.row)), brief, k, Outcome(Reject, Rejected), false);
      if Resolve(before, samples).Becomes? {
        var r := Resolve(before, samples);
        JudgedHasVerdict(c.(row := VerdictCleared(c.row)), brief, k, r.outcome, r.split);
      }
    }
  }

  lemma JudgedHasVerdict(c: Cell, brief: Brief, k: Key, o: Outcome, split: bool)
    requires o.bucket != Failure
    ensures HasVerdict(JudgeCell(c, brief, k, o, split, true).row)
  {
  }

  lemma SettledStays(c: Cell, brief: Brief, k: Key, opts: OptIn, logged: Option<Stored>,
                               samples: seq<Outcome>, o: Outcome,
                               logged2: Option<Stored>, samples2: seq<Outcome>, o2: Outcome)
    requires Answered(c, logged, samples, o)
    ensures var once := ResumeCell(c, brief, k, opts, logged, samples, o, FAULT_FREE);
            && ResumeCell(once, brief, k, opts, logged2, samples2, o2, FAULT_FREE) == once
            && Retired(ReconcileCell(once), brief, k, opts, logged2, samples2) == []
  {
    Settled(c, brief, k, opts, logged, samples, o);
    var once := ResumeCell(c, brief, k, opts, logged, samples, o, FAULT_FREE);
    assert ReconcileCell(once) == once;
    QuietStays(once, brief, k, opts, o2);
  }

  const TAKES_ALL := Workspace(k => true, k => true, k => true)

  /** Repeating a fault-free resume under the same brief changes nobody's cell and adds nothing
      to the event log, whatever the judge and the samples would say the second time. */
  lemma ResumeTwiceDoesNothing(cells: map<Key, Cell>, brief: Brief, opts: OptIn, log: seq<(Key, Stored)>, order: seq<Key>,
                               samples: Key -> seq<Outcome>, judge: Key -> Outcome,
                               samples2: Key -> seq<Outcome>, judge2: Key -> Outcome)
    requires forall k :: k in cells ==> Answered(cells[k], LastLogged(log, k), samples(k), judge(k))
    ensures var once := ResumedCells(cells, brief, opts, log, samples, judge, TAKES_ALL);
            var logged := ResumedLog(cells, brief, opts, log, samples, order);
            && ResumedCells(once, brief, opts, logged, samples2, judge2, TAKES_ALL) == once
            && ResumedLog(once, brief, opts, logged, samples2, order) == logged
  {
    var once := ResumedCells(cells, brief, opts, log, samples, judge, TAKES_ALL);
    var logged := ResumedLog(cells, brief, opts, log, samples, order);
    TwiceCells(cells, once, brief, opts, log, samples, judge, logged, samples2, judge2);
    TwiceLog(cells, once, brief, opts, log, samples, judge, logged, samples2, order);
  }

  lemma TwiceCells(cells: map<Key, Cell>, once: map<Key, Cell>, brief: Brief, opts: OptIn, log: seq<(Key, Stored)>,
                   samples: Key -> seq<Outcome>, judge: Key -> Outcome,
                   logged: seq<(Key, Stored)>, samples2: Key -> seq<Outcome>, judge2: Key -> Outcome)
    requires forall k :: k in cells ==> Answered(cells[k], LastLogged(log, k), samples(k), judge(k))
    requires once == ResumedCells(cells, brief, opts, log, samples, judge, TAKES_ALL)
    ensures once == ResumedCells(once, brief, opts, logged, samples2, judge2, TAKES_ALL)
  {
    forall k | k in once
      ensures once[k] == ResumeCell(once[k], brief, k, opts, LastLogged(logged, k), samples2(k), judge2(k), FAULT_FREE)
    {
      SettledStays(cells[k], brief, k, opts, LastLogged(log, k), samples(k), judge(k), LastLogged(logged, k), samples2(k), judge2(k));
    }
    ResumedAre(once, once, brief, opts, logged, samples2, judge2, TAKES_ALL);
  }

  lemma TwiceLog(cells: map<Key, Cell>, once: map<Key, Cell>, brief: Brief, opts: OptIn, log: seq<(Key, Stored)>,
                 samples: Key -> seq<Outcome>, judge: Key -> Outcome,
                 logged: seq<(Key, Stored)>, samples2: Key -> seq<Outcome>, order: seq<Key>)
    requires forall k :: k in cells ==> Answered(cells[k], LastLogged(log, k), samples(k), judge(k))
    requires once == ResumedCells(cells, brief, opts, log, samples, judge, TAKES_ALL)
    ensures ResumedLog(once, brief, opts, logged, samples2, order) == logged
  {
    var retiring := Retiring(Reconciling(once), brief, opts, logged, samples2);
    forall k | k in retiring ensures retiring[k] == [] {
      SettledStays(cells[k], brief, k, opts, LastLogged(log, k), samples(k), judge(k), LastLogged(logged, k), samples2(k), judge(k));
    }
    NothingLogged(logged, retiring, order, |order|);
  }

  /** When nobody retires a verdict, the event log stays as it was. */
  lemma {:induction false} NothingLogged(log: seq<(Key, Stored)>, retiring: map<Key, seq<(Key, Stored)>>, ks: seq<Key>, n: nat)
    requires n <= |ks| && forall k :: k in retiring ==> retiring[k] == []
    ensures Logged(log, retiring, ks, n) == log
  {
    if n > 0 { NothingLogged(log, retiring, ks, n - 1); }
  }
}
