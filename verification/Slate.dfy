/** The slate: every terminal person filed once, and coverage that adds up. */
module Slate {
  import opened Wrappers
  import opened Verdicts

  /** One campaign candidate as the slate reads it. */
  datatype Standing = Unfinished | FailedJudgment | Terminal(verdict: Stored)

  datatype Entry = Entry(key: string, standing: Standing, readable: bool, known: bool, checks: Checks)
  {
    /** Where the slate files a terminal person; None for anybody else. */
    function Section(): Option<Section> {
      if standing.Terminal? then Some(SectionOf(checks, standing.verdict, readable, known)) else None
    }
  }

  datatype QueryState = Ran | SkippedQuery | Waiting

  /** One work unit, keyed by the firm or archetype its numbers are reported under. */
  datatype Unit = Unit(archetype: bool, family: string, results: nat, candidates: nat, state: QueryState)

  datatype Coverage = Coverage(family: string, queries: nat, results: nat, candidates: nat, skipped: nat)

  datatype RunView = RunView(
    shortList: seq<string>, worthALook: seq<string>, alreadyKnown: seq<string>,
    excludedEmployer: seq<string>, excludedAlumni: seq<string>, excludedLocation: seq<string>,
    rejected: nat, failed: nat, gatedEmployer: nat, gatedAlumni: nat, gatedLocation: nat)

  /** The keys of the entries filed under one section, in campaign order. */
  function Filed(entries: seq<Entry>, s: Section): seq<string> {
    if entries == [] then []
    else
      var last := entries[|entries| - 1];
      Filed(entries[..|entries| - 1], s) + if last.Section() == Some(s) then [last.key] else []
  }

  datatype Mark = HeldVerdict | FailedMark | Gated(path: Path)

  predicate Marked(e: Entry, m: Mark) {
    match m
    case HeldVerdict => e.standing.Terminal?
    case FailedMark => e.standing.FailedJudgment?
    case Gated(p) => e.standing.Terminal? && e.standing.verdict.path == p
  }

  function Count(entries: seq<Entry>, m: Mark): nat {
    if entries == [] then 0
    else Count(entries[..|entries| - 1], m) + if Marked(entries[|entries| - 1], m) then 1 else 0
  }

  /** The candidate half of `build_run_view`: one pass, the branches in the source's order. */
  method FileEntries(entries: seq<Entry>) returns (v: RunView)
    ensures v.shortList == Filed(entries, OnShortList)
    ensures v.worthALook == Filed(entries, OnWorthALook)
    ensures v.alreadyKnown == Filed(entries, AlreadyKnown)
    ensures v.excludedEmployer == Filed(entries, ExcludedEmployer)
    ensures v.excludedAlumni == Filed(entries, ExcludedAlumni)
    ensures v.excludedLocation == Filed(entries, ExcludedLocation)
    ensures v.rejected == |Filed(entries, OffSlate)|
    ensures v.failed == Count(entries, FailedMark)
    ensures v.gatedEmployer == Count(entries, Gated(EmployerGate))
    ensures v.gatedAlumni == Count(entries, Gated(AlumniGate))
    ensures v.gatedLocation == Count(entries, Gated(LocationGate))
  {
    v := RunView([], [], [], [], [], [], 0, 0, 0, 0, 0);
    var i := 0;
    while i < |entries|
      invariant 0 <= i <= |entries|
      invariant v.shortList == Filed(entries[..i], OnShortList)
      invariant v.worthALook == Filed(entries[..i], OnWorthALook)
      invariant v.alreadyKnown == Filed(entries[..i], AlreadyKnown)
      invariant v.excludedEmployer == Filed(entries[..i], ExcludedEmployer)
      invariant v.excludedAlumni == Filed(entries[..i], ExcludedAlumni)
      invariant v.excludedLocation == Filed(entries[..i], ExcludedLocation)
      invariant v.rejected == |Filed(entries[..i], OffSlate)|
      invariant v.failed == Count(entries[..i], FailedMark)
      invariant v.gatedEmployer == Count(entries[..i], Gated(EmployerGate))
      invariant v.gatedAlumni == Count(entries[..i], Gated(AlumniGate))
      invariant v.gatedLocation == Count(entries[..i], Gated(LocationGate))
    {
      var e := entries[i];
      assert entries[..i + 1][..i] == entries[..i];
      if e.standing.FailedJudgment? {
        v := v.(failed := v.failed + 1);
      } else if e.standing.Terminal? {
        v := FileTerminal(v, e, e.standing.verdict);
      }
      i := i + 1;
    }
    assert entries[..i] == entries;
  }

  /** One terminal person: the stored gate is counted, a gate the brief has today
      excludes, then the already-known, then the bucket decide. */
  method FileTerminal(v: RunView, e: Entry, stored: Stored) returns (w: RunView)
    requires e.standing == Terminal(stored)
    ensures var s := SectionOf(e.checks, stored, e.readable, e.known);
            w == v.(shortList := v.shortList + if s == OnShortList then [e.key] else [],
                    worthALook := v.worthALook + if s == OnWorthALook then [e.key] else [],
                    alreadyKnown := v.alreadyKnown + if s == AlreadyKnown then [e.key] else [],
                    excludedEmployer := v.excludedEmployer + if s == ExcludedEmployer then [e.key] else [],
                    excludedAlumni := v.excludedAlumni + if s == ExcludedAlumni then [e.key] else [],
                    excludedLocation := v.excludedLocation + if s == ExcludedLocation then [e.key] else [],
                    rejected := v.rejected + if s == OffSlate then 1 else 0,
                    gatedEmployer := v.gatedEmployer + if stored.path == EmployerGate then 1 else 0,
                    gatedAlumni := v.gatedAlumni + if stored.path == AlumniGate then 1 else 0,
                    gatedLocation := v.gatedLocation + if stored.path == LocationGate then 1 else 0)
  {
    w := v;
    var bucket := Classify(stored.decision);
    if stored.path == LocationGate {
      w := w.(gatedLocation := w.gatedLocation + 1);
    } else if IsGate(stored.path) {
      if stored.path == AlumniGate {
        w := w.(gatedAlumni := w.gatedAlumni + 1);
      } else {
        w := w.(gatedEmployer := w.gatedEmployer + 1);
      }
    } else if OnSlate(bucket) && e.readable {
      if e.checks.employer {
        return w.(excludedEmployer := w.excludedEmployer + [e.key]);
      } else if e.checks.alumni {
        return w.(excludedAlumni := w.excludedAlumni + [e.key]);
      } else if e.checks.outside {
        return w.(excludedLocation := w.excludedLocation + [e.key]);
      }
    }
    if !IsGate(stored.path) && e.readable && ScopeNote(e.checks, stored.decision, bucket) && bucket == ShortList {
      bucket := WorthALook;
    }
    if stored.split && OnSlate(bucket) {
      bucket := WorthALook;
    }
    if e.known {
      w := w.(alreadyKnown := w.alreadyKnown + [e.key]);
    } else if bucket == ShortList {
      w := w.(shortList := w.shortList + [e.key]);
    } else if bucket == WorthALook {
      w := w.(worthALook := w.worthALook + [e.key]);
    } else {
      w := w.(rejected := w.rejected + 1);
    }
  }

  /** Every terminal person is filed exactly once, and nobody else is filed. */
  lemma {:induction false} EveryTerminalFiledOnce(entries: seq<Entry>)
    ensures |Filed(entries, OnShortList)| + |Filed(entries, OnWorthALook)| + |Filed(entries, AlreadyKnown)|
            + |Filed(entries, OffSlate)| + |Filed(entries, ExcludedEmployer)|
            + |Filed(entries, ExcludedAlumni)| + |Filed(entries, ExcludedLocation)|
            == Count(entries, HeldVerdict)
  {
    if entries != [] {
      EveryTerminalFiledOnce(entries[..|entries| - 1]);
    }
  }

  lemma {:induction false} FiledMembers(entries: seq<Entry>, s: Section, k: string)
    ensures k in Filed(entries, s) <==>
            exists i :: 0 <= i < |entries| && entries[i].key == k && entries[i].Section() == Some(s)
  {
    if entries != [] {
      var shorter := entries[..|entries| - 1];
      FiledMembers(shorter, s, k);
      if k in Filed(shorter, s) {
        var i :| 0 <= i < |shorter| && shorter[i].key == k && shorter[i].Section() == Some(s);
        assert entries[i].key == k;
      }
      if i :| 0 <= i < |entries| && entries[i].key == k && entries[i].Section() == Some(s) {
        if i < |shorter| { assert shorter[i].key == k; }
      }
    }
  }

  /** A list holds its people in campaign order: those standing at these positions, and nobody
      else. */
  lemma {:induction false} FiledAt(entries: seq<Entry>, s: Section) returns (at: seq<nat>)
    ensures |at| == |Filed(entries, s)| && forall m, n :: 0 <= m < n < |at| ==> at[m] < at[n]
    ensures forall m :: 0 <= m < |at| ==>
              at[m] < |entries| && entries[at[m]].key == Filed(entries, s)[m] && entries[at[m]].Section() == Some(s)
    ensures forall i: nat :: i < |entries| && entries[i].Section() == Some(s) ==> i in at
  {
    at := [];
    if entries != [] {
      var n := |entries| - 1;
      at := FiledAt(entries[..n], s);
      assert forall i :: 0 <= i < n ==> entries[..n][i] == entries[i];
      if entries[n].Section() == Some(s) { at := at + [n]; }
    }
  }

  /** The first `n` entries whose judgment failed, and those a gate turned down. */
  ghost function FailedAmong(entries: seq<Entry>, n: nat): set<nat>
    requires n <= |entries|
  {
    set i: nat | i < n && entries[i].standing == FailedJudgment
  }

  ghost function GatedAmong(entries: seq<Entry>, n: nat, gate: Path): set<nat>
    requires n <= |entries|
  {
    set i: nat | i < n && entries[i].standing.Terminal? && entries[i].standing.verdict.path == gate
  }

  /** The counters count: failed judgments, and terminal verdicts by the gate that made them. */
  lemma {:induction false} CountsMarked(entries: seq<Entry>, n: nat, gate: Path)
    requires n <= |entries|
    ensures Count(entries[..n], FailedMark) == |FailedAmong(entries, n)|
    ensures Count(entries[..n], Gated(gate)) == |GatedAmong(entries, n, gate)|
  {
    if n > 0 {
      CountsMarked(entries, n - 1, gate);
      CountsOneMore(entries, n, FailedMark);
      CountsOneMore(entries, n, Gated(gate));
      FailedOneMore(entries, n);
      GatedOneMore(entries, n, gate);
    }
  }

  lemma CountsOneMore(entries: seq<Entry>, n: nat, m: Mark)
    requires 0 < n <= |entries|
    ensures Count(entries[..n], m) == Count(entries[..n - 1], m) + if Marked(entries[n - 1], m) then 1 else 0
  {
    assert entries[..n][..n - 1] == entries[..n - 1];
  }

  lemma FailedOneMore(entries: seq<Entry>, n: nat)
    requires 0 < n <= |entries|
    ensures |FailedAmong(entries, n)| == |FailedAmong(entries, n - 1)| + if entries[n - 1].standing == FailedJudgment then 1 else 0
  {
    assert FailedAmong(entries, n) ==
           FailedAmong(entries, n - 1) + if entries[n - 1].standing == FailedJudgment then {n - 1} else {};
  }

  lemma GatedOneMore(entries: seq<Entry>, n: nat, gate: Path)
    requires 0 < n <= |entries|
    ensures |GatedAmong(entries, n, gate)| == |GatedAmong(entries, n - 1, gate)|
              + if entries[n - 1].standing.Terminal? && entries[n - 1].standing.verdict.path == gate then 1 else 0
  {
    assert GatedAmong(entries, n, gate) == GatedAmong(entries, n - 1, gate)
           + if entries[n - 1].standing.Terminal? && entries[n - 1].standing.verdict.path == gate then {n - 1} else {};
  }

  /** No person is filed in two places: the identity key is unique in a campaign. */
  lemma FiledInOnePlace(entries: seq<Entry>, s: Section, t: Section, k: string)
    requires forall i, j :: 0 <= i < j < |entries| ==> entries[i].key != entries[j].key
    requires k in Filed(entries, s) && k in Filed(entries, t)
    ensures s == t
  {
    FiledMembers(entries, s, k);
    FiledMembers(entries, t, k);
  }

  /** A stored gate rejection is counted under its gate and, on top of that, filed as
      rejected or already known, never on a list the recruiter works from. */
  lemma GateRejectionsAreAlsoFiled(entries: seq<Entry>, e: Entry, s: Section)
    requires e.standing.Terminal? && e.standing.verdict.path != Model && e.standing.verdict.decision == Reject
    ensures Count(entries + [e], Gated(e.standing.verdict.path)) == Count(entries, Gated(e.standing.verdict.path)) + 1
    ensures Filed(entries + [e], s) ==
            Filed(entries, s) + if s == (if e.known then AlreadyKnown else OffSlate) then [e.key] else []
  {
    assert (entries + [e])[..|entries|] == entries;
  }

  // ---- Coverage ----

  function SumResults(cov: seq<Coverage>): nat {
    if cov == [] then 0 else SumResults(cov[..|cov| - 1]) + cov[|cov| - 1].results
  }

  function SumCandidates(cov: seq<Coverage>): nat {
    if cov == [] then 0 else SumCandidates(cov[..|cov| - 1]) + cov[|cov| - 1].candidates
  }

  function Tallied(c: Coverage, u: Unit): Coverage {
    c.(queries := c.queries + 1, results := c.results + u.results, candidates := c.candidates + u.candidates,
       skipped := c.skipped + if u.state == SkippedQuery then 1 else 0)
  }

  /** What the units of one family add up to. */
  function FamilyTotal(units: seq<Unit>, archetype: bool, family: string): Coverage {
    if units == [] then Coverage(family, 0, 0, 0, 0)
    else
      var rest := FamilyTotal(units[..|units| - 1], archetype, family);
      var u := units[|units| - 1];
      if u.archetype == archetype && u.family == family then Tallied(rest, u) else rest
  }

  function RanCount(units: seq<Unit>): nat {
    if units == [] then 0
    else RanCount(units[..|units| - 1]) + if units[|units| - 1].state == Ran then 1 else 0
  }

  ghost predicate OneRowPerFamily(cov: seq<Coverage>) {
    forall i, j :: 0 <= i < j < |cov| ==> cov[i].family != cov[j].family
  }

  ghost predicate HasRow(cov: seq<Coverage>, family: string) {
    exists i :: 0 <= i < |cov| && cov[i].family == family
  }

  lemma {:induction false} TallySums(cov: seq<Coverage>, i: nat, u: Unit)
    requires i < |cov|
    ensures SumResults(cov[i := Tallied(cov[i], u)]) == SumResults(cov) + u.results
    ensures SumCandidates(cov[i := Tallied(cov[i], u)]) == SumCandidates(cov) + u.candidates
  {
    var after := cov[i := Tallied(cov[i], u)];
    var n := |cov| - 1;
    if i < n {
      TallySums(cov[..n], i, u);
      assert after[..n] == cov[..n][i := Tallied(cov[i], u)];
    } else {
      assert after[..n] == cov[..n];
    }
  }

  /** `setdefault` on a coverage map, then the row's counters. */
  method TallyRow(cov: seq<Coverage>, u: Unit) returns (out: seq<Coverage>, at: nat)
    requires OneRowPerFamily(cov)
    ensures OneRowPerFamily(out) && at < |out| && |cov| <= |out|
    ensures at < |cov| ==> cov[at].family == u.family && out == cov[at := Tallied(cov[at], u)]
    ensures at >= |cov| ==> !HasRow(cov, u.family) && out == cov + [Tallied(Coverage(u.family, 0, 0, 0, 0), u)]
    ensures SumResults(out) == SumResults(cov) + u.results
    ensures SumCandidates(out) == SumCandidates(cov) + u.candidates
  {
    at := 0;
    while at < |cov| && cov[at].family != u.family
      invariant 0 <= at <= |cov|
      invariant forall i :: 0 <= i < at ==> cov[i].family != u.family
    {
      at := at + 1;
    }
    if at < |cov| {
      out := cov[at := Tallied(cov[at], u)];
      TallySums(cov, at, u);
    } else {
      out := cov + [Tallied(Coverage(u.family, 0, 0, 0, 0), u)];
      assert out[..|cov|] == cov;
    }
  }

  /** A coverage plane says the truth about the units seen so far: one row per family
      that occurs on the plane, and each row holds its family's total. */
  ghost predicate PlaneOk(cov: seq<Coverage>, units: seq<Unit>, archetype: bool) {
    && OneRowPerFamily(cov)
    && (forall i :: 0 <= i < |cov| ==> cov[i] == FamilyTotal(units, archetype, cov[i].family))
    && (forall i :: 0 <= i < |units| && units[i].archetype == archetype ==> HasRow(cov, units[i].family))
    && (forall i :: 0 <= i < |cov| ==> HasUnit(units, archetype, cov[i].family))
  }

  ghost predicate HasUnit(units: seq<Unit>, archetype: bool, family: string) {
    exists i :: 0 <= i < |units| && units[i].archetype == archetype && units[i].family == family
  }

  lemma UnitsGrow(units: seq<Unit>, u: Unit)
    ensures HasUnit(units + [u], u.archetype, u.family)
    ensures forall a, f :: HasUnit(units, a, f) ==> HasUnit(units + [u], a, f)
  {
    var more := units + [u];
    assert more[|units|] == u;
    forall a, f | HasUnit(units, a, f) ensures HasUnit(more, a, f) {
      var i :| 0 <= i < |units| && units[i].archetype == a && units[i].family == f;
      assert more[i] == units[i];
    }
  }

  lemma OtherPlane(cov: seq<Coverage>, units: seq<Unit>, u: Unit, archetype: bool)
    requires PlaneOk(cov, units, archetype) && u.archetype != archetype
    ensures PlaneOk(cov, units + [u], archetype)
  {
    assert (units + [u])[..|units|] == units;
    UnitsGrow(units, u);
  }

  method TallyPlane(cov: seq<Coverage>, u: Unit, ghost units: seq<Unit>) returns (out: seq<Coverage>)
    requires PlaneOk(cov, units, u.archetype)
    ensures PlaneOk(out, units + [u], u.archetype)
    ensures SumResults(out) == SumResults(cov) + u.results
    ensures SumCandidates(out) == SumCandidates(cov) + u.candidates
  {
    var at;
    out, at := TallyRow(cov, u);
    assert (units + [u])[..|units|] == units;
    if at >= |cov| { NoUnits(units, cov, u.archetype, u.family); }
    RowsKeep(cov, out, at, u);
    UnitsGrow(units, u);
  }

  /** One unit on the plane it belongs to. */
  method CoverUnit(firms: seq<Coverage>, archetypes: seq<Coverage>, u: Unit, ghost units: seq<Unit>)
    returns (firms': seq<Coverage>, archetypes': seq<Coverage>)
    requires PlaneOk(firms, units, false) && PlaneOk(archetypes, units, true)
    ensures PlaneOk(firms', units + [u], false) && PlaneOk(archetypes', units + [u], true)
    ensures SumResults(firms') + SumResults(archetypes') == SumResults(firms) + SumResults(archetypes) + u.results
    ensures SumCandidates(firms') + SumCandidates(archetypes') == SumCandidates(firms) + SumCandidates(archetypes) + u.candidates
  {
    firms', archetypes' := firms, archetypes;
    if u.archetype {
      OtherPlane(firms, units, u, false);
      archetypes' := TallyPlane(archetypes, u, units);
    } else {
      OtherPlane(archetypes, units, u, true);
      firms' := TallyPlane(firms, u, units);
    }
  }

  /** The work-unit half of `build_run_view`: each unit lands on one row of one of the two
      planes, each row holds its family's total, and the campaign totals are the sums. */
  method CoverUnits(units: seq<Unit>)
    returns (firms: seq<Coverage>, archetypes: seq<Coverage>, results: nat, candidates: nat, queriesRun: nat)
    ensures PlaneOk(firms, units, false) && PlaneOk(archetypes, units, true)
    ensures results == SumResults(firms) + SumResults(archetypes)
    ensures candidates == SumCandidates(firms) + SumCandidates(archetypes)
    ensures queriesRun == RanCount(units)
  {
    firms, archetypes, results, candidates, queriesRun := [], [], 0, 0, 0;
    for n := 0 to |units|
      invariant PlaneOk(firms, units[..n], false) && PlaneOk(archetypes, units[..n], true)
      invariant results == SumResults(firms) + SumResults(archetypes)
      invariant candidates == SumCandidates(firms) + SumCandidates(archetypes)
      invariant queriesRun == RanCount(units[..n])
    {
      var u := units[n];
      assert units[..n + 1] == units[..n] + [u];
      RanOneMore(units[..n], u);
      firms, archetypes := CoverUnit(firms, archetypes, u, units[..n]);
      if u.state == Ran { queriesRun := queriesRun + 1; }
      results := results + u.results;
      candidates := candidates + u.candidates;
    }
    assert units[..|units|] == units;
  }

  lemma RanOneMore(units: seq<Unit>, u: Unit)
    ensures RanCount(units + [u]) == RanCount(units) + if u.state == Ran then 1 else 0
  {
    assert (units + [u])[..|units|] == units;
  }

  /** A family without a row has no units so far. */
  lemma {:induction false} NoUnits(units: seq<Unit>, cov: seq<Coverage>, archetype: bool, family: string)
    requires !HasRow(cov, family)
    requires forall i :: 0 <= i < |units| && units[i].archetype == archetype ==> HasRow(cov, units[i].family)
    ensures FamilyTotal(units, archetype, family) == Coverage(family, 0, 0, 0, 0)
  {
    if units != [] {
      NoUnits(units[..|units| - 1], cov, archetype, family);
    }
  }

  lemma RowsKeep(before: seq<Coverage>, after: seq<Coverage>, at: nat, u: Unit)
    requires at < |after| && |before| <= |after| && after[at].family == u.family
    requires forall i :: 0 <= i < |before| ==> after[i].family == before[i].family
    ensures HasRow(after, u.family)
    ensures forall f :: HasRow(before, f) ==> HasRow(after, f)
  {
    forall f | HasRow(before, f) ensures HasRow(after, f) {
      var i :| 0 <= i < |before| && before[i].family == f;
      assert after[i].family == f;
    }
  }

  /** Where the units of a family stand among the first `n`, all of them or those in one state. */
  ghost function UnitsOf(units: seq<Unit>, n: nat, archetype: bool, family: string): set<nat>
    requires n <= |units|
  {
    set i: nat | i < n && units[i].archetype == archetype && units[i].family == family
  }

  ghost function InState(units: seq<Unit>, at: set<nat>, state: QueryState): set<nat> {
    set i | i in at && i < |units| && units[i].state == state
  }

  /** A row counts its family's units and those skipped among them. */
  lemma {:induction false} RowCounts(units: seq<Unit>, n: nat, archetype: bool, family: string)
    requires n <= |units|
    ensures var row, at := FamilyTotal(units[..n], archetype, family), UnitsOf(units, n, archetype, family);
            row.family == family && row.queries == |at| && row.skipped == |InState(units, at, SkippedQuery)|
  {
    if n > 0 {
      RowCounts(units, n - 1, archetype, family);
      assert units[..n][..n - 1] == units[..n - 1];
      var mine := units[n - 1].archetype == archetype && units[n - 1].family == family;
      OneMoreUnit(units, n, archetype, family, mine);
    }
  }

  lemma OneMoreUnit(units: seq<Unit>, n: nat, archetype: bool, family: string, mine: bool)
    requires 0 < n <= |units| && mine == (units[n - 1].archetype == archetype && units[n - 1].family == family)
    ensures var was, now := UnitsOf(units, n - 1, archetype, family), UnitsOf(units, n, archetype, family);
            && |now| == |was| + (if mine then 1 else 0)
            && |InState(units, now, SkippedQuery)| ==
                 |InState(units, was, SkippedQuery)| + if mine && units[n - 1].state == SkippedQuery then 1 else 0
  {
    var was, now := UnitsOf(units, n - 1, archetype, family), UnitsOf(units, n, archetype, family);
    assert now == if mine then was + {n - 1} else was;
    OneMoreInState(units, was, n - 1, mine);
  }

  lemma OneMoreInState(units: seq<Unit>, at: set<nat>, n: nat, mine: bool)
    requires n < |units| && n !in at
    ensures |InState(units, if mine then at + {n} else at, SkippedQuery)| ==
              |InState(units, at, SkippedQuery)| + if mine && units[n].state == SkippedQuery then 1 else 0
  {
    assert InState(units, at + {n}, SkippedQuery) ==
           InState(units, at, SkippedQuery) + if units[n].state == SkippedQuery then {n} else {};
  }

  /** The queries run are the units in the state that says so. */
  lemma {:induction false} RanCounts(units: seq<Unit>)
    ensures RanCount(units) == |set i: nat | i < |units| && units[i].state == Ran|
  {
    if units != [] {
      var n := |units| - 1;
      RanCounts(units[..n]);
      var was, now := set i: nat | i < n && units[..n][i].state == Ran, set i: nat | i < |units| && units[i].state == Ran;
      assert now == was + if units[n].state == Ran then {n} else {};
    }
  }
}
