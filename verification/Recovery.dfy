/** Rebuilding a plan from its stored rows when some of their payloads no longer read. */
module Recovery {
  import opened Wrappers
  import opened QueryStates
  import opened Plan
  import opened PlanTheorems
  import opened Compile

  /** A stored row: columns of its own, and the query it carries when that still reads. */
  datatype UnitRow = UnitRow(unitId: int, lane: string, family: string, payload: Option<Query>,
                             status: QueryStatus, notes: string, results: nat, discovered: nat)

  const PAYLOAD_LOST := "payload lost; not in current plan"

  /** What a sync writes for a query. */
  function RowOf(q: Query, readable: bool): UnitRow {
    UnitRow(q.id, q.lane, CoverageKey(q), if readable then Some(q) else None, q.status, q.notes, q.results, q.discovered)
  }

  const ARCHETYPE_PREFIX := "archetype:"

  /** The identity a row still carries without its payload. */
  function Degraded(row: UnitRow): Query {
    if row.lane == "archetype" && ARCHETYPE_PREFIX <= row.family
    then Query(row.unitId, row.lane, "", row.family[|ARCHETYPE_PREFIX|..], "", Queued, "", 0, 0)
    else Query(row.unitId, row.lane, row.family, "", "", Queued, "", 0, 0)
  }

  /** The first compiled query of a key. */
  function FirstOf(compiled: seq<Query>, k: Key): (q: Option<Query>)
    ensures q.Some? ==> q.value in compiled && KeyOf(q.value) == k
    ensures q.None? <==> Count(compiled, k) == 0
  {
    if compiled == [] then None
    else
      var n := |compiled| - 1;
      var q := FirstOf(compiled[..n], k);
      if q.Some? then q else if KeyOf(compiled[n]) == k then Some(compiled[n]) else None
  }

  /** The query a row stands for, before the row's own columns are laid over it. */
  function Base(row: UnitRow, compiled: seq<Query>): Query {
    match row.payload
    case Some(q) => q
    case None =>
      match FirstOf(compiled, KeyOf(Degraded(row)))
      case Some(m) => m.(id := row.unitId)
      case None => Degraded(row)
  }

  predicate Unrecoverable(row: UnitRow, compiled: seq<Query>) {
    row.payload.None? && Base(row, compiled).text == "" && Runnable(row.status)
  }

  function Recovered(row: UnitRow, compiled: seq<Query>): Query {
    var q := Base(row, compiled).(status := row.status, notes := row.notes, results := row.results, discovered := row.discovered);
    if Unrecoverable(row, compiled) then q.(status := Skipped, notes := PAYLOAD_LOST) else q
  }

  function AllRecovered(rows: seq<UnitRow>, compiled: seq<Query>): seq<Query> {
    seq(|rows|, i requires 0 <= i < |rows| => Recovered(rows[i], compiled))
  }

  method GroupByKey(compiled: seq<Query>) returns (byKey: map<Key, seq<Query>>)
    ensures forall k :: match FirstOf(compiled, k)
                        case None => k !in byKey
                        case Some(q) => k in byKey && byKey[k] != [] && byKey[k][0] == q
  {
    byKey := map[];
    for i := 0 to |compiled|
      invariant forall k :: match FirstOf(compiled[..i], k)
                            case None => k !in byKey
                            case Some(q) => k in byKey && byKey[k] != [] && byKey[k][0] == q
    {
      assert compiled[..i + 1][..i] == compiled[..i];
      var k := KeyOf(compiled[i]);
      byKey := byKey[k := (if k in byKey then byKey[k] else []) + [compiled[i]]];
    }
    assert compiled[..|compiled|] == compiled;
  }

  method LoadProgress(rows: seq<UnitRow>, compiled: seq<Query>) returns (queries: seq<Query>)
    ensures queries == AllRecovered(rows, compiled)
  {
    var byKey := GroupByKey(compiled);
    queries := [];
    for i := 0 to |rows|
      invariant |queries| == i && forall j :: 0 <= j < i ==> queries[j] == Recovered(rows[j], compiled)
    {
      var q := RecoverRow(rows[i], byKey, compiled);
      queries := queries + [q];
    }
  }

  method RecoverRow(row: UnitRow, byKey: map<Key, seq<Query>>, ghost compiled: seq<Query>) returns (q: Query)
    requires forall k :: match FirstOf(compiled, k)
                         case None => k !in byKey
                         case Some(q) => k in byKey && byKey[k] != [] && byKey[k][0] == q
    ensures q == Recovered(row, compiled)
  {
    q := Degraded(row);
    if row.payload.Some? {
      q := row.payload.value;
    } else if KeyOf(q) in byKey {
      assert FirstOf(compiled, KeyOf(q)).Some?;
      q := byKey[KeyOf(q)][0].(id := q.id);
    } else {
      assert FirstOf(compiled, KeyOf(q)).None?;
    }
    q := q.(status := row.status, notes := row.notes, results := row.results, discovered := row.discovered);
    if row.payload.None? && q.text == "" && Runnable(q.status) {
      q := q.(status := Skipped, notes := PAYLOAD_LOST);
    }
  }

  // ---- What comes back ----

  /** A row's columns give back the key its query is planned under, but for one family: an
      archetype-lane query without an archetype whose firm is the bare prefix. */
  lemma DegradedKeepsKey(q: Query, readable: bool)
    ensures KeyOf(Degraded(RowOf(q, readable))) == KeyOf(q) <==> !(q.lane == "archetype" && CoverageKey(q) == ARCHETYPE_PREFIX)
  {
    var row := RowOf(q, readable);
    if q.lane == "archetype" && ARCHETYPE_PREFIX <= row.family {
      var id := row.family[|ARCHETYPE_PREFIX|..];
      assert ARCHETYPE_PREFIX + id == row.family;
      assert id == "" <==> row.family == ARCHETYPE_PREFIX;
    }
  }

  /** A plan whose payloads all read loads back as it was synced. */
  lemma SyncLoadRoundTrip(qs: seq<Query>, compiled: seq<Query>)
    ensures AllRecovered(seq(|qs|, i requires 0 <= i < |qs| => RowOf(qs[i], true)), compiled) == qs
  {
  }

  predicate Plain(q: Query) { !(q.lane == "archetype" && CoverageKey(q) == ARCHETYPE_PREFIX) }

  ghost predicate AllPlain(qs: seq<Query>) { forall i :: 0 <= i < |qs| ==> Plain(qs[i]) }

  lemma PlainJoin(a: seq<Query>, b: seq<Query>)
    requires AllPlain(a) && AllPlain(b)
    ensures AllPlain(a + b)
  {
  }

  lemma {:induction false} FallbackPlain(b: Brief, n: nat)
    requires n <= |b.fallbacks|
    ensures AllPlain(FallbackQueries(b, n))
  {
    if n > 0 { FallbackPlain(b, n - 1); }
  }

  lemma {:induction false} LanePlain(b: Brief, lane: Lane, n: nat, base: nat)
    requires n <= |b.firms|
    ensures AllPlain(LaneQueries(b, lane, n, base))
  {
    if n > 0 && lane != ArchetypeLane { LanePlain(b, lane, n - 1, base); }
  }

  lemma {:induction false} FirmsPlain(b: Brief, lanes: seq<Lane>)
    ensures AllPlain(FirmQueries(b, lanes))
  {
    if lanes != [] {
      var before := FirmQueries(b, lanes[..|lanes| - 1]);
      FirmsPlain(b, lanes[..|lanes| - 1]);
      LanePlain(b, lanes[|lanes| - 1], |b.firms|, |before|);
      PlainJoin(before, LaneQueries(b, lanes[|lanes| - 1], |b.firms|, |before|));
    }
  }

  lemma {:induction false} ArchetypesPlain(b: Brief, n: nat, base: nat)
    requires n <= |b.archetypes|
    ensures AllPlain(ArchetypeQueries(b, n, base))
  {
    if n > 0 {
      ArchetypesPlain(b, n - 1, base);
      ArchetypePlain(b.archetypes[n - 1], base + n);
      OnePlain(ArchetypeQuery(b.archetypes[n - 1], base + n));
      PlainJoin(ArchetypeQueries(b, n - 1, base), [ArchetypeQuery(b.archetypes[n - 1], base + n)]);
    }
  }

  lemma OnePlain(q: Query)
    requires Plain(q)
    ensures AllPlain([q])
  {
  }

  lemma ArchetypePlain(a: Archetype, id: int)
    ensures Plain(ArchetypeQuery(a, id))
  {
    assert |ARCHETYPE_PREFIX + a.id| > |ARCHETYPE_PREFIX|;
  }

  /** No brief compiles a query under the bare prefix. */
  lemma CompiledPlain(b: Brief)
    ensures AllPlain(Compiled(b))
  {
    FallbackPlain(b, |b.fallbacks|);
    FirmsPlain(b, ActiveLanes(b));
    ArchetypesPlain(b, |b.archetypes|, |Firmwise(b)|);
    PlainJoin(Firmwise(b), if ArchetypeLane in ActiveLanes(b) then ArchetypeQueries(b, |b.archetypes|, |Firmwise(b)|) else []);
  }

  /** Nor does any history of edits and progress bring one into a plan. */
  lemma {:induction false} HistoryPlain(plan: seq<Query>, es: seq<Event>)
    requires History(plan, es) && AllPlain(plan)
    ensures AllPlain(PlanAfter(plan, es))
    decreases |es|
  {
    if es != [] {
      NextPlain(plan, es[0]);
      HistoryPlain(Next(plan, es[0]), es[1..]);
    }
  }

  lemma NextPlain(plan: seq<Query>, e: Event)
    requires Possible(plan, e) && AllPlain(plan)
    ensures AllPlain(Next(plan, e))
  {
    match e
    case Edit(b) =>
      CompiledPlain(b);
      MergedPlain(plan, Compiled(b), LanesOf(b));
    case Progressed(_, _, _, _, _) =>
  }

  lemma MergedPlain(plan: seq<Query>, compiled: seq<Query>, lanes: Option<set<string>>)
    requires AllPlain(plan) && AllPlain(compiled)
    ensures AllPlain(Merged(plan, compiled, lanes))
  {
    RevisedPlain(plan, PlanRows(plan, compiled), lanes);
    AddsPlain(compiled, NewOnes(plan, compiled), NextId(plan), |compiled|);
    PlainJoin(Revised(plan, PlanRows(plan, compiled), lanes), Added(plan, compiled, |compiled|));
  }

  lemma RevisedPlain(plan: seq<Query>, matched: set<nat>, lanes: Option<set<string>>)
    requires AllPlain(plan)
    ensures AllPlain(Revised(plan, matched, lanes))
  {
    forall i | 0 <= i < |plan| ensures Plain(Revised(plan, matched, lanes)[i]) {
      RowKept(plan[i], i in matched, lanes);
    }
  }

  lemma {:induction false} AddsPlain(compiled: seq<Query>, isNew: seq<bool>, next: int, n: nat)
    requires n <= |compiled| == |isNew| && AllPlain(compiled)
    ensures AllPlain(Adds(compiled, isNew, next, n))
  {
    if n > 0 { AddsPlain(compiled, isNew, next, n - 1); }
  }

  /** What a lost payload leaves of a query. */
  ghost predicate Survives(q: Query, r: Query, compiled: seq<Query>, lanes: Option<set<string>>) {
    var row := RowOf(q, false);
    && r.id == q.id && KeyOf(r) == KeyOf(q) && r.results == q.results && r.discovered == q.discovered
    && (Unrecoverable(row, compiled) ==> r.status == Skipped && r.notes == "payload lost; not in current plan" && forall inPlan :: MergeRow(r, inPlan, lanes) == r)
    && (!Unrecoverable(row, compiled) ==> r.status == q.status && r.notes == q.notes)
    && (Runnable(r.status) ==> r.text != "")
    && (Count(compiled, KeyOf(q)) > 0 && (forall c :: c in compiled ==> c.text != "") ==> !Unrecoverable(row, compiled))
  }

  lemma PlainSurvives(q: Query, compiled: seq<Query>, lanes: Option<set<string>>)
    requires Plain(q)
    ensures Survives(q, Recovered(RowOf(q, false), compiled), compiled, lanes)
  {
    DegradedKeepsKey(q, false);
    var m := FirstOf(compiled, KeyOf(q));
    if m.Some? { assert m.value in compiled; }
  }

  /** In every plan a campaign can hold, a row that lost its payload keeps its id, key and
      counters; it is retired when nothing can run in its place, and otherwise keeps its status
      and note too.  No row runs without a text, and a retired one stays retired whatever the
      brief becomes. */
  lemma LostPayload(es: seq<Event>, i: nat, compiled: seq<Query>, lanes: Option<set<string>>)
    requires History([], es) && i < |PlanAfter([], es)|
    ensures var q := PlanAfter([], es)[i];
            KeyOf(Degraded(RowOf(q, false))) == KeyOf(q) && Survives(q, Recovered(RowOf(q, false), compiled), compiled, lanes)
  {
    HistoryPlain([], es);
    DegradedKeepsKey(PlanAfter([], es)[i], false);
    PlainSurvives(PlanAfter([], es)[i], compiled, lanes);
  }

  // ---- What a lost row searches for again ----

  /** The first compiled query of a key has none of its key before it. */
  lemma {:induction false} FirstIs(compiled: seq<Query>, f: nat)
    requires f < |compiled| && Rank(compiled, f) == 0
    ensures FirstOf(compiled, KeyOf(compiled[f])) == Some(compiled[f])
  {
    var n := |compiled| - 1;
    assert compiled == compiled[..n] + [compiled[n]];
    if f < n {
      assert compiled[..n][..f] == compiled[..f];
      FirstIs(compiled[..n], f);
    }
  }

  /** A lost row comes back asking what the first compiled query of its key asks, so what it
      asked itself, under the brief compiled now, exactly when the query of its own rank asks
      the same. */
  lemma RebuiltText(es: seq<Event>, i: nat, compiled: seq<Query>, f: nat, j: nat)
    requires History([], es) && i < |PlanAfter([], es)| && f < |compiled| && j < |compiled|
    requires KeyOf(compiled[f]) == KeyOf(compiled[j]) == KeyOf(PlanAfter([], es)[i])
    requires Rank(compiled, f) == 0 && Rank(compiled, j) == Rank(PlanAfter([], es), i)
    ensures var r := Recovered(RowOf(PlanAfter([], es)[i], false), compiled);
            r.text == compiled[j].text <==> compiled[f].text == compiled[j].text
  {
    HistoryPlain([], es);
    DegradedKeepsKey(PlanAfter([], es)[i], false);
    FirstIs(compiled, f);
  }

  /** The plan of a brief without firms: a row a title term's search was lost from comes back as
      the first title term's search, and so loses its own unless the two read alike. */
  lemma FallbackRebuilt(b: Brief, j: nat)
    requires b.firms == [] && PeopleSearch in ActiveLanes(b) && j < |b.fallbacks|
    ensures j < |Compiled(b)| && Compiled(b)[j].text == b.fallbacks[j]
    ensures Recovered(RowOf(Compiled(b)[j], false), Compiled(b)).text == b.fallbacks[0]
  {
    FallbackAt(b, |b.fallbacks|, j);
    FallbackAt(b, |b.fallbacks|, 0);
    assert Compiled(b)[..0] == [];
    FirstIs(Compiled(b), 0);
  }

  lemma {:induction false} FallbackAt(b: Brief, n: nat, j: nat)
    requires j < n <= |b.fallbacks|
    ensures FallbackQueries(b, n)[j] == FallbackQuery(b.fallbacks[j], j + 1)
  {
    if j < n - 1 { FallbackAt(b, n - 1, j); }
  }

  /** What a plan loads back as, given which of its payloads still read. */
  function Reloaded(qs: seq<Query>, readable: seq<bool>, compiled: seq<Query>): seq<Query>
    requires |readable| == |qs|
  {
    AllRecovered(seq(|qs|, i requires 0 <= i < |qs| => RowOf(qs[i], readable[i])), compiled)
  }

  /** Whichever payloads of a campaign's plan were lost, the recovered plan and the stored one
      are matched by a recompiled brief alike: the same rows are in the plan, and the same
      queries are added under the same ids. */
  lemma RecoveryKeepsThePlan(es: seq<Event>, readable: seq<bool>, compiled: seq<Query>)
    requires History([], es) && |readable| == |PlanAfter([], es)|
    ensures var qs := PlanAfter([], es); var r := Reloaded(qs, readable, compiled);
            && (forall i :: 0 <= i < |qs| ==> KeyOf(r[i]) == KeyOf(qs[i]) && r[i].id == qs[i].id)
            && PlanRows(r, compiled) == PlanRows(qs, compiled)
            && Added(r, compiled, |compiled|) == Added(qs, compiled, |compiled|)
  {
    HistoryPlain([], es);
    PlainReload(PlanAfter([], es), readable, compiled);
  }

  lemma PlainReload(qs: seq<Query>, readable: seq<bool>, compiled: seq<Query>)
    requires |readable| == |qs| && AllPlain(qs)
    ensures var r := Reloaded(qs, readable, compiled);
            && (forall i :: 0 <= i < |qs| ==> KeyOf(r[i]) == KeyOf(qs[i]) && r[i].id == qs[i].id)
            && PlanRows(r, compiled) == PlanRows(qs, compiled)
            && Added(r, compiled, |compiled|) == Added(qs, compiled, |compiled|)
  {
    var r := Reloaded(qs, readable, compiled);
    forall i | 0 <= i < |qs| ensures KeyOf(r[i]) == KeyOf(qs[i]) && r[i].id == qs[i].id {
      if !readable[i] { PlainSurvives(qs[i], compiled, None); }
    }
    forall i | 0 <= i < |qs| ensures InPlan(r, compiled, i) <==> InPlan(qs, compiled, i) {
      RankSameKeys(r, qs, i);
    }
    SameKeysAddSame(r, qs, compiled, |compiled|);
  }

  lemma {:induction false} SameKeysAddSame(a: seq<Query>, b: seq<Query>, compiled: seq<Query>, n: nat)
    requires |a| == |b| && n <= |compiled| && forall i :: 0 <= i < |a| ==> KeyOf(a[i]) == KeyOf(b[i]) && a[i].id == b[i].id
    ensures Added(a, compiled, n) == Added(b, compiled, n)
  {
    NextIdSame(a, b);
    if n > 0 {
      SameKeysAddSame(a, b, compiled, n - 1);
      CountSameKeys(a, b, KeyOf(compiled[n - 1]));
    }
  }
}
