/** Compiling a brief into queries, and a campaign's plan over any history of edits. */
module Compile {
  import opened Wrappers
  import opened QueryStates
  import opened Plan
  import opened PlanTheorems

  datatype Lane = PeopleSearch | TeamPage | OperatingSignal | ArchetypeLane

  /** Canonical lane order. */
  const LANES: seq<Lane> := [PeopleSearch, TeamPage, OperatingSignal, ArchetypeLane]

  function Name(lane: Lane): string {
    match lane
    case PeopleSearch => "people_search"
    case TeamPage => "team_page"
    case OperatingSignal => "operating_signal"
    case ArchetypeLane => "archetype"
  }

  /** A target firm with the text its query under each lane is rendered to. */
  datatype Firm = Firm(name: string, peopleText: string, teamText: string, signalText: string)

  type Text = s: string | s != "" witness "a"

  /** An entry without an id or a text is not an archetype. */
  datatype Archetype = Archetype(id: Text, text: Text)

  /** The brief's readers have already dropped malformed entries and trimmed the rest.
      `fallbacks` are the rendered texts of the title terms, for a brief without firms. */
  datatype Brief = Brief(requested: seq<string>, firms: seq<Firm>, fallbacks: seq<string>, archetypes: seq<Archetype>)

  predicate Asked(b: Brief, lane: Lane) { Name(lane) in b.requested }

  /** The brief's lanes in canonical order; naming none means all. */
  function Filtered(b: Brief, n: nat): seq<Lane>
    requires n <= |LANES|
  {
    if n == 0 then []
    else Filtered(b, n - 1) + if Asked(b, LANES[n - 1]) then [LANES[n - 1]] else []
  }

  function ActiveLanes(b: Brief): seq<Lane> {
    if forall l :: l in b.requested ==> l == "" then LANES else Filtered(b, |LANES|)
  }

  function Fresh(id: int, lane: string, firm: string, archetypeId: string, text: string): Query {
    Query(id, lane, firm, archetypeId, text, Queued, "", 0, 0)
  }

  function TextOf(lane: Lane, f: Firm): string {
    match lane
    case PeopleSearch => f.peopleText
    case TeamPage => f.teamText
    case OperatingSignal => f.signalText
    case ArchetypeLane => ""
  }

  function FirmQuery(lane: Lane, f: Firm, id: int): Query { Fresh(id, Name(lane), f.name, "", TextOf(lane, f)) }

  function ArchetypeQuery(a: Archetype, id: int): Query { Fresh(id, Name(ArchetypeLane), "", a.id, a.text) }

  function FallbackQuery(text: string, id: int): Query { Fresh(id, Name(PeopleSearch), "", "", text) }

  // ---- What is compiled, said without the running id ----

  /** The queries of the first `n` firms under one lane, numbered on from `base`. */
  function LaneQueries(b: Brief, lane: Lane, n: nat, base: nat): (qs: seq<Query>)
    requires n <= |b.firms|
    ensures |qs| == if lane != ArchetypeLane then n else 0
  {
    if n == 0 || lane == ArchetypeLane then []
    else LaneQueries(b, lane, n - 1, base) + [FirmQuery(lane, b.firms[n - 1], base + n)]
  }

  function FirmQueries(b: Brief, lanes: seq<Lane>): seq<Query> {
    if lanes == [] then []
    else
      var before := FirmQueries(b, lanes[..|lanes| - 1]);
      before + LaneQueries(b, lanes[|lanes| - 1], |b.firms|, |before|)
  }

  function FallbackQueries(b: Brief, n: nat): (qs: seq<Query>)
    requires n <= |b.fallbacks|
    ensures |qs| == n
  {
    if n == 0 then [] else FallbackQueries(b, n - 1) + [FallbackQuery(b.fallbacks[n - 1], n)]
  }

  function ArchetypeQueries(b: Brief, n: nat, base: nat): (qs: seq<Query>)
    requires n <= |b.archetypes|
    ensures |qs| == n
  {
    if n == 0 then [] else ArchetypeQueries(b, n - 1, base) + [ArchetypeQuery(b.archetypes[n - 1], base + n)]
  }

  function Firmwise(b: Brief): seq<Query> {
    var lanes := ActiveLanes(b);
    if b.firms == [] then (if PeopleSearch in lanes then FallbackQueries(b, |b.fallbacks|) else [])
    else FirmQueries(b, lanes)
  }

  function Compiled(b: Brief): seq<Query> {
    var first := Firmwise(b);
    first + if ArchetypeLane in ActiveLanes(b) then ArchetypeQueries(b, |b.archetypes|, |first|) else []
  }

  method AppendFallback(b: Brief) returns (queries: seq<Query>)
    ensures queries == FallbackQueries(b, |b.fallbacks|)
  {
    queries := [];
    var n := 0;
    while n < |b.fallbacks|
      invariant 0 <= n <= |b.fallbacks|
      invariant queries == FallbackQueries(b, n)
    {
      queries := queries + [FallbackQuery(b.fallbacks[n], |queries| + 1)];
      n := n + 1;
    }
  }

  method AppendLane(b: Brief, lane: Lane, before: seq<Query>) returns (queries: seq<Query>)
    ensures queries == before + LaneQueries(b, lane, |b.firms|, |before|)
  {
    queries := before;
    for n := 0 to |b.firms|
      invariant queries == before + LaneQueries(b, lane, n, |before|)
    {
      ghost var so := LaneQueries(b, lane, n, |before|);
      if lane != ArchetypeLane {
        var q := FirmQuery(lane, b.firms[n], |queries| + 1);
        Regroup(before, so, [q]);
        queries := queries + [q];
      }
    }
  }

  lemma Regroup(a: seq<Query>, b: seq<Query>, c: seq<Query>)
    ensures a + b + c == a + (b + c)
  {
  }

  method AppendArchetypes(b: Brief, before: seq<Query>) returns (queries: seq<Query>)
    ensures queries == before + ArchetypeQueries(b, |b.archetypes|, |before|)
  {
    queries := before;
    var n := 0;
    while n < |b.archetypes|
      invariant 0 <= n <= |b.archetypes|
      invariant queries == before + ArchetypeQueries(b, n, |before|)
    {
      queries := queries + [ArchetypeQuery(b.archetypes[n], |queries| + 1)];
      n := n + 1;
    }
  }

  method AppendFirms(b: Brief, lanes: seq<Lane>) returns (queries: seq<Query>)
    ensures queries == FirmQueries(b, lanes)
  {
    queries := [];
    for l := 0 to |lanes|
      invariant queries == FirmQueries(b, lanes[..l])
    {
      queries := AppendLane(b, lanes[l], queries);
      assert lanes[..l + 1][..l] == lanes[..l];
    }
    assert lanes[..|lanes|] == lanes;
  }

  /** `compile_exa_queries`: nested loops whose ids come from the growing list's length. */
  method CompileExaQueries(b: Brief) returns (queries: seq<Query>)
    ensures queries == Compiled(b)
  {
    var lanes := ActiveLanes(b);
    queries := [];
    if b.firms == [] {
      if PeopleSearch in lanes {
        queries := AppendFallback(b);
      }
    } else {
      queries := AppendFirms(b, lanes);
    }
    assert queries == Firmwise(b);
    if ArchetypeLane in lanes {
      queries := AppendArchetypes(b, queries);
    }
  }

  // ---- What is compiled, lane by lane ----

  /** The brief names no lane, which asks for all of them, or names this one. */
  ghost predicate Wants(b: Brief, lane: string) { (forall l :: l in b.requested ==> l == "") || lane in b.requested }

  lemma LanesWanted(b: Brief)
    ensures ActiveLanes(b) ==
              (if Wants(b, "people_search") then [PeopleSearch] else []) + (if Wants(b, "team_page") then [TeamPage] else [])
              + (if Wants(b, "operating_signal") then [OperatingSignal] else []) + (if Wants(b, "archetype") then [ArchetypeLane] else [])
  {
    assert Filtered(b, 1) == Filtered(b, 0) + if Asked(b, LANES[0]) then [LANES[0]] else [];
    assert Filtered(b, 2) == Filtered(b, 1) + if Asked(b, LANES[1]) then [LANES[1]] else [];
    assert Filtered(b, 3) == Filtered(b, 2) + if Asked(b, LANES[2]) then [LANES[2]] else [];
    assert Filtered(b, 4) == Filtered(b, 3) + if Asked(b, LANES[3]) then [LANES[3]] else [];
  }

  /** What one firm is asked under a firm lane. */
  ghost function AskedOf(f: Firm, lane: Lane, id: int): Query {
    match lane
    case PeopleSearch => Query(id, "people_search", f.name, "", f.peopleText, Queued, "", 0, 0)
    case TeamPage => Query(id, "team_page", f.name, "", f.teamText, Queued, "", 0, 0)
    case _ => Query(id, "operating_signal", f.name, "", f.signalText, Queued, "", 0, 0)
  }

  /** One query a firm, in brief order, numbered on from `base`. */
  ghost function EachFirm(firms: seq<Firm>, lane: Lane, base: nat): seq<Query> {
    seq(|firms|, i requires 0 <= i < |firms| => AskedOf(firms[i], lane, base + i + 1))
  }

  ghost function EachArchetype(b: Brief, base: nat): seq<Query> {
    seq(|b.archetypes|, i requires 0 <= i < |b.archetypes| =>
      Query(base + i + 1, "archetype", "", b.archetypes[i].id, b.archetypes[i].text, Queued, "", 0, 0))
  }

  ghost function EachFallback(b: Brief): seq<Query> {
    seq(|b.fallbacks|, i requires 0 <= i < |b.fallbacks| =>
      Query(i + 1, "people_search", "", "", b.fallbacks[i], Queued, "", 0, 0))
  }

  /** The queries for a brief's firms under the firm lanes asked for: in canonical order, one a
      firm that asks that lane's text. */
  ghost function ForFirms(b: Brief, people: bool, team: bool, signal: bool): seq<Query> {
    var ps := if people then EachFirm(b.firms, PeopleSearch, 0) else [];
    var ts := if team then EachFirm(b.firms, TeamPage, |ps|) else [];
    ps + ts + if signal then EachFirm(b.firms, OperatingSignal, |ps| + |ts|) else []
  }

  /** A brief compiles to the queries for its firms or, when it has none, to one people search a
      title term; then to one query an archetype; and to nothing else. */
  lemma CompiledByLane(b: Brief)
    ensures var first := if b.firms != [] then ForFirms(b, Wants(b, "people_search"), Wants(b, "team_page"), Wants(b, "operating_signal"))
                         else if Wants(b, "people_search") then EachFallback(b)
                         else [];
            Compiled(b) == first + if Wants(b, "archetype") then EachArchetype(b, |first|) else []
  {
    FirstPart(b);
    LaneIn(b);
    ArchetypesEach(b, |b.archetypes|, |Firmwise(b)|);
  }

  lemma FirstPart(b: Brief)
    ensures Firmwise(b) == if b.firms != [] then ForFirms(b, Wants(b, "people_search"), Wants(b, "team_page"), Wants(b, "operating_signal"))
                           else if Wants(b, "people_search") then EachFallback(b)
                           else []
  {
    if b.firms == [] {
      LaneIn(b);
      FallbacksEach(b, |b.fallbacks|);
    } else {
      LanesWanted(b);
      FirmsEach(b, ActiveLanes(b), Wants(b, "people_search"), Wants(b, "team_page"), Wants(b, "operating_signal"), Wants(b, "archetype"));
    }
  }

  lemma LaneIn(b: Brief)
    ensures ArchetypeLane in ActiveLanes(b) <==> Wants(b, "archetype")
    ensures PeopleSearch in ActiveLanes(b) <==> Wants(b, "people_search")
  {
    LanesWanted(b);
  }

  lemma {:induction false} LaneEach(b: Brief, lane: Lane, n: nat, base: nat)
    requires n <= |b.firms| && lane != ArchetypeLane
    ensures LaneQueries(b, lane, n, base) == EachFirm(b.firms, lane, base)[..n]
  {
    if n > 0 {
      LaneEach(b, lane, n - 1, base);
      FirmAsked(b.firms[n - 1], lane, base + n);
    }
  }

  lemma FirmAsked(f: Firm, lane: Lane, id: int)
    requires lane != ArchetypeLane
    ensures FirmQuery(lane, f, id) == AskedOf(f, lane, id)
  {
  }

  lemma {:induction false} ArchetypesEach(b: Brief, n: nat, base: nat)
    requires n <= |b.archetypes|
    ensures ArchetypeQueries(b, n, base) == EachArchetype(b, base)[..n]
  {
    if n > 0 { ArchetypesEach(b, n - 1, base); }
  }

  lemma {:induction false} FallbacksEach(b: Brief, n: nat)
    requires n <= |b.fallbacks|
    ensures FallbackQueries(b, n) == EachFallback(b)[..n]
  {
    if n > 0 { FallbacksEach(b, n - 1); }
  }

  /** One more firm lane after some others. */
  lemma LaneAfter(b: Brief, before: seq<Lane>, after: seq<Lane>, lane: Lane, wanted: bool)
    requires lane != ArchetypeLane && after == before + if wanted then [lane] else []
    ensures var qs := FirmQueries(b, before);
            FirmQueries(b, after) == qs + if wanted then EachFirm(b.firms, lane, |qs|) else []
  {
    OneLane(b, before, after, lane, wanted);
    LaneEach(b, lane, |b.firms|, |FirmQueries(b, before)|);
  }

  lemma FirmsEach(b: Brief, lanes: seq<Lane>, people: bool, team: bool, signal: bool, archetype: bool)
    requires lanes == (if people then [PeopleSearch] else []) + (if team then [TeamPage] else [])
                      + (if signal then [OperatingSignal] else []) + (if archetype then [ArchetypeLane] else [])
    ensures FirmQueries(b, lanes) == ForFirms(b, people, team, signal)
  {
    var l1 := if people then [PeopleSearch] else [];
    var l2 := l1 + if team then [TeamPage] else [];
    var l3 := l2 + if signal then [OperatingSignal] else [];
    var q1, q2, q3 := FirmQueries(b, l1), FirmQueries(b, l2), FirmQueries(b, l3);
    FirstLane(b, people);
    LaneAfter(b, l1, l2, TeamPage, team);
    LaneAfter(b, l2, l3, OperatingSignal, signal);
    NoArchetypes(b, l3, lanes, archetype);
    ThreeBlocks(b, q1, q2, q3, people, team, signal);
  }

  lemma FirstLane(b: Brief, people: bool)
    ensures FirmQueries(b, if people then [PeopleSearch] else []) == if people then EachFirm(b.firms, PeopleSearch, 0) else []
  {
    if people {
      assert [] + [PeopleSearch] == [PeopleSearch];
      LaneAfter(b, [], [PeopleSearch], PeopleSearch, true);
    }
  }

  lemma ThreeBlocks(b: Brief, q1: seq<Query>, q2: seq<Query>, q3: seq<Query>, people: bool, team: bool, signal: bool)
    requires q1 == if people then EachFirm(b.firms, PeopleSearch, 0) else []
    requires q2 == q1 + if team then EachFirm(b.firms, TeamPage, |q1|) else []
    requires q3 == q2 + if signal then EachFirm(b.firms, OperatingSignal, |q2|) else []
    ensures q3 == ForFirms(b, people, team, signal)
  {
  }

  /** The archetype lane asks the firms nothing. */
  lemma NoArchetypes(b: Brief, before: seq<Lane>, after: seq<Lane>, wanted: bool)
    requires after == before + if wanted then [ArchetypeLane] else []
    ensures FirmQueries(b, after) == FirmQueries(b, before)
  {
    OneLane(b, before, after, ArchetypeLane, wanted);
  }

  /** One more lane, when it is asked for. */
  lemma OneLane(b: Brief, before: seq<Lane>, after: seq<Lane>, lane: Lane, wanted: bool)
    requires after == before + if wanted then [lane] else []
    ensures var qs := FirmQueries(b, before);
            FirmQueries(b, after) == qs + if wanted then LaneQueries(b, lane, |b.firms|, |qs|) else []
  {
    if wanted { assert after[..|before|] == before; } else { assert after == before; }
  }

  /** Compiled ids number the queries from 1, and every compiled query is fresh. */
  ghost predicate Numbered(qs: seq<Query>) {
    forall i :: 0 <= i < |qs| ==> qs[i].id == i + 1 && qs[i].status == Queued && qs[i].notes == ""
  }

  lemma CompiledNumbered(b: Brief)
    ensures Numbered(Compiled(b))
  {
    var first := Firmwise(b);
    if b.firms == [] { FallbackNumbered(b, |b.fallbacks|); } else { FirmsNumbered(b, ActiveLanes(b)); }
    ArchetypesNumbered(b, |b.archetypes|, first);
  }

  lemma {:induction false} FallbackNumbered(b: Brief, n: nat)
    requires n <= |b.fallbacks|
    ensures Numbered(FallbackQueries(b, n))
  {
    if n > 0 { FallbackNumbered(b, n - 1); }
  }

  lemma {:induction false} ArchetypesNumbered(b: Brief, n: nat, first: seq<Query>)
    requires n <= |b.archetypes| && Numbered(first)
    ensures Numbered(first + ArchetypeQueries(b, n, |first|))
  {
    if n > 0 {
      ArchetypesNumbered(b, n - 1, first);
      NumberedSnoc(first + ArchetypeQueries(b, n - 1, |first|), ArchetypeQuery(b.archetypes[n - 1], |first| + n));
      assert first + ArchetypeQueries(b, n, |first|) ==
             first + ArchetypeQueries(b, n - 1, |first|) + [ArchetypeQuery(b.archetypes[n - 1], |first| + n)];
    } else {
      assert first + [] == first;
    }
  }

  lemma NumberedSnoc(qs: seq<Query>, q: Query)
    requires Numbered(qs) && q.id == |qs| + 1 && q.status == Queued && q.notes == ""
    ensures Numbered(qs + [q])
  {
  }

  lemma {:induction false} LaneNumbered(b: Brief, lane: Lane, n: nat, first: seq<Query>)
    requires n <= |b.firms| && Numbered(first)
    ensures Numbered(first + LaneQueries(b, lane, n, |first|))
  {
    if n == 0 || lane == ArchetypeLane {
      assert first + [] == first;
    } else {
      LaneNumbered(b, lane, n - 1, first);
      var q := FirmQuery(lane, b.firms[n - 1], |first| + n);
      NumberedSnoc(first + LaneQueries(b, lane, n - 1, |first|), q);
      assert first + LaneQueries(b, lane, n, |first|) == first + LaneQueries(b, lane, n - 1, |first|) + [q];
    }
  }

  lemma {:induction false} FirmsNumbered(b: Brief, lanes: seq<Lane>)
    ensures Numbered(FirmQueries(b, lanes))
  {
    if lanes != [] {
      FirmsNumbered(b, lanes[..|lanes| - 1]);
      LaneNumbered(b, lanes[|lanes| - 1], |b.firms|, FirmQueries(b, lanes[..|lanes| - 1]));
    }
  }

  /** The order in which a brief names its lanes, and repeats among them, change nothing. */
  lemma LaneOrderIrrelevant(b: Brief, requested: seq<string>)
    requires forall l :: l in requested <==> l in b.requested
    ensures ActiveLanes(b.(requested := requested)) == ActiveLanes(b)
    ensures Compiled(b.(requested := requested)) == Compiled(b)
  {
    var c := b.(requested := requested);
    FilteredSame(b, c, |LANES|);
    FirmQueriesSame(b, c, ActiveLanes(b));
    FallbackSame(b, c, |b.fallbacks|);
    ArchetypesSame(b, c, |b.archetypes|, |Firmwise(b)|);
  }

  lemma {:induction false} FilteredSame(b: Brief, c: Brief, n: nat)
    requires n <= |LANES| && forall l :: l in b.requested <==> l in c.requested
    ensures Filtered(b, n) == Filtered(c, n)
  {
    if n > 0 { FilteredSame(b, c, n - 1); }
  }

  lemma {:induction false} FirmQueriesSame(b: Brief, c: Brief, lanes: seq<Lane>)
    requires b.firms == c.firms
    ensures FirmQueries(b, lanes) == FirmQueries(c, lanes)
  {
    if lanes != [] {
      var before := lanes[..|lanes| - 1];
      FirmQueriesSame(b, c, before);
      LaneSame(b, c, lanes[|lanes| - 1], |b.firms|, |FirmQueries(b, before)|);
    }
  }

  lemma {:induction false} LaneSame(b: Brief, c: Brief, lane: Lane, n: nat, base: nat)
    requires b.firms == c.firms && n <= |b.firms|
    ensures LaneQueries(b, lane, n, base) == LaneQueries(c, lane, n, base)
  {
    if n > 0 && lane != ArchetypeLane { LaneSame(b, c, lane, n - 1, base); }
  }

  lemma {:induction false} FallbackSame(b: Brief, c: Brief, n: nat)
    requires b.fallbacks == c.fallbacks && n <= |b.fallbacks|
    ensures FallbackQueries(b, n) == FallbackQueries(c, n)
  {
    if n > 0 { FallbackSame(b, c, n - 1); }
  }

  lemma {:induction false} ArchetypesSame(b: Brief, c: Brief, n: nat, base: nat)
    requires n <= |b.archetypes| && b.archetypes <= c.archetypes
    ensures ArchetypeQueries(b, n, base) == ArchetypeQueries(c, n, base)
  {
    if n > 0 { ArchetypesSame(b, c, n - 1, base); }
  }

  /** Appending archetypes to a brief only extends what it compiles to. */
  lemma ArchetypesOnlyExtend(b: Brief, more: seq<Archetype>)
    ensures Compiled(b) <= Compiled(b.(archetypes := b.archetypes + more))
  {
    var c := b.(archetypes := b.archetypes + more);
    FilteredSame(b, c, |LANES|);
    FirmQueriesSame(b, c, ActiveLanes(b));
    FallbackSame(b, c, |b.fallbacks|);
    var base := |Firmwise(b)|;
    assert Firmwise(b) == Firmwise(c);
    ArchetypesSame(b, c, |b.archetypes|, base);
    ArchetypePrefix(c, |b.archetypes|, |c.archetypes|, base);
  }

  lemma {:induction false} ArchetypePrefix(b: Brief, n: nat, m: nat, base: nat)
    requires n <= m <= |b.archetypes|
    ensures ArchetypeQueries(b, n, base) <= ArchetypeQueries(b, m, base)
    decreases m
  {
    if n < m { ArchetypePrefix(b, n, m - 1, base); }
  }

  // ---- A fresh campaign's first sync ----

  /** Merging a freshly compiled plan into an empty store gives that plan itself. */
  lemma {:induction false} AddsAll(qs: seq<Query>, isNew: seq<bool>, n: nat)
    requires Numbered(qs) && n <= |qs| == |isNew| && forall j :: 0 <= j < n ==> isNew[j]
    ensures Adds(qs, isNew, 1, n) == qs[..n]
  {
    if n > 0 {
      AddsAll(qs, isNew, n - 1);
      Longer(qs, n - 1);
      assert qs[n - 1].(id := 1 + (n - 1), status := Queued) == qs[n - 1];
    }
  }

  lemma MergeIntoNothing(qs: seq<Query>)
    requires Numbered(qs)
    ensures Added([], qs, |qs|) == qs
  {
    AddsAll(qs, NewOnes([], qs), |qs|);
    assert qs[..|qs|] == qs;
  }

  /** A fresh campaign whose first sync was cut after `j` rows resumes into the full plan. */
  lemma FreshSyncConverges(b: Brief, lanes: Option<set<string>>, j: nat)
    requires j <= |Compiled(b)|
    ensures Merged(Compiled(b)[..j], Compiled(b), lanes) == Compiled(b)
  {
    var c := Compiled(b);
    CompiledNumbered(b);
    MergeIntoNothing(c);
    assert Revised([], PlanRows([], c), lanes) == [];
    assert Merged([], c, lanes) == c by { assert [] + c[..|c|] == c; }
    MergeConverges([], c, lanes, j);
    assert Partial([], c, j) == c[..j] by { if j == 0 { assert c[..0] + [] == c[..0]; } }
  }

  // ---- The plan over a campaign's whole history ----

  /** An edit is a brief compiled and merged; otherwise the run moves one row along: it
      starts, finishes, fails, or is requeued, and its counters and note are rewritten. */
  datatype Event =
    | Edit(brief: Brief)
    | Progressed(i: nat, status: QueryStatus, notes: string, results: nat, discovered: nat)

  predicate Possible(plan: seq<Query>, e: Event) {
    match e
    case Edit(_) => true
    case Progressed(i, status, _, _, _) =>
      i < |plan| && plan[i].status != Done && plan[i].status != Skipped && status != Skipped
  }

  function LanesOf(b: Brief): Option<set<string>> { Some(set l | l in ActiveLanes(b) :: Name(l)) }

  /** What each compiled query is planned under: its lane with its firm, or with the archetype it
      asks for. */
  lemma CompiledKeys(f: Firm, lane: Lane, a: Archetype, text: string, id: int)
    ensures KeyOf(AskedOf(f, lane, id)) == (AskedOf(f, lane, id).lane, f.name)
    ensures KeyOf(Query(id, "archetype", "", a.id, a.text, Queued, "", 0, 0)) == ("archetype", "archetype:" + a.id)
    ensures KeyOf(Query(id, "people_search", "", "", text, Queued, "", 0, 0)) == ("people_search", "")
  {
  }

  /** An edit tells the merge which of the four lanes the brief wants. */
  lemma LanesOfWanted(b: Brief, lane: string)
    ensures LanesOf(b).Some?
    ensures lane in LanesOf(b).value <==>
              lane in {"people_search", "team_page", "operating_signal", "archetype"} && Wants(b, lane)
  {
    LanesWanted(b);
    var lanes := ActiveLanes(b);
    if lane in LanesOf(b).value { var l :| l in lanes && lane == Name(l); }
    if lane == "people_search" && Wants(b, lane) { assert PeopleSearch in lanes; }
    if lane == "team_page" && Wants(b, lane) { assert TeamPage in lanes; }
    if lane == "operating_signal" && Wants(b, lane) { assert OperatingSignal in lanes; }
    if lane == "archetype" && Wants(b, lane) { assert ArchetypeLane in lanes; }
  }

  function Next(plan: seq<Query>, e: Event): seq<Query>
    requires Possible(plan, e)
  {
    match e
    case Edit(b) => Merged(plan, Compiled(b), LanesOf(b))
    case Progressed(i, status, notes, results, discovered) =>
      plan[i := plan[i].(status := status, notes := notes, results := results, discovered := discovered)]
  }

  predicate History(plan: seq<Query>, es: seq<Event>)
    decreases |es|
  {
    es == [] || (Possible(plan, es[0]) && History(Next(plan, es[0]), es[1..]))
  }

  function PlanAfter(plan: seq<Query>, es: seq<Event>): seq<Query>
    requires History(plan, es)
    decreases |es|
  {
    if es == [] then plan else PlanAfter(Next(plan, es[0]), es[1..])
  }

  /** Who a row is: the part no event ever rewrites. */
  function Who(q: Query): (int, Key, string) { (q.id, KeyOf(q), q.text) }

  lemma NextKeeps(plan: seq<Query>, e: Event, i: nat)
    requires Possible(plan, e) && i < |plan|
    ensures var n := Next(plan, e);
            && i < |n| && Who(n[i]) == Who(plan[i]) && (plan[i].status == Done ==> n[i] == plan[i])
            && (plan[i].status != Done && n[i].status == Done ==> e.Progressed? && e.i == i)
  {
    match e
    case Edit(b) =>
      MergeKeepsRows(plan, Compiled(b), LanesOf(b), i);
      var m := Merged(plan, Compiled(b), LanesOf(b));
      assert Identity(m[i]).id == Identity(plan[i]).id && Identity(m[i]).text == Identity(plan[i]).text;
      MergedRow(plan, Compiled(b), LanesOf(b), i);
    case Progressed(_, _, _, _, _) =>
  }

  /** Over any history: no row is ever deleted or re-identified, a completed row is frozen,
      and ids stay distinct, so no id is ever reused. */
  lemma {:induction false} HistoryKeeps(plan: seq<Query>, es: seq<Event>, i: nat)
    requires History(plan, es) && DistinctIds(plan) && i < |plan|
    ensures var after := PlanAfter(plan, es);
            && DistinctIds(after) && i < |after| && Who(after[i]) == Who(plan[i])
            && (plan[i].status == Done ==> after[i] == plan[i])
    decreases |es|
  {
    if es != [] {
      NextKeeps(plan, es[0], i);
      NextDistinct(plan, es[0]);
      HistoryKeeps(Next(plan, es[0]), es[1..], i);
    }
  }

  lemma NextDistinct(plan: seq<Query>, e: Event)
    requires Possible(plan, e) && DistinctIds(plan)
    ensures DistinctIds(Next(plan, e))
  {
    match e
    case Edit(b) => MergeKeepsIdsDistinct(plan, Compiled(b), LanesOf(b));
    case Progressed(_, _, _, _, _) =>
  }

  /** Right after any edit, what may run is exactly what the brief asks for: every compiled
      query has its own row in the plan, and every runnable row is one of those. */
  lemma EditGoverns(plan: seq<Query>, b: Brief, i: nat, j: nat) returns (at: nat)
    requires j < |Compiled(b)| && i < |Next(plan, Edit(b))|
    ensures var n := Next(plan, Edit(b));
            && (Runnable(n[i].status) ==> InPlan(n, Compiled(b), i))
            && at < |n| && KeyOf(n[at]) == KeyOf(Compiled(b)[j]) && Rank(n, at) == Rank(Compiled(b), j)
            && !(n[at].status == Skipped && Requeuable(n[at].notes))
  {
    MergeFollowsBrief(plan, Compiled(b), LanesOf(b), i);
    at := MergeCovers(plan, Compiled(b), LanesOf(b), j);
    MergeFollowsBrief(plan, Compiled(b), LanesOf(b), at);
  }
}
