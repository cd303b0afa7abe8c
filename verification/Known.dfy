/** The people sibling campaigns already hold, indexed by handle, by name and by initial,
    against the list of them. */
module Known {
  import opened Wrappers
  import opened Names

  /** `handle` is the public handle of the profile URL, "" for none. */
  datatype Person = Person(name: Name, handle: string, campaign: string, decision: string)

  type Initial = (Token, char)

  function InitialOf(parts: (Token, Token)): Initial { (parts.0, parts.1[0]) }

  // ---- The list the indexes stand for ----

  /** A person a candidate may be matched to by name: one of any kind when the candidate has
      no handle, otherwise only one without a handle either. */
  predicate Comparable(p: Person, handle: string) { handle == "" || p.handle == "" }

  datatype Test = ByHandle(handle: string) | ByKey(key: Key, handle: string)

  predicate Meets(p: Person, t: Test) {
    match t
    case ByHandle(h) => h != "" && p.handle == h
    case ByKey(k, h) => k in NameKeys(p.name) && Comparable(p, h)
  }

  /** The first of the list to meet the test. */
  function First(people: seq<Person>, t: Test): Option<Person> {
    if people == [] then None
    else
      var n := |people| - 1;
      var p := First(people[..n], t);
      if p.Some? then p else if Meets(people[n], t) then Some(people[n]) else None
  }

  lemma {:induction false} FirstIs(people: seq<Person>, t: Test)
    ensures match First(people, t)
            case None => forall i :: 0 <= i < |people| ==> !Meets(people[i], t)
            case Some(p) => exists i :: 0 <= i < |people| && people[i] == p && Meets(p, t)
                              && forall j :: 0 <= j < i ==> !Meets(people[j], t)
  {
    if people != [] {
      var n := |people| - 1;
      FirstIs(people[..n], t);
      assert forall i :: 0 <= i < n ==> people[..n][i] == people[i];
      if First(people[..n], t).Some? {
        var p := First(people[..n], t).value;
        var i :| 0 <= i < n && people[..n][i] == p && Meets(p, t) && forall j :: 0 <= j < i ==> !Meets(people[..n][j], t);
        assert people[i] == p && forall j :: 0 <= j < i ==> !Meets(people[j], t);
      } else if Meets(people[n], t) {
        assert people[n] == First(people, t).value;
      }
    }
  }

  /** Everybody under an initial, as surname and person, in list order. */
  function Under(people: seq<Person>, at: Initial): seq<(Token, Person)> {
    if people == [] then []
    else
      var n := |people| - 1;
      var parts := FirstAndSurname(people[n].name);
      Under(people[..n], at) + if parts.Some? && InitialOf(parts.value) == at then [(parts.value.1, people[n])] else []
  }

  lemma {:induction false} UnderIs(people: seq<Person>, at: Initial, surname: Token, p: Person)
    ensures (surname, p) in Under(people, at) <==>
            p in people && FirstAndSurname(p.name) == Some((at.0, surname)) && surname[0] == at.1
  {
    if people != [] {
      var n := |people| - 1;
      UnderIs(people[..n], at, surname, p);
      assert people == people[..n] + [people[n]];
    }
  }

  /** This campaign's surnames under an initial. */
  function PoolSurnames(names: seq<Name>, at: Initial): set<Token> {
    if names == [] then {}
    else
      var n := |names| - 1;
      var parts := FirstAndSurname(names[n]);
      PoolSurnames(names[..n], at)
      + if parts.Some? && |parts.value.1| >= 2 && InitialOf(parts.value) == at then {parts.value.1} else {}
  }

  lemma {:induction false} PoolSurnamesAre(names: seq<Name>, at: Initial, s: Token)
    ensures s in PoolSurnames(names, at) <==>
            |s| >= 2 && s[0] == at.1 && exists i :: 0 <= i < |names| && FirstAndSurname(names[i]) == Some((at.0, s))
  {
    if names != [] {
      var n := |names| - 1;
      PoolSurnamesAre(names[..n], at, s);
      assert forall i :: 0 <= i < n ==> names[..n][i] == names[i];
      if i :| 0 <= i < n && FirstAndSurname(names[..n][i]) == Some((at.0, s)) {
        assert FirstAndSurname(names[i]) == Some((at.0, s));
      }
    }
  }

  // ---- The initial rule ----

  /** Those under the initial a candidate of this handle may be compared with. */
  function Fits(listed: seq<(Token, Person)>, handle: string): seq<(Token, Person)> {
    if listed == [] then []
    else
      var n := |listed| - 1;
      Fits(listed[..n], handle) + if Comparable(listed[n].1, handle) then [listed[n]] else []
  }

  lemma {:induction false} FitsAre(listed: seq<(Token, Person)>, handle: string, f: (Token, Person))
    ensures f in Fits(listed, handle) <==> f in listed && Comparable(f.1, handle)
  {
    if listed != [] {
      var n := |listed| - 1;
      FitsAre(listed[..n], handle, f);
      assert listed == listed[..n] + [listed[n]];
    }
  }

  function FullSurnames(fits: seq<(Token, Person)>): set<Token> { set f | f in fits && |f.0| > 1 :: f.0 }

  /** The known person an initial settles on: for a candidate who is an initial, a person of
      the one full surname that fits; for one with a surname, a known initial that stands for
      nobody else, among the known or in this campaign. */
  ghost predicate SettledByInitial(fits: seq<(Token, Person)>, pool: set<Token>, surname: Token, p: Option<Person>) {
    if |surname| == 1 then
      && (p.Some? <==> exists s :: FullSurnames(fits) == {s})
      && (p.Some? ==> exists s :: FullSurnames(fits) == {s} && (s, p.value) in fits)
    else
      && (p.Some? <==> (exists f :: f in fits && |f.0| == 1) && FullSurnames(fits) + pool <= {surname})
      && (p.Some? ==> exists f :: f in fits && |f.0| == 1 && f.1 == p.value)
  }

  /** What a campaign that holds these people answers for a candidate. */
  ghost predicate Answers(people: seq<Person>, pool: seq<Name>, handle: string, name: Name, p: Option<Person>) {
    if First(people, ByHandle(handle)).Some? then p == First(people, ByHandle(handle))
    else if exists k :: k in NameKeys(name) && First(people, ByKey(k, handle)).Some? then
      p.Some? && exists k :: k in NameKeys(name) && First(people, ByKey(k, handle)) == p
    else
      match FirstAndSurname(name)
      case None => p.None?
      case Some(parts) =>
        SettledByInitial(Fits(Under(people, InitialOf(parts)), handle), PoolSurnames(pool, InitialOf(parts)), parts.1, p)
  }

  // ---- The indexes ----

  type NameIndex = map<Key, Person>

  function Look<K>(index: map<K, Person>, k: K): Option<Person> { if k in index then Some(index[k]) else None }

  ghost predicate HandlesOf(people: seq<Person>, index: map<string, Person>) {
    forall h :: Look(index, h) == First(people, ByHandle(h))
  }

  ghost predicate NamesOf(people: seq<Person>, handle: string, index: NameIndex) {
    forall k :: Look(index, k) == First(people, ByKey(k, handle))
  }

  type InitialIndex = map<Initial, seq<(Token, Person)>>

  function Listed(index: InitialIndex, at: Initial): seq<(Token, Person)> { if at in index then index[at] else [] }

  ghost predicate InitialsOf(people: seq<Person>, index: InitialIndex) {
    forall at :: Listed(index, at) == Under(people, at)
  }

  function Pooled(pool: map<Initial, set<Token>>, at: Initial): set<Token> { if at in pool then pool[at] else {} }

  ghost predicate PoolOf(names: seq<Name>, pool: map<Initial, set<Token>>) {
    forall at :: Pooled(pool, at) == PoolSurnames(names, at)
  }

  lemma FirstGrows(people: seq<Person>, p: Person, t: Test)
    ensures First(people + [p], t) == if First(people, t).Some? then First(people, t) else if Meets(p, t) then Some(p) else None
  {
    assert (people + [p])[..|people|] == people;
  }

  lemma HandlesGrow(people: seq<Person>, p: Person, index: map<string, Person>, now: map<string, Person>)
    requires HandlesOf(people, index)
    requires now == if p.handle != "" && p.handle !in index then index[p.handle := p] else index
    ensures HandlesOf(people + [p], now)
  {
    forall h ensures Look(now, h) == First(people + [p], ByHandle(h)) {
      FirstGrows(people, p, ByHandle(h));
      assert Look(index, h) == First(people, ByHandle(h));
    }
  }

  lemma NamesGrow(people: seq<Person>, p: Person, handle: string, index: NameIndex, now: NameIndex)
    requires NamesOf(people, handle, index)
    requires forall k :: Look(now, k) == if Look(index, k).None? && k in NameKeys(p.name) && Comparable(p, handle) then Some(p) else Look(index, k)
    ensures NamesOf(people + [p], handle, now)
  {
    forall k ensures Look(now, k) == First(people + [p], ByKey(k, handle)) {
      FirstGrows(people, p, ByKey(k, handle));
      assert Look(index, k) == First(people, ByKey(k, handle));
    }
  }

  lemma UnderGrows(people: seq<Person>, p: Person, index: InitialIndex, now: InitialIndex)
    requires InitialsOf(people, index)
    requires match FirstAndSurname(p.name)
             case None => now == index
             case Some(parts) => now == index[InitialOf(parts) := Listed(index, InitialOf(parts)) + [(parts.1, p)]]
    ensures InitialsOf(people + [p], now)
  {
    assert (people + [p])[..|people|] == people;
    forall at ensures Listed(now, at) == Under(people + [p], at) {
      assert Listed(index, at) == Under(people, at);
    }
  }

  /** Files a person under every key that has nobody yet. */
  method SetDefaults(index: NameIndex, keys: set<Key>, p: Person) returns (out: NameIndex)
    ensures forall k :: Look(out, k) == if Look(index, k).None? && k in keys then Some(p) else Look(index, k)
  {
    out := index;
    var todo := keys;
    while todo != {}
      invariant todo <= keys
      invariant forall k :: Look(out, k) == if Look(index, k).None? && k in keys - todo then Some(p) else Look(index, k)
    {
      var k :| k in todo;
      if k !in out { out := out[k := p]; }
      todo := todo - {k};
    }
  }

  method FitsUnder(listed: seq<(Token, Person)>, handle: string) returns (fits: seq<(Token, Person)>)
    ensures fits == Fits(listed, handle)
  {
    fits := [];
    for i := 0 to |listed|
      invariant fits == Fits(listed[..i], handle)
    {
      assert listed[..i + 1][..i] == listed[..i];
      if handle == "" || listed[i].1.handle == "" { fits := fits + [listed[i]]; }
    }
    assert listed[..|listed|] == listed;
  }

  method SettleInitial(fits: seq<(Token, Person)>, pool: set<Token>, surname: Token) returns (p: Option<Person>)
    ensures SettledByInitial(fits, pool, surname, p)
  {
    if |surname| == 1 {
      var full := FullSurnames(fits);
      if |full| != 1 {
        forall s ensures full != {s} { }
        return None;
      }
      var s :| s in full;
      OnlyOne(full, s);
      for i := 0 to |fits|
        invariant forall j :: 0 <= j < i ==> fits[j].0 != s
      {
        if fits[i].0 == s {
          assert (s, fits[i].1) in fits;
          return Some(fits[i].1);
        }
      }
      assert false;
    }
    var rivals := FullSurnames(fits) - {surname} + (pool - {surname});
    for i := 0 to |fits|
      invariant forall j :: 0 <= j < i ==> |fits[j].0| != 1
    {
      if |fits[i].0| == 1 {
        assert fits[i] in fits;
        p := if rivals != {} then None else Some(fits[i].1);
        NoRivals(FullSurnames(fits), pool, surname);
        return;
      }
    }
    return None;
  }

  lemma OnlyOne(full: set<Token>, s: Token)
    requires |full| == 1 && s in full
    ensures full == {s}
  {
    assert |full - {s}| == 0;
  }

  lemma NoRivals(full: set<Token>, pool: set<Token>, surname: Token)
    ensures full - {surname} + (pool - {surname}) == {} <==> full + pool <= {surname}
  {
    if full - {surname} + (pool - {surname}) == {} {
      forall s | s in full + pool ensures s == surname {
        assert s != surname ==> s in full - {surname} + (pool - {surname});
      }
    }
  }

  class KnownPeople {
    var byHandle: map<string, Person>
    var byNameKey: NameIndex
    var byNameKeyWithoutHandle: NameIndex
    var byInitial: InitialIndex
    var pool: map<Initial, set<Token>>
    ghost var people: seq<Person>
    ghost var names: seq<Name>

    ghost predicate Valid() reads this {
      && HandlesOf(people, byHandle) && NamesOf(people, "", byNameKey) && NamesOf(people, "h", byNameKeyWithoutHandle)
      && InitialsOf(people, byInitial) && PoolOf(names, pool)
    }

    constructor ()
      ensures Valid() && people == [] && names == []
    {
      byHandle, byNameKey, byNameKeyWithoutHandle, byInitial, pool := map[], map[], map[], map[], map[];
      people, names := [], [];
    }

    method Add(p: Person)
      requires Valid()
      modifies this
      ensures Valid() && people == old(people) + [p] && names == old(names)
    {
      var keys := NameKeys(p.name);
      ghost var handles, all, bare, initials := byHandle, byNameKey, byNameKeyWithoutHandle, byInitial;
      if p.handle != "" && p.handle !in byHandle {
        byHandle := byHandle[p.handle := p];
      }
      byNameKey := SetDefaults(byNameKey, keys, p);
      if p.handle == "" {
        byNameKeyWithoutHandle := SetDefaults(byNameKeyWithoutHandle, keys, p);
      }
      var parts := FirstAndSurname(p.name);
      if parts.Some? {
        var at := InitialOf(parts.value);
        byInitial := byInitial[at := Listed(byInitial, at) + [(parts.value.1, p)]];
      }
      HandlesGrow(people, p, handles, byHandle);
      NamesGrow(people, p, "", all, byNameKey);
      NamesGrow(people, p, "h", bare, byNameKeyWithoutHandle);
      UnderGrows(people, p, initials, byInitial);
      people := people + [p];
    }

    method SetPool(given: seq<Name>)
      requires Valid()
      modifies this`pool, this`names
      ensures Valid() && names == given
    {
      var built: map<Initial, set<Token>> := map[];
      for i := 0 to |given|
        invariant PoolOf(given[..i], built)
      {
        assert given[..i + 1][..i] == given[..i];
        var parts := FirstAndSurname(given[i]);
        if parts.Some? && |parts.value.1| >= 2 {
          var at := InitialOf(parts.value);
          built := built[at := Pooled(built, at) + {parts.value.1}];
        }
      }
      assert given[..|given|] == given;
      pool, names := built, given;
    }

    method MatchPerson(handle: string, name: Name) returns (p: Option<Person>)
      requires Valid()
      ensures Answers(people, names, handle, name, p)
    {
      NoBlankHandle(people);
      if handle != "" && handle in byHandle {
        assert Look(byHandle, handle) == First(people, ByHandle(handle));
        return Some(byHandle[handle]);
      }
      assert First(people, ByHandle(handle)).None? by { assert handle != "" ==> Look(byHandle, handle).None?; }
      var index := if handle != "" then byNameKeyWithoutHandle else byNameKey;
      forall k ensures Look(index, k) == First(people, ByKey(k, handle)) {
        SameTest(people, k, handle);
      }
      var todo := NameKeys(name);
      while todo != {}
        invariant todo <= NameKeys(name)
        invariant forall k :: k in NameKeys(name) - todo ==> First(people, ByKey(k, handle)).None?
      {
        var k :| k in todo;
        if k in index {
          assert Look(index, k) == First(people, ByKey(k, handle));
          return Some(index[k]);
        }
        assert Look(index, k).None?;
        todo := todo - {k};
      }
      assert forall k :: k in NameKeys(name) ==> k in NameKeys(name) - todo;
      var parts := FirstAndSurname(name);
      if parts.None? { return None; }
      var at := InitialOf(parts.value);
      var fits := FitsUnder(Listed(byInitial, at), handle);
      p := SettleInitial(fits, Pooled(pool, at), parts.value.1);
    }
  }

  lemma {:induction false} NoBlankHandle(people: seq<Person>)
    ensures First(people, ByHandle("")).None?
  {
    if people != [] { NoBlankHandle(people[..|people| - 1]); }
  }

  lemma {:induction false} SameTest(people: seq<Person>, k: Key, handle: string)
    ensures First(people, ByKey(k, handle)) == First(people, ByKey(k, if handle == "" then "" else "h"))
  {
    if people != [] { SameTest(people[..|people| - 1], k, handle); }
  }

  // ---- What an answer is worth ----

  /** The person answered is a known one, and is never one whose public handle differs from
      the candidate's. */
  lemma NeverAnotherHandle(people: seq<Person>, pool: seq<Name>, handle: string, name: Name, p: Person)
    requires Answers(people, pool, handle, name, Some(p))
    ensures p in people
    ensures handle != "" && p.handle != "" ==> p.handle == handle
  {
    FirstIs(people, ByHandle(handle));
    if First(people, ByHandle(handle)).None? {
      if k :| k in NameKeys(name) && First(people, ByKey(k, handle)).Some? {
        var m :| m in NameKeys(name) && First(people, ByKey(m, handle)) == Some(p);
        FirstIs(people, ByKey(m, handle));
      } else {
        var parts := FirstAndSurname(name).value;
        var at := InitialOf(parts);
        var f: (Token, Person) :| f in Fits(Under(people, at), handle) && f.1 == p;
        FitsAre(Under(people, at), handle, f);
        UnderIs(people, at, f.0, p);
      }
    }
  }

  /** A known person under the candidate's first name whose surname is the given one, and whom
      the candidate may be compared with. */
  ghost predicate Goes(people: seq<Person>, handle: string, first: Token, surname: Token) {
    exists p :: p in people && (handle == "" || p.handle == "") && NamedSo(p.name, first, surname)
  }

  /** The name's first and last words, the first more than a letter. */
  ghost predicate NamedSo(n: Name, first: Token, surname: Token) {
    |n.tokens| >= 2 && |first| >= 2 && n.tokens[0] == first && n.tokens[|n.tokens| - 1] == surname
  }

  lemma GoesIsFit(people: seq<Person>, handle: string, at: Initial, s: Token)
    ensures s[0] == at.1 ==> (Goes(people, handle, at.0, s) <==> exists f :: f in Fits(Under(people, at), handle) && f.0 == s)
    ensures |s| > 1 ==> (s in FullSurnames(Fits(Under(people, at), handle)) <==> Goes(people, handle, at.0, s) && s[0] == at.1)
  {
    var fits := Fits(Under(people, at), handle);
    if f :| f in fits && f.0 == s { FitGoes(people, handle, at, s, f); }
    if s[0] == at.1 && Goes(people, handle, at.0, s) { GoesFits(people, handle, at, s); }
  }

  lemma FitGoes(people: seq<Person>, handle: string, at: Initial, s: Token, f: (Token, Person))
    requires f in Fits(Under(people, at), handle) && f.0 == s
    ensures Goes(people, handle, at.0, s) && s[0] == at.1
  {
    FitsAre(Under(people, at), handle, f);
    UnderIs(people, at, s, f.1);
    assert NamedSo(f.1.name, at.0, s);
  }

  lemma GoesFits(people: seq<Person>, handle: string, at: Initial, s: Token)
    requires s[0] == at.1 && Goes(people, handle, at.0, s)
    ensures exists f :: f in Fits(Under(people, at), handle) && f.0 == s
  {
    var p :| p in people && (handle == "" || p.handle == "") && NamedSo(p.name, at.0, s);
    UnderIs(people, at, s, p);
    FitsAre(Under(people, at), handle, (s, p));
    assert (s, p).0 == s;
  }

  /** A candidate known by an initial is matched by it only to the one full surname that fits
      it among the known. */
  lemma InitialCandidateFitsOne(people: seq<Person>, pool: seq<Name>, handle: string, name: Name, p: Person, s: Token)
    requires Answers(people, pool, handle, name, Some(p)) && First(people, ByHandle(handle)).None?
    requires forall k :: k in NameKeys(name) ==> First(people, ByKey(k, handle)).None?
    requires FirstAndSurname(name).Some? && |FirstAndSurname(name).value.1| == 1
    requires |s| > 1 && s[0] == FirstAndSurname(name).value.1[0]
    ensures Goes(people, handle, FirstAndSurname(name).value.0, s) <==> FirstAndSurname(p.name) == Some((FirstAndSurname(name).value.0, s))
  {
    var parts := FirstAndSurname(name).value;
    var at := InitialOf(parts);
    var fits := Fits(Under(people, at), handle);
    GoesIsFit(people, handle, at, s);
    var full :| FullSurnames(fits) == {full} && (full, p) in fits;
    FitsAre(Under(people, at), handle, (full, p));
    UnderIs(people, at, full, p);
    assert s in FullSurnames(fits) <==> s == full;
  }

  /** A known initial is matched to a candidate with a surname only when no other surname it
      could stand for is held, among the known or in this campaign. */
  lemma KnownInitialStandsForOne(people: seq<Person>, pool: seq<Name>, handle: string, name: Name, p: Person, s: Token)
    requires Answers(people, pool, handle, name, Some(p)) && First(people, ByHandle(handle)).None?
    requires forall k :: k in NameKeys(name) ==> First(people, ByKey(k, handle)).None?
    requires FirstAndSurname(name).Some? && |FirstAndSurname(name).value.1| > 1
    requires |s| > 1 && s[0] == FirstAndSurname(name).value.1[0] && s != FirstAndSurname(name).value.1
    ensures var first := FirstAndSurname(name).value.0;
            && !Goes(people, handle, first, s)
            && (forall i :: 0 <= i < |pool| ==> FirstAndSurname(pool[i]) != Some((first, s)))
            && FirstAndSurname(p.name) == Some((first, [s[0]]))
  {
    var parts := FirstAndSurname(name).value;
    var at := InitialOf(parts);
    var fits := Fits(Under(people, at), handle);
    GoesIsFit(people, handle, at, s);
    PoolSurnamesAre(pool, at, s);
    assert s !in FullSurnames(fits) + PoolSurnames(pool, at);
    var f: (Token, Person) :| f in fits && |f.0| == 1 && f.1 == p;
    FitsAre(Under(people, at), handle, f);
    UnderIs(people, at, f.0, p);
    assert f.0 == [s[0]];
  }

  /** Who answers for a candidate nobody matches by handle or by name.  One who is an initial is
      matched exactly when one full surname under it fits; one with a surname exactly when a known
      initial fits, and no other surname does among the known or in this campaign. */
  lemma InitialSettled(people: seq<Person>, pool: seq<Name>, handle: string, name: Name, p: Option<Person>, first: Token, surname: Token)
    requires Answers(people, pool, handle, name, p) && First(people, ByHandle(handle)).None?
    requires forall k :: k in NameKeys(name) ==> First(people, ByKey(k, handle)).None?
    requires |name.tokens| >= 2 && first == name.tokens[0] && |first| >= 2 && surname == name.tokens[|name.tokens| - 1]
    ensures |surname| == 1 ==> (p.Some? <==> exists s :: OneSurname(people, handle, first, surname[0], s))
    ensures |surname| > 1 ==> (p.Some? <==> StandsAlone(people, pool, handle, first, surname))
    ensures p.Some? ==> p.value in people && Initials(p.value.name, first, surname)
  {
    var at := (first, surname[0]);
    SettledUnder(people, pool, handle, name, p, first, surname);
    SettledAmong(people, pool, handle, first, surname, Fits(Under(people, at), handle), p);
  }

  lemma SettledUnder(people: seq<Person>, pool: seq<Name>, handle: string, name: Name, p: Option<Person>, first: Token, surname: Token)
    requires Answers(people, pool, handle, name, p) && First(people, ByHandle(handle)).None?
    requires forall k :: k in NameKeys(name) ==> First(people, ByKey(k, handle)).None?
    requires |name.tokens| >= 2 && first == name.tokens[0] && |first| >= 2 && surname == name.tokens[|name.tokens| - 1]
    ensures SettledByInitial(Fits(Under(people, (first, surname[0])), handle), PoolSurnames(pool, (first, surname[0])), surname, p)
  {
    assert FirstAndSurname(name) == Some((first, surname));
  }

  lemma SettledAmong(people: seq<Person>, pool: seq<Name>, handle: string, first: Token, surname: Token,
                     fits: seq<(Token, Person)>, p: Option<Person>)
    requires fits == Fits(Under(people, (first, surname[0])), handle)
    requires SettledByInitial(fits, PoolSurnames(pool, (first, surname[0])), surname, p)
    ensures |surname| == 1 ==> (p.Some? <==> exists s :: OneSurname(people, handle, first, surname[0], s))
    ensures |surname| > 1 ==> (p.Some? <==> StandsAlone(people, pool, handle, first, surname))
    ensures p.Some? ==> p.value in people && Initials(p.value.name, first, surname)
  {
    var at := (first, surname[0]);
    FullAre(people, handle, at, fits);
    if |surname| == 1 {
      InitialIsOne(people, handle, first, surname[0], fits, p);
    } else {
      SurnameStandsAlone(people, pool, handle, first, surname, fits, p);
    }
    if p.Some? { FitIsKnown(people, handle, at, fits, p.value, surname); }
  }

  /** The name has this first word, and of its last word and the surname one is the initial of the
      other. */
  ghost predicate Initials(n: Name, first: Token, surname: Token) {
    && |n.tokens| >= 2 && n.tokens[0] == first
    && var last := n.tokens[|n.tokens| - 1]; last[0] == surname[0] && (|surname| == 1 <==> |last| > 1)
  }

  /** Someone of this first name and surname is named in this campaign. */
  ghost predicate Pooling(pool: seq<Name>, first: Token, s: Token) {
    exists i :: 0 <= i < |pool| && NamedSo(pool[i], first, s)
  }

  /** A known initial fits the surname, and no other surname it could stand for is held. */
  ghost predicate StandsAlone(people: seq<Person>, pool: seq<Name>, handle: string, first: Token, surname: Token) {
    && Goes(people, handle, first, [surname[0]])
    && forall s: Token :: Rival(people, pool, handle, first, s) && s[0] == surname[0] ==> s == surname
  }

  ghost predicate Rival(people: seq<Person>, pool: seq<Name>, handle: string, first: Token, s: Token) {
    |s| > 1 && (Goes(people, handle, first, s) || Pooling(pool, first, s))
  }

  ghost predicate FullIs(people: seq<Person>, handle: string, at: Initial, full: set<Token>) {
    forall s: Token :: s in full <==> |s| > 1 && s[0] == at.1 && Goes(people, handle, at.0, s)
  }

  lemma FullAre(people: seq<Person>, handle: string, at: Initial, fits: seq<(Token, Person)>)
    requires fits == Fits(Under(people, at), handle)
    ensures FullIs(people, handle, at, FullSurnames(fits))
  {
    forall s: Token ensures s in FullSurnames(fits) <==> |s| > 1 && s[0] == at.1 && Goes(people, handle, at.0, s) {
      GoesIsFit(people, handle, at, s);
    }
  }

  /** The one full surname under the initial that fits. */
  ghost predicate OneSurname(people: seq<Person>, handle: string, first: Token, initial: char, s: Token) {
    && |s| > 1 && s[0] == initial && Goes(people, handle, first, s)
    && forall o: Token :: |o| > 1 && o[0] == initial && Goes(people, handle, first, o) ==> o == s
  }

  lemma InitialIsOne(people: seq<Person>, handle: string, first: Token, initial: char, fits: seq<(Token, Person)>, p: Option<Person>)
    requires FullIs(people, handle, (first, initial), FullSurnames(fits))
    requires p.Some? <==> exists s :: FullSurnames(fits) == {s}
    ensures p.Some? <==> exists s :: OneSurname(people, handle, first, initial, s)
  {
    if s :| FullSurnames(fits) == {s} {
      assert s in FullSurnames(fits);
      forall o: Token | |o| > 1 && o[0] == initial && Goes(people, handle, first, o) ensures o == s { assert o in FullSurnames(fits); }
      assert OneSurname(people, handle, first, initial, s);
    }
    if s :| OneSurname(people, handle, first, initial, s) {
      forall o ensures o in FullSurnames(fits) <==> o == s { }
      assert FullSurnames(fits) == {s};
    }
  }

  lemma SurnameStandsAlone(people: seq<Person>, pool: seq<Name>, handle: string, first: Token, surname: Token,
                           fits: seq<(Token, Person)>, p: Option<Person>)
    requires |surname| > 1 && fits == Fits(Under(people, (first, surname[0])), handle)
    requires FullIs(people, handle, (first, surname[0]), FullSurnames(fits))
    requires SettledByInitial(fits, PoolSurnames(pool, (first, surname[0])), surname, p)
    ensures p.Some? <==> StandsAlone(people, pool, handle, first, surname)
  {
    var at := (first, surname[0]);
    var others := FullSurnames(fits) + PoolSurnames(pool, at);
    KnownByInitial(people, handle, at, fits);
    forall s: Token ensures s in others <==> s[0] == surname[0] && Rival(people, pool, handle, first, s) {
      PoolSurnamesAre(pool, at, s);
    }
    assert others <= {surname} <==> forall s: Token :: s in others ==> s == surname;
  }

  lemma KnownByInitial(people: seq<Person>, handle: string, at: Initial, fits: seq<(Token, Person)>)
    requires fits == Fits(Under(people, at), handle)
    ensures (exists f :: f in fits && |f.0| == 1) <==> Goes(people, handle, at.0, [at.1])
  {
    GoesIsFit(people, handle, at, [at.1]);
    if f :| f in fits && |f.0| == 1 {
      FitsAre(Under(people, at), handle, f);
      UnderIs(people, at, f.0, f.1);
      assert f.0 == [at.1];
    }
  }

  lemma FitIsKnown(people: seq<Person>, handle: string, at: Initial, fits: seq<(Token, Person)>, p: Person, surname: Token)
    requires fits == Fits(Under(people, at), handle) && surname[0] == at.1
    requires if |surname| == 1 then exists s :: FullSurnames(fits) == {s} && (s, p) in fits
             else exists f :: f in fits && |f.0| == 1 && f.1 == p
    ensures p in people && Initials(p.name, at.0, surname)
  {
    var f: (Token, Person) :| f in fits && f.1 == p && (|surname| == 1 <==> |f.0| > 1);
    FitsAre(Under(people, at), handle, f);
    UnderIs(people, at, f.0, p);
  }

  const ANN_LEE := Name(["ann", "lee"], false)
  const ANN_L := Name(["ann", "l"], false)
  const LEES := [Person(ANN_LEE, "lee-1", "one", "SAVE"), Person(ANN_LEE, "lee-2", "two", "SAVE")]

  /** It is surnames that are counted: a candidate who is an initial is matched where two known
      people of one surname fit it, and where a third surname of this campaign does too. */
  lemma TwoOfOneSurnameMatch(p: Option<Person>)
    requires Answers(LEES, [Name(["ann", "long"], false)], "", ANN_L, p)
    ensures p.Some? && LEES[0].handle != LEES[1].handle
  {
    var fits := Fits(Under(LEES, ("ann", 'l')), "");
    LeesFit();
    assert fits[0] in fits && fits[1] in fits;
    assert FullSurnames(fits) == {"lee"};
    assert NameKeys(ANN_L) == {["ann", "l"]};
    assert First(LEES, ByKey(["ann", "l"], "")) == None && First(LEES, ByHandle("")) == None by {
      FirstIs(LEES, ByKey(["ann", "l"], ""));
      FirstIs(LEES, ByHandle(""));
      assert "l" != "lee";
      assert NameKeys(ANN_LEE) == {["ann", "lee"]};
    }
  }

  lemma LeesFit()
    ensures Fits(Under(LEES, ("ann", 'l')), "") == [("lee", LEES[0]), ("lee", LEES[1])]
  {
    var l0: (Token, Person), l1: (Token, Person) := ("lee", LEES[0]), ("lee", LEES[1]);
    assert LEES[..1] == [LEES[0]] && LEES[..1][..0] == [];
    assert Under(LEES[..1], ("ann", 'l')) == [l0];
    assert Under(LEES, ("ann", 'l')) == [l0, l1];
    assert [l0, l1][..1] == [l0] && [l0][..0] == [];
    assert Fits([], "") == [];
    assert Fits([l0], "") == [l0];
    assert Fits([l0, l1], "") == Fits([l0, l1][..1], "") + [l1];
  }
}
