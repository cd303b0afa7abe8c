/** Folding the candidates of one query: one record an identity, one evidence page a URL. */
module MergeRecords {
  import opened Wrappers
  import opened KeyedFold

  /** A retrieved page; `rest` is every field the fold never touches. */
  datatype Evidence = Evidence(url: string, highlights: seq<string>, rest: string)

  datatype Sufficiency = Sufficient | Minimal | Insufficient

  /** A person read off pages.  No render is an absent or an empty one. */
  datatype Candidate = Candidate(
    identity: string, name: string, title: string, firm: string, location: string, linkedin: string,
    render: Option<string>, evidence: seq<Evidence>, sufficiency: Sufficiency, rest: string)

  predicate IsSpace(c: char) { c == ' ' || '\t' <= c <= '\r' || '\U{1c}' <= c <= '\U{1f}' }

  predicate Blank(s: string) { forall i :: 0 <= i < |s| ==> IsSpace(s[i]) }

  function SufficiencyOf(title: string, firm: string): Sufficiency {
    if !Blank(title) && !Blank(firm) then Sufficient
    else if Blank(title) && Blank(firm) then Insufficient
    else Minimal
  }

  /** A title and a firm with something written in them suffice, one of them is the minimum. */
  lemma SufficiencyBands(title: string, firm: string)
    ensures var titled := exists i :: 0 <= i < |title| && title[i] !in WHITESPACE;
            var employed := exists i :: 0 <= i < |firm| && firm[i] !in WHITESPACE;
            SufficiencyOf(title, firm) ==
              if titled && employed then Sufficient else if titled || employed then Minimal else Insufficient
  {
    SpacesAre(title);
    SpacesAre(firm);
  }

  const WHITESPACE := " \t\n\U{b}\U{c}\r\U{1c}\U{1d}\U{1e}\U{1f}"

  lemma SpacesAre(s: string)
    ensures Blank(s) <==> forall i :: 0 <= i < |s| ==> s[i] in WHITESPACE
  {
    forall c: char ensures IsSpace(c) <==> c in WHITESPACE {
      assert WHITESPACE[0] == ' ' && WHITESPACE[1] == '\t' && WHITESPACE[2] == '\n' && WHITESPACE[3] == '\U{b}' && WHITESPACE[4] == '\U{c}';
      assert WHITESPACE[5] == '\r' && WHITESPACE[6] == '\U{1c}' && WHITESPACE[7] == '\U{1d}' && WHITESPACE[8] == '\U{1e}' && WHITESPACE[9] == '\U{1f}';
    }
  }

  // ---- What the fold makes ----

  function UrlOf(e: Evidence): Option<string> { if e.url == "" then None else Some(e.url) }

  function JoinPages(held: Evidence, e: Evidence): Evidence {
    held.(highlights := AddAll(held.highlights, e.highlights))
  }

  function JoinEvidence(held: seq<Evidence>, more: seq<Evidence>): seq<Evidence> {
    Fold(held, more, UrlOf, JoinPages)
  }

  function IdentityOf(c: Candidate): Option<string> { Some(c.identity) }

  function FirstText(a: string, b: string): string { if a != "" then a else b }

  function JoinRecords(held: Candidate, c: Candidate): Candidate {
    var title, firm := FirstText(held.title, c.title), FirstText(held.firm, c.firm);
    held.(title := title, firm := firm, location := FirstText(held.location, c.location),
          linkedin := FirstText(held.linkedin, c.linkedin),
          render := if held.render.Some? then held.render else c.render,
          evidence := JoinEvidence(held.evidence, c.evidence),
          sufficiency := SufficiencyOf(title, firm))
  }

  function Merged(cs: seq<Candidate>): seq<Candidate> { Fold([], cs, IdentityOf, JoinRecords) }

  // ---- The loops that make it ----

  method AddHighlights(held: seq<string>, more: seq<string>) returns (out: seq<string>)
    ensures out == AddAll(held, more)
  {
    out := held;
    for i := 0 to |more|
      invariant out == AddAll(held, more[..i])
    {
      assert more[..i + 1][..i] == more[..i];
      if more[i] !in out {
        out := out + [more[i]];
      }
    }
    assert more[..|more|] == more;
  }

  /** An index names, for each key, the last position that holds it. */
  ghost predicate Indexes<T>(index: map<string, nat>, xs: seq<T>, key: T -> Option<string>) {
    forall k :: (k in index <==> Find(xs, key, k) < |xs|) && (k in index ==> index[k] == Find(xs, key, k))
  }

  lemma IndexAppend<T>(index: map<string, nat>, xs: seq<T>, x: T, key: T -> Option<string>)
    requires Indexes(index, xs, key)
    ensures Indexes(if key(x).Some? then index[key(x).value := |xs|] else index, xs + [x], key)
  {
    var out := if key(x).Some? then index[key(x).value := |xs|] else index;
    forall k ensures (k in out <==> Find(xs + [x], key, k) < |xs| + 1) && (k in out ==> out[k] == Find(xs + [x], key, k)) {
      assert (xs + [x])[..|xs|] == xs;
    }
  }

  lemma IndexUpdate<T>(index: map<string, nat>, xs: seq<T>, i: nat, x: T, key: T -> Option<string>)
    requires Indexes(index, xs, key) && i < |xs| && key(x) == key(xs[i])
    ensures Indexes(index, xs[i := x], key)
  {
    forall k ensures Find(xs[i := x], key, k) == Find(xs, key, k) {
      FindAgrees(xs, xs[i := x], key, k);
    }
  }

  method MergeEvidence(held: seq<Evidence>, more: seq<Evidence>) returns (out: seq<Evidence>)
    ensures out == JoinEvidence(held, more)
  {
    out := held;
    var byUrl: map<string, nat> := map[];
    for i := 0 to |held|
      invariant Indexes(byUrl, held[..i], UrlOf)
    {
      assert held[..i + 1] == held[..i] + [held[i]];
      IndexAppend(byUrl, held[..i], held[i], UrlOf);
      if held[i].url != "" {
        byUrl := byUrl[held[i].url := i];
      }
    }
    assert held[..|held|] == held;
    for i := 0 to |more|
      invariant out == JoinEvidence(held, more[..i])
      invariant Indexes(byUrl, out, UrlOf)
    {
      assert more[..i + 1][..i] == more[..i];
      var e := more[i];
      if e.url != "" && e.url in byUrl {
        var at := byUrl[e.url];
        var highlights := AddHighlights(out[at].highlights, e.highlights);
        IndexUpdate(byUrl, out, at, out[at].(highlights := highlights), UrlOf);
        out := out[at := out[at].(highlights := highlights)];
      } else {
        IndexAppend(byUrl, out, e, UrlOf);
        if e.url != "" {
          byUrl := byUrl[e.url := |out|];
        }
        out := out + [e];
      }
    }
    assert more[..|more|] == more;
  }

  method Absorb(held: Candidate, c: Candidate) returns (out: Candidate)
    ensures out == JoinRecords(held, c)
  {
    var evidence := MergeEvidence(held.evidence, c.evidence);
    out := held.(evidence := evidence);
    if out.title == "" && c.title != "" { out := out.(title := c.title); }
    if out.firm == "" && c.firm != "" { out := out.(firm := c.firm); }
    if out.location == "" && c.location != "" { out := out.(location := c.location); }
    if out.linkedin == "" && c.linkedin != "" { out := out.(linkedin := c.linkedin); }
    if out.render.None? && c.render.Some? { out := out.(render := c.render); }
    out := out.(sufficiency := SufficiencyOf(out.title, out.firm));
  }

  method Merge(cs: seq<Candidate>) returns (out: seq<Candidate>)
    ensures out == Merged(cs)
  {
    out := [];
    var held: map<string, nat> := map[];
    for i := 0 to |cs|
      invariant out == Merged(cs[..i])
      invariant Indexes(held, out, IdentityOf)
    {
      assert cs[..i + 1][..i] == cs[..i];
      var c := cs[i];
      if c.identity !in held {
        IndexAppend(held, out, c, IdentityOf);
        held := held[c.identity := |out|];
        out := out + [c];
      } else {
        var at := held[c.identity];
        var joined := Absorb(out[at], c);
        IndexUpdate(held, out, at, joined, IdentityOf);
        out := out[at := joined];
      }
    }
    assert cs[..|cs|] == cs;
  }

  // ---- What the source promises of it ----

  predicate AnyPage(e: Evidence) { true }

  /** A record read once lists each page once. */
  predicate OwnPagesUnique(c: Candidate) {
    forall i, j :: 0 <= i < j < |c.evidence| && c.evidence[i].url != "" ==> c.evidence[i].url != c.evidence[j].url
  }

  lemma PagesLawful()
    ensures Lawful(UrlOf, JoinPages, AnyPage)
  {
    forall x, y, z ensures JoinPages(JoinPages(x, y), z) == JoinPages(x, JoinPages(y, z)) {
      AddAllAssociates(x.highlights, y.highlights, z.highlights);
    }
  }

  lemma UniqueIsDistinct(c: Candidate)
    ensures OwnPagesUnique(c) <==> Distinct(c.evidence, UrlOf)
  {
  }

  lemma JoinEvidenceAssociates(a: seq<Evidence>, b: seq<Evidence>, c: seq<Evidence>)
    requires Distinct(a, UrlOf) && Distinct(b, UrlOf)
    ensures JoinEvidence(JoinEvidence(a, b), c) == JoinEvidence(a, JoinEvidence(b, c))
  {
    PagesLawful();
    FoldConcat(a, b, c, UrlOf, JoinPages);
    FoldConcat([], b, c, UrlOf, JoinPages);
    FoldDistinct(b, UrlOf, JoinPages);
    FoldAbsorbs(a, b + c, UrlOf, JoinPages, AnyPage);
  }

  lemma RecordsLawful()
    ensures Lawful(IdentityOf, JoinRecords, OwnPagesUnique)
  {
    PagesLawful();
    forall x, y | OwnPagesUnique(x) && OwnPagesUnique(y) ensures OwnPagesUnique(JoinRecords(x, y)) {
      UniqueIsDistinct(x);
      FoldKeeps(x.evidence, y.evidence, UrlOf, JoinPages, AnyPage);
      UniqueIsDistinct(JoinRecords(x, y));
    }
    forall x, y, z | OwnPagesUnique(x) && OwnPagesUnique(y) && OwnPagesUnique(z)
      ensures JoinRecords(JoinRecords(x, y), z) == JoinRecords(x, JoinRecords(y, z))
    {
      UniqueIsDistinct(x);
      UniqueIsDistinct(y);
      JoinEvidenceAssociates(x.evidence, y.evidence, z.evidence);
    }
  }

  /** Folding two batches together is folding the folds of the two. */
  lemma MergeIsHomomorphism(xs: seq<Candidate>, ys: seq<Candidate>)
    requires All(xs, OwnPagesUnique) && All(ys, OwnPagesUnique)
    ensures Merged(xs + ys) == Merged(Merged(xs) + Merged(ys))
  {
    RecordsLawful();
    FoldHomomorphism(xs, ys, IdentityOf, JoinRecords, OwnPagesUnique);
  }

  lemma MergeIsIdempotent(xs: seq<Candidate>)
    requires All(xs, OwnPagesUnique)
    ensures Merged(Merged(xs)) == Merged(xs)
  {
    RecordsLawful();
    FoldKeeps([], xs, IdentityOf, JoinRecords, OwnPagesUnique);
    FoldDistinct(Merged(xs), IdentityOf, JoinRecords);
  }

  function Identities(cs: seq<Candidate>): (ks: seq<string>) { seq(|cs|, i requires 0 <= i < |cs| => cs[i].identity) }

  lemma {:induction false} KeysAreIdentities(cs: seq<Candidate>)
    ensures Keys(cs, IdentityOf) == Identities(cs)
  {
    if cs != [] {
      KeysAreIdentities(cs[..|cs| - 1]);
    }
  }

  /** The people of a fold are the people of the batch, each where they first occurred. */
  lemma MergeKeepsOrder(cs: seq<Candidate>)
    requires All(cs, OwnPagesUnique)
    ensures Identities(Merged(cs)) == AddAll([], Identities(cs))
    ensures forall i, j :: 0 <= i < j < |Merged(cs)| ==> Merged(cs)[i].identity != Merged(cs)[j].identity
    ensures All(Merged(cs), OwnPagesUnique)
  {
    RecordsLawful();
    FoldKeyOrder(cs, IdentityOf, JoinRecords, OwnPagesUnique);
    KeysAreIdentities(cs);
    KeysAreIdentities(Merged(cs));
    FoldKeeps([], cs, IdentityOf, JoinRecords, OwnPagesUnique);
  }

  // ---- One person's record ----

  datatype Field = Title | Firm | Location | Linkedin

  function Text(c: Candidate, f: Field): string {
    match f
    case Title => c.title
    case Firm => c.firm
    case Location => c.location
    case Linkedin => c.linkedin
  }

  /** `t` is what the first record of the list that fills the field holds, if any does. */
  ghost predicate FirstFilled(t: string, cs: seq<Candidate>, f: Field) {
    || (t == "" && forall i :: 0 <= i < |cs| ==> Text(cs[i], f) == "")
    || (t != "" && exists i :: 0 <= i < |cs| && Text(cs[i], f) == t && forall j :: 0 <= j < i ==> Text(cs[j], f) == "")
  }

  ghost predicate FirstRender(r: Option<string>, cs: seq<Candidate>) {
    || (r.None? && forall i :: 0 <= i < |cs| ==> cs[i].render.None?)
    || (r.Some? && exists i :: 0 <= i < |cs| && cs[i].render == r && forall j :: 0 <= j < i ==> cs[j].render.None?)
  }

  /** Every page of a list of records, in order. */
  ghost function Pages(cs: seq<Candidate>): seq<Evidence> {
    if cs == [] then [] else Pages(cs[..|cs| - 1]) + cs[|cs| - 1].evidence
  }

  /** The record reads its person's records in order: the first filled value of each field,
      and every page folded once. */
  ghost predicate ReadsInOrder(c: Candidate, g: seq<Candidate>)
    requires g != []
  {
    && (forall f :: FirstFilled(Text(c, f), g, f)) && FirstRender(c.render, g)
    && c.evidence == JoinEvidence([], Pages(g))
    && c.name == g[0].name && c.rest == g[0].rest && c.identity == g[0].identity
    && c.sufficiency == if |g| == 1 then g[0].sufficiency else SufficiencyOf(c.title, c.firm)
  }

  lemma {:induction false} CombinedRecord(g: seq<Candidate>)
    requires g != [] && All(g, OwnPagesUnique)
    ensures ReadsInOrder(Combined(g, JoinRecords), g)
  {
    var n := |g| - 1;
    if n == 0 {
      assert g == [g[0]];
      ReadsOne(g[0]);
    } else {
      CombinedRecord(g[..n]);
      assert g[..n] + [g[n]] == g;
      ReadsOneMore(Combined(g[..n], JoinRecords), g[..n], g[n]);
    }
  }

  lemma ReadsOne(c: Candidate)
    requires OwnPagesUnique(c)
    ensures ReadsInOrder(c, [c])
  {
    assert [c][..0] == [];
    assert Pages([c]) == Pages([]) + c.evidence == c.evidence;
    UniqueIsDistinct(c);
    FoldDistinct(c.evidence, UrlOf, JoinPages);
    forall f ensures FirstFilled(Text(c, f), [c], f) {
      assert Text([c][0], f) == Text(c, f);
    }
    assert [c][0].render == c.render;
  }

  lemma PagesOneMore(c: Candidate, g: seq<Candidate>, last: Candidate)
    requires c.evidence == JoinEvidence([], Pages(g))
    ensures JoinRecords(c, last).evidence == JoinEvidence([], Pages(g + [last]))
  {
    assert (g + [last])[..|g|] == g;
    FoldConcat([], Pages(g), last.evidence, UrlOf, JoinPages);
  }

  lemma ReadsOneMore(c: Candidate, g: seq<Candidate>, last: Candidate)
    requires g != [] && ReadsInOrder(c, g)
    ensures ReadsInOrder(JoinRecords(c, last), g + [last])
  {
    var h, joined := g + [last], JoinRecords(c, last);
    PagesOneMore(c, g, last);
    forall f ensures FirstFilled(Text(joined, f), h, f) {
      FilledGrows(c, g, last, f);
    }
    RenderGrows(c.render, g, last);
  }

  lemma FilledGrows(c: Candidate, g: seq<Candidate>, last: Candidate, f: Field)
    requires FirstFilled(Text(c, f), g, f)
    ensures FirstFilled(FirstText(Text(c, f), Text(last, f)), g + [last], f)
  {
    var h := g + [last];
    assert forall i :: 0 <= i < |g| ==> h[i] == g[i];
    if Text(c, f) != "" {
      var i :| 0 <= i < |g| && Text(g[i], f) == Text(c, f) && forall j :: 0 <= j < i ==> Text(g[j], f) == "";
      assert Text(h[i], f) == Text(c, f);
    } else if Text(last, f) != "" {
      assert Text(h[|g|], f) == Text(last, f);
    }
  }

  lemma RenderGrows(r: Option<string>, g: seq<Candidate>, last: Candidate)
    requires FirstRender(r, g)
    ensures FirstRender(if r.Some? then r else last.render, g + [last])
  {
    var h := g + [last];
    assert forall i :: 0 <= i < |g| ==> h[i] == g[i];
    if r.Some? {
      var i :| 0 <= i < |g| && g[i].render == r && forall j :: 0 <= j < i ==> g[j].render.None?;
      assert h[i].render == r;
    } else if last.render.Some? {
      assert h[|g|].render == last.render;
    }
  }

  /** A merged record reads the records of its identity, in the order they came. */
  lemma MergedRecord(cs: seq<Candidate>, i: nat)
    requires All(cs, OwnPagesUnique) && i < |Merged(cs)|
    ensures var c := Merged(cs)[i]; var g := Group(cs, IdentityOf, c.identity); g != [] && ReadsInOrder(c, g)
  {
    var c := Merged(cs)[i];
    RecordsLawful();
    FoldIsGroupwise(cs, IdentityOf, JoinRecords, OwnPagesUnique, c.identity);
    GroupIsOk(cs, c.identity);
    CombinedRecord(Group(cs, IdentityOf, c.identity));
  }

  lemma {:induction false} GroupIsOk(cs: seq<Candidate>, k: string)
    requires All(cs, OwnPagesUnique)
    ensures All(Group(cs, IdentityOf, k), OwnPagesUnique)
  {
    if cs != [] {
      GroupIsOk(cs[..|cs| - 1], k);
    }
  }

  // ---- What survives on the pages ----

  ghost predicate Shows(es: seq<Evidence>, url: string, h: string) {
    exists i :: 0 <= i < |es| && es[i].url == url && h in es[i].highlights
  }

  ghost predicate Lists(es: seq<Evidence>, url: string) {
    exists i :: 0 <= i < |es| && es[i].url == url
  }

  /** Folding pages keeps every URL once, with every highlight any read of it had and no
      other, and keeps the pages without a URL as they were. */
  lemma PagesSurvive(es: seq<Evidence>)
    ensures var r := JoinEvidence([], es);
            && Distinct(r, UrlOf)
            && (forall u :: u != "" ==> (Lists(r, u) <==> Lists(es, u)))
            && (forall u, h :: u != "" ==> (Shows(r, u, h) <==> Shows(es, u, h)))
            && Unkeyed(r, UrlOf) == Unkeyed(es, UrlOf)
  {
    var r := JoinEvidence([], es);
    PagesLawful();
    FoldKeeps([], es, UrlOf, JoinPages, AnyPage);
    FoldKeepsUnkeyed([], es, UrlOf, JoinPages, AnyPage);
    forall u | u != "" ensures Lists(r, u) <==> Lists(es, u) {
      ListsIsHas(r, u);
      ListsIsHas(es, u);
      FoldIsGroupwise(es, UrlOf, JoinPages, AnyPage, u);
      GroupHas(es, u);
    }
    forall u, h | u != "" ensures Shows(r, u, h) <==> Shows(es, u, h) {
      UrlSurvives(es, u, h);
    }
  }

  lemma ListsIsHas(es: seq<Evidence>, u: string)
    requires u != ""
    ensures Lists(es, u) <==> Has(es, UrlOf, u)
  {
    if Lists(es, u) {
      var i :| 0 <= i < |es| && es[i].url == u;
      assert UrlOf(es[i]) == Some(u);
    }
  }

  lemma {:induction false} GroupHas(es: seq<Evidence>, u: string)
    requires u != ""
    ensures Group(es, UrlOf, u) != [] <==> Lists(es, u)
    ensures forall h :: Shows(Group(es, UrlOf, u), u, h) <==> Shows(es, u, h)
    ensures forall i :: 0 <= i < |Group(es, UrlOf, u)| ==> Group(es, UrlOf, u)[i].url == u
  {
    if es != [] {
      var n := |es| - 1;
      GroupHas(es[..n], u);
      assert es == es[..n] + [es[n]];
      GroupStep(es[..n], es[n], Group(es[..n], UrlOf, u), u);
      assert Group(es, UrlOf, u) == Group(es[..n], UrlOf, u) + if es[n].url == u then [es[n]] else [];
    }
  }

  lemma GroupStep(es: seq<Evidence>, e: Evidence, g: seq<Evidence>, u: string)
    requires u != "" && (g != [] <==> Lists(es, u)) && forall h :: Shows(g, u, h) <==> Shows(es, u, h)
    ensures var g' := g + if e.url == u then [e] else [];
            && (g' != [] <==> Lists(es + [e], u))
            && forall h :: Shows(g', u, h) <==> Shows(es + [e], u, h)
  {
    var more := es + [e];
    assert more[|es|] == e;
    if i :| 0 <= i < |es| && es[i].url == u { assert more[i].url == u; }
    forall h ensures Shows(g + if e.url == u then [e] else [], u, h) <==> Shows(more, u, h) {
      ShowsGrows(es, e, u, h);
      if e.url == u { ShowsGrows(g, e, u, h); } else { assert g + [] == g; }
    }
  }

  lemma ShowsGrows(es: seq<Evidence>, e: Evidence, u: string, h: string)
    ensures Shows(es + [e], u, h) <==> Shows(es, u, h) || (e.url == u && h in e.highlights)
  {
    var r := es + [e];
    if Shows(es, u, h) {
      var i :| 0 <= i < |es| && es[i].url == u && h in es[i].highlights;
      assert r[i] == es[i];
    }
    if e.url == u && h in e.highlights { assert r[|es|] == e; }
  }

  lemma {:induction false} CombinedPage(g: seq<Evidence>, u: string, h: string)
    requires g != [] && forall i :: 0 <= i < |g| ==> g[i].url == u
    ensures Combined(g, JoinPages).url == u && (h in Combined(g, JoinPages).highlights <==> Shows(g, u, h))
  {
    var n := |g| - 1;
    if n == 0 {
      assert g[0].url == u;
    } else {
      CombinedPage(g[..n], u, h);
      ShowsGrows(g[..n], g[n], u, h);
      assert g == g[..n] + [g[n]];
      AddAllHolds(Combined(g[..n], JoinPages).highlights, g[n].highlights);
    }
  }

  lemma UrlSurvives(es: seq<Evidence>, u: string, h: string)
    requires u != ""
    ensures Shows(JoinEvidence([], es), u, h) <==> Shows(es, u, h)
  {
    var r, g := JoinEvidence([], es), Group(es, UrlOf, u);
    PagesLawful();
    FoldIsGroupwise(es, UrlOf, JoinPages, AnyPage, u);
    GroupHas(es, u);
    if g != [] {
      CombinedPage(g, u, h);
      var i :| 0 <= i < |r| && UrlOf(r[i]) == Some(u);
      assert r[i] == Combined(g, JoinPages) && r[i].url == u;
      assert forall j :: 0 <= j < |r| && r[j].url == u ==> UrlOf(r[j]) == Some(u);
      if h in r[i].highlights { assert Shows(r, u, h); }
    } else {
      ListsIsHas(r, u);
    }
  }
}
