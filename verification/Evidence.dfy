/** The evidence a judge is shown: pages in tier order, facts printed once, under a budget. */
module Evidence {
  datatype Page = Page(url: string, title: string, highlights: seq<string>, excerpt: string)

  /** Text handling, taken as given: a highlight and an excerpt made one bounded line, the form
      two facts are compared in, the tier of a page, and the page the profile section was built
      from ("" for none). */
  datatype Reading = Reading(fact: string -> string, excerptFact: Page -> string, key: string -> string,
                             tier: Page -> Tier, profileUrl: string)

  type Tier = t: nat | t <= 2

  const MAX_FACTS_PER_PAGE := 8
  const MAX_PAGES_RENDERED := 6
  const MAX_FACT_CHARS := 8000

  datatype Placeholder = NoText | Duplicate

  /** What a page's block prints: its facts, or one placeholder. */
  datatype Block = Facts(page: Page, facts: seq<string>) | Bare(page: Page, why: Placeholder)

  function Printed(b: Block): seq<string> { if b.Facts? then b.facts else [] }

  // ---- Page order ----

  function OfTier(r: Reading, pages: seq<Page>, t: Tier): seq<nat> {
    if pages == [] then []
    else
      var n := |pages| - 1;
      OfTier(r, pages[..n], t) + if r.tier(pages[n]) == t then [n] else []
  }

  /** Every page's position, best tier first, in retrieved order inside a tier. */
  function Order(r: Reading, pages: seq<Page>): seq<nat> { OfTier(r, pages, 0) + OfTier(r, pages, 1) + OfTier(r, pages, 2) }

  lemma {:induction false} OfTierIs(r: Reading, pages: seq<Page>, t: Tier)
    ensures var at := OfTier(r, pages, t);
            && (forall i :: 0 <= i < |at| ==> at[i] < |pages| && r.tier(pages[at[i]]) == t)
            && (forall i, j :: 0 <= i < j < |at| ==> at[i] < at[j])
            && (forall p: nat :: p in at <==> p < |pages| && r.tier(pages[p]) == t)
  {
    if pages != [] {
      var n := |pages| - 1;
      OfTierIs(r, pages[..n], t);
      assert forall p: nat :: p < n ==> pages[..n][p] == pages[p];
    }
  }

  predicate Before(r: Reading, pages: seq<Page>, p: nat, q: nat)
    requires p < |pages| && q < |pages|
  {
    r.tier(pages[p]) < r.tier(pages[q]) || (r.tier(pages[p]) == r.tier(pages[q]) && p < q)
  }

  /** A listing of every position, each strictly before the next by tier and then by place. */
  ghost predicate StableOrder(r: Reading, pages: seq<Page>, at: seq<nat>) {
    && (forall p: nat :: p in at <==> p < |pages|)
    && (forall i :: 0 <= i < |at| ==> at[i] < |pages|)
    && (forall i, j :: 0 <= i < j < |at| ==> Before(r, pages, at[i], at[j]))
  }

  lemma OrderIsStable(r: Reading, pages: seq<Page>)
    ensures StableOrder(r, pages, Order(r, pages))
  {
    OfTierIs(r, pages, 0);
    OfTierIs(r, pages, 1);
    OfTierIs(r, pages, 2);
    var a, b, c := OfTier(r, pages, 0), OfTier(r, pages, 1), OfTier(r, pages, 2);
    var at := a + b + c;
    forall i | 0 <= i < |at|
      ensures at[i] < |pages| && at[i] in (if i < |a| then a else if i < |a| + |b| then b else c)
    {
    }
    forall p: nat ensures p in at <==> p < |pages| {
      assert p in at <==> p in a || p in b || p in c;
    }
  }

  /** The order is the only stable one. */
  lemma {:induction false} StableOrderUnique(r: Reading, pages: seq<Page>, a: seq<nat>, b: seq<nat>)
    requires forall p :: p in a <==> p in b
    requires forall i :: 0 <= i < |a| ==> a[i] < |pages|
    requires forall i :: 0 <= i < |b| ==> b[i] < |pages|
    requires forall i, j :: 0 <= i < j < |a| ==> Before(r, pages, a[i], a[j])
    requires forall i, j :: 0 <= i < j < |b| ==> Before(r, pages, b[i], b[j])
    ensures a == b
  {
    assert |a| > 0 ==> a[0] in a;
    assert |b| > 0 ==> b[0] in b;
    if a != [] {
      assert a[0] == b[0];
      AfterFirst(r, pages, a);
      AfterFirst(r, pages, b);
      forall p ensures p in a[1..] <==> p in b[1..] {
        assert p in a[1..] <==> p in a && p != a[0];
        assert p in b[1..] <==> p in b && p != b[0];
      }
      StableOrderUnique(r, pages, a[1..], b[1..]);
      assert a == [a[0]] + a[1..] && b == [b[0]] + b[1..];
    }
  }

  lemma AfterFirst(r: Reading, pages: seq<Page>, a: seq<nat>)
    requires a != [] && forall i :: 0 <= i < |a| ==> a[i] < |pages|
    requires forall i, j :: 0 <= i < j < |a| ==> Before(r, pages, a[i], a[j])
    ensures forall p :: p in a[1..] <==> p in a && p != a[0]
  {
    assert a == [a[0]] + a[1..];
    assert forall i :: 0 <= i < |a| - 1 ==> a[1..][i] == a[i + 1];
  }

  function Min(a: nat, b: nat): nat { if a < b then a else b }

  /** The pages that reach the prompt, best first. */
  function OrderedPages(r: Reading, pages: seq<Page>): (out: seq<Page>)
    ensures |out| == Min(MAX_PAGES_RENDERED, |Order(r, pages)|)
  {
    OrderIsStable(r, pages);
    var at := Order(r, pages);
    assert forall i :: 0 <= i < |at| ==> at[i] in at;
    seq(Min(MAX_PAGES_RENDERED, |at|), i requires 0 <= i < Min(MAX_PAGES_RENDERED, |at|) => pages[at[i]])
  }

  lemma {:induction false} TierSizes(r: Reading, pages: seq<Page>)
    ensures |Order(r, pages)| == |pages|
  {
    if pages != [] { TierSizes(r, pages[..|pages| - 1]); }
  }

  // ---- The facts of a page ----

  function NonEmpty(r: Reading, hs: seq<string>): seq<string> {
    if hs == [] then []
    else
      var f := r.fact(hs[|hs| - 1]);
      NonEmpty(r, hs[..|hs| - 1]) + if f != "" then [f] else []
  }

  function Take<T>(xs: seq<T>, n: nat): seq<T> { if |xs| <= n then xs else xs[..n] }

  function PageFacts(r: Reading, page: Page): (facts: seq<string>)
    ensures |facts| <= MAX_FACTS_PER_PAGE
  {
    var facts := NonEmpty(r, page.highlights);
    var excerpt := if r.profileUrl != "" && page.url == r.profileUrl then "" else r.excerptFact(page);
    if excerpt != "" then Take(facts, MAX_FACTS_PER_PAGE - 1) + [excerpt] else Take(facts, MAX_FACTS_PER_PAGE)
  }

  /** The excerpt stands last whatever the highlights are, unless the page is the one the profile
      section was built from; before it come the first of the highlights, in order. */
  lemma ExcerptStandsLast(r: Reading, page: Page)
    ensures var facts, profile := PageFacts(r, page), r.profileUrl != "" && page.url == r.profileUrl;
            && (profile || r.excerptFact(page) == "" ==> facts <= NonEmpty(r, page.highlights))
            && (!profile && r.excerptFact(page) != "" ==>
                  && facts != [] && facts[|facts| - 1] == r.excerptFact(page)
                  && facts[..|facts| - 1] <= NonEmpty(r, page.highlights))
            && "" !in facts && |facts| <= 8
            && (|facts| < 8 ==> forall i :: 0 <= i < |page.highlights| && r.fact(page.highlights[i]) != "" ==>
                                  r.fact(page.highlights[i]) in facts)
  {
    NonEmptyAre(r, page.highlights);
  }

  lemma {:induction false} NonEmptyAre(r: Reading, hs: seq<string>)
    ensures "" !in NonEmpty(r, hs)
    ensures forall i :: 0 <= i < |hs| && r.fact(hs[i]) != "" ==> r.fact(hs[i]) in NonEmpty(r, hs)
  {
    if hs != [] {
      NonEmptyAre(r, hs[..|hs| - 1]);
      assert hs == hs[..|hs| - 1] + [hs[|hs| - 1]];
    }
  }

  // ---- Printing ----

  datatype Ledger = Ledger(seen: set<string>, spent: nat)

  datatype Printing = Printing(kept: seq<string>, ledger: Ledger, overran: bool)

  function PrintFact(r: Reading, p: Printing, fact: string): Printing {
    if p.overran || r.key(fact) in p.ledger.seen then p
    else if p.ledger.spent + |fact| > MAX_FACT_CHARS then p.(overran := true)
    else p.(kept := p.kept + [fact], ledger := Ledger(p.ledger.seen + {r.key(fact)}, p.ledger.spent + |fact|))
  }

  function PrintFacts(r: Reading, l: Ledger, facts: seq<string>): Printing {
    if facts == [] then Printing([], l, false)
    else PrintFact(r, PrintFacts(r, l, facts[..|facts| - 1]), facts[|facts| - 1])
  }

  function BlockOf(page: Page, kept: seq<string>, facts: seq<string>): Block {
    if kept != [] then Facts(page, kept) else Bare(page, if facts != [] then Duplicate else NoText)
  }

  datatype Report = Report(blocks: seq<Block>, ledger: Ledger)

  function Started(): Report { Report([], Ledger({}, 0)) }

  function PrintNext(r: Reading, before: Report, page: Page, facts: seq<string>): Report {
    var p := PrintFacts(r, before.ledger, facts);
    Report(before.blocks + [BlockOf(page, p.kept, facts)], p.ledger)
  }

  function BlocksOf(r: Reading, pages: seq<Page>): (out: Report)
    ensures |out.blocks| == |pages|
  {
    if pages == [] then Started() else PrintNext(r, BlocksOf(r, pages[..|pages| - 1]), pages[|pages| - 1], PageFacts(r, pages[|pages| - 1]))
  }

  lemma {:induction false} OverrunStays(r: Reading, l: Ledger, facts: seq<string>, k: nat)
    requires k <= |facts| && PrintFacts(r, l, facts[..k]).overran
    ensures PrintFacts(r, l, facts) == PrintFacts(r, l, facts[..k])
    decreases |facts|
  {
    if k == |facts| {
      assert facts[..k] == facts;
    } else {
      var n := |facts| - 1;
      assert facts[..n][..k] == facts[..k];
      OverrunStays(r, l, facts[..n], k);
    }
  }

  /** The facts nobody was shown yet, once each, in order. */
  function Unshown(r: Reading, seen: set<string>, facts: seq<string>): seq<string> {
    if facts == [] then []
    else
      var n := |facts| - 1;
      Unshown(r, seen, facts[..n])
      + if r.key(facts[n]) in seen || r.key(facts[n]) in KeysOf(r, facts[..n]) then [] else [facts[n]]
  }

  function KeysOf(r: Reading, facts: seq<string>): set<string> { set i | 0 <= i < |facts| :: r.key(facts[i]) }

  /** The printing took the new ones of the first `n` facts and, short of the last, stopped at one
      that is new and does not fit. */
  ghost predicate PrintedTo(r: Reading, l: Ledger, facts: seq<string>, p: Printing, n: nat) {
    && n <= |facts| && (p.overran <==> n < |facts|)
    && p.kept == Unshown(r, l.seen, facts[..n])
    && p.ledger == Ledger(l.seen + KeysOf(r, facts[..n]), l.spent + Chars(p.kept)) && p.ledger.spent <= 8000
    && (n < |facts| ==> r.key(facts[n]) !in p.ledger.seen && p.ledger.spent + |facts[n]| > 8000)
  }

  /** A page prints what is left of its facts up to the first that is new and does not fit, and
      nothing from there on. */
  lemma {:induction false} PrintedUpToOverrun(r: Reading, l: Ledger, facts: seq<string>) returns (n: nat)
    requires l.spent <= 8000
    ensures PrintedTo(r, l, facts, PrintFacts(r, l, facts), n)
  {
    if facts == [] {
      n := 0;
    } else {
      var before, fact := facts[..|facts| - 1], facts[|facts| - 1];
      n := PrintedUpToOverrun(r, l, before);
      n := OneMoreFact(r, l, before, fact, PrintFacts(r, l, before), n);
      assert facts == before + [fact];
    }
  }

  lemma OneMoreFact(r: Reading, l: Ledger, before: seq<string>, fact: string, p: Printing, n: nat) returns (now: nat)
    requires PrintedTo(r, l, before, p, n)
    ensures PrintedTo(r, l, before + [fact], PrintFact(r, p, fact), now)
  {
    if n < |before| {
      StoppedBefore(r, l, before, fact, p, n);
      now := n;
    } else if r.key(fact) in p.ledger.seen || p.ledger.spent + |fact| <= 8000 {
      FactTaken(r, l, before, fact, p);
      now := n + 1;
    } else {
      assert before[..n] == before && (before + [fact])[..n] == before;
      now := n;
    }
  }

  lemma StoppedBefore(r: Reading, l: Ledger, before: seq<string>, fact: string, p: Printing, n: nat)
    requires n < |before| && PrintedTo(r, l, before, p, n)
    ensures PrintedTo(r, l, before + [fact], PrintFact(r, p, fact), n)
  {
    assert (before + [fact])[..n] == before[..n];
  }

  lemma FactTaken(r: Reading, l: Ledger, before: seq<string>, fact: string, p: Printing)
    requires PrintedTo(r, l, before, p, |before|) && (r.key(fact) in p.ledger.seen || p.ledger.spent + |fact| <= 8000)
    ensures PrintedTo(r, l, before + [fact], PrintFact(r, p, fact), |before| + 1)
  {
    var facts, q := before + [fact], PrintFact(r, p, fact);
    assert before[..|before|] == before;
    NewFact(r, l, before, fact);
    KeptIsUnshown(r, l, before, fact, p, q);
    AllPrintedTo(r, l, facts, q);
  }

  lemma KeptIsUnshown(r: Reading, l: Ledger, before: seq<string>, fact: string, p: Printing, q: Printing)
    requires !p.overran && p.kept == Unshown(r, l.seen, before) && q == PrintFact(r, p, fact)
    requires p.ledger == Ledger(l.seen + KeysOf(r, before), l.spent + Chars(p.kept)) && p.ledger.spent <= 8000
    requires r.key(fact) in p.ledger.seen || p.ledger.spent + |fact| <= 8000
    requires Unshown(r, l.seen, before + [fact]) == p.kept + if r.key(fact) in p.ledger.seen then [] else [fact]
    requires KeysOf(r, before + [fact]) == KeysOf(r, before) + {r.key(fact)} && Chars(p.kept + [fact]) == Chars(p.kept) + |fact|
    ensures !q.overran && q.kept == Unshown(r, l.seen, before + [fact])
    ensures q.ledger == Ledger(l.seen + KeysOf(r, before + [fact]), l.spent + Chars(q.kept)) && q.ledger.spent <= 8000
  {
    if r.key(fact) in p.ledger.seen { assert p.kept + [] == p.kept; }
  }

  lemma AllPrintedTo(r: Reading, l: Ledger, facts: seq<string>, p: Printing)
    requires !p.overran && p.kept == Unshown(r, l.seen, facts)
    requires p.ledger == Ledger(l.seen + KeysOf(r, facts), l.spent + Chars(p.kept)) && p.ledger.spent <= 8000
    ensures PrintedTo(r, l, facts, p, |facts|)
  {
    assert facts[..|facts|] == facts;
  }

  lemma NewFact(r: Reading, l: Ledger, before: seq<string>, fact: string)
    ensures KeysOf(r, before + [fact]) == KeysOf(r, before) + {r.key(fact)}
    ensures Unshown(r, l.seen, before + [fact]) ==
              Unshown(r, l.seen, before) + if r.key(fact) in l.seen + KeysOf(r, before) then [] else [fact]
    ensures Chars(Unshown(r, l.seen, before) + [fact]) == Chars(Unshown(r, l.seen, before)) + |fact|
  {
    var facts := before + [fact];
    assert facts[..|before|] == before;
    forall k | k in KeysOf(r, before) + {r.key(fact)} ensures k in KeysOf(r, facts) {
      if k in KeysOf(r, before) {
        var i :| 0 <= i < |before| && k == r.key(before[i]);
        assert facts[i] == before[i];
      } else {
        assert facts[|before|] == fact;
      }
    }
    CharsGrow(Unshown(r, l.seen, before), fact);
  }

  method PrintPage(r: Reading, l: Ledger, facts: seq<string>) returns (kept: seq<string>, out: Ledger)
    ensures kept == PrintFacts(r, l, facts).kept && out == PrintFacts(r, l, facts).ledger
  {
    kept := [];
    var seen: set<string>, spent: nat := l.seen, l.spent;
    for i := 0 to |facts|
      invariant PrintFacts(r, l, facts[..i]) == Printing(kept, Ledger(seen, spent), false)
    {
      assert facts[..i + 1][..i] == facts[..i];
      var key := r.key(facts[i]);
      if key !in seen {
        if spent + |facts[i]| > MAX_FACT_CHARS {
          OverrunStays(r, l, facts, i + 1);
          return kept, Ledger(seen, spent);
        }
        seen := seen + {key};
        spent := spent + |facts[i]|;
        kept := kept + [facts[i]];
      }
    }
    assert facts[..|facts|] == facts;
    out := Ledger(seen, spent);
  }

  method PrintOn(r: Reading, before: Report, page: Page, facts: seq<string>) returns (out: Report)
    ensures out == PrintNext(r, before, page, facts)
  {
    var kept, after := PrintPage(r, before.ledger, facts);
    out := Report(before.blocks + [BlockOf(page, kept, facts)], after);
  }

  /** Each page's own facts, before anything is printed. */
  function AllFacts(r: Reading, pages: seq<Page>): (own: seq<seq<string>>)
    ensures |own| == |pages|
  {
    if pages == [] then [] else AllFacts(r, pages[..|pages| - 1]) + [PageFacts(r, pages[|pages| - 1])]
  }

  method PrintPages(r: Reading, pages: seq<Page>) returns (report: Report, own: seq<seq<string>>)
    ensures report == BlocksOf(r, pages) && own == AllFacts(r, pages)
  {
    report, own := Started(), [];
    for i := 0 to |pages|
      invariant report == BlocksOf(r, pages[..i])
      invariant own == AllFacts(r, pages[..i])
    {
      assert pages[..i + 1][..i] == pages[..i];
      var facts := PageFacts(r, pages[i]);
      report := PrintOn(r, report, pages[i], facts);
      own := own + [facts];
    }
    assert pages[..|pages|] == pages;
  }

  method BuildBlocks(r: Reading, retrieved: seq<Page>) returns (blocks: seq<Block>, own: seq<seq<string>>)
    ensures blocks == BlocksOf(r, OrderedPages(r, retrieved)).blocks
    ensures own == AllFacts(r, OrderedPages(r, retrieved))
  {
    var report;
    report, own := PrintPages(r, OrderedPages(r, retrieved));
    blocks := report.blocks;
  }

  // ---- What the report keeps to ----

  /** Every fact the first `n` blocks print, in order. */
  function AllPrinted(blocks: seq<Block>, n: nat): seq<string>
    requires n <= |blocks|
  {
    if n == 0 then [] else AllPrinted(blocks, n - 1) + Printed(blocks[n - 1])
  }

  lemma {:induction false} PrintedSoFar(blocks: seq<Block>, b: Block, n: nat)
    requires n <= |blocks|
    ensures AllPrinted(blocks + [b], n) == AllPrinted(blocks, n)
  {
    if n > 0 { PrintedSoFar(blocks, b, n - 1); }
  }

  function Chars(facts: seq<string>): nat {
    if facts == [] then 0 else Chars(facts[..|facts| - 1]) + |facts[|facts| - 1]|
  }

  ghost predicate NoTwoAlike(r: Reading, facts: seq<string>) {
    forall i, j :: 0 <= i < j < |facts| ==> r.key(facts[i]) != r.key(facts[j])
  }

  ghost predicate Shown(r: Reading, facts: seq<string>, key: string) {
    exists i :: 0 <= i < |facts| && r.key(facts[i]) == key
  }

  /** The ledger accounts for exactly the facts printed. */
  ghost predicate Accounts(r: Reading, l: Ledger, facts: seq<string>) {
    && NoTwoAlike(r, facts) && l.spent == Chars(facts) <= 8000
    && (forall key :: key in l.seen <==> Shown(r, facts, key))
  }

  /** Of a page's facts, the one at k is shown, or a fact no later than it is not shown and
      would overrun the budget on top of everything that is. */
  ghost predicate Accounted(r: Reading, shown: seq<string>, facts: seq<string>, k: nat)
    requires k < |facts|
  {
    || Shown(r, shown, r.key(facts[k]))
    || exists m :: 0 <= m <= k && Overruns(r, shown, facts, m)
  }

  lemma CharsGrow(facts: seq<string>, fact: string)
    ensures Chars(facts + [fact]) == Chars(facts) + |fact|
  {
    assert (facts + [fact])[..|facts|] == facts;
  }

  lemma ShownGrows(r: Reading, facts: seq<string>, fact: string, key: string)
    ensures Shown(r, facts + [fact], key) <==> Shown(r, facts, key) || r.key(fact) == key
  {
    var more := facts + [fact];
    assert more[|facts|] == fact;
    if i :| 0 <= i < |facts| && r.key(facts[i]) == key { assert r.key(more[i]) == key; }
  }

  lemma AccountsGrow(r: Reading, l: Ledger, facts: seq<string>, fact: string)
    requires Accounts(r, l, facts) && r.key(fact) !in l.seen && l.spent + |fact| <= MAX_FACT_CHARS
    ensures Accounts(r, Ledger(l.seen + {r.key(fact)}, l.spent + |fact|), facts + [fact])
  {
    CharsGrow(facts, fact);
    forall key ensures key in l.seen + {r.key(fact)} <==> Shown(r, facts + [fact], key) {
      ShownGrows(r, facts, fact, key);
    }
    forall i | 0 <= i < |facts| ensures r.key(facts[i]) != r.key(fact) {
      assert Shown(r, facts, r.key(facts[i]));
    }
  }

  /** A fact of the page is not shown and would overrun the budget on top of what is. */
  ghost predicate Overruns(r: Reading, shown: seq<string>, facts: seq<string>, m: nat)
    requires m < |facts|
  {
    !Shown(r, shown, r.key(facts[m])) && Chars(shown) + |facts[m]| > 8000
  }

  /** How far a page is printed, on top of everything printed before it. */
  ghost predicate Progress(r: Reading, before: seq<string>, p: Printing, facts: seq<string>) {
    var shown := before + p.kept;
    && Accounts(r, p.ledger, shown) && |p.kept| <= |facts|
    && (forall i :: 0 <= i < |p.kept| ==> p.kept[i] in facts)
    && (forall k :: 0 <= k < |facts| ==> Accounted(r, shown, facts, k))
    && (p.overran ==> exists m :: 0 <= m < |facts| && Overruns(r, shown, facts, m))
    && (!p.overran ==> forall k :: 0 <= k < |facts| ==> Shown(r, shown, r.key(facts[k])))
  }

  lemma {:induction false} PrintingAccounts(r: Reading, l: Ledger, before: seq<string>, facts: seq<string>)
    requires Accounts(r, l, before)
    ensures Progress(r, before, PrintFacts(r, l, facts), facts)
  {
    if facts == [] {
      assert before + [] == before;
    } else {
      var n := |facts| - 1;
      PrintingAccounts(r, l, before, facts[..n]);
      assert facts == facts[..n] + [facts[n]];
      PrintingStep(r, before, PrintFacts(r, l, facts[..n]), facts[..n], facts[n]);
    }
  }

  lemma PrintingStep(r: Reading, before: seq<string>, p: Printing, was: seq<string>, fact: string)
    requires Progress(r, before, p, was)
    ensures Progress(r, before, PrintFact(r, p, fact), was + [fact])
  {
    var q, facts, shown := PrintFact(r, p, fact), was + [fact], before + p.kept;
    if p.overran || r.key(fact) in p.ledger.seen {
      Passed(r, before, p, was, fact);
    } else if q.overran {
      Stopped(r, before, p, was, fact);
    } else {
      AccountsGrow(r, p.ledger, shown, fact);
      assert before + q.kept == shown + [fact];
      forall k | 0 <= k < |facts| ensures Shown(r, before + q.kept, r.key(facts[k])) {
        ShownGrows(r, shown, fact, r.key(facts[k]));
      }
      assert forall k :: 0 <= k < |facts| ==> Accounted(r, before + q.kept, facts, k);
    }
  }

  lemma Passed(r: Reading, before: seq<string>, p: Printing, was: seq<string>, fact: string)
    requires Progress(r, before, p, was) && (p.overran || r.key(fact) in p.ledger.seen)
    ensures Progress(r, before, p, was + [fact])
  {
    var facts, shown := was + [fact], before + p.kept;
    forall k | 0 <= k < |facts| ensures Accounted(r, shown, facts, k) {
      if k < |was| {
        CarriedOver(r, shown, was, facts, k);
      } else if p.overran {
        var m :| 0 <= m < |was| && Overruns(r, shown, was, m);
        assert Overruns(r, shown, facts, m);
      }
    }
    if p.overran {
      var m :| 0 <= m < |was| && Overruns(r, shown, was, m);
      assert Overruns(r, shown, facts, m);
    }
  }

  lemma Stopped(r: Reading, before: seq<string>, p: Printing, was: seq<string>, fact: string)
    requires Progress(r, before, p, was) && !p.overran && r.key(fact) !in p.ledger.seen
    requires p.ledger.spent + |fact| > MAX_FACT_CHARS
    ensures Progress(r, before, p.(overran := true), was + [fact])
  {
    var facts, shown := was + [fact], before + p.kept;
    assert Overruns(r, shown, facts, |was|);
    forall k | 0 <= k < |facts| ensures Accounted(r, shown, facts, k) {
      if k < |was| { CarriedOver(r, shown, was, facts, k); }
    }
  }

  lemma CarriedOver(r: Reading, shown: seq<string>, was: seq<string>, facts: seq<string>, k: nat)
    requires k < |was| <= |facts| && was == facts[..|was|] && Accounted(r, shown, was, k)
    ensures Accounted(r, shown, facts, k)
  {
    if !Shown(r, shown, r.key(facts[k])) {
      var m :| 0 <= m <= k && Overruns(r, shown, was, m);
      assert Overruns(r, shown, facts, m);
    }
  }

  /** The block of a page with these facts, under everything printed up to it: it prints
      something, no more facts than a page may and only the page's own; and a fact that is
      missing repeats a printed one, or stands at or after one that overran the budget. */
  ghost predicate BlockIsRight(r: Reading, b: Block, page: Page, facts: seq<string>, shown: seq<string>) {
    && b.page == page
    && (b.Facts? ==> b.facts != [])
    && |Printed(b)| <= 8 && (forall k :: 0 <= k < |Printed(b)| ==> Printed(b)[k] in facts)
    && (forall k :: 0 <= k < |facts| ==> Accounted(r, shown, facts, k))
    && (b.Bare? ==> (b.why == NoText <==> facts == []))
  }

  /** A right block for each of the first `n` pages, in order. */
  ghost predicate BlocksRight(r: Reading, blocks: seq<Block>, pages: seq<Page>, own: seq<seq<string>>, n: nat)
    requires n <= |blocks| == |pages| == |own|
  {
    n == 0 || (BlocksRight(r, blocks, pages, own, n - 1)
               && BlockIsRight(r, blocks[n - 1], pages[n - 1], own[n - 1], AllPrinted(blocks, n)))
  }

  /** A right block for each page; no two printed facts alike, their text within budget. */
  ghost predicate ReportIsRight(r: Reading, out: Report, pages: seq<Page>, own: seq<seq<string>>) {
    && |out.blocks| == |pages| == |own| && BlocksRight(r, out.blocks, pages, own, |pages|)
    && Accounts(r, out.ledger, AllPrinted(out.blocks, |out.blocks|))
  }

  lemma {:induction false} EachBlockIsRight(r: Reading, blocks: seq<Block>, pages: seq<Page>, own: seq<seq<string>>, n: nat, i: nat)
    requires i < n <= |blocks| == |pages| == |own| && BlocksRight(r, blocks, pages, own, n)
    ensures BlockIsRight(r, blocks[i], pages[i], own[i], AllPrinted(blocks, i + 1))
  {
    assert BlockIsRight(r, blocks[n - 1], pages[n - 1], own[n - 1], AllPrinted(blocks, n));
    if i < n - 1 { EachBlockIsRight(r, blocks, pages, own, n - 1, i); }
  }

  lemma {:induction false} BlocksKeepToBudget(r: Reading, pages: seq<Page>)
    ensures ReportIsRight(r, BlocksOf(r, pages), pages, AllFacts(r, pages))
  {
    if pages == [] {
      NothingPrinted(r);
    } else {
      var before, page := pages[..|pages| - 1], pages[|pages| - 1];
      BlocksKeepToBudget(r, before);
      PageKeeps(r, BlocksOf(r, before), before, AllFacts(r, before), page, pages);
    }
  }

  lemma NothingPrinted(r: Reading)
    ensures ReportIsRight(r, Started(), [], [])
  {
  }

  lemma PageKeeps(r: Reading, out: Report, before: seq<Page>, own: seq<seq<string>>, page: Page, pages: seq<Page>)
    requires pages == before + [page] && ReportIsRight(r, out, before, own)
    ensures ReportIsRight(r, PrintNext(r, out, page, PageFacts(r, page)), pages, own + [PageFacts(r, page)])
  {
    NextKeeps(r, out, before, own, page, PageFacts(r, page));
  }

  lemma NextKeeps(r: Reading, before: Report, pages: seq<Page>, own: seq<seq<string>>, page: Page, facts: seq<string>)
    requires ReportIsRight(r, before, pages, own) && |facts| <= MAX_FACTS_PER_PAGE
    ensures ReportIsRight(r, PrintNext(r, before, page, facts), pages + [page], own + [facts])
  {
    var n, p := |before.blocks|, PrintFacts(r, before.ledger, facts);
    var b := BlockOf(page, p.kept, facts);
    PrintingAccounts(r, before.ledger, AllPrinted(before.blocks, n), facts);
    NewBlock(r, AllPrinted(before.blocks, n), p, page, facts);
    PrintedSoFar(before.blocks, b, n);
    StillRight(r, before.blocks, pages, own, b, page, facts, n);
  }

  lemma {:induction false} StillRight(r: Reading, blocks: seq<Block>, pages: seq<Page>, own: seq<seq<string>>,
                                      b: Block, page: Page, facts: seq<string>, n: nat)
    requires n <= |blocks| == |pages| == |own|
    ensures BlocksRight(r, blocks + [b], pages + [page], own + [facts], n) <==> BlocksRight(r, blocks, pages, own, n)
  {
    if n > 0 {
      StillRight(r, blocks, pages, own, b, page, facts, n - 1);
      PrintedSoFar(blocks, b, n);
    }
  }

  lemma NewBlock(r: Reading, before: seq<string>, p: Printing, page: Page, facts: seq<string>)
    requires Progress(r, before, p, facts) && |facts| <= MAX_FACTS_PER_PAGE
    ensures Printed(BlockOf(page, p.kept, facts)) == p.kept
    ensures BlockIsRight(r, BlockOf(page, p.kept, facts), page, facts, before + p.kept)
  {
  }

  /** The same of what a record's retrieved pages print, with the pages it leaves out. */
  lemma EvidenceWithinBudget(r: Reading, retrieved: seq<Page>)
    ensures var pages := OrderedPages(r, retrieved); var out := BlocksOf(r, pages);
            |out.blocks| == (if |retrieved| < 6 then |retrieved| else 6) && ReportIsRight(r, out, pages, AllFacts(r, pages))
    ensures var order, pages := Order(r, retrieved), OrderedPages(r, retrieved);
            && StableOrder(r, retrieved, order) && |order| == |retrieved|
            && forall i :: 0 <= i < |pages| ==> pages[i] == retrieved[order[i]]
  {
    OrderIsStable(r, retrieved);
    TierSizes(r, retrieved);
    BlocksKeepToBudget(r, OrderedPages(r, retrieved));
  }

  /** A page whose block says its text repeats an earlier page's does repeat it, unless a fact
      of it overran the budget: then the block says so all the same. */
  lemma DuplicatePlaceholderMeans(r: Reading, pages: seq<Page>, i: nat)
    requires i < |pages| && BlocksOf(r, pages).blocks[i] == Bare(pages[i], Duplicate)
    ensures RepeatsUnlessOverrun(r, AllPrinted(BlocksOf(r, pages).blocks, i), AllFacts(r, pages)[i])
  {
    BlocksKeepToBudget(r, pages);
    EachBlockIsRight(r, BlocksOf(r, pages).blocks, pages, AllFacts(r, pages), |pages|, i);
    BareMeans(r, BlocksOf(r, pages).blocks, pages[i], AllFacts(r, pages)[i], i);
  }

  ghost predicate RepeatsUnlessOverrun(r: Reading, shown: seq<string>, facts: seq<string>) {
    (forall k :: 0 <= k < |facts| ==> Shown(r, shown, r.key(facts[k])))
    <==> !exists m :: 0 <= m < |facts| && Overruns(r, shown, facts, m)
  }

  lemma BareMeans(r: Reading, blocks: seq<Block>, page: Page, facts: seq<string>, i: nat)
    requires i < |blocks| && blocks[i].Bare? && BlockIsRight(r, blocks[i], page, facts, AllPrinted(blocks, i + 1))
    ensures RepeatsUnlessOverrun(r, AllPrinted(blocks, i), facts)
  {
    assert AllPrinted(blocks, i + 1) == AllPrinted(blocks, i);
    AccountedMeans(r, AllPrinted(blocks, i), facts);
  }

  lemma AccountedMeans(r: Reading, shown: seq<string>, facts: seq<string>)
    requires forall k :: 0 <= k < |facts| ==> Accounted(r, shown, facts, k)
    ensures RepeatsUnlessOverrun(r, shown, facts)
  {
    if k :| 0 <= k < |facts| && !Shown(r, shown, r.key(facts[k])) {
      assert Accounted(r, shown, facts, k);
    }
  }

  // ---- A placeholder that is not true of its page ----

  /** Facts as short and distinct as a page may carry them: one letter, as often as one line
      of a page may be long. */
  const FACT_CHARS := 600

  function Letter(i: nat): string
    requires i < 26
  {
    seq(FACT_CHARS, j => 'a' + i as char)
  }

  function Letters(from: nat, n: nat): (facts: seq<string>)
    requires from <= n <= 26
    ensures |facts| == n - from
  {
    if from == n then [] else Letters(from, n - 1) + [Letter(n - 1)]
  }

  function Same(s: string): string { s }

  function NoExcerpt(p: Page): string { "" }

  function OneTier(p: Page): Tier { 2 }

  const PLAINLY := Reading(Same, NoExcerpt, Same, OneTier, "")

  function Lettered(from: nat, n: nat): Page
    requires from <= n <= 26
  {
    Page(['u', 'a' + from as char], "t", Letters(from, n), "")
  }

  ghost function Seen(n: nat): set<string>
    requires n <= 26
  {
    set i: nat | i < n :: Letter(i)
  }

  lemma LettersDiffer(i: nat, j: nat)
    requires i < 26 && j < 26 && i != j
    ensures Letter(i) != Letter(j)
  {
    assert Letter(i)[0] != Letter(j)[0];
  }

  lemma {:induction false} LettersAreFacts(from: nat, n: nat)
    requires from <= n <= 26
    ensures NonEmpty(PLAINLY, Letters(from, n)) == Letters(from, n)
  {
    if from < n {
      LettersAreFacts(from, n - 1);
      assert Letters(from, n)[..n - 1 - from] == Letters(from, n - 1);
      assert |Letter(n - 1)| == FACT_CHARS;
    }
  }

  /** While the budget lasts, every letter is printed. */
  lemma {:induction false} LettersPrint(from: nat, n: nat)
    requires from <= n <= 26 && n * FACT_CHARS <= MAX_FACT_CHARS
    ensures PrintFacts(PLAINLY, Ledger(Seen(from), from * FACT_CHARS), Letters(from, n))
         == Printing(Letters(from, n), Ledger(Seen(n), n * FACT_CHARS), false)
  {
    if from < n {
      LettersPrint(from, n - 1);
      assert Letters(from, n)[..n - 1 - from] == Letters(from, n - 1);
      LetterPrints(Letters(from, n - 1), n - 1);
    }
  }

  lemma LetterPrints(kept: seq<string>, n: nat)
    requires n < 26 && (n + 1) * FACT_CHARS <= MAX_FACT_CHARS
    ensures PrintFact(PLAINLY, Printing(kept, Ledger(Seen(n), n * FACT_CHARS), false), Letter(n))
         == Printing(kept + [Letter(n)], Ledger(Seen(n + 1), (n + 1) * FACT_CHARS), false)
  {
    NotSeen(n);
    assert |Letter(n)| == FACT_CHARS;
    assert Seen(n + 1) == Seen(n) + {Letter(n)};
  }

  lemma NotSeen(n: nat)
    requires n < 26
    ensures Letter(n) !in Seen(n)
  {
    if Letter(n) in Seen(n) {
      var i: nat :| i < n && Letter(i) == Letter(n);
      LettersDiffer(i, n);
    }
  }

  lemma PageOfLetters(from: nat, n: nat)
    requires from <= n <= 26 && n - from <= MAX_FACTS_PER_PAGE
    ensures PageFacts(PLAINLY, Lettered(from, n)) == Letters(from, n)
  {
    LettersAreFacts(from, n);
  }

  /** Thirteen letters on two pages spend the budget; a fourteenth, alone on a third page,
      overruns it, and the page says its text repeats an earlier one though it does not. */
  lemma DuplicatePlaceholderUntrue()
    ensures var pages := [Lettered(0, 8), Lettered(8, 13), Lettered(13, 14)];
            var blocks := BlocksOf(PLAINLY, pages).blocks;
            && pages[0].url != pages[1].url && pages[1].url != pages[2].url && pages[2].url != pages[0].url
            && blocks[2] == Bare(pages[2], Duplicate)
            && PageFacts(PLAINLY, pages[2]) == [Letter(13)] && !Shown(PLAINLY, AllPrinted(blocks, 2), Letter(13))
  {
    var p0, p1, p2 := Lettered(0, 8), Lettered(8, 13), Lettered(13, 14);
    var r0 := PrintNext(PLAINLY, Started(), p0, Letters(0, 8));
    var r1 := PrintNext(PLAINLY, r0, p1, Letters(8, 13));
    TwoPages(p0, p1, r0, r1);
    PageOfLetters(13, 14);
    OneLetter();
    NotSeen(13);
    assert [p0, p1, p2][..2] == [p0, p1];
    var r2 := PrintNext(PLAINLY, r1, p2, [Letter(13)]);
    assert BlocksOf(PLAINLY, [p0, p1, p2]) == r2;
    LastLetterOverruns(r1.ledger);
    assert r2.blocks == r1.blocks + [Bare(p2, Duplicate)];
    PrintedSoFar(r1.blocks, Bare(p2, Duplicate), 2);
    BlocksKeepToBudget(PLAINLY, [p0, p1]);
  }

  lemma LastLetterOverruns(l: Ledger)
    requires l == Ledger(Seen(13), 13 * FACT_CHARS)
    ensures PrintFacts(PLAINLY, l, [Letter(13)]) == Printing([], l, true)
  {
    NotSeen(13);
    assert |Letter(13)| == FACT_CHARS;
    assert [Letter(13)][..0] == [];
    assert PrintFacts(PLAINLY, l, []) == Printing([], l, false);
  }

  lemma OneLetter()
    ensures Letters(13, 14) == [Letter(13)]
  {
    assert Letters(13, 13) == [];
  }

  lemma TwoPages(p0: Page, p1: Page, r0: Report, r1: Report)
    requires p0 == Lettered(0, 8) && p1 == Lettered(8, 13)
    requires r0 == PrintNext(PLAINLY, Started(), p0, Letters(0, 8)) && r1 == PrintNext(PLAINLY, r0, p1, Letters(8, 13))
    ensures BlocksOf(PLAINLY, [p0, p1]) == r1 && |r1.blocks| == 2 && r1.ledger == Ledger(Seen(13), 13 * FACT_CHARS)
  {
    PageOfLetters(0, 8);
    PageOfLetters(8, 13);
    assert Seen(0) == {};
    LettersPrint(0, 8);
    LettersPrint(8, 13);
    assert [p0, p1][..1] == [p0] && [p0][..0] == [];
    assert BlocksOf(PLAINLY, []) == Started();
    assert BlocksOf(PLAINLY, [p0]) == r0;
  }
}
