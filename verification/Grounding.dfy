/** What a retrieved page supports of a person a model says it names. */
module Grounding {
  import opened Wrappers

  /** Text normalization, taken as given: the comparison form, the words of a name in it, and
      the public handle of a URL. */
  datatype Norms = Norms(norm: string -> string, words: string -> seq<string>, handle: string -> string)

  datatype Page = Page(excerpt: string, highlights: seq<string>)

  datatype Profile = Profile(name: string, title: string, firm: string, location: string, linkedin: string, quote: string)

  const GROUNDING_WINDOW_CHARS := 300
  const NAME_TOKEN_SPAN_CHARS := 40
  const HALF := GROUNDING_WINDOW_CHARS / 2

  // ---- Token-bounded search ----

  predicate Alnum(c: char) { 'a' <= c <= 'z' || '0' <= c <= '9' }

  predicate OccursAt(needle: string, hay: string, p: nat) { p + |needle| <= |hay| && hay[p..p + |needle|] == needle }

  predicate OpenLeft(hay: string, p: nat) { p == 0 || p > |hay| || !Alnum(hay[p - 1]) }

  predicate OpenRight(hay: string, p: nat) { p >= |hay| || !Alnum(hay[p]) }

  predicate Bounded(needle: string, hay: string, p: nat) {
    needle != "" && OccursAt(needle, hay, p) && OpenLeft(hay, p) && OpenRight(hay, p + |needle|)
  }

  /** The first token-bounded occurrence from a position on. */
  function TokenBounded(needle: string, hay: string, from: nat): (at: Option<nat>)
    ensures at.Some? ==> from <= at.value && Bounded(needle, hay, at.value)
    ensures forall p: nat :: from <= p && Bounded(needle, hay, p) ==> at.Some? && at.value <= p
    decreases |hay| - from
  {
    if needle == "" || from + |needle| > |hay| then None
    else if Bounded(needle, hay, from) then Some(from)
    else TokenBounded(needle, hay, from + 1)
  }

  ghost predicate Increasing(ps: seq<nat>) { forall i, j :: 0 <= i < j < |ps| ==> ps[i] < ps[j] }

  /** Exactly the token-bounded positions, in strictly increasing order. */
  method AllTokenBounded(needle: string, hay: string) returns (positions: seq<nat>)
    ensures Increasing(positions)
    ensures forall p: nat :: p in positions <==> Bounded(needle, hay, p)
    ensures forall p: nat :: p in positions <==>
              && needle != "" && p + |needle| <= |hay| && hay[p..p + |needle|] == needle
              && (p > 0 ==> !('a' <= hay[p - 1] <= 'z') && !('0' <= hay[p - 1] <= '9'))
              && (p + |needle| < |hay| ==> !('a' <= hay[p + |needle|] <= 'z') && !('0' <= hay[p + |needle|] <= '9'))
  {
    positions := [];
    var cursor := 0;
    while true
      invariant Increasing(positions)
      invariant forall p: nat :: p in positions <==> p < cursor && Bounded(needle, hay, p)
      decreases |hay| - cursor
    {
      var found := TokenBounded(needle, hay, cursor);
      if found.None? { return; }
      assert forall i :: 0 <= i < |positions| ==> positions[i] in positions;
      positions := positions + [found.value];
      cursor := found.value + 1;
    }
  }

  /** A list is settled by its members once it is strictly increasing. */
  lemma {:induction false} IncreasingIsUnique(a: seq<nat>, b: seq<nat>)
    requires Increasing(a) && Increasing(b) && forall p :: p in a <==> p in b
    ensures a == b
  {
    assert |a| > 0 ==> a[0] in a;
    assert |b| > 0 ==> b[0] in b;
    if a != [] {
      var m, n := |a| - 1, |b| - 1;
      assert a[m] in b && b[n] in a;
      assert a[m] == b[n];
      var x, y := a[..m], b[..n];
      assert a == x + [a[m]] && b == y + [a[m]];
      SamePrefixes(x, y, a[m], a, b);
      IncreasingIsUnique(x, y);
    }
  }

  lemma SamePrefixes(x: seq<nat>, y: seq<nat>, last: nat, a: seq<nat>, b: seq<nat>)
    requires a == x + [last] && b == y + [last] && Increasing(a) && Increasing(b) && forall p :: p in a <==> p in b
    ensures forall p :: p in x <==> p in y
  {
    BelowLast(x, last, a);
    BelowLast(y, last, b);
    forall p ensures p in x <==> p in y {
      assert p in x <==> p in a && p < last;
      assert p in y <==> p in b && p < last;
    }
  }

  lemma BelowLast(x: seq<nat>, last: nat, a: seq<nat>)
    requires a == x + [last] && Increasing(a)
    ensures forall p :: p in x <==> p in a && p < last
  {
    forall p ensures p in x <==> p in a && p < last {
      if p in x {
        var i :| 0 <= i < |x| && x[i] == p;
        assert a[i] == p && a[|x|] == last;
      }
    }
  }

  // ---- Where the page names the person ----

  type Span = (nat, nat)

  function Min(a: nat, b: nat): nat { if a < b then a else b }

  function Max(a: nat, b: nat): nat { if a < b then b else a }

  /** A name of one word anchors on it; a longer one where its first and last words stand
      close, in either order. */
  ghost predicate IsAnchor(words: seq<string>, corpus: string, a: Span) {
    if words == [] then false
    else if |words| == 1 then Bounded(words[0], corpus, a.0) && a.1 == a.0 + |words[0]|
    else exists f: nat, l: nat :: Pairs(words, corpus, a, f, l)
  }

  ghost predicate Pairs(words: seq<string>, corpus: string, a: Span, f: nat, l: nat)
    requires words != []
  {
    && Bounded(words[0], corpus, f) && Bounded(words[|words| - 1], corpus, l)
    && Max(f, l) - Min(f, l) <= NAME_TOKEN_SPAN_CHARS
    && a == (Min(f, l), Max(f, l) + |words[|words| - 1]|)
  }

  /** An anchor spans from the nearer of a name's first and last words to the end of the farther,
      as long as the last word would be there, at most forty characters apart. */
  lemma AnchorOfWords(words: seq<string>, first: string, last: string, corpus: string, a: Span)
    requires words != [] && first == words[0] && last == words[|words| - 1]
    ensures |words| == 1 ==> (IsAnchor(words, corpus, a) <==> Bounded(first, corpus, a.0) && a.1 == a.0 + |first|)
    ensures |words| > 1 ==> (IsAnchor(words, corpus, a) <==> exists f: nat, l: nat :: Close(first, last, corpus, a, f, l))
  {
    if |words| > 1 {
      if f: nat, l: nat :| Pairs(words, corpus, a, f, l) { assert Close(first, last, corpus, a, f, l); }
      if f: nat, l: nat :| Close(first, last, corpus, a, f, l) { assert Pairs(words, corpus, a, f, l); }
    }
  }

  ghost predicate Close(first: string, last: string, corpus: string, a: Span, f: nat, l: nat) {
    && Bounded(first, corpus, f) && Bounded(last, corpus, l) && f <= l + 40 && l <= f + 40
    && a == if f <= l then (f, l + |last|) else (l, f + |last|)
  }

  method NameAnchors(words: seq<string>, corpus: string) returns (anchors: seq<Span>)
    ensures forall a :: a in anchors <==> IsAnchor(words, corpus, a)
  {
    anchors := [];
    if words == [] { return; }
    var firsts := AllTokenBounded(words[0], corpus);
    if |words| == 1 {
      for i := 0 to |firsts|
        invariant forall a :: a in anchors <==> a.0 in firsts[..i] && a.1 == a.0 + |words[0]|
      {
        assert firsts[..i + 1] == firsts[..i] + [firsts[i]];
        anchors := anchors + [(firsts[i], firsts[i] + |words[0]|)];
      }
      assert firsts[..|firsts|] == firsts;
      return;
    }
    var lasts := AllTokenBounded(words[|words| - 1], corpus);
    for i := 0 to |firsts|
      invariant forall a :: a in anchors <==> exists f: nat, l: nat :: f in firsts[..i] && Pairs(words, corpus, a, f, l)
    {
      assert firsts[..i + 1] == firsts[..i] + [firsts[i]];
      assert firsts[i] in firsts;
      var more := AnchorsFrom(words, corpus, firsts[i], lasts);
      anchors := anchors + more;
    }
    assert firsts[..|firsts|] == firsts;
  }

  method AnchorsFrom(words: seq<string>, corpus: string, first: nat, lasts: seq<nat>) returns (anchors: seq<Span>)
    requires words != [] && Bounded(words[0], corpus, first)
    requires forall l: nat :: l in lasts <==> Bounded(words[|words| - 1], corpus, l)
    ensures forall a :: a in anchors <==> exists l: nat :: Pairs(words, corpus, a, first, l)
  {
    anchors := [];
    for i := 0 to |lasts|
      invariant forall a :: a in anchors <==> exists l: nat :: l in lasts[..i] && Pairs(words, corpus, a, first, l)
    {
      assert lasts[..i + 1] == lasts[..i] + [lasts[i]];
      assert lasts[i] in lasts;
      var low, high := Min(first, lasts[i]), Max(first, lasts[i]);
      ghost var was := anchors;
      assert forall a :: Pairs(words, corpus, a, first, lasts[i]) <==>
               high - low <= NAME_TOKEN_SPAN_CHARS && a == (low, high + |words[|words| - 1]|);
      assert forall l: nat :: l in lasts[..i + 1] <==> l in lasts[..i] || l == lasts[i];
      if high - low <= NAME_TOKEN_SPAN_CHARS {
        anchors := anchors + [(low, high + |words[|words| - 1]|)];
      }
      forall a ensures a in anchors <==> exists l: nat :: l in lasts[..i + 1] && Pairs(words, corpus, a, first, l) {
        var pair := (low, high + |words[|words| - 1]|);
        assert a in anchors <==> a in was || (high - low <= NAME_TOKEN_SPAN_CHARS && a == pair);
        if a in was {
          var l: nat :| l in lasts[..i] && Pairs(words, corpus, a, first, l);
          assert l in lasts[..i + 1];
        } else if a in anchors {
          assert lasts[i] in lasts[..i + 1] && Pairs(words, corpus, a, first, lasts[i]);
        } else {
          forall l: nat | l in lasts[..i + 1] ensures !Pairs(words, corpus, a, first, l) { }
        }
      }
    }
    assert lasts[..|lasts|] == lasts;
  }

  // ---- The window beside a name ----

  function WindowFrom(a: Span): nat { if a.0 < HALF then 0 else a.0 - HALF }

  function Window(segment: string, a: Span): string {
    var low, high := WindowFrom(a), Min(|segment|, a.1 + HALF);
    if low <= high then segment[low..high] else ""
  }

  /** The text stands, token-bounded, in the window cut around an anchor of the name. */
  ghost predicate Beside(value: string, words: seq<string>, segment: string, a: Span) {
    IsAnchor(words, segment, a) && TokenBounded(value, Window(segment, a), 0).Some?
  }

  ghost predicate Near(value: string, words: seq<string>, segments: seq<string>) {
    exists i, a :: 0 <= i < |segments| && Beside(value, words, segments[i], a)
  }

  ghost predicate Named(words: seq<string>, segments: seq<string>) {
    exists i, a :: 0 <= i < |segments| && IsAnchor(words, segments[i], a)
  }

  ghost predicate OnSome(value: string, segments: seq<string>) {
    exists i :: 0 <= i < |segments| && TokenBounded(value, segments[i], 0).Some?
  }

  function Surname(words: seq<string>): string { if words == [] then "" else words[|words| - 1] }

  /** The excerpt and each highlight apart, normalized. */
  function Segments(n: Norms, page: Page): seq<string> {
    NonEmpty(seq(|page.highlights| + 1, i requires 0 <= i <= |page.highlights| =>
      n.norm(if i == 0 then page.excerpt else page.highlights[i - 1])))
  }

  function NonEmpty(parts: seq<string>): seq<string> {
    if parts == [] then []
    else NonEmpty(parts[..|parts| - 1]) + if parts[|parts| - 1] != "" then [parts[|parts| - 1]] else []
  }

  /** The claim reduced to what the page supports, or nothing when the page does not name the
      person or the person's own quote does not carry the surname. */
  ghost function Grounded(n: Norms, p: Profile, page: Page): Option<Profile> {
    var words, segments := n.words(p.name), Segments(n, page);
    if !Named(words, segments) || TokenBounded(Surname(words), n.norm(p.quote), 0).None? then None
    else
      Some(Reduced(p, Near(n.norm(p.title), words, segments), Near(n.norm(p.firm), words, segments),
                   TokenBounded(n.norm(p.location), n.norm(page.excerpt), 0).Some?,
                   n.handle(p.linkedin) != "" && OnSome(n.handle(p.linkedin), segments)))
  }

  /** The claim with every unsupported field blanked. */
  function Reduced(p: Profile, title: bool, firm: bool, location: bool, linkedin: bool): Profile {
    p.(title := if title then p.title else "", firm := if firm then p.firm else "",
       location := if location then p.location else "", linkedin := if linkedin then p.linkedin else "")
  }

  type Anchored = seq<(string, seq<Span>)>

  method InNameWindow(value: string, anchored: Anchored) returns (near: bool)
    ensures near <==> exists i, a :: 0 <= i < |anchored| && a in anchored[i].1 && TokenBounded(value, Window(anchored[i].0, a), 0).Some?
  {
    if value == "" { return false; }
    for i := 0 to |anchored|
      invariant forall k, a :: 0 <= k < i && a in anchored[k].1 ==> TokenBounded(value, Window(anchored[k].0, a), 0).None?
    {
      var segment, anchors := anchored[i].0, anchored[i].1;
      for j := 0 to |anchors|
        invariant forall a :: a in anchors[..j] ==> TokenBounded(value, Window(segment, a), 0).None?
      {
        if TokenBounded(value, Window(segment, anchors[j]), 0).Some? {
          assert anchors[j] in anchored[i].1;
          return true;
        }
        assert anchors[..j + 1] == anchors[..j] + [anchors[j]];
      }
      assert anchors[..|anchors|] == anchors;
    }
    return false;
  }

  /** Each segment that names the person, with its anchors. */
  ghost predicate Anchors(anchored: Anchored, words: seq<string>, segments: seq<string>) {
    && (forall k :: 0 <= k < |anchored| ==>
          && anchored[k].0 in segments && anchored[k].1 != []
          && forall a :: a in anchored[k].1 <==> IsAnchor(words, anchored[k].0, a))
    && (forall i, a :: 0 <= i < |segments| && IsAnchor(words, segments[i], a) ==>
          exists k :: 0 <= k < |anchored| && anchored[k].0 == segments[i])
  }

  method AnchorSegments(words: seq<string>, segments: seq<string>) returns (anchored: Anchored)
    ensures Anchors(anchored, words, segments)
  {
    anchored := [];
    for i := 0 to |segments|
      invariant Anchors(anchored, words, segments[..i])
    {
      assert segments[..i + 1] == segments[..i] + [segments[i]];
      var anchors := NameAnchors(words, segments[i]);
      ghost var was := anchored;
      if anchors != [] {
        anchored := anchored + [(segments[i], anchors)];
      } else {
        assert forall a :: !IsAnchor(words, segments[i], a);
      }
      forall j | 0 <= j < i + 1 && exists a :: IsAnchor(words, segments[j], a)
        ensures exists k :: 0 <= k < |anchored| && anchored[k].0 == segments[j]
      {
        if j < i {
          assert segments[..i][j] == segments[j];
          var k :| 0 <= k < |was| && was[k].0 == segments[j];
          assert anchored[k] == was[k];
        } else {
          assert anchored[|was|].0 == segments[i];
        }
      }
    }
    assert segments[..|segments|] == segments;
  }

  lemma AnchoredNear(anchored: Anchored, words: seq<string>, segments: seq<string>, value: string)
    requires Anchors(anchored, words, segments)
    ensures Near(value, words, segments) <==>
            exists i, a :: 0 <= i < |anchored| && a in anchored[i].1 && TokenBounded(value, Window(anchored[i].0, a), 0).Some?
    ensures Named(words, segments) <==> anchored != []
  {
    if i, a :| 0 <= i < |segments| && Beside(value, words, segments[i], a) {
      var k :| 0 <= k < |anchored| && anchored[k].0 == segments[i];
      assert a in anchored[k].1;
    }
    if i, a :| 0 <= i < |anchored| && a in anchored[i].1 && TokenBounded(value, Window(anchored[i].0, a), 0).Some? {
      var j :| 0 <= j < |segments| && segments[j] == anchored[i].0;
      assert Beside(value, words, segments[j], a);
    }
    if anchored != [] {
      var j :| 0 <= j < |segments| && segments[j] == anchored[0].0;
      assert anchored[0].1[0] in anchored[0].1;
      assert IsAnchor(words, segments[j], anchored[0].1[0]);
    }
  }

  method NearName(value: string, words: seq<string>, segments: seq<string>, anchored: Anchored) returns (near: bool)
    requires Anchors(anchored, words, segments)
    ensures near <==> Near(value, words, segments)
  {
    near := InNameWindow(value, anchored);
    AnchoredNear(anchored, words, segments, value);
  }

  method OnAnySegment(value: string, segments: seq<string>) returns (yes: bool)
    ensures yes <==> OnSome(value, segments)
  {
    for i := 0 to |segments|
      invariant forall k :: 0 <= k < i ==> TokenBounded(value, segments[k], 0).None?
    {
      if TokenBounded(value, segments[i], 0).Some? { return true; }
    }
    return false;
  }

  method GroundProfile(n: Norms, p: Profile, page: Page) returns (out: Option<Profile>)
    ensures out == Grounded(n, p, page)
  {
    var words, segments := n.words(p.name), Segments(n, page);
    var anchored := AnchorSegments(words, segments);
    AnchoredNear(anchored, words, segments, "");
    if anchored == [] { return None; }
    if TokenBounded(Surname(words), n.norm(p.quote), 0).None? { return None; }
    var titled := NearName(n.norm(p.title), words, segments, anchored);
    var employed := NearName(n.norm(p.firm), words, segments, anchored);
    var located := TokenBounded(n.norm(p.location), n.norm(page.excerpt), 0).Some?;
    var linked := OnAnySegment(n.handle(p.linkedin), segments);
    return Some(Reduced(p, titled, employed, located, n.handle(p.linkedin) != "" && linked));
  }

  // ---- What survives is on the page ----

  /** Half a window of an anchor of the name, in one segment, holds the text; its edges are
      token boundaries of the segment except where the window itself was cut. */
  ghost predicate StandsBeside(value: string, words: seq<string>, segment: string, a: Span, p: nat) {
    && IsAnchor(words, segment, a)
    && value != "" && OccursAt(value, segment, p)
    && a.0 <= p + 150 && p + |value| <= a.1 + 150
    && (OpenLeft(segment, p) || p + 150 == a.0)
    && (OpenRight(segment, p + |value|) || p + |value| == a.1 + 150)
  }

  lemma WindowPlace(value: string, segment: string, a: Span, q: nat)
    requires WindowFrom(a) <= Min(|segment|, a.1 + HALF)
    ensures var p := WindowFrom(a) + q;
            Bounded(value, Window(segment, a), q) <==>
            && value != "" && OccursAt(value, segment, p) && p + |value| <= a.1 + HALF
            && (OpenLeft(segment, p) || q == 0) && (OpenRight(segment, p + |value|) || p + |value| == a.1 + HALF)
  {
    CutPlace(value, segment, WindowFrom(a), Min(|segment|, a.1 + HALF), q);
  }

  /** A text is token-bounded in a piece cut out of a segment when it is in the segment, but
      for the edges of the piece. */
  lemma CutPlace(value: string, segment: string, low: nat, high: nat, q: nat)
    requires low <= high <= |segment|
    ensures Bounded(value, segment[low..high], q) <==>
            && value != "" && low + q + |value| <= high && OccursAt(value, segment, low + q)
            && (OpenLeft(segment, low + q) || q == 0) && (OpenRight(segment, low + q + |value|) || low + q + |value| == high)
  {
    var w := segment[low..high];
    if low + q + |value| <= high {
      CutCut(segment, low, high, q, q + |value|);
      assert q > 0 ==> w[q - 1] == segment[low + q - 1];
      assert q + |value| < |w| ==> w[q + |value|] == segment[low + q + |value|];
    }
  }

  lemma CutCut(s: string, low: nat, high: nat, i: nat, j: nat)
    requires low <= high <= |s| && i <= j <= high - low
    ensures s[low..high][i..j] == s[low + i..low + j]
  {
    var x, y := s[low..high][i..j], s[low + i..low + j];
    assert |x| == |y|;
    forall k | 0 <= k < j - i ensures x[k] == y[k] {
      assert s[low..high][i + k] == s[low + i + k];
    }
  }

  lemma AnchorInside(words: seq<string>, segment: string, a: Span)
    requires IsAnchor(words, segment, a)
    ensures a.0 < |segment| && a.0 < a.1
  {
    if |words| > 1 {
      var f: nat, l: nat :| Pairs(words, segment, a, f, l);
    }
  }

  /** Standing in the window is standing within half of it of an anchor, exactly. */
  lemma BesideIsClose(value: string, words: seq<string>, segment: string, a: Span)
    ensures Beside(value, words, segment, a) <==> exists p: nat :: StandsBeside(value, words, segment, a, p)
  {
    if Beside(value, words, segment, a) {
      AnchorInside(words, segment, a);
      var q := TokenBounded(value, Window(segment, a), 0).value;
      WindowPlace(value, segment, a, q);
      assert StandsBeside(value, words, segment, a, WindowFrom(a) + q);
    }
    if p: nat :| StandsBeside(value, words, segment, a, p) {
      ClosesIsBeside(value, words, segment, a, p);
    }
  }

  lemma ClosesIsBeside(value: string, words: seq<string>, segment: string, a: Span, p: nat)
    requires StandsBeside(value, words, segment, a, p)
    ensures Beside(value, words, segment, a)
  {
    AnchorInside(words, segment, a);
    WindowPlace(value, segment, a, p - WindowFrom(a));
  }

  // ---- A title cut out of a longer word ----

  /** Plain words, one space apart: text the normalization leaves as it is. */
  predicate Collapsed(s: string) {
    && (forall i :: 0 <= i < |s| ==> Alnum(s[i]) || s[i] == ' ')
    && (forall i :: 0 <= i < |s| - 1 ==> !(s[i] == ' ' == s[i + 1]))
    && (s != "" ==> s[0] != ' ' && s[|s| - 1] != ' ')
  }

  ghost predicate LeavesCollapsed(n: Norms) {
    && (forall s: string :: Collapsed(s) ==> n.norm(s) == s)
    && (forall s: string :: s != "" && Collapsed(s) && ' ' !in s ==> n.words(s) == [s])
  }

  const FILLER: string := seq(HALF - 9, i => 'y')

  /** A page where the title stands only inside a longer word, half a window before the name. */
  const CUT_PAGE := "xpartner " + FILLER + " ann"

  lemma CutPageReads()
    ensures |CUT_PAGE| == HALF + 4
    ensures forall p :: 0 <= p < HALF + 4 ==>
              CUT_PAGE[p] == if p < 9 then "xpartner "[p] else if p < HALF then 'y' else " ann"[p - HALF]
  {
  }

  lemma CutPageCollapsed()
    ensures Collapsed(CUT_PAGE)
  {
    CutPageReads();
  }

  /** The title is nowhere a word of the page, yet it is beside the name. */
  lemma CutTitleIsBeside()
    ensures Beside("partner", ["ann"], CUT_PAGE, (HALF + 1, HALF + 4)) && TokenBounded("partner", CUT_PAGE, 0).None?
  {
    var a: Span := (HALF + 1, HALF + 4);
    CutPageReads();
    assert CUT_PAGE[HALF + 1..HALF + 4] == "ann";
    assert Bounded("ann", CUT_PAGE, HALF + 1);
    assert CUT_PAGE[1..8] == "partner";
    assert StandsBeside("partner", ["ann"], CUT_PAGE, a, 1);
    BesideIsClose("partner", ["ann"], CUT_PAGE, a);
    forall p: nat ensures !Bounded("partner", CUT_PAGE, p) {
      if OccursAt("partner", CUT_PAGE, p) {
        assert CUT_PAGE[p] == CUT_PAGE[p..p + 7][0] == 'p';
      }
    }
  }

  lemma CutSegment(n: Norms)
    requires LeavesCollapsed(n)
    ensures Segments(n, Page(CUT_PAGE, [])) == [CUT_PAGE]
  {
    CutPageReads();
    CutPageCollapsed();
    var parts := [n.norm(CUT_PAGE)];
    assert parts == [CUT_PAGE] && parts[..0] == [];
    assert NonEmpty(parts) == [CUT_PAGE];
    assert Segments(n, Page(CUT_PAGE, [])) == NonEmpty(parts);
  }

  lemma CutClaim(n: Norms)
    requires LeavesCollapsed(n)
    ensures n.norm("partner") == "partner" && n.norm("ann") == "ann" && n.words("ann") == ["ann"]
  {
    assert Collapsed("partner") && Collapsed("ann");
  }

  lemma CutTitleIsNear()
    ensures Named(["ann"], [CUT_PAGE]) && Near("partner", ["ann"], [CUT_PAGE])
  {
    CutTitleIsBeside();
    assert Beside("partner", ["ann"], [CUT_PAGE][0], (HALF + 1, HALF + 4));
    assert IsAnchor(["ann"], [CUT_PAGE][0], (HALF + 1, HALF + 4));
  }

  /** Whatever the normalization does to other text, grounding keeps the title, though it is
      nowhere a word of the page. */
  lemma CutTitleIsKept(n: Norms)
    requires LeavesCollapsed(n)
    ensures var claim := Profile("ann", "partner", "", "", "", "ann");
            Grounded(n, claim, Page(CUT_PAGE, [])) == Some(claim) && TokenBounded("partner", CUT_PAGE, 0).None?
  {
    CutSegment(n);
    CutClaim(n);
    CutTitleIsNear();
    CutTitleIsBeside();
    TitleKept(n, Profile("ann", "partner", "", "", "", "ann"), Page(CUT_PAGE, []), [CUT_PAGE], ["ann"]);
  }

  lemma TitleKept(n: Norms, p: Profile, page: Page, segments: seq<string>, words: seq<string>)
    requires segments == Segments(n, page) && words == n.words(p.name) == [n.norm(p.quote)] && words[0] != ""
    requires Named(words, segments) && Near(n.norm(p.title), words, segments)
    requires p.firm == p.location == p.linkedin == ""
    ensures Grounded(n, p, page) == Some(p)
  {
    assert Bounded(words[0], n.norm(p.quote), 0);
  }

  /** Everything a grounded record still says is on the page: the name anchored and its surname
      in the quote, title and firm beside an anchor in one segment, location and handle
      token-bounded on the page; and it says nothing that was not claimed. */
  lemma GroundingIsSound(n: Norms, p: Profile, page: Page, g: Profile)
    requires Grounded(n, p, page) == Some(g)
    ensures Named(n.words(g.name), Segments(n, page)) && TokenBounded(Surname(n.words(g.name)), n.norm(g.quote), 0).Some?
    ensures forall v :: v in {g.title, g.firm} && v != "" ==>
              exists i, a, at: nat :: 0 <= i < |Segments(n, page)| && StandsBeside(n.norm(v), n.words(g.name), Segments(n, page)[i], a, at)
    ensures g.location != "" ==> exists at: nat :: Bounded(n.norm(g.location), n.norm(page.excerpt), at)
    ensures g.linkedin != "" ==> OnSome(n.handle(g.linkedin), Segments(n, page))
    ensures g.name == p.name && g.quote == p.quote && g.title in {p.title, ""} && g.firm in {p.firm, ""}
    ensures g.location in {p.location, ""} && g.linkedin in {p.linkedin, ""}
  {
    var words, segments := n.words(p.name), Segments(n, page);
    forall v | v in {g.title, g.firm} && v != ""
      ensures exists i, a, at: nat :: 0 <= i < |segments| && StandsBeside(n.norm(v), words, segments[i], a, at)
    {
      var i, a :| 0 <= i < |segments| && Beside(n.norm(v), words, segments[i], a);
      BesideIsClose(n.norm(v), words, segments[i], a);
      var at: nat :| StandsBeside(n.norm(v), words, segments[i], a, at);
    }
  }

  /** Grounding a grounded record again changes nothing. */
  lemma GroundingIsIdempotent(n: Norms, p: Profile, page: Page, g: Profile)
    requires Grounded(n, p, page) == Some(g)
    ensures Grounded(n, g, page) == Some(g)
  {
  }

  // ---- The extractor, and the second pass over what it returned ----

  ghost predicate QuoteGrounded(n: Norms, quote: string, page: Page) {
    n.norm(quote) != "" && exists i, at: nat :: 0 <= i < |Segments(n, page)| && OccursAt(n.norm(quote), Segments(n, page)[i], at)
  }

  /** Of the claims a model made, the people the page supports. */
  ghost function Extracted(n: Norms, claims: seq<Profile>, page: Page): seq<Profile> {
    if claims == [] then []
    else
      var c := claims[|claims| - 1];
      Extracted(n, claims[..|claims| - 1], page)
      + if c.name != "" && QuoteGrounded(n, c.quote, page) && Grounded(n, c, page).Some? then [Grounded(n, c, page).value] else []
  }

  /** The second pass: what is grounded again, and how many fall. */
  ghost function Regrounded(n: Norms, people: seq<Profile>, page: Page): seq<Profile> {
    if people == [] then []
    else
      var g := Grounded(n, people[|people| - 1], page);
      Regrounded(n, people[..|people| - 1], page) + if g.Some? then [g.value] else []
  }

  ghost function Fabricated(n: Norms, people: seq<Profile>, page: Page): nat {
    if people == [] then 0
    else Fabricated(n, people[..|people| - 1], page) + if Grounded(n, people[|people| - 1], page).None? then 1 else 0
  }

  /** The second pass keeps, or counts as fabricated, one person more. */
  lemma RegroundOneMore(n: Norms, people: seq<Profile>, p: Profile, page: Page)
    ensures Regrounded(n, [], page) == [] && Fabricated(n, [], page) == 0
    ensures var kept, fabricated := Regrounded(n, people, page), Fabricated(n, people, page);
            if NamedOn(n, p, page) && Attributed(n, p) then
              && Grounded(n, p, page).Some? && SupportedPart(n, p, page, Grounded(n, p, page).value)
              && Regrounded(n, people + [p], page) == kept + [Grounded(n, p, page).value]
              && Fabricated(n, people + [p], page) == fabricated
            else Regrounded(n, people + [p], page) == kept && Fabricated(n, people + [p], page) == fabricated + 1
  {
    assert (people + [p])[..|people|] == people;
    GroundedExactly(n, p, page);
  }

  /** Nobody the extractor kept is dropped or changed by the second pass. */
  lemma {:induction false} RegroundingDropsNobody(n: Norms, claims: seq<Profile>, page: Page)
    ensures var people := Extracted(n, claims, page);
            Regrounded(n, people, page) == people && Fabricated(n, people, page) == 0
  {
    if claims != [] {
      var m := |claims| - 1;
      var c, before := claims[m], Extracted(n, claims[..m], page);
      RegroundingDropsNobody(n, claims[..m], page);
      if c.name != "" && QuoteGrounded(n, c.quote, page) && Grounded(n, c, page).Some? {
        GroundingIsIdempotent(n, c, page, Grounded(n, c, page).value);
        assert (before + [Grounded(n, c, page).value])[..|before|] == before;
      } else {
        assert Extracted(n, claims, page) == before;
      }
    }
  }

  lemma {:induction false} NonEmptyHas(parts: seq<string>, s: string)
    ensures s in NonEmpty(parts) <==> s != "" && s in parts
  {
    if parts != [] {
      NonEmptyHas(parts[..|parts| - 1], s);
      assert parts == parts[..|parts| - 1] + [parts[|parts| - 1]];
    }
  }

  /** A page is searched in its excerpt and in each highlight apart, normalized. */
  lemma SegmentsAre(n: Norms, page: Page, s: string)
    ensures s in Segments(n, page) <==>
              s != "" && (s == n.norm(page.excerpt) || exists i :: 0 <= i < |page.highlights| && s == n.norm(page.highlights[i]))
  {
    var parts := seq(|page.highlights| + 1, i requires 0 <= i <= |page.highlights| =>
      n.norm(if i == 0 then page.excerpt else page.highlights[i - 1]));
    NonEmptyHas(parts, s);
    if s in parts {
      var i :| 0 <= i < |parts| && parts[i] == s;
      assert i > 0 ==> s == n.norm(page.highlights[i - 1]);
    }
    if s == n.norm(page.excerpt) { assert parts[0] == s; }
    if i :| 0 <= i < |page.highlights| && s == n.norm(page.highlights[i]) { assert parts[i + 1] == s; }
  }

  /** The page names the person: some part of it anchors the name. */
  ghost predicate NamedOn(n: Norms, c: Profile, page: Page) {
    exists s, a :: s in Segments(n, page) && IsAnchor(n.words(c.name), s, a)
  }

  ghost predicate CarriesWord(text: string, word: string) { exists at: nat :: Bounded(word, text, at) }

  /** The person's surname stands, as a word, in the quote the claim rests on. */
  ghost predicate Attributed(n: Norms, c: Profile) {
    var words := n.words(c.name);
    words != [] && CarriesWord(n.norm(c.quote), words[|words| - 1])
  }

  /** The quote is not empty, and one part of the page holds it. */
  ghost predicate Quoted(n: Norms, c: Profile, page: Page) {
    n.norm(c.quote) != "" && exists s, at: nat :: s in Segments(n, page) && OccursAt(n.norm(c.quote), s, at)
  }

  ghost predicate NearTheName(n: Norms, c: Profile, page: Page, value: string) {
    exists s, a, at: nat :: s in Segments(n, page) && StandsBeside(n.norm(value), n.words(c.name), s, a, at)
  }

  /** The claim with exactly the fields the page supports: a title or a firm beside the name, a
      location anywhere in the excerpt, a handle anywhere on the page. */
  ghost predicate SupportedPart(n: Norms, c: Profile, page: Page, g: Profile) {
    && g.name == c.name && g.quote == c.quote
    && g.title == (if NearTheName(n, c, page, c.title) then c.title else "")
    && g.firm == (if NearTheName(n, c, page, c.firm) then c.firm else "")
    && g.location == (if exists at: nat :: Bounded(n.norm(c.location), n.norm(page.excerpt), at) then c.location else "")
    && g.linkedin == (if n.handle(c.linkedin) != "" && exists s, at: nat :: s in Segments(n, page) && Bounded(n.handle(c.linkedin), s, at)
                      then c.linkedin else "")
  }

  lemma NearIsNearTheName(n: Norms, c: Profile, page: Page, value: string)
    ensures Near(n.norm(value), n.words(c.name), Segments(n, page)) <==> NearTheName(n, c, page, value)
  {
    var v, words, segments := n.norm(value), n.words(c.name), Segments(n, page);
    if i, a :| 0 <= i < |segments| && Beside(v, words, segments[i], a) {
      BesideIsClose(v, words, segments[i], a);
      var at: nat :| StandsBeside(v, words, segments[i], a, at);
      assert segments[i] in segments;
    }
    if s, a, at: nat :| s in segments && StandsBeside(v, words, s, a, at) {
      BesideIsClose(v, words, s, a);
      var i :| 0 <= i < |segments| && segments[i] == s;
      assert Beside(v, words, segments[i], a);
    }
  }

  /** Grounding keeps a claim exactly when the page names the person and the quote carries the
      surname, and then leaves exactly what the page supports. */
  lemma GroundedExactly(n: Norms, c: Profile, page: Page)
    ensures Grounded(n, c, page).Some? <==> NamedOn(n, c, page) && Attributed(n, c)
    ensures Grounded(n, c, page).Some? ==> SupportedPart(n, c, page, Grounded(n, c, page).value)
  {
    var words, segments := n.words(c.name), Segments(n, page);
    NearIsNearTheName(n, c, page, c.title);
    NearIsNearTheName(n, c, page, c.firm);
    assert Named(words, segments) <==> NamedOn(n, c, page) by {
      if i, a :| 0 <= i < |segments| && IsAnchor(words, segments[i], a) { assert segments[i] in segments; }
      if s, a :| s in segments && IsAnchor(words, s, a) { var i :| 0 <= i < |segments| && segments[i] == s; }
    }
    OnSomeIs(n.handle(c.linkedin), segments);
  }

  lemma OnSomeIs(value: string, segments: seq<string>)
    ensures OnSome(value, segments) <==> exists s, at: nat :: s in segments && Bounded(value, s, at)
  {
    if i :| 0 <= i < |segments| && TokenBounded(value, segments[i], 0).Some? {
      assert segments[i] in segments && Bounded(value, segments[i], TokenBounded(value, segments[i], 0).value);
    }
    if s, at: nat :| s in segments && Bounded(value, s, at) {
      var i :| 0 <= i < |segments| && segments[i] == s;
      assert TokenBounded(value, segments[i], 0).Some?;
    }
  }

  /** A claim the extractor keeps. */
  ghost predicate Keepable(n: Norms, c: Profile, page: Page) {
    c.name != "" && Quoted(n, c, page) && NamedOn(n, c, page) && Attributed(n, c)
  }

  lemma QuotedIs(n: Norms, c: Profile, page: Page)
    ensures QuoteGrounded(n, c.quote, page) <==> Quoted(n, c, page)
  {
    var segments := Segments(n, page);
    if QuoteGrounded(n, c.quote, page) {
      var i, at: nat :| 0 <= i < |segments| && OccursAt(n.norm(c.quote), segments[i], at);
      assert segments[i] in segments;
    }
    if Quoted(n, c, page) {
      var s, at: nat :| s in segments && OccursAt(n.norm(c.quote), s, at);
      var i :| 0 <= i < |segments| && segments[i] == s;
    }
  }

  /** The people stand, one for one and in order, for the claims to keep, each reduced to what the
      page supports of it. */
  ghost predicate StandFor(n: Norms, claims: seq<Profile>, page: Page, people: seq<Profile>) {
    if claims == [] then people == []
    else
      var before, c := claims[..|claims| - 1], claims[|claims| - 1];
      if Keepable(n, c, page) then
        && people != [] && SupportedPart(n, c, page, people[|people| - 1])
        && StandFor(n, before, page, people[..|people| - 1])
      else StandFor(n, before, page, people)
  }

  /** The people returned stand for exactly the claims that name somebody, are quoted from the page
      and are anchored on it. */
  lemma {:induction false} ExtractionIsExact(n: Norms, claims: seq<Profile>, page: Page)
    ensures StandFor(n, claims, page, Extracted(n, claims, page))
  {
    if claims != [] {
      var m := |claims| - 1;
      var before := Extracted(n, claims[..m], page);
      ExtractionIsExact(n, claims[..m], page);
      var keeps := KeepsClaim(n, claims[m], page);
      if keeps {
        assert (before + [Grounded(n, claims[m], page).value])[..|before|] == before;
      } else {
        assert Extracted(n, claims, page) == before;
      }
    }
  }

  lemma KeepsClaim(n: Norms, c: Profile, page: Page) returns (yes: bool)
    ensures yes <==> Keepable(n, c, page)
    ensures yes <==> c.name != "" && QuoteGrounded(n, c.quote, page) && Grounded(n, c, page).Some?
    ensures yes ==> SupportedPart(n, c, page, Grounded(n, c, page).value)
  {
    GroundedExactly(n, c, page);
    QuotedIs(n, c, page);
    yes := Keepable(n, c, page);
  }


  predicate SomeOccurrence(needle: string, hay: string, from: nat)
    decreases |hay| - from
  {
    from + |needle| <= |hay| && (OccursAt(needle, hay, from) || SomeOccurrence(needle, hay, from + 1))
  }

  lemma {:induction false} SomeOccurrenceIs(needle: string, hay: string, from: nat)
    ensures SomeOccurrence(needle, hay, from) <==> exists at: nat :: from <= at && OccursAt(needle, hay, at)
    decreases |hay| - from
  {
    if from + |needle| <= |hay| && !OccursAt(needle, hay, from) {
      SomeOccurrenceIs(needle, hay, from + 1);
    }
  }

  method QuoteIsGrounded(n: Norms, quote: string, page: Page) returns (yes: bool)
    ensures yes <==> QuoteGrounded(n, quote, page)
  {
    var normalized, segments := n.norm(quote), Segments(n, page);
    if normalized == "" { return false; }
    for i := 0 to |segments|
      invariant forall k, at: nat :: 0 <= k < i ==> !OccursAt(normalized, segments[k], at)
    {
      SomeOccurrenceIs(normalized, segments[i], 0);
      if SomeOccurrence(normalized, segments[i], 0) { return true; }
    }
    return false;
  }

  method ExtractPeople(n: Norms, claims: seq<Profile>, page: Page) returns (people: seq<Profile>)
    ensures people == Extracted(n, claims, page)
  {
    people := [];
    for i := 0 to |claims|
      invariant people == Extracted(n, claims[..i], page)
    {
      assert claims[..i + 1][..i] == claims[..i];
      if claims[i].name != "" {
        var quoted := QuoteIsGrounded(n, claims[i].quote, page);
        if quoted {
          var g := GroundProfile(n, claims[i], page);
          if g.Some? { people := people + [g.value]; }
        }
      }
    }
    assert claims[..|claims|] == claims;
  }

  method Reground(n: Norms, people: seq<Profile>, page: Page) returns (kept: seq<Profile>, fabricated: nat)
    ensures kept == Regrounded(n, people, page) && fabricated == Fabricated(n, people, page)
  {
    kept, fabricated := [], 0;
    for i := 0 to |people|
      invariant kept == Regrounded(n, people[..i], page) && fabricated == Fabricated(n, people[..i], page)
    {
      assert people[..i + 1][..i] == people[..i];
      var g := GroundProfile(n, people[i], page);
      if g.None? {
        fabricated := fabricated + 1;
      } else {
        kept := kept + [g.value];
      }
    }
    assert people[..|people|] == people;
  }
}
