/** The Experience section of a rendered profile: position blocks in two shapes, and what of
    each block is the person's. */
module Experience {
  import opened Wrappers

  /** A cleaned line of a position's body.  A text is what is left of the line once its list
      marker and leading markup are gone, "" when no word is left. */
  datatype BodyLine =
    | Dates(start: string, end: string, duration: string, location: string)
    | Bullet(text: string)
    | Meta(department: Option<string>, level: Option<string>)
    | Prose(text: string, blurbShaped: bool)

  datatype Line =
    | Blank
    | Position(title: string, company: string, url: string, current: bool)
    | Group(company: string, url: string)
    | Nested(title: string, current: bool)
    | Body(line: BodyLine)

  datatype Experience = Experience(
    title: string, company: string, url: string, start: string, end: string, isCurrent: bool,
    duration: string, location: string, bullets: seq<string>, department: string, level: string)

  const BULLETS_PER_POSITION_MAX := 12

  function Fresh(title: string, company: string, url: string, current: bool): Experience {
    Experience(title, company, url, "", "", current, "", "", [], "", "")
  }

  // ---- One block ----

  /** The date token admits no other spelling. */
  predicate IsPresent(end: string) { end == "Present" || end == "present" }

  function Or(o: Option<string>, s: string): string { if o.Some? then o.value else s }

  /** What an owned line does to its position. */
  function Take(e: Experience, line: BodyLine): Experience {
    match line
    case Dates(s, t, d, l) => e.(start := s, end := t, duration := d, location := l, isCurrent := IsPresent(t))
    case Meta(d, l) => e.(department := Or(d, e.department), level := Or(l, e.level))
    case Bullet(t) => Keep(e, t)
    case Prose(t, _) => Keep(e, t)
  }

  function Keep(e: Experience, text: string): Experience {
    if text != "" && |e.bullets| < BULLETS_PER_POSITION_MAX then e.(bullets := e.bullets + [text]) else e
  }

  function TakeAll(e: Experience, lines: seq<BodyLine>): Experience {
    if lines == [] then e else Take(TakeAll(e, lines[..|lines| - 1]), lines[|lines| - 1])
  }

  datatype Mark = MetaLine | FirmLine | Blurb

  /** A firm line follows the meta line and is not the person's; a blurb is told by its shape. */
  predicate Is(line: BodyLine, mark: Mark) {
    match mark
    case MetaLine => line.Meta?
    case FirmLine => line.Prose? || (line.Meta? && line.department.None? && line.level.None?)
    case Blurb => line.Prose? && line.blurbShaped
  }

  /** The first such line from a position on, or the end. */
  function Next(lines: seq<BodyLine>, mark: Mark, from: nat): (at: nat)
    requires from <= |lines|
    ensures from <= at <= |lines| && (at < |lines| ==> Is(lines[at], mark))
    ensures forall i :: from <= i < at ==> !Is(lines[i], mark)
    decreases |lines| - from
  {
    if from == |lines| || Is(lines[from], mark) then from else Next(lines, mark, from + 1)
  }

  /** Where the block closes: after the meta line, at the first line of the firm's; with no
      meta line, at the first blurb. */
  function Close(lines: seq<BodyLine>): (at: nat)
    ensures at <= |lines|
  {
    var meta := Next(lines, MetaLine, 0);
    if meta < |lines| then Next(lines, FirmLine, meta) else Next(lines, Blurb, 0)
  }

  function Filled(e: Experience, lines: seq<BodyLine>): Experience { TakeAll(e, lines[..Close(lines)]) }

  method FindMeta(lines: seq<BodyLine>) returns (at: nat)
    ensures at == Next(lines, MetaLine, 0)
  {
    at := 0;
    while at < |lines| && !lines[at].Meta?
      invariant at <= |lines|
      invariant Next(lines, MetaLine, 0) == Next(lines, MetaLine, at)
    {
      at := at + 1;
    }
  }

  /** The first loop: the lines before the meta line, or, without one, up to the first blurb. */
  method TakeDescribed(e: Experience, lines: seq<BodyLine>, metaAt: nat) returns (out: Experience)
    requires metaAt <= |lines| && forall i :: 0 <= i < metaAt ==> !lines[i].Meta?
    ensures out == TakeAll(e, lines[..if metaAt < |lines| then metaAt else Next(lines, Blurb, 0)])
  {
    out := e;
    for i := 0 to metaAt
      invariant out == TakeAll(e, lines[..i])
      invariant metaAt == |lines| ==> Next(lines, Blurb, 0) == Next(lines, Blurb, i)
    {
      TakeOneMore(e, lines, i);
      var line := lines[i];
      if line.Dates? {
        out := Take(out, line);
      } else if metaAt == |lines| && line.Prose? && line.blurbShaped {
        return;
      } else {
        out := Keep(out, line.text);
      }
    }
  }

  lemma TakeOneMore(e: Experience, lines: seq<BodyLine>, i: nat)
    requires i < |lines|
    ensures TakeAll(e, lines[..i + 1]) == Take(TakeAll(e, lines[..i]), lines[i])
  {
    assert lines[..i + 1][..i] == lines[..i];
  }

  /** The second: from the meta line to the first line of the firm's. */
  method TakeSeat(e: Experience, lines: seq<BodyLine>, metaAt: nat, described: Experience) returns (out: Experience)
    requires metaAt <= |lines| && described == TakeAll(e, lines[..metaAt])
    ensures out == TakeAll(e, lines[..Next(lines, FirmLine, metaAt)])
  {
    out := described;
    for i := metaAt to |lines|
      invariant out == TakeAll(e, lines[..i])
      invariant Next(lines, FirmLine, metaAt) == Next(lines, FirmLine, i)
    {
      TakeOneMore(e, lines, i);
      var line := lines[i];
      if line.Dates? || line.Bullet? {
        out := Take(out, line);
      } else if line.Meta? && (line.department.Some? || line.level.Some?) {
        out := Take(out, line);
      } else {
        return;
      }
    }
  }

  method FillPosition(e: Experience, lines: seq<BodyLine>) returns (out: Experience)
    ensures out == Filled(e, lines)
  {
    var metaAt := FindMeta(lines);
    out := TakeDescribed(e, lines, metaAt);
    if metaAt < |lines| {
      out := TakeSeat(e, lines, metaAt, out);
    }
  }

  // ---- The section ----

  /** A position with the lines it owns; `at` is where its heading stands among the lines that
      are not blank. */
  datatype Block = Block(head: Experience, at: nat, body: seq<BodyLine>)

  /** `open` says whether body lines have an owner: the last block. */
  datatype State = State(blocks: seq<Block>, open: bool, company: string, url: string, read: nat)

  const START := State([], false, "", "", 0)

  function Step(s: State, line: Line): State {
    match line
    case Blank => s
    case Position(t, c, u, cur) => State(s.blocks + [Block(Fresh(t, c, u, cur), s.read, [])], true, "", "", s.read + 1)
    case Nested(t, cur) => State(s.blocks + [Block(Fresh(t, s.company, s.url, cur), s.read, [])], true, s.company, s.url, s.read + 1)
    case Group(c, u) => State(s.blocks, false, c, u, s.read + 1)
    case Body(b) => if s.open then Own(s, b) else s.(read := s.read + 1)
  }

  function Own(s: State, b: BodyLine): State {
    if s.blocks == [] then s.(read := s.read + 1)
    else
      var n := |s.blocks| - 1;
      s.(blocks := s.blocks[n := s.blocks[n].(body := s.blocks[n].body + [b])], read := s.read + 1)
  }

  function Run(s: State, lines: seq<Line>): State {
    if lines == [] then s else Step(Run(s, lines[..|lines| - 1]), lines[|lines| - 1])
  }

  function FillAll(blocks: seq<Block>): (es: seq<Experience>)
    ensures |es| == |blocks|
    ensures forall i :: 0 <= i < |es| ==> es[i] == Filled(blocks[i].head, blocks[i].body)
  {
    if blocks == [] then []
    else
      var n := |blocks| - 1;
      FillAll(blocks[..n]) + [Filled(blocks[n].head, blocks[n].body)]
  }

  function Parsed(lines: seq<Line>): seq<Experience> { FillAll(Run(START, lines).blocks) }

  method ParseExperience(lines: seq<Line>) returns (out: seq<Experience>)
    ensures out == Parsed(lines)
  {
    var heads: seq<Experience>, bodies: seq<seq<BodyLine>> := [], [];
    var open, company, url := false, "", "";
    for i := 0 to |lines|
      invariant |heads| == |bodies| && (open ==> heads != [])
      invariant var s := Run(START, lines[..i]);
                && |s.blocks| == |heads| && s.open == open && s.company == company && s.url == url
                && forall b :: 0 <= b < |heads| ==> s.blocks[b].head == heads[b] && s.blocks[b].body == bodies[b]
    {
      assert lines[..i + 1][..i] == lines[..i];
      match lines[i]
      case Blank =>
      case Position(t, c, u, cur) =>
        company, url := "", "";
        heads, bodies, open := heads + [Fresh(t, c, u, cur)], bodies + [[]], true;
      case Nested(t, cur) =>
        heads, bodies, open := heads + [Fresh(t, company, url, cur)], bodies + [[]], true;
      case Group(c, u) =>
        company, url, open := c, u, false;
      case Body(b) =>
        if open {
          var n := |bodies| - 1;
          bodies := bodies[n := bodies[n] + [b]];
        }
    }
    assert lines[..|lines|] == lines;
    out := [];
    for i := 0 to |heads|
      invariant |out| == i
      invariant forall k :: 0 <= k < i ==> out[k] == Filled(heads[k], bodies[k])
    {
      var e := FillPosition(heads[i], bodies[i]);
      out := out + [e];
    }
  }

  // ---- Who owns a line ----

  function NonBlank(lines: seq<Line>): seq<Line> {
    if lines == [] then []
    else NonBlank(lines[..|lines| - 1]) + if lines[|lines| - 1].Blank? then [] else [lines[|lines| - 1]]
  }

  function BlockEnd(b: Block): nat { b.at + 1 + |b.body| }

  /** The blocks stand in page order, one after the other, each a heading followed by exactly
      the lines of its body: no line has two owners. */
  ghost predicate Owned(blocks: seq<Block>, page: seq<Line>) {
    && (forall b :: 0 <= b < |blocks| ==>
          && BlockEnd(blocks[b]) <= |page|
          && (page[blocks[b].at].Position? || page[blocks[b].at].Nested?)
          && forall i :: 0 <= i < |blocks[b].body| ==> page[blocks[b].at + 1 + i] == Body(blocks[b].body[i]))
    && (forall b, c :: 0 <= b < c < |blocks| ==> BlockEnd(blocks[b]) <= blocks[c].at)
  }

  ghost predicate Reading(s: State, page: seq<Line>) {
    && Owned(s.blocks, page) && s.read == |page|
    && (s.open ==> s.blocks != [] && BlockEnd(s.blocks[|s.blocks| - 1]) == |page|)
  }

  lemma {:induction false} EachLineHasOneOwner(lines: seq<Line>)
    ensures Reading(Run(START, lines), NonBlank(lines))
  {
    if lines != [] {
      var n := |lines| - 1;
      EachLineHasOneOwner(lines[..n]);
      if !lines[n].Blank? {
        StepReads(Run(START, lines[..n]), NonBlank(lines[..n]), lines[n]);
      }
    }
  }

  lemma StepReads(s: State, page: seq<Line>, line: Line)
    requires Reading(s, page) && !line.Blank?
    ensures Reading(Step(s, line), page + [line])
  {
    StaysOwned(s.blocks, page, line);
    if line.Body? && s.open {
      var n := |s.blocks| - 1;
      GrowsLast(s.blocks[..n], s.blocks[n], page, line.line);
      assert s.blocks == s.blocks[..n] + [s.blocks[n]];
      OwnLast(s, s.blocks[..n], s.blocks[n], line.line);
    } else if line.Position? || line.Nested? {
      var t := Step(s, line);
      OpensBlock(s.blocks, t.blocks[|s.blocks|], page, line);
    }
  }

  lemma StaysOwned(blocks: seq<Block>, page: seq<Line>, line: Line)
    requires Owned(blocks, page)
    ensures Owned(blocks, page + [line])
  {
  }

  lemma OpensBlock(blocks: seq<Block>, b: Block, page: seq<Line>, line: Line)
    requires Owned(blocks, page) && b.at == |page| && b.body == [] && (line.Position? || line.Nested?)
    ensures Owned(blocks + [b], page + [line])
  {
    StaysOwned(blocks, page, line);
  }

  lemma GrowsLast(before: seq<Block>, last: Block, page: seq<Line>, b: BodyLine)
    requires Owned(before + [last], page) && BlockEnd(last) == |page|
    ensures Owned(before + [last.(body := last.body + [b])], page + [Body(b)])
  {
    var was, now := before + [last], before + [last.(body := last.body + [b])];
    var more := page + [Body(b)];
    assert forall k :: 0 <= k < |before| ==> now[k] == was[k] == before[k];
    assert was[|before|] == last;
    forall i | 0 <= i < |last.body| + 1 ensures more[last.at + 1 + i] == Body((last.body + [b])[i]) {
      if i < |last.body| { assert page[last.at + 1 + i] == Body(last.body[i]); }
    }
    forall k, c | 0 <= k < c < |now| ensures BlockEnd(now[k]) <= now[c].at {
      assert BlockEnd(was[k]) <= was[c].at;
    }
  }

  /** The firm a nested position belongs to: that of the nearest heading above that names one,
      unless a position of its own came in between. */
  function FirmAbove(page: seq<Line>): (string, string) {
    if page == [] then ("", "")
    else match page[|page| - 1]
         case Group(c, u) => (c, u)
         case Position(_, _, _, _) => ("", "")
         case _ => FirmAbove(page[..|page| - 1])
  }

  /** What a heading states, with nothing read under it yet. */
  function HeadAt(page: seq<Line>, at: nat): Experience
    requires at < |page|
  {
    match page[at]
    case Position(t, c, u, current) => Experience(t, c, u, "", "", current, "", "", [], "", "")
    case Nested(t, current) =>
      Experience(t, FirmAbove(page[..at]).0, FirmAbove(page[..at]).1, "", "", current, "", "", [], "", "")
    case _ => Experience("", "", "", "", "", false, "", "", [], "", "")
  }

  ghost predicate OpensAt(blocks: seq<Block>, at: nat) { exists b :: 0 <= b < |blocks| && blocks[b].at == at }

  /** Every heading of a position opens a block, which states that heading, and a block's lines
      run up to the next heading or the end of the page. */
  ghost predicate Complete(blocks: seq<Block>, page: seq<Line>) {
    && (forall i :: 0 <= i < |page| && (page[i].Position? || page[i].Nested?) ==> OpensAt(blocks, i))
    && (forall b :: 0 <= b < |blocks| ==>
          && BlockEnd(blocks[b]) <= |page| && blocks[b].head == HeadAt(page, blocks[b].at)
          && (BlockEnd(blocks[b]) < |page| ==> !page[BlockEnd(blocks[b])].Body?))
  }

  ghost predicate Scanned(s: State, page: seq<Line>) {
    && Complete(s.blocks, page) && FirmAbove(page) == (s.company, s.url)
    && (s.blocks != [] && BlockEnd(s.blocks[|s.blocks| - 1]) == |page| ==> s.open)
  }

  /** With `EachLineHasOneOwner`, this settles what is parsed of any page. */
  lemma {:induction false} EveryHeadingOpens(lines: seq<Line>)
    ensures Scanned(Run(START, lines), NonBlank(lines))
  {
    if lines != [] {
      var n := |lines| - 1;
      EveryHeadingOpens(lines[..n]);
      EachLineHasOneOwner(lines[..n]);
      if lines[n].Blank? {
        assert NonBlank(lines) == NonBlank(lines[..n]);
      } else {
        StepScans(Run(START, lines[..n]), NonBlank(lines[..n]), lines[n]);
      }
    }
  }

  lemma StepScans(s: State, page: seq<Line>, line: Line)
    requires Reading(s, page) && Scanned(s, page) && !line.Blank?
    ensures Scanned(Step(s, line), page + [line])
  {
    assert (page + [line])[..|page|] == page;
    if line.Body? && s.open && s.blocks != [] {
      var n := |s.blocks| - 1;
      assert s.blocks == s.blocks[..n] + [s.blocks[n]];
      OwnLast(s, s.blocks[..n], s.blocks[n], line.line);
      LastTakes(s.blocks[..n], s.blocks[n], page, line.line);
    } else if line.Position? || line.Nested? {
      HeadingScans(s, page, line);
    } else {
      StaysComplete(s.blocks, page, line);
    }
  }

  lemma HeadingScans(s: State, page: seq<Line>, line: Line)
    requires Complete(s.blocks, page) && FirmAbove(page) == (s.company, s.url) && s.read == |page|
    requires line.Position? || line.Nested?
    ensures Scanned(Step(s, line), page + [line])
  {
    assert (page + [line])[..|page|] == page;
    OpensOne(s.blocks, Step(s, line).blocks[|s.blocks|], page, line);
  }

  lemma HeadStays(page: seq<Line>, line: Line, at: nat)
    requires at < |page|
    ensures HeadAt(page + [line], at) == HeadAt(page, at)
  {
    assert (page + [line])[..at] == page[..at];
  }

  lemma StaysComplete(blocks: seq<Block>, page: seq<Line>, line: Line)
    requires Complete(blocks, page) && !line.Position? && !line.Nested?
    requires line.Body? ==> forall b :: 0 <= b < |blocks| ==> BlockEnd(blocks[b]) < |page|
    ensures Complete(blocks, page + [line])
  {
    forall b | 0 <= b < |blocks| ensures blocks[b].head == HeadAt(page + [line], blocks[b].at) {
      HeadStays(page, line, blocks[b].at);
    }
  }

  lemma OpensOne(blocks: seq<Block>, b: Block, page: seq<Line>, line: Line)
    requires Complete(blocks, page) && (line.Position? || line.Nested?)
    requires b.at == |page| && b.body == [] && b.head == HeadAt(page + [line], |page|)
    ensures Complete(blocks + [b], page + [line])
  {
    var more, now := page + [line], blocks + [b];
    forall i | 0 <= i < |more| && (more[i].Position? || more[i].Nested?) ensures OpensAt(now, i) {
      if i < |page| {
        assert page[i] == more[i];
        var c :| 0 <= c < |blocks| && blocks[c].at == i;
        assert now[c].at == i;
      } else {
        assert now[|blocks|].at == i;
      }
    }
    forall c | 0 <= c < |blocks| ensures now[c].head == HeadAt(more, now[c].at) { HeadStays(page, line, blocks[c].at); }
  }

  lemma LastTakes(before: seq<Block>, last: Block, page: seq<Line>, b: BodyLine)
    requires Complete(before + [last], page) && Owned(before + [last], page) && BlockEnd(last) == |page|
    ensures Complete(before + [last.(body := last.body + [b])], page + [Body(b)])
  {
    var was, now, more := before + [last], before + [last.(body := last.body + [b])], page + [Body(b)];
    assert was[|before|] == last;
    assert forall k :: 0 <= k < |before| ==> now[k] == was[k] == before[k];
    forall i | 0 <= i < |more| && (more[i].Position? || more[i].Nested?) ensures OpensAt(now, i) {
      assert page[i] == more[i];
      var c :| 0 <= c < |was| && was[c].at == i;
      assert now[c].at == i;
    }
    forall c | 0 <= c < |now| ensures BlockEnd(now[c]) <= |more| && now[c].head == HeadAt(more, now[c].at)
                                   && (BlockEnd(now[c]) < |more| ==> !more[BlockEnd(now[c])].Body?) {
      assert BlockEnd(was[c]) <= |page| && now[c].head == was[c].head == HeadAt(page, was[c].at);
      HeadStays(page, Body(b), was[c].at);
      if c < |before| { assert BlockEnd(was[c]) <= was[|before|].at < |page|; }
    }
  }

  /** Blank lines change nothing. */
  lemma {:induction false} BlanksIgnored(lines: seq<Line>)
    ensures Run(START, lines) == Run(START, NonBlank(lines)) && Parsed(lines) == Parsed(NonBlank(lines))
  {
    if lines != [] {
      var n := |lines| - 1;
      BlanksIgnored(lines[..n]);
      if lines[n].Blank? {
        assert NonBlank(lines) == NonBlank(lines[..n]);
      } else {
        RunConcat(START, NonBlank(lines[..n]), [lines[n]]);
        RunOne(Run(START, NonBlank(lines[..n])), lines[n]);
      }
    }
  }

  /** Nothing after the closing line reaches the person: it may be cut away, or replaced by
      anything that brings no meta line to a block without one. */
  lemma NothingAfterTheClose(e: Experience, lines: seq<BodyLine>, other: seq<BodyLine>)
    requires Close(lines) < |lines|
    requires Next(lines, MetaLine, 0) == |lines| ==> forall i :: 0 <= i < |other| ==> !other[i].Meta?
    ensures Filled(e, lines[..Close(lines) + 1] + other) == Filled(e, lines)
  {
    var c := Close(lines);
    var swapped := lines[..c + 1] + other;
    SwapTail(lines, other, swapped, c);
    SameClose(lines, swapped, c);
  }

  lemma SwapTail(lines: seq<BodyLine>, other: seq<BodyLine>, swapped: seq<BodyLine>, c: nat)
    requires c < |lines| && swapped == lines[..c + 1] + other
    ensures c < |swapped| && swapped[..c] == lines[..c]
    ensures forall i :: 0 <= i <= c ==> swapped[i] == lines[i]
    ensures forall i :: c < i < |swapped| ==> swapped[i] == other[i - c - 1]
  {
  }

  lemma SameClose(lines: seq<BodyLine>, swapped: seq<BodyLine>, c: nat)
    requires c == Close(lines) < |lines| && c < |swapped| && forall i :: 0 <= i <= c ==> swapped[i] == lines[i]
    requires Next(lines, MetaLine, 0) == |lines| ==> forall i :: c < i < |swapped| ==> !swapped[i].Meta?
    ensures Close(swapped) == c
  {
    var meta := Next(lines, MetaLine, 0);
    if meta < |lines| {
      NextIs(swapped, MetaLine, 0, meta);
      NextIs(swapped, FirmLine, meta, c);
    } else {
      forall i | 0 <= i < |swapped| ensures !Is(swapped[i], MetaLine) {
        if i <= c { assert !Is(lines[i], MetaLine); }
      }
      NextIs(swapped, MetaLine, 0, |swapped|);
      NextIs(swapped, Blurb, 0, c);
    }
  }

  lemma NextIs(lines: seq<BodyLine>, mark: Mark, from: nat, at: nat)
    requires from <= at <= |lines| && (at < |lines| ==> Is(lines[at], mark))
    requires forall i :: from <= i < at ==> !Is(lines[i], mark)
    ensures Next(lines, mark, from) == at
  {
  }

  // ---- What a body says, line by line ----

  /** Where a block closes.  With a meta line, at the first line from it on that is prose or a
      meta line of neither kind; without one, at the first prose shaped like a blurb. */
  lemma CloseByLine(lines: seq<BodyLine>, m: nat)
    requires m <= |lines| && (m < |lines| ==> lines[m].Meta?) && forall i :: 0 <= i < m ==> !lines[i].Meta?
    ensures var c := Close(lines);
            if m < |lines| then
              && m <= c
              && (forall i :: m <= i < c ==>
                    lines[i].Dates? || lines[i].Bullet? || (lines[i].Meta? && (lines[i].department.Some? || lines[i].level.Some?)))
              && (c < |lines| ==>
                    lines[c].Prose? || (lines[c].Meta? && lines[c].department.None? && lines[c].level.None?))
            else
              && (forall i :: 0 <= i < c ==> !(lines[i].Prose? && lines[i].blurbShaped))
              && (c < |lines| ==> lines[c].Prose? && lines[c].blurbShaped)
  {
    NextIs(lines, MetaLine, 0, m);
    var c := Close(lines);
    if m < |lines| {
      forall i | m <= i < c ensures !Is(lines[i], FirmLine) { }
    } else {
      forall i | 0 <= i < c ensures !Is(lines[i], Blurb) { }
    }
  }

  /** The lines' words, in order, but for lines without any. */
  function Words(lines: seq<BodyLine>): seq<string> {
    if lines == [] then []
    else
      var l := lines[|lines| - 1];
      Words(lines[..|lines| - 1]) + if (l.Bullet? || l.Prose?) && l.text != "" then [l.text] else []
  }

  /** The last dates among the lines, and the last department and level a meta line gives. */
  function LastDates(lines: seq<BodyLine>): Option<BodyLine> {
    if lines == [] then None
    else if lines[|lines| - 1].Dates? then Some(lines[|lines| - 1])
    else LastDates(lines[..|lines| - 1])
  }

  function LastDepartment(lines: seq<BodyLine>): Option<string> {
    if lines == [] then None
    else
      var l := lines[|lines| - 1];
      if l.Meta? && l.department.Some? then l.department else LastDepartment(lines[..|lines| - 1])
  }

  function LastLevel(lines: seq<BodyLine>): Option<string> {
    if lines == [] then None
    else
      var l := lines[|lines| - 1];
      if l.Meta? && l.level.Some? then l.level else LastLevel(lines[..|lines| - 1])
  }

  /** What a heading's position holds once these lines are its own: the heading's title, firm and
      link; the last dates among them; the first twelve lines of words; the last department and
      the last level a meta line gives. */
  function ReadOff(e: Experience, lines: seq<BodyLine>): Experience {
    var d, words := LastDates(lines), Words(lines);
    Experience(e.title, e.company, e.url,
               if d.Some? && d.value.Dates? then d.value.start else e.start,
               if d.Some? && d.value.Dates? then d.value.end else e.end,
               if d.Some? && d.value.Dates? then d.value.end == "Present" || d.value.end == "present" else e.isCurrent,
               if d.Some? && d.value.Dates? then d.value.duration else e.duration,
               if d.Some? && d.value.Dates? then d.value.location else e.location,
               words[..if |words| < 12 then |words| else 12],
               if LastDepartment(lines).Some? then LastDepartment(lines).value else e.department,
               if LastLevel(lines).Some? then LastLevel(lines).value else e.level)
  }

  lemma {:induction false} TakenByLine(e: Experience, lines: seq<BodyLine>)
    requires e.bullets == []
    ensures TakeAll(e, lines) == ReadOff(e, lines)
  {
    if lines != [] {
      var before, l := lines[..|lines| - 1], lines[|lines| - 1];
      TakenByLine(e, before);
      assert lines == before + [l];
      OneLineMore(e, before, l);
    }
  }

  lemma OneLineMore(e: Experience, before: seq<BodyLine>, l: BodyLine)
    ensures Take(ReadOff(e, before), l) == ReadOff(e, before + [l])
  {
    assert (before + [l])[..|before|] == before;
    var words, more := Words(before), Words(before + [l]);
    assert |words| >= 12 ==> more[..12] == words[..12];
  }

  /** A filled position is what its block's own lines say. */
  lemma FilledByLine(e: Experience, lines: seq<BodyLine>)
    requires e.bullets == []
    ensures Filled(e, lines) == ReadOff(e, lines[..Close(lines)])
  {
    TakenByLine(e, lines[..Close(lines)]);
  }

  // ---- Printing a profile and reading it back ----

  /** What a page says of one position: its dates, the person's description, the meta line, the
      bullets that follow it, and whatever the page adds on the firm. */
  datatype Account = Account(
    dates: Option<BodyLine>, described: seq<BodyLine>, meta: Option<BodyLine>, after: seq<BodyLine>, firm: seq<BodyLine>)

  datatype Seat = Seat(title: string, current: bool, account: Account)

  /** A position of its own, or the positions at one firm; `stray` is what stands between the
      firm's heading and its first position. */
  datatype Item =
    | Standalone(company: string, url: string, seat: Seat)
    | AtFirm(company: string, url: string, stray: seq<BodyLine>, seats: seq<Seat>)

  /** The lines are the person's words, none without a word in it. */
  ghost predicate Said(lines: seq<BodyLine>) {
    forall i :: 0 <= i < |lines| ==> (lines[i].Bullet? || lines[i].Prose?) && lines[i].text != ""
  }

  ghost predicate WellFormed(a: Account) {
    && (a.dates.Some? ==> a.dates.value.Dates?)
    && Said(a.described) && Said(a.after) && |a.described| + |a.after| <= BULLETS_PER_POSITION_MAX
    && match a.meta
       case None =>
         && a.after == []
         && (forall i :: 0 <= i < |a.described| ==> !(a.described[i].Prose? && a.described[i].blurbShaped))
         && (forall i :: 0 <= i < |a.firm| ==> !a.firm[i].Meta?)
         && (a.firm != [] ==> a.firm[0].Prose? && a.firm[0].blurbShaped)
       case Some(m) =>
         && m.Meta? && (m.department.Some? || m.level.Some?)
         && (forall i :: 0 <= i < |a.after| ==> a.after[i].Bullet?)
         && (a.firm != [] ==>
               a.firm[0].Prose? || (a.firm[0].Meta? && a.firm[0].department.None? && a.firm[0].level.None?))
  }

  function Listed(o: Option<BodyLine>): seq<BodyLine> { if o.Some? then [o.value] else [] }

  /** The person's part of an account, as the page writes it. */
  function OwnPart(a: Account): seq<BodyLine> { Listed(a.dates) + a.described + Listed(a.meta) + a.after }

  function PrintAccount(a: Account): seq<BodyLine> { OwnPart(a) + a.firm }

  function Texts(lines: seq<BodyLine>): seq<string>
    requires forall i :: 0 <= i < |lines| ==> lines[i].Bullet? || lines[i].Prose?
  {
    seq(|lines|, i requires 0 <= i < |lines| => lines[i].text)
  }

  /** The position a heading and the account under it state. */
  ghost function Stated(title: string, company: string, url: string, current: bool, a: Account): Experience
    requires WellFormed(a)
  {
    Experience(title, company, url,
               if a.dates.Some? then a.dates.value.start else "",
               if a.dates.Some? then a.dates.value.end else "",
               if a.dates.Some? then a.dates.value.end == "Present" || a.dates.value.end == "present" else current,
               if a.dates.Some? then a.dates.value.duration else "",
               if a.dates.Some? then a.dates.value.location else "",
               Texts(a.described) + Texts(a.after),
               if a.meta.Some? && a.meta.value.department.Some? then a.meta.value.department.value else "",
               if a.meta.Some? && a.meta.value.level.Some? then a.meta.value.level.value else "")
  }

  lemma {:induction false} TakeConcat(e: Experience, a: seq<BodyLine>, b: seq<BodyLine>)
    ensures TakeAll(e, a + b) == TakeAll(TakeAll(e, a), b)
  {
    if b == [] {
      assert a + b == a;
    } else {
      TakeConcat(e, a, b[..|b| - 1]);
      assert (a + b)[..|a + b| - 1] == a + b[..|b| - 1];
    }
  }

  lemma {:induction false} TakeSaid(e: Experience, lines: seq<BodyLine>)
    requires Said(lines) && |e.bullets| + |lines| <= BULLETS_PER_POSITION_MAX
    ensures TakeAll(e, lines) == e.(bullets := e.bullets + Texts(lines))
  {
    if lines == [] {
      assert e.bullets + Texts(lines) == e.bullets;
    } else {
      var n := |lines| - 1;
      TakeSaid(e, lines[..n]);
      assert Texts(lines) == Texts(lines[..n]) + [lines[n].text];
    }
  }

  lemma TakeListed(e: Experience, o: Option<BodyLine>)
    ensures TakeAll(e, Listed(o)) == if o.Some? then Take(e, o.value) else e
  {
    if o.Some? { assert [o.value][..0] == []; assert TakeAll(e, []) == e; }
  }

  lemma TakeParts(e: Experience, a: Account)
    ensures TakeAll(e, OwnPart(a)) == TakeAll(TakeAll(TakeAll(TakeAll(e, Listed(a.dates)), a.described), Listed(a.meta)), a.after)
  {
    TakeConcat(e, Listed(a.dates) + a.described + Listed(a.meta), a.after);
    TakeConcat(e, Listed(a.dates) + a.described, Listed(a.meta));
    TakeConcat(e, Listed(a.dates), a.described);
  }

  lemma TakeOwn(e: Experience, a: Account)
    requires WellFormed(a) && e.bullets == [] && e.start == e.end == e.duration == e.location == e.department == e.level == ""
    ensures TakeAll(e, OwnPart(a)) == Stated(e.title, e.company, e.url, e.isCurrent, a)
  {
    TakeParts(e, a);
    TakeListed(e, a.dates);
    var dated := TakeAll(e, Listed(a.dates));
    TakeSaid(dated, a.described);
    var described := TakeAll(dated, a.described);
    TakeListed(described, a.meta);
    var met := TakeAll(described, Listed(a.meta));
    assert described.bullets == Texts(a.described) by { assert [] + Texts(a.described) == Texts(a.described); }
    TakeSaid(met, a.after);
  }

  lemma CloseIsOwn(a: Account)
    requires WellFormed(a)
    ensures Close(PrintAccount(a)) == |OwnPart(a)|
  {
    if a.meta.Some? {
      CloseAfterMeta(Listed(a.dates) + a.described, a.meta.value, a.after, a.firm);
      assert PrintAccount(a) == Listed(a.dates) + a.described + [a.meta.value] + a.after + a.firm;
    } else {
      CloseAtBlurb(Listed(a.dates) + a.described, a.firm);
      assert PrintAccount(a) == Listed(a.dates) + a.described + a.firm;
    }
  }

  lemma CloseAfterMeta(said: seq<BodyLine>, meta: BodyLine, after: seq<BodyLine>, firm: seq<BodyLine>)
    requires forall i :: 0 <= i < |said| ==> !said[i].Meta?
    requires meta.Meta? && (meta.department.Some? || meta.level.Some?)
    requires forall i :: 0 <= i < |after| ==> after[i].Bullet?
    requires firm != [] ==> Is(firm[0], FirmLine)
    ensures Close(said + [meta] + after + firm) == |said| + 1 + |after|
  {
    var lines, d := said + [meta] + after + firm, |said|;
    assert lines[d] == meta;
    NextIs(lines, MetaLine, 0, d);
    assert forall i :: d < i < d + 1 + |after| ==> lines[i] == after[i - d - 1];
    assert firm != [] ==> lines[d + 1 + |after|] == firm[0];
    NextIs(lines, FirmLine, d, d + 1 + |after|);
  }

  lemma CloseAtBlurb(said: seq<BodyLine>, firm: seq<BodyLine>)
    requires forall i :: 0 <= i < |said| ==> !said[i].Meta? && !Is(said[i], Blurb)
    requires forall i :: 0 <= i < |firm| ==> !firm[i].Meta?
    requires firm != [] ==> Is(firm[0], Blurb)
    ensures Close(said + firm) == |said|
  {
    NextIs(said + firm, MetaLine, 0, |said + firm|);
    NextIs(said + firm, Blurb, 0, |said|);
  }

  /** A printed account reads back as the position it states, whatever the page says of the
      firm after it. */
  lemma AccountRoundTrip(title: string, company: string, url: string, current: bool, a: Account)
    requires WellFormed(a)
    ensures Filled(Experience(title, company, url, "", "", current, "", "", [], "", ""), PrintAccount(a))
         == Stated(title, company, url, current, a)
  {
    CloseIsOwn(a);
    assert PrintAccount(a)[..|OwnPart(a)|] == OwnPart(a);
    TakeOwn(Experience(title, company, url, "", "", current, "", "", [], "", ""), a);
  }

  function AsLines(body: seq<BodyLine>): seq<Line> { seq(|body|, i requires 0 <= i < |body| => Body(body[i])) }

  function PrintSeats(seats: seq<Seat>): seq<Line> {
    if seats == [] then []
    else
      var s := seats[|seats| - 1];
      PrintSeats(seats[..|seats| - 1]) + [Nested(s.title, s.current)] + AsLines(PrintAccount(s.account))
  }

  function PrintItem(item: Item): seq<Line> {
    match item
    case Standalone(c, u, s) => [Position(s.title, c, u, s.current)] + AsLines(PrintAccount(s.account))
    case AtFirm(c, u, stray, seats) => [Group(c, u)] + AsLines(stray) + PrintSeats(seats)
  }

  function Print(items: seq<Item>): seq<Line> {
    if items == [] then [] else Print(items[..|items| - 1]) + PrintItem(items[|items| - 1])
  }

  /** The positions of a profile, in page order, each with the firm it was held at. */
  ghost function SeatsStated(company: string, url: string, seats: seq<Seat>): seq<Experience>
    requires forall i :: 0 <= i < |seats| ==> WellFormed(seats[i].account)
  {
    seq(|seats|, i requires 0 <= i < |seats| => Stated(seats[i].title, company, url, seats[i].current, seats[i].account))
  }

  function SeatsOf(item: Item): seq<Seat> { if item.Standalone? then [item.seat] else item.seats }

  ghost predicate AllWellFormed(items: seq<Item>) {
    forall i, j :: 0 <= i < |items| && 0 <= j < |SeatsOf(items[i])| ==> WellFormed(SeatsOf(items[i])[j].account)
  }

  ghost function Positions(items: seq<Item>): seq<Experience>
    requires AllWellFormed(items)
  {
    if items == [] then []
    else
      var item := items[|items| - 1];
      Positions(items[..|items| - 1]) + SeatsStated(item.company, item.url, SeatsOf(item))
  }

  lemma {:induction false} RunConcat(s: State, a: seq<Line>, b: seq<Line>)
    ensures Run(s, a + b) == Run(Run(s, a), b)
  {
    if b == [] {
      assert a + b == a;
    } else {
      RunConcat(s, a, b[..|b| - 1]);
      assert (a + b)[..|a + b| - 1] == a + b[..|b| - 1];
    }
  }

  /** Body lines go to the open block, or nowhere. */
  lemma {:induction false} RunBody(s: State, before: seq<Block>, last: Block, body: seq<BodyLine>)
    requires s.open ==> s.blocks == before + [last]
    ensures var r := Run(s, AsLines(body));
            && r.open == s.open && r.company == s.company && r.url == s.url
            && r.blocks == if s.open then before + [last.(body := last.body + body)] else s.blocks
  {
    if body == [] {
      assert last.body + body == last.body;
    } else {
      var m := |body| - 1;
      RunBody(s, before, last, body[..m]);
      assert AsLines(body)[..m] == AsLines(body[..m]);
      assert AsLines(body)[m] == Body(body[m]);
      assert last.body + body == last.body + body[..m] + [body[m]];
      if s.open { OwnLast(Run(s, AsLines(body[..m])), before, last.(body := last.body + body[..m]), body[m]); }
    }
  }

  lemma OwnLast(s: State, before: seq<Block>, last: Block, b: BodyLine)
    requires s.blocks == before + [last]
    ensures Own(s, b).blocks == before + [last.(body := last.body + [b])]
  {
  }

  /** A heading and the account under it are one more block, which reads as the seat. */
  lemma SeatRun(s: State, heading: Line, seat: Seat, company: string, url: string)
    requires heading == Position(seat.title, company, url, seat.current)
          || (heading == Nested(seat.title, seat.current) && s.company == company && s.url == url)
    requires WellFormed(seat.account)
    ensures var r := Run(s, [heading] + AsLines(PrintAccount(seat.account)));
            && (heading.Nested? ==> r.company == company && r.url == url)
            && FillAll(r.blocks) == FillAll(s.blocks) + SeatsStated(company, url, [seat])
  {
    var body := PrintAccount(seat.account);
    var block := Block(Fresh(seat.title, company, url, seat.current), s.read, []);
    HeadingRun(s, heading, block, body);
    FillOneMore(s.blocks, block.(body := body));
    SeatRead(company, url, seat);
  }

  lemma HeadingRun(s: State, heading: Line, block: Block, body: seq<BodyLine>)
    requires Step(s, heading).open && Step(s, heading).blocks == s.blocks + [block] && block.body == []
    ensures var r, t := Run(s, [heading] + AsLines(body)), Step(s, heading);
            r.company == t.company && r.url == t.url && r.blocks == s.blocks + [block.(body := body)]
  {
    RunConcat(s, [heading], AsLines(body));
    RunOne(s, heading);
    RunBody(Step(s, heading), s.blocks, block, body);
    assert [] + body == body;
  }

  lemma SeatRead(company: string, url: string, seat: Seat)
    requires WellFormed(seat.account)
    ensures [Filled(Fresh(seat.title, company, url, seat.current), PrintAccount(seat.account))] == SeatsStated(company, url, [seat])
  {
    AccountRoundTrip(seat.title, company, url, seat.current, seat.account);
  }

  lemma FillOneMore(blocks: seq<Block>, b: Block)
    ensures FillAll(blocks + [b]) == FillAll(blocks) + [Filled(b.head, b.body)]
  {
    assert (blocks + [b])[..|blocks|] == blocks;
  }

  lemma RunOne(s: State, line: Line)
    ensures Run(s, [line]) == Step(s, line)
  {
    assert [line][..0] == [];
    assert Run(s, []) == s;
  }

  lemma {:induction false} SeatsRun(s: State, company: string, url: string, seats: seq<Seat>)
    requires s.company == company && s.url == url
    requires forall i :: 0 <= i < |seats| ==> WellFormed(seats[i].account)
    ensures var r := Run(s, PrintSeats(seats));
            r.company == company && r.url == url && FillAll(r.blocks) == FillAll(s.blocks) + SeatsStated(company, url, seats)
  {
    if seats == [] {
      assert FillAll(s.blocks) + [] == FillAll(s.blocks);
    } else {
      var n := |seats| - 1;
      SeatsRun(s, company, url, seats[..n]);
      SeatsSplit(company, url, seats);
      SeatAppended(s, PrintSeats(seats[..n]), seats[n], company, url);
      Regroup(FillAll(s.blocks), SeatsStated(company, url, seats[..n]), SeatsStated(company, url, [seats[n]]));
    }
  }

  lemma Regroup<T>(a: seq<T>, b: seq<T>, c: seq<T>)
    ensures a + b + c == a + (b + c)
  {
  }

  lemma SeatAppended(s: State, before: seq<Line>, seat: Seat, company: string, url: string)
    requires WellFormed(seat.account) && Run(s, before).company == company && Run(s, before).url == url
    ensures var r := Run(s, before + [Nested(seat.title, seat.current)] + AsLines(PrintAccount(seat.account)));
            && r.company == company && r.url == url
            && FillAll(r.blocks) == FillAll(Run(s, before).blocks) + SeatsStated(company, url, [seat])
  {
    var heading, body := Nested(seat.title, seat.current), AsLines(PrintAccount(seat.account));
    assert before + [heading] + body == before + ([heading] + body);
    RunConcat(s, before, [heading] + body);
    SeatRun(Run(s, before), heading, seat, company, url);
  }

  lemma SeatsSplit(company: string, url: string, seats: seq<Seat>)
    requires seats != [] && forall i :: 0 <= i < |seats| ==> WellFormed(seats[i].account)
    ensures var n := |seats| - 1;
            SeatsStated(company, url, seats) == SeatsStated(company, url, seats[..n]) + SeatsStated(company, url, [seats[n]])
  {
  }

  lemma ItemRun(s: State, item: Item)
    requires forall j :: 0 <= j < |SeatsOf(item)| ==> WellFormed(SeatsOf(item)[j].account)
    ensures FillAll(Run(s, PrintItem(item)).blocks) == FillAll(s.blocks) + SeatsStated(item.company, item.url, SeatsOf(item))
  {
    match item
    case Standalone(c, u, seat) =>
      assert seat == SeatsOf(item)[0];
      SeatRun(s, Position(seat.title, c, u, seat.current), seat, c, u);
    case AtFirm(c, u, stray, seats) =>
      RunConcat(s, [Group(c, u)] + AsLines(stray), PrintSeats(seats));
      RunConcat(s, [Group(c, u)], AsLines(stray));
      RunOne(s, Group(c, u));
      RunBody(Step(s, Group(c, u)), [], Block(Fresh("", "", "", false), 0, []), stray);
      assert forall j :: 0 <= j < |seats| ==> SeatsOf(item)[j] == seats[j];
      SeatsRun(Run(s, [Group(c, u)] + AsLines(stray)), c, u, seats);
  }

  /** Printing any list of positions, standalone or grouped under a firm, and parsing the page
      gives the list back, in page order and each with its own firm. */
  lemma {:induction false} ExperienceRoundTrip(items: seq<Item>)
    requires AllWellFormed(items)
    ensures Parsed(Print(items)) == Positions(items)
  {
    if items != [] {
      var n := |items| - 1;
      assert forall j :: 0 <= j < |SeatsOf(items[n])| ==> WellFormed(SeatsOf(items[n])[j].account);
      ExperienceRoundTrip(items[..n]);
      RunConcat(START, Print(items[..n]), PrintItem(items[n]));
      ItemRun(Run(START, Print(items[..n])), items[n]);
    }
  }
}
