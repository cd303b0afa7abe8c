/** Filtering a batch down to the people worth judging. */
module Dedupe {
  import opened Wrappers
  import opened MergeRecords
  import KeyedFold

  /** What one run holds still: the do-not-save gate, the cross-hub keys it blocks with the
      way it mints them, and the folding two titles are compared under. */
  datatype Rules = Rules(blocks: Candidate -> Option<string>, personKey: Candidate -> string,
                         blocked: set<string>, fold: string -> string)

  datatype Reason = DoNotSave(why: string) | AlreadySeen | BlockedPersonKey | DuplicateInBatch(weak: bool)

  datatype Ruling = Keep | KeepFlagged(heldName: string, heldTitle: string) | Skip(reason: Reason)

  datatype Result = Result(kept: seq<Candidate>, skipped: seq<(Candidate, Reason)>, flagged: seq<(Candidate, string, string)>)

  const STRONG_KEY_PREFIX := "linkedin.com/in/"

  predicate Weak(key: string) { !(STRONG_KEY_PREFIX <= key) }

  predicate TitlesDisagree(r: Rules, held: Candidate, c: Candidate) {
    held.title != "" && c.title != "" && r.fold(held.title) != r.fold(c.title)
  }

  // ---- The ruling on one candidate, from the batch before it ----

  /** Neither the gate nor the record of earlier batches stops the candidate. */
  predicate Passes(r: Rules, seen: set<string>, c: Candidate) {
    r.blocks(c).None? && c.identity !in seen && r.personKey(c) !in r.blocked
  }

  /** The first of the batch to pass under the key. */
  function Holder(r: Rules, seen: set<string>, cs: seq<Candidate>, key: string): Option<Candidate> {
    if cs == [] then None
    else
      var n := |cs| - 1;
      var h := Holder(r, seen, cs[..n], key);
      if h.Some? then h
      else if cs[n].identity == key && Passes(r, seen, cs[n]) then Some(cs[n])
      else None
  }

  lemma {:induction false} HolderIs(r: Rules, seen: set<string>, cs: seq<Candidate>, key: string)
    ensures var h := Holder(r, seen, cs, key);
            && (h.Some? ==> h.value in cs && h.value.identity == key && Passes(r, seen, h.value))
            && (h.None? ==> forall i :: 0 <= i < |cs| && cs[i].identity == key ==> !Passes(r, seen, cs[i]))
  {
    if cs != [] {
      var n := |cs| - 1;
      HolderIs(r, seen, cs[..n], key);
      assert forall i :: 0 <= i < n ==> cs[i] == cs[..n][i];
    }
  }

  function Rule(r: Rules, seen: set<string>, before: seq<Candidate>, c: Candidate): Ruling {
    if r.blocks(c).Some? then Skip(DoNotSave(r.blocks(c).value))
    else if c.identity in seen then Skip(AlreadySeen)
    else if r.personKey(c) in r.blocked then Skip(BlockedPersonKey)
    else
      match Holder(r, seen, before, c.identity)
      case None => Keep
      case Some(held) =>
        if Weak(c.identity) && TitlesDisagree(r, held, c) then KeepFlagged(held.name, held.title)
        else Skip(DuplicateInBatch(Weak(c.identity)))
  }

  /** The ruling on a candidate, in the order the reasons are asked after; under a key somebody
      passed under before, a weak key whose titles disagree is kept and flagged, else it repeats. */
  lemma RuleByReason(r: Rules, seen: set<string>, before: seq<Candidate>, c: Candidate, m: nat)
    requires m <= |before| && forall i :: 0 <= i < m ==> before[i].identity != c.identity || !Stopless(r, seen, before[i])
    requires m < |before| ==> before[m].identity == c.identity && Stopless(r, seen, before[m])
    ensures Rule(r, seen, before, c) ==
              if r.blocks(c) != None then Skip(DoNotSave(r.blocks(c).value))
              else if c.identity in seen then Skip(AlreadySeen)
              else if r.personKey(c) in r.blocked then Skip(BlockedPersonKey)
              else if m == |before| then Keep
              else if "linkedin.com/in/" <= c.identity then Skip(DuplicateInBatch(false))
              else if before[m].title != "" && c.title != "" && r.fold(before[m].title) != r.fold(c.title)
                then KeepFlagged(before[m].name, before[m].title)
              else Skip(DuplicateInBatch(true))
    ensures var was, now := Filtered(r, seen, before), Filtered(r, seen, before + [c]);
            match Rule(r, seen, before, c)
            case Skip(why) => now == was.(skipped := was.skipped + [(c, why)])
            case Keep => now == was.(kept := was.kept + [c])
            case KeepFlagged(_, _) =>
              m < |before| && now == was.(kept := was.kept + [c], flagged := was.flagged + [(c, before[m].name, before[m].title)])
  {
    FirstHolder(r, seen, before, c.identity, m);
    assert (before + [c])[..|before|] == before;
  }

  /** Nothing but the batch itself can stop the candidate. */
  ghost predicate Stopless(r: Rules, seen: set<string>, c: Candidate) {
    r.blocks(c) == None && c.identity !in seen && r.personKey(c) !in r.blocked
  }

  lemma {:induction false} FirstHolder(r: Rules, seen: set<string>, cs: seq<Candidate>, key: string, m: nat)
    requires m <= |cs| && forall i :: 0 <= i < m ==> cs[i].identity != key || !Stopless(r, seen, cs[i])
    requires m < |cs| ==> cs[m].identity == key && Stopless(r, seen, cs[m])
    ensures Holder(r, seen, cs, key) == if m < |cs| then Some(cs[m]) else None
  {
    if cs != [] {
      var n := |cs| - 1;
      FirstHolder(r, seen, cs[..n], key, if m < n then m else n);
    }
  }

  function Put(res: Result, c: Candidate, ruling: Ruling): Result {
    match ruling
    case Keep => res.(kept := res.kept + [c])
    case KeepFlagged(n, t) => res.(kept := res.kept + [c], flagged := res.flagged + [(c, n, t)])
    case Skip(why) => res.(skipped := res.skipped + [(c, why)])
  }

  function Filtered(r: Rules, seen: set<string>, cs: seq<Candidate>): Result {
    if cs == [] then Result([], [], [])
    else
      var n := |cs| - 1;
      Put(Filtered(r, seen, cs[..n]), cs[n], Rule(r, seen, cs[..n], cs[n]))
  }

  method DedupeCandidates(r: Rules, seen: set<string>, cs: seq<Candidate>) returns (out: Result)
    ensures out == Filtered(r, seen, cs)
  {
    out := Result([], [], []);
    var records: map<string, Candidate> := map[];
    for i := 0 to |cs|
      invariant out == Filtered(r, seen, cs[..i])
      invariant forall k :: match Holder(r, seen, cs[..i], k)
                            case None => k !in records
                            case Some(h) => k in records && records[k] == h
    {
      assert cs[..i + 1][..i] == cs[..i];
      var c := cs[i];
      if r.blocks(c).Some? {
        out := out.(skipped := out.skipped + [(c, DoNotSave(r.blocks(c).value))]);
      } else if c.identity in seen {
        out := out.(skipped := out.skipped + [(c, AlreadySeen)]);
      } else if r.personKey(c) in r.blocked {
        out := out.(skipped := out.skipped + [(c, BlockedPersonKey)]);
      } else if c.identity in records {
        var held := records[c.identity];
        assert Holder(r, seen, cs[..i], c.identity) == Some(held);
        if Weak(c.identity) && TitlesDisagree(r, held, c) {
          out := out.(kept := out.kept + [c], flagged := out.flagged + [(c, held.name, held.title)]);
        } else {
          out := out.(skipped := out.skipped + [(c, DuplicateInBatch(Weak(c.identity)))]);
        }
      } else {
        assert Holder(r, seen, cs[..i], c.identity).None?;
        records := records[c.identity := c];
        out := out.(kept := out.kept + [c]);
      }
    }
    assert cs[..|cs|] == cs;
  }

  // ---- Kept and skipped partition the batch in order ----

  predicate Keeps(r: Rules, seen: set<string>, cs: seq<Candidate>, i: nat)
    requires i < |cs|
  {
    !Rule(r, seen, cs[..i], cs[i]).Skip?
  }

  /** The flags say which of the first `n` candidates are kept. */
  ghost predicate Marks(r: Rules, seen: set<string>, cs: seq<Candidate>, flags: seq<bool>, n: nat)
    requires n <= |cs| && n <= |flags|
  {
    n == 0 || (Marks(r, seen, cs, flags, n - 1) && flags[n - 1] == Keeps(r, seen, cs, n - 1))
  }

  lemma {:induction false} MarksLonger(r: Rules, seen: set<string>, cs: seq<Candidate>, c: Candidate, flags: seq<bool>, b: bool, n: nat)
    requires n <= |cs| && n <= |flags| && Marks(r, seen, cs, flags, n)
    ensures Marks(r, seen, cs + [c], flags + [b], n)
  {
    if n > 0 {
      MarksLonger(r, seen, cs, c, flags, b, n - 1);
      assert (cs + [c])[..n - 1] == cs[..n - 1];
    }
  }

  /** `at` lists, in increasing order, exactly the positions flagged so. */
  ghost predicate Lists(flags: seq<bool>, keeps: bool, at: seq<nat>) {
    && (forall m :: 0 <= m < |at| ==> at[m] < |flags| && flags[at[m]] == keeps)
    && (forall m, m' :: 0 <= m < m' < |at| ==> at[m] < at[m'])
    && (forall i: nat {:trigger i in at} :: i < |flags| && flags[i] == keeps ==> i in at)
  }

  ghost function At(flags: seq<bool>, keeps: bool): seq<nat> {
    if flags == [] then []
    else
      var n := |flags| - 1;
      if flags[n] == keeps then At(flags[..n], keeps) + [n] else At(flags[..n], keeps)
  }

  lemma {:induction false} AtLists(flags: seq<bool>, keeps: bool)
    ensures Lists(flags, keeps, At(flags, keeps))
  {
    if flags != [] {
      var n := |flags| - 1;
      AtLists(flags[..n], keeps);
      forall i: nat | i < |flags| && flags[i] == keeps ensures i in At(flags, keeps) {
        if i < n { assert i in At(flags[..n], keeps); }
      }
    }
  }

  lemma {:induction false} AtAll(flags: seq<bool>)
    ensures |At(flags, true)| + |At(flags, false)| == |flags|
  {
    if flags != [] { AtAll(flags[..|flags| - 1]); }
  }

  lemma AtOneMore(flags: seq<bool>, b: bool, keeps: bool)
    ensures At(flags + [b], keeps) == if b == keeps then At(flags, keeps) + [|flags|] else At(flags, keeps)
  {
    assert (flags + [b])[..|flags|] == flags;
  }

  /** A skip at this position of the batch, under the reason the position is ruled out for. */
  ghost predicate SkipAt(r: Rules, seen: set<string>, cs: seq<Candidate>, at: nat, skip: (Candidate, Reason)) {
    at < |cs| && skip.0 == cs[at] && Rule(r, seen, cs[..at], cs[at]) == Skip(skip.1)
  }

  /** The first `n` skips stand at the first `n` positions listed. */
  ghost predicate SkipsStand(r: Rules, seen: set<string>, cs: seq<Candidate>, skipped: seq<(Candidate, Reason)>, s: seq<nat>, n: nat)
    requires n <= |skipped| && n <= |s|
  {
    n == 0 || (SkipsStand(r, seen, cs, skipped, s, n - 1) && SkipAt(r, seen, cs, s[n - 1], skipped[n - 1]))
  }

  ghost predicate KeptAt(cs: seq<Candidate>, at: nat, c: Candidate) { at < |cs| && c == cs[at] }

  /** The first `n` kept records stand at the first `n` positions listed. */
  ghost predicate KeptStand(cs: seq<Candidate>, kept: seq<Candidate>, k: seq<nat>, n: nat)
    requires n <= |kept| && n <= |k|
  {
    n == 0 || (KeptStand(cs, kept, k, n - 1) && KeptAt(cs, k[n - 1], kept[n - 1]))
  }

  /** The kept records stand at the positions `k` of the batch and the skipped ones at `s`,
      each skip under the reason that position is ruled out for. */
  ghost predicate Stand(r: Rules, seen: set<string>, cs: seq<Candidate>, out: Result, k: seq<nat>, s: seq<nat>) {
    && |out.kept| == |k| && |out.skipped| == |s|
    && KeptStand(cs, out.kept, k, |k|)
    && SkipsStand(r, seen, cs, out.skipped, s, |s|)
  }

  lemma StandStep(r: Rules, seen: set<string>, cs: seq<Candidate>, out: Result, k: seq<nat>, s: seq<nat>, ruling: Ruling)
    requires cs != [] && Stand(r, seen, cs[..|cs| - 1], out, k, s)
    requires ruling == Rule(r, seen, cs[..|cs| - 1], cs[|cs| - 1])
    ensures var n := |cs| - 1;
            Stand(r, seen, cs, Put(out, cs[n], ruling), if ruling.Skip? then k else k + [n], if ruling.Skip? then s + [n] else s)
  {
    var n := |cs| - 1;
    StandLonger(r, seen, cs[..n], cs[n], out, k, s);
    assert cs == cs[..n] + [cs[n]];
    if ruling.Skip? { OneMoreSkip(r, seen, cs, out.skipped, s, ruling.reason); } else { OneMoreKept(cs, out.kept, k); }
  }

  lemma StandLonger(r: Rules, seen: set<string>, cs: seq<Candidate>, c: Candidate, out: Result, k: seq<nat>, s: seq<nat>)
    requires Stand(r, seen, cs, out, k, s)
    ensures Stand(r, seen, cs + [c], out, k, s)
  {
    SkipsStandLonger(r, seen, cs, c, out.skipped, s, |s|);
    KeptStandLonger(cs, c, out.kept, k, |k|);
  }

  lemma {:induction false} KeptStandLonger(cs: seq<Candidate>, c: Candidate, kept: seq<Candidate>, k: seq<nat>, n: nat)
    requires n <= |kept| && n <= |k| && KeptStand(cs, kept, k, n)
    ensures KeptStand(cs + [c], kept, k, n)
  {
    if n > 0 { KeptStandLonger(cs, c, kept, k, n - 1); }
  }

  lemma OneMoreKept(cs: seq<Candidate>, kept: seq<Candidate>, k: seq<nat>)
    requires cs != [] && |kept| == |k| && KeptStand(cs, kept, k, |k|)
    ensures KeptStand(cs, kept + [cs[|cs| - 1]], k + [|cs| - 1], |k| + 1)
  {
    var at := |cs| - 1;
    KeptStandOnce(cs, kept, k, cs[at], at, |k|);
    assert KeptAt(cs, at, cs[at]);
    assert (k + [at])[|k|] == at && (kept + [cs[at]])[|k|] == cs[at];
  }

  lemma {:induction false} KeptStandOnce(cs: seq<Candidate>, kept: seq<Candidate>, k: seq<nat>, c: Candidate, at: nat, n: nat)
    requires n <= |kept| == |k| && KeptStand(cs, kept, k, n)
    ensures KeptStand(cs, kept + [c], k + [at], n)
  {
    if n > 0 { KeptStandOnce(cs, kept, k, c, at, n - 1); }
  }

  lemma {:induction false} SkipsStandLonger(r: Rules, seen: set<string>, cs: seq<Candidate>, c: Candidate,
                                            skipped: seq<(Candidate, Reason)>, s: seq<nat>, n: nat)
    requires n <= |skipped| && n <= |s| && SkipsStand(r, seen, cs, skipped, s, n)
    ensures SkipsStand(r, seen, cs + [c], skipped, s, n)
  {
    if n > 0 {
      SkipsStandLonger(r, seen, cs, c, skipped, s, n - 1);
      assert (cs + [c])[..s[n - 1]] == cs[..s[n - 1]];
    }
  }

  lemma OneMoreSkip(r: Rules, seen: set<string>, cs: seq<Candidate>, skipped: seq<(Candidate, Reason)>, s: seq<nat>, why: Reason)
    requires cs != [] && |skipped| == |s| && SkipsStand(r, seen, cs, skipped, s, |s|)
    requires Rule(r, seen, cs[..|cs| - 1], cs[|cs| - 1]) == Skip(why)
    ensures SkipsStand(r, seen, cs, skipped + [(cs[|cs| - 1], why)], s + [|cs| - 1], |s| + 1)
  {
    var at := |cs| - 1;
    SkipsStandOnce(r, seen, cs, skipped, s, (cs[at], why), at, |s|);
    assert SkipAt(r, seen, cs, at, (cs[at], why));
    assert (s + [at])[|s|] == at && (skipped + [(cs[at], why)])[|s|] == (cs[at], why);
  }

  /** One more skip at one more position leaves the earlier ones where they stand. */
  lemma {:induction false} SkipsStandOnce(r: Rules, seen: set<string>, cs: seq<Candidate>, skipped: seq<(Candidate, Reason)>,
                                          s: seq<nat>, skip: (Candidate, Reason), at: nat, n: nat)
    requires n <= |skipped| == |s| && SkipsStand(r, seen, cs, skipped, s, n)
    ensures SkipsStand(r, seen, cs, skipped + [skip], s + [at], n)
  {
    if n > 0 { SkipsStandOnce(r, seen, cs, skipped, s, skip, at, n - 1); }
  }

  /** Every candidate of the batch is kept or skipped, once, in the order it came, and a
      skip names the reason it was ruled out for. */
  lemma KeptAndSkippedPartition(r: Rules, seen: set<string>, cs: seq<Candidate>) returns (flags: seq<bool>)
    ensures |flags| == |cs| && Marks(r, seen, cs, flags, |cs|)
    ensures var k, s := At(flags, true), At(flags, false);
            && Lists(flags, true, k) && Lists(flags, false, s) && |k| + |s| == |cs|
            && Stand(r, seen, cs, Filtered(r, seen, cs), k, s)
  {
    flags := FilteredStands(r, seen, cs);
    AtLists(flags, true);
    AtLists(flags, false);
    AtAll(flags);
  }

  lemma {:induction false} FilteredStands(r: Rules, seen: set<string>, cs: seq<Candidate>) returns (flags: seq<bool>)
    ensures |flags| == |cs| && Marks(r, seen, cs, flags, |cs|)
    ensures Stand(r, seen, cs, Filtered(r, seen, cs), At(flags, true), At(flags, false))
  {
    flags := [];
    if cs != [] {
      var n := |cs| - 1;
      flags := FilteredStands(r, seen, cs[..n]);
      var ruling := Rule(r, seen, cs[..n], cs[n]);
      StandOneMore(r, seen, cs, Filtered(r, seen, cs[..n]), flags, ruling);
      MarksOneMore(r, seen, cs, flags, !ruling.Skip?);
      flags := flags + [!ruling.Skip?];
    }
  }

  lemma MarksOneMore(r: Rules, seen: set<string>, cs: seq<Candidate>, flags: seq<bool>, b: bool)
    requires cs != [] && |flags| == |cs| - 1 && Marks(r, seen, cs[..|cs| - 1], flags, |flags|)
    requires b == !Rule(r, seen, cs[..|cs| - 1], cs[|cs| - 1]).Skip?
    ensures Marks(r, seen, cs, flags + [b], |cs|)
  {
    var n := |cs| - 1;
    MarksLonger(r, seen, cs[..n], cs[n], flags, b, n);
    assert cs == cs[..n] + [cs[n]];
  }

  lemma StandOneMore(r: Rules, seen: set<string>, cs: seq<Candidate>, out: Result, flags: seq<bool>, ruling: Ruling)
    requires cs != [] && |flags| == |cs| - 1 && ruling == Rule(r, seen, cs[..|cs| - 1], cs[|cs| - 1])
    requires Stand(r, seen, cs[..|cs| - 1], out, At(flags, true), At(flags, false))
    ensures var more := flags + [!ruling.Skip?]; Stand(r, seen, cs, Put(out, cs[|cs| - 1], ruling), At(more, true), At(more, false))
  {
    AtOneMore(flags, !ruling.Skip?, true);
    AtOneMore(flags, !ruling.Skip?, false);
    StandStep(r, seen, cs, out, At(flags, true), At(flags, false), ruling);
  }

  // ---- One record a key ----

  /** A strong key is kept at most once; a second record under a weak key carries a title
      that disagrees with the first's, and is flagged. */
  lemma SecondKeptIsFlagged(r: Rules, seen: set<string>, cs: seq<Candidate>, i: nat, j: nat)
    requires i < j < |cs| && cs[i].identity == cs[j].identity
    requires Keeps(r, seen, cs, i) && Keeps(r, seen, cs, j)
    ensures Rule(r, seen, cs[..j], cs[j]).KeepFlagged? && Weak(cs[j].identity)
  {
    HolderIs(r, seen, cs[..j], cs[j].identity);
    assert cs[..j][i] == cs[i];
  }

  /** A key is kept exactly when someone passes under it, and then exactly one of its kept
      records is unflagged: the first to pass. */
  lemma KeptOnceUnflagged(r: Rules, seen: set<string>, cs: seq<Candidate>, key: string)
    ensures (exists i :: 0 <= i < |cs| && cs[i].identity == key && Passes(r, seen, cs[i]))
        <==> exists i :: 0 <= i < |cs| && cs[i].identity == key && Rule(r, seen, cs[..i], cs[i]) == Keep
    ensures forall i, j :: 0 <= i < j < |cs| && cs[i].identity == key == cs[j].identity ==>
              !(Rule(r, seen, cs[..i], cs[i]) == Keep == Rule(r, seen, cs[..j], cs[j]))
  {
    forall i, j | 0 <= i < j < |cs| && cs[i].identity == key == cs[j].identity && Rule(r, seen, cs[..i], cs[i]) == Keep
      ensures Rule(r, seen, cs[..j], cs[j]) != Keep
    {
      HolderIs(r, seen, cs[..j], cs[j].identity);
      assert cs[..j][i] == cs[i];
    }
    if exists i :: 0 <= i < |cs| && cs[i].identity == key && Passes(r, seen, cs[i]) {
      FirstIsKept(r, seen, cs, key);
    }
  }

  lemma {:induction false} FirstIsKept(r: Rules, seen: set<string>, cs: seq<Candidate>, key: string)
    requires exists i :: 0 <= i < |cs| && cs[i].identity == key && Passes(r, seen, cs[i])
    ensures exists i :: 0 <= i < |cs| && cs[i].identity == key && Rule(r, seen, cs[..i], cs[i]) == Keep
  {
    var n := |cs| - 1;
    if i :| 0 <= i < n && cs[i].identity == key && Passes(r, seen, cs[i]) {
      assert cs[..n][i] == cs[i];
      FirstIsKept(r, seen, cs[..n], key);
      var m :| 0 <= m < n && cs[..n][m].identity == key && Rule(r, seen, cs[..n][..m], cs[..n][m]) == Keep;
      assert cs[..n][..m] == cs[..m] && cs[..n][m] == cs[m];
    } else {
      HolderIs(r, seen, cs[..n], key);
      assert Rule(r, seen, cs[..n], cs[n]) == Keep;
    }
  }

  // ---- Batching ----

  ghost function KeyOf(cs: seq<Candidate>): set<string> { set i | 0 <= i < |cs| :: cs[i].identity }

  ghost predicate Kept(r: Rules, seen: set<string>, cs: seq<Candidate>, key: string) {
    exists i :: 0 <= i < |cs| && cs[i].identity == key && Passes(r, seen, cs[i])
  }

  /** The keys a batch keeps are those someone passes under. */
  lemma {:induction false} KeptKeys(r: Rules, seen: set<string>, cs: seq<Candidate>)
    ensures forall key :: key in KeyOf(Filtered(r, seen, cs).kept) <==> Kept(r, seen, cs, key)
  {
    if cs != [] {
      var n := |cs| - 1;
      KeptKeys(r, seen, cs[..n]);
      HolderIs(r, seen, cs[..n], cs[n].identity);
      var was, now := Filtered(r, seen, cs[..n]).kept, Filtered(r, seen, cs).kept;
      forall key ensures key in KeyOf(now) <==> Kept(r, seen, cs, key) {
        KeptGrows(r, seen, cs[..n], cs[n], key);
        assert cs == cs[..n] + [cs[n]];
        KeysGrow(was, cs[n], key);
      }
    }
  }

  lemma KeptGrows(r: Rules, seen: set<string>, cs: seq<Candidate>, c: Candidate, key: string)
    ensures Kept(r, seen, cs + [c], key) <==> Kept(r, seen, cs, key) || (c.identity == key && Passes(r, seen, c))
  {
    assert (cs + [c])[|cs|] == c;
    if i :| 0 <= i < |cs| && cs[i].identity == key && Passes(r, seen, cs[i]) { assert (cs + [c])[i] == cs[i]; }
  }

  lemma KeysGrow(cs: seq<Candidate>, c: Candidate, key: string)
    ensures key in KeyOf(cs + [c]) <==> key in KeyOf(cs) || c.identity == key
  {
    assert (cs + [c])[|cs|] == c;
    if i :| 0 <= i < |cs| && cs[i].identity == key { assert (cs + [c])[i] == cs[i]; }
  }

  function Flat(batches: seq<seq<Candidate>>): seq<Candidate> {
    if batches == [] then [] else Flat(batches[..|batches| - 1]) + batches[|batches| - 1]
  }

  /** The keys kept over a run of batches, each filtered against everything kept before it. */
  ghost function KeptOver(r: Rules, seen: set<string>, batches: seq<seq<Candidate>>): set<string> {
    if batches == [] then {}
    else
      var before := KeptOver(r, seen, batches[..|batches| - 1]);
      before + KeyOf(Filtered(r, seen + before, batches[|batches| - 1]).kept)
  }

  /** The keys kept do not depend on where the stream is cut into batches. */
  lemma {:induction false} KeptOverIsBatchFree(r: Rules, seen: set<string>, batches: seq<seq<Candidate>>)
    ensures forall key :: key in KeptOver(r, seen, batches) <==> Kept(r, seen, Flat(batches), key)
  {
    if batches != [] {
      var n := |batches| - 1;
      var before, last, flat := KeptOver(r, seen, batches[..n]), batches[n], Flat(batches[..n]);
      KeptOverIsBatchFree(r, seen, batches[..n]);
      KeptKeys(r, seen + before, last);
      forall key ensures key in KeptOver(r, seen, batches) <==> Kept(r, seen, Flat(batches), key) {
        KeptConcat(r, seen, flat, last, key);
      }
    }
  }

  lemma KeptConcat(r: Rules, seen: set<string>, a: seq<Candidate>, b: seq<Candidate>, key: string)
    ensures Kept(r, seen, a + b, key) <==> Kept(r, seen, a, key) || Kept(r, seen, b, key)
  {
    if i :| 0 <= i < |a| && a[i].identity == key && Passes(r, seen, a[i]) { assert (a + b)[i] == a[i]; }
    if i :| 0 <= i < |b| && b[i].identity == key && Passes(r, seen, b[i]) { assert (a + b)[|a| + i] == b[i]; }
  }

  lemma BatchingInvariance(r: Rules, seen: set<string>, xs: seq<seq<Candidate>>, ys: seq<seq<Candidate>>)
    requires Flat(xs) == Flat(ys)
    ensures KeptOver(r, seen, xs) == KeptOver(r, seen, ys)
  {
    KeptOverIsBatchFree(r, seen, xs);
    KeptOverIsBatchFree(r, seen, ys);
  }

  /** Across batches nobody is kept again: a later batch keeps only keys no earlier one kept. */
  lemma KeptInOneBatch(r: Rules, seen: set<string>, batches: seq<seq<Candidate>>, next: seq<Candidate>, key: string)
    requires key in KeptOver(r, seen, batches) || key in seen
    ensures key !in KeyOf(Filtered(r, seen + KeptOver(r, seen, batches), next).kept)
  {
    KeptKeys(r, seen + KeptOver(r, seen, batches), next);
  }

  // ---- What reaches the filter in a run ----

  /** A query's candidates are merged before they are filtered, so no weak key ever collides
      there: nobody is flagged or skipped as a duplicate, and whoever is kept is new to the
      campaign and kept once. */
  lemma MergedBatchKeepsOnce(r: Rules, seen: set<string>, collected: seq<Candidate>)
    requires KeyedFold.All(collected, OwnPagesUnique)
    ensures var out := Filtered(r, seen, Merged(collected));
            && out.flagged == []
            && (forall i :: 0 <= i < |out.skipped| ==> !out.skipped[i].1.DuplicateInBatch?)
            && (forall i :: 0 <= i < |out.kept| ==> out.kept[i].identity !in seen)
            && forall i, j :: 0 <= i < j < |out.kept| ==> out.kept[i].identity != out.kept[j].identity
  {
    MergeKeepsOrder(collected);
    DistinctKeepsOnce(r, seen, Merged(collected));
  }

  /** Nobody is flagged or a duplicate, and whoever is kept comes from the batch, new and once. */
  ghost predicate Once(out: Result, seen: set<string>, cs: seq<Candidate>) {
    && out.flagged == []
    && (forall i :: 0 <= i < |out.skipped| ==> !out.skipped[i].1.DuplicateInBatch?)
    && (forall i :: 0 <= i < |out.kept| ==> out.kept[i].identity !in seen && out.kept[i] in cs)
    && forall i, j :: 0 <= i < j < |out.kept| ==> out.kept[i].identity != out.kept[j].identity
  }

  lemma {:induction false} DistinctKeepsOnce(r: Rules, seen: set<string>, cs: seq<Candidate>)
    requires forall i, j :: 0 <= i < j < |cs| ==> cs[i].identity != cs[j].identity
    ensures Once(Filtered(r, seen, cs), seen, cs)
  {
    if cs != [] {
      var n := |cs| - 1;
      DistinctKeepsOnce(r, seen, cs[..n]);
      HolderIs(r, seen, cs[..n], cs[n].identity);
      OnceGrows(Filtered(r, seen, cs[..n]), seen, cs[..n], cs[n], Rule(r, seen, cs[..n], cs[n]));
      assert cs[..n] + [cs[n]] == cs;
    }
  }

  lemma OnceGrows(out: Result, seen: set<string>, cs: seq<Candidate>, c: Candidate, ruling: Ruling)
    requires Once(out, seen, cs) && forall d :: d in cs ==> d.identity != c.identity
    requires ruling == Keep ==> c.identity !in seen
    requires !ruling.KeepFlagged? && (ruling.Skip? ==> !ruling.reason.DuplicateInBatch?)
    ensures Once(Put(out, c, ruling), seen, cs + [c])
  {
  }

}
