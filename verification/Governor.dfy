/** The search-space exhaustion governor: counters kept step by step, against the history
    of everything a channel was told. */
module Governor {
  /** One completed query, as `record_query_result` is told about it. */
  datatype Result = Result(saves: int, candidates: int, preDedup: int, postDedup: int)

  datatype Status = Active | Degraded | Exhausted

  datatype ChannelStats = ChannelStats(
    queriesRun: nat, totalCandidates: int, totalSaves: int, totalPreDedup: int, totalDedupFiltered: int,
    zeroResultStreak: nat, zeroSaveStreak: nat, status: Status)

  const FRESH := ChannelStats(0, 0, 0, 0, 0, 0, 0, Active)

  function DedupRate(c: ChannelStats): real {
    if c.totalPreDedup == 0 then 0.0 else c.totalDedupFiltered as real / c.totalPreDedup as real
  }

  /** `evaluate_channel`, branch by branch. */
  function Evaluate(channel: string, c: ChannelStats): Status {
    if c.zeroResultStreak >= 3 then Exhausted
    else if c.zeroSaveStreak >= 10 then Exhausted
    else if DedupRate(c) > 0.7 && c.queriesRun >= 5 then Exhausted
    else if c.zeroSaveStreak >= 5 && c.queriesRun >= 5 then Degraded
    else if channel == "user_search" && DedupRate(c) > 0.5 && c.queriesRun >= 10 then Degraded
    else Active
  }

  datatype Field = Saves | Candidates | PreDedup | Filtered

  function Get(r: Result, f: Field): int {
    match f
    case Saves => r.saves
    case Candidates => r.candidates
    case PreDedup => r.preDedup
    case Filtered => r.preDedup - r.postDedup
  }

  function Sum(h: seq<Result>, f: Field): int {
    if h == [] then 0 else Sum(h[..|h| - 1], f) + Get(h[|h| - 1], f)
  }

  lemma SumGrows(h: seq<Result>, r: Result)
    ensures forall f :: Sum(h + [r], f) == Sum(h, f) + Get(r, f)
  {
    assert (h + [r])[..|h|] == h;
  }

  /** `n` is the length of the longest suffix of the history that is zero in `f`. */
  ghost predicate ZeroSuffix(h: seq<Result>, f: Field, n: nat) {
    && n <= |h|
    && (forall i :: |h| - n <= i < |h| ==> Get(h[i], f) == 0)
    && (n < |h| ==> Get(h[|h| - n - 1], f) != 0)
  }

  lemma ZeroSuffixUnique(h: seq<Result>, f: Field, m: nat, n: nat)
    requires ZeroSuffix(h, f, m) && ZeroSuffix(h, f, n)
    ensures m == n
  {
    LongZeroRun(h, f, n, m);
    LongZeroRun(h, f, m, n);
  }

  lemma StreakGrows(h: seq<Result>, r: Result, f: Field, n: nat)
    requires ZeroSuffix(h, f, n)
    ensures ZeroSuffix(h + [r], f, if Get(r, f) == 0 then n + 1 else 0)
  {
    if Get(r, f) == 0 && n < |h| {
      assert (h + [r])[|h| - n - 1] == h[|h| - n - 1];
    }
  }

  /** The stats a history amounts to, said without counting step by step. */
  ghost predicate Summarises(channel: string, c: ChannelStats, h: seq<Result>) {
    && c.queriesRun == |h|
    && c.totalCandidates == Sum(h, Candidates) && c.totalSaves == Sum(h, Saves)
    && c.totalPreDedup == Sum(h, PreDedup) && c.totalDedupFiltered == Sum(h, Filtered)
    && ZeroSuffix(h, Candidates, c.zeroResultStreak) && ZeroSuffix(h, Saves, c.zeroSaveStreak)
    && c.status == (if h == [] then Active else Evaluate(channel, c))
  }

  /** One query's numbers, added to a channel's counters. */
  method Counted(channel: string, before: ChannelStats, r: Result, ghost h: seq<Result>) returns (c: ChannelStats)
    requires Summarises(channel, before, h)
    ensures Summarises(channel, c, h + [r])
    ensures c.queriesRun == before.queriesRun + 1
    ensures c.totalCandidates == before.totalCandidates + r.candidates && c.totalSaves == before.totalSaves + r.saves
    ensures c.totalPreDedup == before.totalPreDedup + r.preDedup
    ensures c.totalDedupFiltered == before.totalDedupFiltered + r.preDedup - r.postDedup
    ensures c.zeroResultStreak == if r.candidates == 0 then before.zeroResultStreak + 1 else 0
    ensures c.zeroSaveStreak == if r.saves == 0 then before.zeroSaveStreak + 1 else 0
  {
    SumGrows(h, r);
    StreakGrows(h, r, Candidates, before.zeroResultStreak);
    StreakGrows(h, r, Saves, before.zeroSaveStreak);
    c := before.(queriesRun := before.queriesRun + 1,
                 totalCandidates := before.totalCandidates + r.candidates,
                 totalSaves := before.totalSaves + r.saves,
                 totalPreDedup := before.totalPreDedup + r.preDedup,
                 totalDedupFiltered := before.totalDedupFiltered + (r.preDedup - r.postDedup));
    if r.candidates == 0 {
      c := c.(zeroResultStreak := c.zeroResultStreak + 1);
    } else {
      c := c.(zeroResultStreak := 0);
    }
    if r.saves == 0 {
      c := c.(zeroSaveStreak := c.zeroSaveStreak + 1);
    } else {
      c := c.(zeroSaveStreak := 0);
    }
    c := c.(status := Evaluate(channel, c));
  }

  class ExhaustionState {
    var channels: map<string, ChannelStats>
    ghost var history: map<string, seq<Result>>

    ghost predicate Valid()
      reads this
    {
      && channels.Keys == history.Keys
      && forall ch :: ch in channels ==> history[ch] != [] && Summarises(ch, channels[ch], history[ch])
    }

    constructor ()
      ensures Valid() && channels == map[] && history == map[]
    {
      channels, history := map[], map[];
    }

    /** Recording keeps every counter equal to what the grown history says. */
    method RecordQueryResult(channel: string, r: Result)
      requires Valid()
      modifies this
      ensures Valid()
      ensures history == old(history)[channel := (if channel in old(history) then old(history)[channel] else []) + [r]]
      ensures forall ch :: ch in channels && ch != channel ==> ch in old(channels) && channels[ch] == old(channels)[ch]
    {
      ghost var h := if channel in history then history[channel] else [];
      var c := Counted(channel, if channel in channels then channels[channel] else FRESH, r, h);
      channels := channels[channel := c];
      history := history[channel := h + [r]];
    }

    /** The exhausted and the degraded channels, read off the histories. */
    method Report() returns (exhausted: set<string>, degraded: set<string>)
      requires Valid()
      ensures exhausted !! degraded
      ensures forall ch :: ch in exhausted <==> ch in history && channels[ch].status == Exhausted
      ensures forall ch :: ch in degraded <==> ch in history && channels[ch].status == Degraded
    {
      exhausted := set ch | ch in channels && channels[ch].status == Exhausted;
      degraded := set ch | ch in channels && channels[ch].status == Degraded;
    }
  }

  /** The stats are a function of the history alone. */
  lemma SummaryUnique(channel: string, c: ChannelStats, d: ChannelStats, h: seq<Result>)
    requires Summarises(channel, c, h) && Summarises(channel, d, h)
    ensures c == d
  {
    ZeroSuffixUnique(h, Candidates, c.zeroResultStreak, d.zeroResultStreak);
    ZeroSuffixUnique(h, Saves, c.zeroSaveStreak, d.zeroSaveStreak);
  }

  /** The status of a channel, from its history: the `queries_run >= 5` beside the
      five-query save streak is implied, and the streak rules win over the rate rules. */
  lemma StatusOfHistory(channel: string, c: ChannelStats, h: seq<Result>)
    requires Summarises(channel, c, h) && h != []
    ensures c.zeroSaveStreak >= 5 ==> c.queriesRun >= 5
    ensures c.status == Exhausted <==>
              || (|h| >= 3 && forall i :: |h| - 3 <= i < |h| ==> h[i].candidates == 0)
              || (|h| >= 10 && forall i :: |h| - 10 <= i < |h| ==> h[i].saves == 0)
              || (|h| >= 5 && c.totalPreDedup != 0 && c.totalDedupFiltered as real / c.totalPreDedup as real > 0.7)
    ensures c.status == Degraded <==>
              && c.status != Exhausted
              && (|| (|h| >= 5 && forall i :: |h| - 5 <= i < |h| ==> h[i].saves == 0)
                  || (channel == "user_search" && |h| >= 10
                      && c.totalPreDedup != 0 && c.totalDedupFiltered as real / c.totalPreDedup as real > 0.5))
  {
    LongZeroRun(h, Candidates, c.zeroResultStreak, 3);
    LongZeroRun(h, Saves, c.zeroSaveStreak, 10);
    LongZeroRun(h, Saves, c.zeroSaveStreak, 5);
  }

  lemma LongZeroRun(h: seq<Result>, f: Field, n: nat, k: nat)
    requires ZeroSuffix(h, f, n)
    ensures n >= k <==> |h| >= k && forall i :: |h| - k <= i < |h| ==> Get(h[i], f) == 0
  {
    if n < k && |h| >= k {
      assert Get(h[|h| - n - 1], f) != 0;
    }
  }
}
