/** What each write and each pass of a session does to a person, said field by field rather than
    by the functions the passes are built of. */
module SessionRules {
  import opened Wrappers
  import opened Verdicts
  import opened Rejudge
  import opened Lifecycle
  import opened Campaign
  import opened Session

  /** The effect row a save leaves: a first save and a retry of a failed one count an attempt,
      finishing an interrupted one does not; three failures are final; a landed save, and one in
      progress, stay as they are. */
  lemma SaveByEffect(e: Option<Effect>, ok: bool)
    ensures var said := if ok then Succeeded else Failed;
            Saved(e, ok) ==
              if e == None then Effect(said, 1)
              else if e.value.status == Interrupted then Effect(said, e.value.tries)
              else if (e.value.status == Failed || e.value.status == FailedPermanent) && e.value.tries < 3
                then Effect(said, e.value.tries + 1)
              else if e.value.status == Failed then Effect(FailedPermanent, e.value.tries)
              else e.value
  {
  }

  /** What a session finds once it has booted: an open attempt failed, unless its verdict is in,
      and a save in progress is interrupted; nothing else changed. */
  lemma ReconcileByField(c: Cell)
    ensures var d := ReconcileCell(c);
            && d.row.verdict == c.row.verdict && d.row.record == c.row.record
            && d.row.touched == c.row.touched && d.row.hash == c.row.hash && !d.row.open
            && d.row.life == (if c.row.open && c.row.life != FullTerminal then FailedRetryable else c.row.life)
            && d.effect == match c.effect
                           case None => None
                           case Some(e) => Some(Effect(if e.status == Pending then Interrupted else e.status, e.tries))
  {
  }

  /** What a judgment leaves of a person: a gate's rejection without asking the model, a row to
      retry when the call failed, else the model's verdict under the session's criteria; and a
      save only for the short list. */
  lemma JudgeByDecision(c: Cell, b: Brief, k: Key, o: Outcome, split: bool, ok: bool)
    requires WellBucketed(o, split)
    ensures var r, d, j := c.row, o.decision, JudgeCell(c, b, k, o, split, ok);
            var hash := if b.hash == "" then r.hash else b.hash;
            if k in b.employer || k in b.alumni || k in b.outside then
              var gate := if k in b.employer then EmployerGate else if k in b.alumni then AlumniGate else LocationGate;
              j == Cell(Row(FullTerminal, Some(Stored(Reject, gate, false, "")), r.record, false, r.touched, hash), c.effect)
            else if d == ParseFailure || d == JudgmentFailure then
              j == Cell(Row(FailedRetryable, None, r.record, false, r.touched, r.hash), c.effect)
            else
              var shortListed := (d == Save || d == InferentialSave) && !split && k !in b.outOfScope;
              j == Cell(Row(FullTerminal, Some(Stored(d, Model, split, b.fingerprint)), r.record, false, r.touched, hash),
                        if shortListed then Some(Saved(c.effect, ok)) else c.effect)
  {
    JudgedByDecision(b.Of(k), o, split, b.fingerprint);
  }

  /** Whom the replay saves, and that it touches no row. */
  lemma ReplayByField(c: Cell, b: Brief, k: Key, ok: bool)
    ensures var replayed := c.row.record && c.row.life == FullTerminal && c.row.verdict.Some?
                            && (c.row.verdict.value.decision == Save || c.row.verdict.value.decision == InferentialSave)
                            && !c.row.verdict.value.split && !(c.effect.Some? && c.effect.value.status == Succeeded)
                            && k !in b.employer && k !in b.alumni && k !in b.outside && k !in b.outOfScope;
            ReplayCell(c, b, k, ok) == if replayed then Cell(c.row, Some(Saved(c.effect, ok))) else c
  {
    if HasVerdict(c.row) { ReplayByDecision(b.Of(k), c.row.verdict.value, Landed(c.effect)); }
  }

  /** Whom the pending pass judges: anybody with a record whose judgment never started or has to
      be tried again. */
  lemma PendingByField(c: Cell, b: Brief, k: Key, o: Outcome, ok: bool)
    requires Sampled(o)
    ensures var pending := c.row.record
                           && (c.row.life == Discovered || c.row.life == SnippetExtracted || c.row.life == FailedRetryable);
            PendingCell(c, b, k, o, ok) == if pending then JudgeCell(c, b, k, o, false, ok) else c
  {
    if PendingPass(c.row) && c.row.life == Discovered {
      var ready := SnippetFinished(SnippetStarted(c.row));
      JudgeByDecision(c.(row := ready), b, k, o, false, ok);
      JudgeByDecision(c, b, k, o, false, ok);
    }
  }

  /** The re-judge pass leaves anybody alone for whom no re-judge is due, or whose samples do not
      decide; a gate of today's brief rejects without them; else the combined sample is judged in
      the old verdict's place. */
  lemma RejudgeByDue(c: Cell, b: Brief, k: Key, opts: OptIn, logged: Option<Stored>, samples: seq<Outcome>, ok: bool)
    ensures var d := RejudgeCell(c, b, k, opts, logged, samples, ok);
            var gated := k in b.employer || k in b.alumni || k in b.outside;
            var rejected := Outcome(Reject, Rejected);
            if !Due(c.row, b, opts) then d == c
            else if gated then d == JudgeCell(c, b, k, rejected, false, ok)
            else if Undecided(c.row.verdict, logged, samples) then d == c
            else exists o, split :: Combined(samples, o, split) && d == JudgeCell(c, b, k, o, split, ok)
  {
    SelectedIsDue(c.row, b, opts);
    UndecidedKeeps(c.row, logged, samples);
    if Due(c.row, b, opts) {
      JudgeIgnoresVerdict(c, b, k, Outcome(Reject, Rejected), false, ok);
      if !b.Of(k).Gated() && !Undecided(c.row.verdict, logged, samples) {
        var r := Resolve(BucketBefore(c.row, logged), samples);
        BecomesCombined(BucketBefore(c.row, logged), samples);
        JudgeIgnoresVerdict(c, b, k, r.outcome, r.split, ok);
        assert Combined(samples, r.outcome, r.split);
      }
    }
  }

  /** Samples that leave the verdict as it is: one failed, or there are fewer than it takes; an
      earlier reject takes one, anything else two. */
  ghost predicate Undecided(verdict: Option<Stored>, logged: Option<Stored>, samples: seq<Outcome>) {
    var prior := if verdict.Some? then verdict else logged;
    var wasReject := prior.Some? && prior.value.decision != Save && prior.value.decision != InferentialSave
                     && prior.value.decision != TransferableSave && prior.value.decision != SignalSave
                     && prior.value.decision != ReviewInferred && prior.value.decision != ReviewFlagged
                     && prior.value.decision != ParseFailure && prior.value.decision != JudgmentFailure;
    || (exists i :: 0 <= i < |samples| && samples[i].bucket == Failure)
    || |samples| < if wasReject then 1 else 2
  }

  /** What samples come to: the first of those that reject, when all do; else the first on the
      short list, or the first that does not reject when none is; and beside a reject that is a
      split, worth a look. */
  ghost predicate Combined(samples: seq<Outcome>, o: Outcome, split: bool) {
    if forall i :: 0 <= i < |samples| ==> samples[i].bucket == Rejected then samples != [] && o == samples[0] && !split
    else
      exists i :: 0 <= i < |samples| && samples[i].bucket != Rejected
        && (if samples[i].bucket == ShortList
            then forall j :: 0 <= j < i ==> samples[j].bucket != ShortList
            else (forall j :: 0 <= j < |samples| ==> samples[j].bucket != ShortList)
                 && forall j :: 0 <= j < i ==> samples[j].bucket == Rejected)
        && (split <==> exists j :: 0 <= j < |samples| && samples[j].bucket == Rejected)
        && o == if split then Outcome(samples[i].decision, WorthALook) else samples[i]
  }

  lemma UndecidedKeeps(r: Row, logged: Option<Stored>, samples: seq<Outcome>)
    ensures Undecided(r.verdict, logged, samples) <==> Resolve(BucketBefore(r, logged), samples).Kept?
  {
    ResolveByBuckets(BucketBefore(r, logged), samples);
  }

  /** The first sample that does not reject, and the first on the short list. */
  lemma {:induction false} FirstOfOthers(samples: seq<Outcome>)
    requires Others(samples) != []
    ensures exists i :: 0 <= i < |samples| && samples[i] == Others(samples)[0] && samples[i].bucket != Rejected
                        && forall j :: 0 <= j < i ==> samples[j].bucket == Rejected
  {
    if samples[0].bucket == Rejected {
      FirstOfOthers(samples[1..]);
      var i :| 0 <= i < |samples[1..]| && samples[1..][i] == Others(samples[1..])[0] && samples[1..][i].bucket != Rejected
                && forall j :: 0 <= j < i ==> samples[1..][j].bucket == Rejected;
      assert samples[i + 1] == samples[1..][i];
      forall j | 0 <= j < i + 1 ensures samples[j].bucket == Rejected {
        if j > 0 { assert samples[j] == samples[1..][j - 1]; }
      }
    } else {
      assert Others(samples)[0] == samples[0];
    }
  }

  lemma {:induction false} FirstShortListed(samples: seq<Outcome>)
    requires FirstShortList(Others(samples)).Some?
    ensures exists i :: 0 <= i < |samples| && Some(samples[i]) == FirstShortList(Others(samples)) && samples[i].bucket == ShortList
                        && forall j :: 0 <= j < i ==> samples[j].bucket != ShortList
  {
    if samples[0].bucket != ShortList {
      var rest := samples[1..];
      assert FirstShortList(Others(samples)) == FirstShortList(Others(rest)) by {
        if samples[0].bucket == Rejected { assert Others(samples) == Others(rest); } else { assert Others(samples)[1..] == Others(rest); }
      }
      FirstShortListed(rest);
      var i :| 0 <= i < |rest| && Some(rest[i]) == FirstShortList(Others(rest)) && rest[i].bucket == ShortList
                && forall j :: 0 <= j < i ==> rest[j].bucket != ShortList;
      assert samples[i + 1] == rest[i];
      forall j | 0 <= j < i + 1 ensures samples[j].bucket != ShortList {
        if j > 0 { assert samples[j] == rest[j - 1]; }
      }
    } else {
      assert Others(samples)[0] == samples[0];
    }
  }

  lemma BecomesCombined(before: Option<Bucket>, samples: seq<Outcome>)
    requires Resolve(before, samples).Becomes?
    ensures var r := Resolve(before, samples); Combined(samples, r.outcome, r.split)
  {
    OthersHold(samples);
    FirstShortListFound(Others(samples));
    if Others(samples) != [] {
      FirstOfOthers(samples);
      if FirstShortList(Others(samples)).Some? { FirstShortListed(samples); }
    }
  }

  /** A judgment writes over the verdict it replaces. */
  lemma JudgeIgnoresVerdict(c: Cell, b: Brief, k: Key, o: Outcome, split: bool, ok: bool)
    ensures JudgeCell(c.(row := VerdictCleared(c.row)), b, k, o, split, ok) == JudgeCell(c, b, k, o, split, ok)
  {
  }

  /** Everybody due among the first `n` whose re-judge is decided, with the verdict it replaces. */
  ghost function DueEvents(cells: map<Key, Cell>, b: Brief, opts: OptIn, log: seq<(Key, Stored)>,
                           samples: Key -> seq<Outcome>, ks: seq<Key>, n: nat): seq<(Key, Stored)>
    requires n <= |ks|
  {
    if n == 0 then []
    else
      var k := ks[n - 1];
      DueEvents(cells, b, opts, log, samples, ks, n - 1)
      + if k in cells && cells[k].row.verdict.Some? && Due(cells[k].row, b, opts)
           && (k in b.employer || k in b.alumni || k in b.outside
               || !Undecided(cells[k].row.verdict, LastLogged(log, k), samples(k)))
        then [(k, cells[k].row.verdict.value)] else []
  }

  /** What the re-judge pass adds to the event log. */
  lemma {:induction false} RejudgeLogsTheDue(cells: map<Key, Cell>, b: Brief, opts: OptIn, log: seq<(Key, Stored)>,
                                             samples: Key -> seq<Outcome>, ks: seq<Key>, n: nat)
    requires n <= |ks|
    ensures Logged(log, Retiring(cells, b, opts, log, samples), ks, n) == log + DueEvents(cells, b, opts, log, samples, ks, n)
  {
    if n == 0 {
      assert log + [] == log;
    } else {
      RejudgeLogsTheDue(cells, b, opts, log, samples, ks, n - 1);
      var k := ks[n - 1];
      if k in cells {
        SelectedIsDue(cells[k].row, b, opts);
        UndecidedKeeps(cells[k].row, LastLogged(log, k), samples(k));
      }
    }
  }

  /** Whom the replay counts as landed, when the workspace takes the write: anybody it saves whose
      save is new, was interrupted, or failed fewer than three times. */
  lemma LandsByField(c: Cell, b: Brief, k: Key)
    ensures Lands(c, b, k) <==>
              && c.row.record && c.row.life == FullTerminal && c.row.verdict.Some?
              && (c.row.verdict.value.decision == Save || c.row.verdict.value.decision == InferentialSave)
              && !c.row.verdict.value.split && k !in b.employer && k !in b.alumni && k !in b.outside && k !in b.outOfScope
              && match c.effect
                 case None => true
                 case Some(e) => e.status == Interrupted || ((e.status == Failed || e.status == FailedPermanent) && e.tries < 3)
  {
    if HasVerdict(c.row) { ReplayByDecision(b.Of(k), c.row.verdict.value, Landed(c.effect)); }
  }

  /** The replay's count is the number of people who land. */
  lemma {:induction false} ReplaysCount(landing: set<Key>, ks: seq<Key>, n: nat)
    requires n <= |ks| && Distinct(ks)
    ensures Replays(landing, ks, n) == |set k | k in landing && k in ks[..n]|
  {
    if n > 0 {
      ReplaysCount(landing, ks, n - 1);
      var was, now := set k | k in landing && k in ks[..n - 1], set k | k in landing && k in ks[..n];
      assert ks[..n] == ks[..n - 1] + [ks[n - 1]];
      assert ks[n - 1] !in ks[..n - 1];
      assert now == was + if ks[n - 1] in landing then {ks[n - 1]} else {};
    } else {
      assert ks[..0] == [];
    }
  }
}
