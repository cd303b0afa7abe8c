/** Verdicts, buckets and the three places that read them.

    A person's verdict is written once by the live path (`_judge_one`), read by the
    replay of interrupted saves, and read again when the slate is built.  The three
    must agree about who is on the short list. */
module Verdicts {
  import opened Wrappers

  datatype Decision =
    | Save | InferentialSave | TransferableSave | SignalSave
    | Reject
    | ReviewInferred | ReviewFlagged
    | ParseFailure | JudgmentFailure
    | Other(text: string)

  datatype Bucket = ShortList | WorthALook | Rejected | Failure

  /** What produced a verdict: the model, or one of the deterministic gates. */
  datatype Path = Model | EmployerGate | AlumniGate | LocationGate

  /** A verdict as the terminal payload stores it. */
  datatype Stored = Stored(decision: Decision, path: Path, split: bool, fingerprint: string)

  /** One judgment as the judge, or the re-judge pass, hands it over. */
  datatype Outcome = Outcome(decision: Decision, bucket: Bucket)

  /** What the brief's deterministic checks say about one person's record. */
  datatype Checks = Checks(employer: bool, alumni: bool, outside: bool, outOfScope: bool)
  {
    predicate Gated() { employer || alumni || outside }
  }

  predicate SaveFamily(d: Decision) {
    d.Save? || d.InferentialSave? || d.TransferableSave? || d.SignalSave?
  }

  function Classify(d: Decision): Bucket {
    if d.ParseFailure? || d.JudgmentFailure? then Failure
    else if d.Save? || d.InferentialSave? then ShortList
    else if SaveFamily(d) || d.ReviewInferred? || d.ReviewFlagged? then WorthALook
    else Rejected
  }

  predicate OnSlate(b: Bucket) { b == ShortList || b == WorthALook }

  /** An outcome straight from the judge carries its decision's own bucket. */
  predicate Sampled(o: Outcome) { o.bucket == Classify(o.decision) }

  /** An outcome the live path may be given: a sample, or a split the re-judge
      already bucketed as worth a look. */
  predicate WellBucketed(o: Outcome, split: bool) {
    if split then o.bucket == WorthALook && OnSlate(Classify(o.decision)) else Sampled(o)
  }

  // ---- The live path ----

  function GatePath(c: Checks): Path {
    if c.employer then EmployerGate else if c.alumni then AlumniGate
    else if c.outside then LocationGate else Model
  }

  /** The current-employer scope check, asked only about save-family verdicts. */
  predicate ScopeNote(c: Checks, d: Decision, b: Bucket) {
    OnSlate(b) && SaveFamily(d) && c.outOfScope
  }

  /** What one judgment writes (nothing on a failed judgment) and the bucket it returns. */
  datatype Settlement = Settlement(stored: Option<Stored>, bucket: Bucket)

  function JudgeOne(c: Checks, o: Outcome, split: bool, fingerprint: string): Settlement {
    if c.Gated() then Settlement(Some(Stored(Reject, GatePath(c), false, "")), Rejected)
    else
      var bucket := if ScopeNote(c, o.decision, o.bucket) && o.bucket == ShortList
                    then WorthALook else o.bucket;
      if bucket == Failure then Settlement(None, Failure)
      else Settlement(Some(Stored(o.decision, Model, split, fingerprint)), bucket)
  }

  // ---- The replay of interrupted saves ----

  predicate ReplayWrites(c: Checks, v: Stored, landed: bool) {
    && SaveFamily(v.decision) && !landed
    && Classify(v.decision) == ShortList
    && !c.employer && !c.alumni && !c.outOfScope && !c.outside
    && !v.split
  }

  // ---- The slate ----

  datatype Section =
    | OnShortList | OnWorthALook | AlreadyKnown | OffSlate
    | ExcludedEmployer | ExcludedAlumni | ExcludedLocation

  predicate IsGate(p: Path) { p == EmployerGate || p == AlumniGate }

  /** The bucket the slate files a stored verdict under, once nobody excluded it.
      `readable` says whether the stored record could be rebuilt. */
  function SlateBucket(c: Checks, v: Stored, readable: bool): Bucket {
    var b0 := Classify(v.decision);
    var b1 := if !IsGate(v.path) && readable && ScopeNote(c, v.decision, b0) && b0 == ShortList
              then WorthALook else b0;
    if v.split && OnSlate(b1) then WorthALook else b1
  }

  function SectionOf(c: Checks, v: Stored, readable: bool, known: bool): Section {
    if !IsGate(v.path) && v.path != LocationGate && OnSlate(Classify(v.decision)) && readable
       && c.Gated() then
      if c.employer then ExcludedEmployer
      else if c.alumni then ExcludedAlumni
      else ExcludedLocation
    else if known then AlreadyKnown
    else match SlateBucket(c, v, readable)
         case ShortList => OnShortList
         case WorthALook => OnWorthALook
         case _ => OffSlate
  }

  /** The three readers agree.  For an unchanged brief, the bucket the live path
      returned is the short list exactly when a replay would write the person to the
      workspace, and exactly when the slate lists them (or files them as already
      known); worth-a-look and reject agree with the slate too. */
  lemma LiveReplaySlateAgree(c: Checks, o: Outcome, split: bool, fp: string, known: bool)
    requires WellBucketed(o, split)
    requires JudgeOne(c, o, split, fp).stored.Some?
    ensures var live := JudgeOne(c, o, split, fp);
            var v := live.stored.value;
            && (live.bucket == ShortList <==> ReplayWrites(c, v, false))
            && !ReplayWrites(c, v, true)
            && live.bucket == SlateBucket(c, v, true)
            && SectionOf(c, v, true, known) ==
               (if known then AlreadyKnown
                else if live.bucket == ShortList then OnShortList
                else if live.bucket == WorthALook then OnWorthALook
                else OffSlate)
  {
  }

  /** When the brief changes under a stored verdict, the slate and the replay still
      agree: whoever the slate puts on the short list (or would, were they not already
      known) is exactly whom a replay would still write. */
  lemma ReplaySlateAgreeUnderAnyBrief(c: Checks, v: Stored)
    requires v.path != Model ==> v.decision == Reject
    ensures ReplayWrites(c, v, false) <==> SectionOf(c, v, true, false) == OnShortList
  {
  }

  // ---- Read off the decisions ----

  /** What a judgment writes and returns, decision by decision: the first gate that rules rejects;
      a failed call writes nothing; a save in plain words or an inferred one is on the short list
      when it is neither split nor out of scope; every other save, and a legacy review, is worth
      a look. */
  lemma JudgedByDecision(c: Checks, o: Outcome, split: bool, fp: string)
    requires WellBucketed(o, split)
    ensures var live, d := JudgeOne(c, o, split, fp), o.decision;
            var confident := d == Save || d == InferentialSave;
            var hedged := d == TransferableSave || d == SignalSave || d == ReviewInferred || d == ReviewFlagged;
            if c.employer then live == Settlement(Some(Stored(Reject, EmployerGate, false, "")), Rejected)
            else if c.alumni then live == Settlement(Some(Stored(Reject, AlumniGate, false, "")), Rejected)
            else if c.outside then live == Settlement(Some(Stored(Reject, LocationGate, false, "")), Rejected)
            else if d == ParseFailure || d == JudgmentFailure then live == Settlement(None, Failure)
            else
              && live.stored == Some(Stored(d, Model, split, fp))
              && (split ==> confident || hedged)
              && live.bucket == if confident && !split && !c.outOfScope then ShortList
                                else if confident || hedged then WorthALook
                                else Rejected
  {
  }

  /** Whom a replay writes: only a save in plain words or an inferred one, undivided, not landed
      yet, which no gate and no scope check of the brief holds back. */
  lemma ReplayByDecision(c: Checks, v: Stored, landed: bool)
    ensures ReplayWrites(c, v, landed) <==>
              && (v.decision == Save || v.decision == InferentialSave) && !v.split && !landed
              && !c.employer && !c.alumni && !c.outside && !c.outOfScope
  {
  }

  /** Where the slate files a stored verdict, decision by decision. */
  lemma SectionByDecision(c: Checks, v: Stored, readable: bool, known: bool)
    ensures var d := v.decision;
            var confident := d == Save || d == InferentialSave;
            var hedged := d == TransferableSave || d == SignalSave || d == ReviewInferred || d == ReviewFlagged;
            var gated := v.path == Model && (confident || hedged) && readable && (c.employer || c.alumni || c.outside);
            var scoped := readable && c.outOfScope && v.path != EmployerGate && v.path != AlumniGate;
            SectionOf(c, v, readable, known) ==
              if gated && c.employer then ExcludedEmployer
              else if gated && c.alumni then ExcludedAlumni
              else if gated then ExcludedLocation
              else if known then AlreadyKnown
              else if confident && !v.split && !scoped then OnShortList
              else if confident || hedged then OnWorthALook
              else OffSlate
  {
  }
}
