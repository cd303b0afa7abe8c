/** One candidate row and one side-effect row of the runtime store, and what each
    durable write does to them.  Every function here is one committed transaction;
    a crash can fall between any two of them. */
module Lifecycle {
  import opened Wrappers
  import opened Verdicts

  datatype Life = Discovered | SnippetExtracted | FullStarted | FullTerminal | FailedRetryable

  /** A row of `candidates` together with what its attempts add to it:
      `record` says a readable candidate record is stored for the person, `open` that an
      attempt is still marked started, `touched` that a recruiter recorded a decision. */
  datatype Row = Row(life: Life, verdict: Option<Stored>, record: bool, open: bool,
                     touched: bool, hash: string)

  /** The lifecycle transitions the store's guard lets through. */
  predicate Allowed(from: Life, to: Life) {
    from == to ||
    match from
    case Discovered => to == SnippetExtracted || to == FailedRetryable
    case SnippetExtracted => to == FullStarted || to == FailedRetryable
    case FullStarted => to == FullTerminal || to == FailedRetryable
    case FullTerminal => to == SnippetExtracted || to == FullStarted || to == FailedRetryable
    case FailedRetryable => to == SnippetExtracted || to == FullStarted
  }

  /** The store never re-enters a save-family verdict. */
  predicate SaveGuard(r: Row, to: Life) {
    (r.life == FullTerminal && (to == SnippetExtracted || to == FullStarted) && r.verdict.Some?)
    ==> !SaveFamily(r.verdict.value.decision)
  }

  /** The moves the store refuses: out of any state but the listed ones, and out of a save-family
      verdict back into an earlier stage. */
  lemma RefusedMoves(r: Row, to: Life)
    ensures Allowed(r.life, to) <==>
              r.life == to
              || (r.life, to) in {(Discovered, SnippetExtracted), (Discovered, FailedRetryable),
                                  (SnippetExtracted, FullStarted), (SnippetExtracted, FailedRetryable),
                                  (FullStarted, FullTerminal), (FullStarted, FailedRetryable),
                                  (FullTerminal, SnippetExtracted), (FullTerminal, FullStarted), (FullTerminal, FailedRetryable),
                                  (FailedRetryable, SnippetExtracted), (FailedRetryable, FullStarted)}
    ensures !SaveGuard(r, to) <==>
              r.life == FullTerminal && (to == SnippetExtracted || to == FullStarted) && r.verdict.Some?
              && (var d := r.verdict.value.decision; d == Save || d == InferentialSave || d == TransferableSave || d == SignalSave)
  {
  }

  // ---- Writes of `_persist_candidate` ----

  function Ensured(): Row { Row(Discovered, None, false, false, false, "") }

  function Rediscovered(r: Row): Row {
    if r.life == FullTerminal then r else r.(life := Discovered)
  }

  /** The snippet attempt starts; its payload carries the candidate record. */
  function SnippetStarted(r: Row): Row { r.(record := true, open := true) }

  function SnippetFinished(r: Row): Row {
    r.(life := SnippetExtracted, verdict := None, open := false)
  }

  /** What persisting leaves of a person, write by write; somebody already judged is left as they
      are by the second. */
  lemma PersistByField(r: Row)
    ensures Ensured() == Row(Discovered, None, false, false, false, "")
    ensures Rediscovered(r) == if r.life == FullTerminal then r else Row(Discovered, r.verdict, r.record, r.open, r.touched, r.hash)
    ensures SnippetStarted(r) == Row(r.life, r.verdict, true, true, r.touched, r.hash)
    ensures SnippetFinished(SnippetStarted(r)) == Row(SnippetExtracted, None, true, false, r.touched, r.hash)
  {
  }

  // ---- Writes of `_judge_one` ----

  /** `start_stage`, first write: the state moves and the terminal columns empty. */
  function StageMarked(r: Row): Row { r.(life := FullStarted, verdict := None) }

  /** `start_stage`, second write: the attempt row. */
  function AttemptOpened(r: Row): Row { r.(open := true) }

  function StageSucceeded(r: Row, v: Stored, hash: string): Row {
    r.(life := FullTerminal, verdict := Some(v), open := false,
       hash := if hash == "" then r.hash else hash)
  }

  function StageFailed(r: Row): Row { r.(life := FailedRetryable, open := false) }

  /** What one judgment leaves in the row. */
  function Judged(r: Row, s: Settlement, hash: string): Row {
    match s.stored
    case Some(v) => StageSucceeded(r, v, hash)
    case None => StageFailed(r)
  }

  // ---- Writes between sessions ----

  /** The re-judge empties a verdict; the row keeps its full-terminal state. */
  function VerdictCleared(r: Row): Row { r.(verdict := None) }

  /** A resume turns an attempt the last session left open into a retryable failure. */
  function Reconciled(r: Row): Row {
    if !r.open then r
    else r.(open := false, life := if r.life == FullTerminal then FullTerminal else FailedRetryable)
  }

  // ---- Which pass of a resume takes a row up ----

  predicate PrePass(l: Life) { l == Discovered || l == SnippetExtracted || l == FailedRetryable }

  predicate PendingPass(r: Row) { PrePass(r.life) && r.record }

  predicate HasVerdict(r: Row) { r.life == FullTerminal && r.verdict.Some? }

  predicate ClearedRow(r: Row) { r.life == FullTerminal && r.verdict.None? }

  /** Started, with no attempt to reconcile: no pass of any resume looks at it. */
  predicate Stranded(r: Row) { r.life == FullStarted && !r.open }

  // ---- Side effects ----

  datatype EffectStatus = Pending | Succeeded | Failed | Interrupted | FailedPermanent

  datatype Effect = Effect(status: EffectStatus, tries: nat)

  const MAX_TRIES: nat := 3

  /** What beginning a side effect leaves in its row, and whether to execute it. */
  function Begun(e: Option<Effect>): (Effect, bool) {
    match e
    case None => (Effect(Pending, 1), true)
    case Some(x) =>
      match x.status
      case Interrupted => (x.(status := Pending), true)
      case Failed =>
        if x.tries < MAX_TRIES then (Effect(Pending, x.tries + 1), true)
        else (x.(status := FailedPermanent), false)
      case FailedPermanent =>
        if x.tries < MAX_TRIES then (Effect(Pending, x.tries + 1), true) else (x, false)
      case _ => (x, false)
  }

  function Completed(e: Effect, succeeded: bool): Effect {
    e.(status := if succeeded then Succeeded else Failed)
  }

  function EffectReconciled(e: Effect): Effect {
    if e.status == Pending then e.(status := Interrupted) else e
  }

  predicate Landed(e: Option<Effect>) { e.Some? && e.value.status == Succeeded }

  /** A beginning executes exactly when the effect has not landed, is not already in
      progress, and has attempts left. */
  predicate Executable(e: Option<Effect>) {
    e.None? || e.value.status == Interrupted ||
    ((e.value.status == Failed || e.value.status == FailedPermanent) && e.value.tries < MAX_TRIES)
  }

  lemma BegunExecutes(e: Option<Effect>)
    ensures Begun(e).1 <==> Executable(e)
    ensures Begun(e).1 ==> Begun(e).0.status == Pending
    ensures !Begun(e).1 ==> (Landed(e) <==> Begun(e).0.status == Succeeded) && !Executable(Some(Begun(e).0))
    ensures !Begun(e).1 && e.value.status != Failed ==> Begun(e).0 == e.value
  {
  }
}
