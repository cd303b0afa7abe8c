/** Any number of concurrent requests on one meter.

    Each request is the state machine of `_request` followed by its settlement; steps of
    different requests interleave freely, because the meter's lock makes each of reserve,
    release and settle one step and everything between them awaits. */
module SpendProtocol {
  import opened Wrappers
  import opened CostMeter
  import opened Request

  datatype Fate = InFlight | Unbilled | Unknown | AnsweredWithUsage | SettledAs(actual: Option<real>)

  /** One dispatch.  `billed` is what Exa truly charged for it, which the meter never sees. */
  datatype Attempt = Attempt(owner: nat, estimate: real, billed: real, answer: Option<Answer>, fate: Fate)

  datatype Phase = Ready | Waiting(id: nat) | Settling(id: nat, total: Option<real>) | Finished(outcome: Outcome)

  datatype Worker = Worker(estimate: real, tries: nat, phase: Phase)

  datatype System = System(cap: real, committed: real, calls: nat, receipts: seq<Receipt>,
                           attempts: seq<Attempt>, workers: seq<Worker>)

  datatype Step =
    | Spawn(estimate: real)
    | Dispatch(w: nat, billed: real)
    | Answered(w: nat, answer: Answer)
    | SettleCall(w: nat)

  predicate Initial(s: System) {
    s.cap >= 0.0 && s == System(s.cap, 0.0, 0, [], [], [])
  }

  predicate Enabled(s: System, step: Step) {
    match step
    case Spawn(estimate) => estimate >= 0.0
    case Dispatch(w, billed) => w < |s.workers| && s.workers[w].phase.Ready? && billed >= 0.0
    case Answered(w, answer) =>
      && w < |s.workers| && s.workers[w].phase.Waiting? && s.workers[w].phase.id < |s.attempts|
    case SettleCall(w) =>
      && w < |s.workers| && s.workers[w].phase.Settling? && s.workers[w].phase.id < |s.attempts|
  }

  function FateOf(a: Answer): Fate {
    if BoughtNothing(a) then Unbilled
    else if a.Refused? then AnsweredWithUsage
    else if a.Ok200? then InFlight
    else Unknown
  }

  function Apply(s: System, step: Step): System
    requires Enabled(s, step)
  {
    match step
    case Spawn(estimate) => s.(workers := s.workers + [Worker(estimate, 0, Ready)])
    case Dispatch(w, billed) =>
      var r := s.workers[w];
      if Fits(s.cap, s.committed, r.estimate) then
        s.(committed := s.committed + r.estimate,
           attempts := s.attempts + [Attempt(w, r.estimate, billed, None, InFlight)],
           workers := s.workers[w := Worker(r.estimate, r.tries + 1, Waiting(|s.attempts|))])
      else
        s.(workers := s.workers[w := r.(phase := Finished(BudgetExhausted))])
    case Answered(w, answer) =>
      var r := s.workers[w];
      var id := r.phase.id;
      var next := match React(r.tries == MAX_RETRIES, answer)
                  case None => Ready
                  case Some(Success(total)) => Settling(id, total)
                  case Some(o) => Finished(o);
      s.(committed := if BoughtNothing(answer) then ClampZero(s.committed - r.estimate) else s.committed,
         attempts := s.attempts[id := s.attempts[id].(answer := Some(answer), fate := FateOf(answer))],
         workers := s.workers[w := r.(phase := next)])
    case SettleCall(w) =>
      var r := s.workers[w];
      var id := r.phase.id;
      var actual := Usable(r.phase.total);
      s.(committed := Settled(s.committed, r.estimate, actual),
         calls := s.calls + 1,
         receipts := s.receipts + [ReceiptOf(r.estimate, actual)],
         attempts := s.attempts[id := s.attempts[id].(fate := SettledAs(actual))],
         workers := s.workers[w := r.(phase := Finished(Success(r.phase.total)))])
  }

  predicate Legal(s: System, steps: seq<Step>)
    decreases |steps|
  {
    steps == [] || (Enabled(s, steps[0]) && Legal(Apply(s, steps[0]), steps[1..]))
  }

  function After(s: System, steps: seq<Step>): System
    requires Legal(s, steps)
    decreases |steps|
  {
    if steps == [] then s else After(Apply(s, steps[0]), steps[1..])
  }

  // ---- What is summed over the attempts ----

  datatype Measure = Charge | Billed | Overshoot | Unresolved | OnLedger | OwnedBy(w: nat)

  function Value(a: Attempt, m: Measure): real {
    match m
    case Charge =>
      (match a.fate
       case Unbilled => 0.0
       case SettledAs(Some(x)) => x
       case _ => a.estimate)
    case Billed => a.billed
    case Overshoot =>
      (match a.fate
       case SettledAs(Some(x)) => if x > a.estimate then x - a.estimate else 0.0
       case _ => 0.0)
    case Unresolved =>
      if a.fate.InFlight? || a.fate.Unknown? || a.fate.AnsweredWithUsage? then a.estimate else 0.0
    case OnLedger =>
      (match a.fate
       case SettledAs(Some(x)) => x
       case SettledAs(None) => a.estimate
       case _ => 0.0)
    case OwnedBy(w) => if a.owner == w then 1.0 else 0.0
  }

  function Total(attempts: seq<Attempt>, m: Measure): real {
    if attempts == [] then 0.0
    else Total(attempts[..|attempts| - 1], m) + Value(attempts[|attempts| - 1], m)
  }

  lemma {:induction false} TotalUpdate(attempts: seq<Attempt>, i: nat, a: Attempt, m: Measure)
    requires i < |attempts|
    ensures Total(attempts[i := a], m) == Total(attempts, m) - Value(attempts[i], m) + Value(a, m)
  {
    var n := |attempts| - 1;
    if i < n {
      TotalUpdate(attempts[..n], i, a, m);
      assert attempts[i := a][..n] == attempts[..n][i := a];
    } else {
      assert attempts[i := a][..n] == attempts[..n];
    }
  }

  lemma TotalAppend(attempts: seq<Attempt>, a: Attempt, m: Measure)
    ensures Total(attempts + [a], m) == Total(attempts, m) + Value(a, m)
  {
    assert (attempts + [a])[..|attempts|] == attempts;
  }

  lemma {:induction false} TotalOrder(attempts: seq<Attempt>, m: Measure, n: Measure)
    requires forall i :: 0 <= i < |attempts| ==> Value(attempts[i], m) <= Value(attempts[i], n)
    ensures Total(attempts, m) <= Total(attempts, n)
  {
    if attempts != [] {
      TotalOrder(attempts[..|attempts| - 1], m, n);
    }
  }

  lemma {:induction false} TotalAtLeast(attempts: seq<Attempt>, i: nat, m: Measure)
    requires i < |attempts| && forall j :: 0 <= j < |attempts| ==> Value(attempts[j], m) >= 0.0
    ensures Total(attempts, m) >= Value(attempts[i], m)
  {
    var n := |attempts| - 1;
    TotalNonNegative(attempts[..n], m);
    if i < n { TotalAtLeast(attempts[..n], i, m); }
  }

  lemma {:induction false} TotalNonNegative(attempts: seq<Attempt>, m: Measure)
    requires forall j :: 0 <= j < |attempts| ==> Value(attempts[j], m) >= 0.0
    ensures Total(attempts, m) >= 0.0
  {
    if attempts != [] { TotalNonNegative(attempts[..|attempts| - 1], m); }
  }

  // ---- The invariant ----

  ghost predicate AttemptOk(a: Attempt) {
    && a.estimate >= 0.0 && a.billed >= 0.0
    && (a.answer.None? ==> a.fate.InFlight?)
    && (a.answer.Some? && !a.answer.value.Ok200? ==> a.fate == FateOf(a.answer.value))
    && (a.answer.Some? && a.answer.value.Ok200? ==>
          a.fate == InFlight || a.fate == SettledAs(Usable(a.answer.value.total)))
  }

  /** A worker waiting or settling holds its own in-flight attempt. */
  ghost predicate WorkerOk(s: System, w: nat)
    requires w < |s.workers|
  {
    var r := s.workers[w];
    && r.estimate >= 0.0 && r.tries <= MAX_RETRIES
    && (r.phase.Ready? ==> r.tries < MAX_RETRIES)
    && (r.phase.Waiting? || r.phase.Settling? ==>
          && r.phase.id < |s.attempts|
          && s.attempts[r.phase.id].owner == w
          && s.attempts[r.phase.id].estimate == r.estimate
          && s.attempts[r.phase.id].fate == InFlight)
    && (r.phase.Settling? ==> s.attempts[r.phase.id].answer == Some(Ok200(r.phase.total)))
    && Total(s.attempts, OwnedBy(w)) == r.tries as real
  }

  ghost predicate Owners(s: System) {
    forall i :: 0 <= i < |s.attempts| ==> s.attempts[i].owner < |s.workers|
  }

  ghost predicate Inv(s: System) {
    && s.cap >= 0.0
    && (forall i :: 0 <= i < |s.attempts| ==> AttemptOk(s.attempts[i]))
    && (forall w :: 0 <= w < |s.workers| ==> WorkerOk(s, w))
    && Owners(s)
    && s.committed == Total(s.attempts, Charge)
    && (s.cap > 0.0 ==> s.committed <= s.cap + EPSILON + Total(s.attempts, Overshoot))
    && LedgerClose(s)
  }

  /** The receipts add up to the settled attempts, to half a millionth per receipt. */
  ghost predicate LedgerClose(s: System) {
    && s.calls == |s.receipts|
    && -(s.calls as real) * (MICRO / 2.0) <= LedgerSum(s.receipts) - Total(s.attempts, OnLedger)
         <= (s.calls as real) * (MICRO / 2.0)
    && Counted(s.receipts) == |s.receipts|
  }

  lemma ChargesNonNegative(s: System)
    requires forall i :: 0 <= i < |s.attempts| ==> AttemptOk(s.attempts[i])
    ensures forall i :: 0 <= i < |s.attempts| ==> Value(s.attempts[i], Charge) >= 0.0
  {
  }

  lemma {:induction false} Unowned(attempts: seq<Attempt>, w: nat)
    requires forall i :: 0 <= i < |attempts| ==> attempts[i].owner < w
    ensures Total(attempts, OwnedBy(w)) == 0.0
  {
    if attempts != [] { Unowned(attempts[..|attempts| - 1], w); }
  }

  lemma SpawnKeeps(s: System, estimate: real)
    requires Inv(s) && Enabled(s, Spawn(estimate))
    ensures Inv(Apply(s, Spawn(estimate)))
  {
    var t := Apply(s, Spawn(estimate));
    Unowned(s.attempts, |s.workers|);
    forall w | 0 <= w < |t.workers| ensures WorkerOk(t, w) {
      if w < |s.workers| { assert WorkerOk(s, w); }
    }
  }

  lemma DispatchKeeps(s: System, w: nat, billed: real)
    requires Inv(s) && Enabled(s, Dispatch(w, billed))
    ensures Inv(Apply(s, Dispatch(w, billed)))
  {
    DispatchWorkers(s, w, billed);
    DispatchTotals(s, w, billed);
  }

  lemma DispatchTotals(s: System, w: nat, billed: real)
    requires Inv(s) && Enabled(s, Dispatch(w, billed))
    ensures var t := Apply(s, Dispatch(w, billed));
            && (forall i :: 0 <= i < |t.attempts| ==> AttemptOk(t.attempts[i]))
            && t.committed == Total(t.attempts, Charge) && LedgerClose(t)
            && (t.cap > 0.0 ==> t.committed <= t.cap + EPSILON + Total(t.attempts, Overshoot))
  {
    assert WorkerOk(s, w);
    var a := Attempt(w, s.workers[w].estimate, billed, None, InFlight);
    TotalAppend(s.attempts, a, Charge);
    TotalAppend(s.attempts, a, Overshoot);
    TotalAppend(s.attempts, a, OnLedger);
    OvershootNonNegative(s.attempts);
  }

  lemma DispatchWorkers(s: System, w: nat, billed: real)
    requires Inv(s) && Enabled(s, Dispatch(w, billed))
    ensures var t := Apply(s, Dispatch(w, billed));
            Owners(t) && forall v :: 0 <= v < |t.workers| ==> WorkerOk(t, v)
  {
    var t := Apply(s, Dispatch(w, billed));
    forall v: nat | v < |t.workers| ensures WorkerOk(t, v) {
      DispatchWorker(s, w, billed, v);
    }
  }

  lemma DispatchWorker(s: System, w: nat, billed: real, v: nat)
    requires Inv(s) && Enabled(s, Dispatch(w, billed)) && v < |s.workers|
    ensures WorkerOk(Apply(s, Dispatch(w, billed)), v)
  {
    assert WorkerOk(s, v);
    TotalAppend(s.attempts, Attempt(w, s.workers[w].estimate, billed, None, InFlight), OwnedBy(v));
  }

  lemma OvershootNonNegative(attempts: seq<Attempt>)
    ensures Total(attempts, Overshoot) >= 0.0
  {
    TotalNonNegative(attempts, Overshoot);
  }

  /** Every other worker is untouched by a change of one worker's own in-flight attempt. */
  lemma OthersKeep(s: System, t: System, w: nat, id: nat)
    requires Inv(s) && w < |s.workers| && id < |s.attempts| && s.attempts[id].owner == w
    requires |t.attempts| == |s.attempts| && t.attempts == s.attempts[id := t.attempts[id]]
    requires t.attempts[id].owner == w
    requires |t.workers| == |s.workers| && t.workers == s.workers[w := t.workers[w]]
    ensures forall v :: 0 <= v < |t.workers| && v != w ==> WorkerOk(t, v)
    ensures Total(t.attempts, OwnedBy(w)) == Total(s.attempts, OwnedBy(w))
    ensures Owners(t)
  {
    TotalUpdate(s.attempts, id, t.attempts[id], OwnedBy(w));
    forall v | 0 <= v < |t.workers| && v != w ensures WorkerOk(t, v) {
      assert WorkerOk(s, v);
      TotalUpdate(s.attempts, id, t.attempts[id], OwnedBy(v));
    }
  }

  lemma AnsweredKeeps(s: System, w: nat, answer: Answer)
    requires Inv(s) && Enabled(s, Answered(w, answer))
    ensures Inv(Apply(s, Answered(w, answer)))
    ensures var t := Apply(s, Answered(w, answer));
            t.committed == if BoughtNothing(answer) then s.committed - s.workers[w].estimate else s.committed
  {
    var t := Apply(s, Answered(w, answer));
    assert WorkerOk(s, w);
    var id := s.workers[w].phase.id;
    ChargesNonNegative(s);
    TotalAtLeast(s.attempts, id, Charge);
    TotalUpdate(s.attempts, id, t.attempts[id], Charge);
    TotalUpdate(s.attempts, id, t.attempts[id], Overshoot);
    TotalUpdate(s.attempts, id, t.attempts[id], OnLedger);
    OthersKeep(s, t, w, id);
    assert WorkerOk(t, w);
  }

  lemma SettleKeeps(s: System, w: nat)
    requires Inv(s) && Enabled(s, SettleCall(w))
    ensures Inv(Apply(s, SettleCall(w)))
    ensures var t := Apply(s, SettleCall(w));
            t.committed == s.committed + Value(t.attempts[s.workers[w].phase.id], Charge) - s.workers[w].estimate
  {
    var t := Apply(s, SettleCall(w));
    assert WorkerOk(s, w);
    var id := s.workers[w].phase.id;
    assert AttemptOk(s.attempts[id]);
    ChargesNonNegative(s);
    TotalAtLeast(s.attempts, id, Charge);
    TotalUpdate(s.attempts, id, t.attempts[id], Charge);
    TotalUpdate(s.attempts, id, t.attempts[id], Overshoot);
    OthersKeep(s, t, w, id);
    assert WorkerOk(t, w);
    SettleLedger(s, w);
  }

  lemma SettleLedger(s: System, w: nat)
    requires Inv(s) && Enabled(s, SettleCall(w))
    ensures LedgerClose(Apply(s, SettleCall(w)))
  {
    var t := Apply(s, SettleCall(w));
    assert WorkerOk(s, w);
    var id := s.workers[w].phase.id;
    TotalUpdate(s.attempts, id, t.attempts[id], OnLedger);
    var e := s.workers[w].estimate;
    var actual := Usable(s.workers[w].phase.total);
    Round6Close(e);
    if actual.Some? { Round6Close(actual.value); }
    assert t.receipts[..|s.receipts|] == s.receipts;
    var h := MICRO / 2.0;
    assert (s.calls + 1) as real * h == s.calls as real * h + h;
  }

  lemma StepKeeps(s: System, step: Step)
    requires Inv(s) && Enabled(s, step)
    ensures Inv(Apply(s, step))
  {
    match step
    case Spawn(e) => SpawnKeeps(s, e);
    case Dispatch(w, b) => DispatchKeeps(s, w, b);
    case Answered(w, a) => AnsweredKeeps(s, w, a);
    case SettleCall(w) => SettleKeeps(s, w);
  }

  lemma {:induction false} Reached(s: System, steps: seq<Step>)
    requires Inv(s) && Legal(s, steps)
    ensures Inv(After(s, steps))
    decreases |steps|
  {
    if steps != [] {
      StepKeeps(s, steps[0]);
      Reached(Apply(s, steps[0]), steps[1..]);
    }
  }

  // ---- The theorems ----

  /** In every reachable state the meter holds exactly the in-flight, lost and
      answered-with-usage estimates, the measured actuals, and the estimates settled
      without telemetry; under a cap it exceeds it only by the overshoots. */
  lemma MeterIsExact(s: System, steps: seq<Step>)
    requires Initial(s) && Legal(s, steps)
    ensures var t := After(s, steps);
            && t.committed == Total(t.attempts, Charge) >= 0.0
            && (t.cap > 0.0 ==> t.committed <= t.cap + EPSILON + Total(t.attempts, Overshoot))
  {
    Reached(s, steps);
    ChargesNonNegative(After(s, steps));
    TotalNonNegative(After(s, steps).attempts, Charge);
  }

  /** Neither clamp to zero ever bites: a release takes exactly its estimate off, and a
      settlement exactly replaces it. */
  lemma ClampsNeverBite(s: System, steps: seq<Step>, step: Step)
    requires Initial(s) && Legal(s, steps) && Enabled(After(s, steps), step)
    ensures var t := After(s, steps);
            && (step.Answered? && BoughtNothing(step.answer) ==>
                  Apply(t, step).committed == t.committed - t.workers[step.w].estimate)
            && (step.SettleCall? && Usable(t.workers[step.w].phase.total).Some? ==>
                  Apply(t, step).committed ==
                    t.committed + t.workers[step.w].phase.total.value - t.workers[step.w].estimate)
  {
    Reached(s, steps);
    var t := After(s, steps);
    match step
    case Answered(w, a) => AnsweredKeeps(t, w, a);
    case SettleCall(w) => SettleKeeps(t, w);
    case _ =>
  }

  /** Exa bills no attempt above its estimate, nothing for one the client released, and
      reports what it billed. */
  ghost predicate HonestBilling(s: System) {
    forall i :: 0 <= i < |s.attempts| ==>
      var a := s.attempts[i];
      && a.billed <= a.estimate
      && (a.fate == Unbilled ==> a.billed == 0.0)
      && (a.fate.SettledAs? && a.fate.actual.Some? ==> a.fate.actual.value == a.billed)
  }

  /** Spend safety: whatever the interleaving, the money truly billed never exceeds what
      the meter holds, and the meter never exceeds the cap. */
  lemma BilledWithinCap(s: System, steps: seq<Step>)
    requires Initial(s) && Legal(s, steps) && HonestBilling(After(s, steps))
    ensures var t := After(s, steps);
            && Total(t.attempts, Billed) <= t.committed
            && (t.cap > 0.0 ==> t.committed <= t.cap + EPSILON)
  {
    Reached(s, steps);
    var t := After(s, steps);
    forall i | 0 <= i < |t.attempts|
      ensures Value(t.attempts[i], Billed) <= Value(t.attempts[i], Charge)
      ensures Value(t.attempts[i], Overshoot) == 0.0
    {
      assert AttemptOk(t.attempts[i]);
    }
    TotalOrder(t.attempts, Billed, Charge);
    NoOvershoot(t.attempts);
  }

  lemma {:induction false} NoOvershoot(attempts: seq<Attempt>)
    requires forall i :: 0 <= i < |attempts| ==> Value(attempts[i], Overshoot) == 0.0
    ensures Total(attempts, Overshoot) == 0.0
  {
    if attempts != [] { NoOvershoot(attempts[..|attempts| - 1]); }
  }

  /** Reservation accounting: each request made at most five dispatches, one reservation
      each; an attempt was refunded exactly when it provably bought nothing, and otherwise
      it is unknown, answered with usage, or a 200. */
  lemma RequestAccounting(s: System, steps: seq<Step>, w: nat, i: nat)
    requires Initial(s) && Legal(s, steps)
    requires w < |After(s, steps).workers| && i < |After(s, steps).attempts|
    ensures var t := After(s, steps);
            && Total(t.attempts, OwnedBy(w)) == t.workers[w].tries as real
            && t.workers[w].tries <= MAX_RETRIES
            && var a := t.attempts[i];
               && (a.fate == Unbilled <==>
                     a.answer == Some(NeverSent) || (a.answer.Some? && a.answer.value.Refused? && !a.answer.value.usage))
               && (a.fate.AnsweredWithUsage? <==> a.answer.Some? && a.answer.value.Refused? && a.answer.value.usage)
               && (a.fate.Unknown? <==> a.answer == Some(Lost) || a.answer == Some(Garbled))
               && (a.fate.SettledAs? ==> a.answer.Some? && a.answer.value.Ok200?)
  {
    Reached(s, steps);
    assert WorkerOk(After(s, steps), w);
    assert AttemptOk(After(s, steps).attempts[i]);
  }

  /** The meter minus the session's receipt ledger is the unresolved estimates, to half a
      millionth per receipt and half a millionth for the ledger's own rounding. */
  lemma LedgerAccounts(s: System, steps: seq<Step>)
    requires Initial(s) && Legal(s, steps)
    ensures var t := After(s, steps);
            var gap := t.committed - Round6(LedgerSum(t.receipts)) - Total(t.attempts, Unresolved);
            && |t.receipts| == t.calls == Counted(t.receipts)
            && -((t.calls as real) * (MICRO / 2.0) + MICRO / 2.0) <= gap <= (t.calls as real) * (MICRO / 2.0) + MICRO / 2.0
  {
    Reached(s, steps);
    var t := After(s, steps);
    ChargeSplits(t.attempts);
    Round6Close(LedgerSum(t.receipts));
  }

  lemma {:induction false} ChargeSplits(attempts: seq<Attempt>)
    ensures Total(attempts, Charge) == Total(attempts, Unresolved) + Total(attempts, OnLedger)
  {
    if attempts != [] { ChargeSplits(attempts[..|attempts| - 1]); }
  }
}
