/** One paced request: the retry loop and its budget hooks. */
module Request {
  import opened Wrappers
  import opened CostMeter

  const MAX_RETRIES: nat := 5

  /** How one dispatch ended.  `usage` says the error body reported a charge; `NeverSent`
      is a fault before the request left the machine; `Lost` any later transport fault, a
      200 whose body broke off in transit among them;
      `Garbled` a 200 whose body raised something the loop does not catch. */
  datatype Answer =
    | Ok200(total: Option<real>)
    | Garbled
    | Refused(status: nat, usage: bool)
    | NeverSent
    | Lost

  datatype Outcome =
    | Success(total: Option<real>)
    | BodyError | AuthError | CreditsError | ApiError(status: nat)
    | TransportError | RetriesExhausted | BudgetExhausted

  /** The attempt provably bought nothing. */
  predicate BoughtNothing(a: Answer) { a.NeverSent? || (a.Refused? && !a.usage) }

  /** What the loop does with an answer: None retries. */
  function React(last: bool, a: Answer): Option<Outcome> {
    match a
    case Ok200(total) => Some(Success(total))
    case Garbled => Some(BodyError)
    case Refused(status, _) =>
      if status == 401 then Some(AuthError)
      else if status == 402 then Some(CreditsError)
      else if status == 429 || 500 <= status < 600 then (if last then Some(RetriesExhausted) else None)
      else Some(ApiError(status))
    case NeverSent => if last then Some(TransportError) else None
    case Lost => if last then Some(TransportError) else None
  }

  /** Another attempt may be answered better: the request was rate-limited or failed on Exa's
      side, or it never came back. */
  ghost predicate Retryable(a: Answer) {
    a == NeverSent || a == Lost || (a.Refused? && (a.status == 429 || 500 <= a.status <= 599))
  }

  /** Before the last attempt exactly such an answer is tried again; any other, and the last one,
      ends the request, each kind in its own way. */
  lemma ReactByAnswer(last: bool, a: Answer)
    ensures React(last, a) ==
              if !last && Retryable(a) then None
              else Some(match a
                        case Ok200(total) => Success(total)
                        case Garbled => BodyError
                        case NeverSent => TransportError
                        case Lost => TransportError
                        case Refused(status, _) =>
                          if status == 401 then AuthError
                          else if status == 402 then CreditsError
                          else if Retryable(a) then RetriesExhausted
                          else ApiError(status))
  {
  }

  /** What these attempts leave charged: one estimate for each that may have bought something. */
  function StillCharged(answers: seq<Answer>, estimate: real): (charge: real)
    ensures estimate >= 0.0 ==> charge >= 0.0
  {
    if answers == [] then 0.0
    else StillCharged(answers[..|answers| - 1], estimate)
         + (if BoughtNothing(answers[|answers| - 1]) then 0.0 else estimate)
  }

  /** One more attempt: only one that never left, or was refused without a charge, costs nothing. */
  lemma ChargedByAnswer(answers: seq<Answer>, a: Answer, estimate: real)
    ensures StillCharged([], estimate) == 0.0
    ensures StillCharged(answers + [a], estimate) ==
              StillCharged(answers, estimate)
              + match a
                case NeverSent => 0.0
                case Refused(_, usage) => if usage then estimate else 0.0
                case _ => estimate
  {
    assert (answers + [a])[..|answers|] == answers;
  }

  /** `ExaClient._request` alone on the meter.  `answers` is what the network would say to
      up to five dispatches.  Every dispatch was reserved, each answer that bought nothing
      was refunded once, and the unrefunded attempts are exactly the rest. */
  method Send(meter: Meter, estimate: real, answers: seq<Answer>) returns (outcome: Outcome, dispatches: nat)
    requires meter.Valid() && estimate >= 0.0 && |answers| == MAX_RETRIES
    modifies meter`committed
    ensures meter.Valid() && dispatches <= MAX_RETRIES
    ensures meter.committed == old(meter.committed) + StillCharged(answers[..dispatches], estimate)
    ensures outcome != BudgetExhausted ==>
              && dispatches > 0
              && React(dispatches == MAX_RETRIES, answers[dispatches - 1]) == Some(outcome)
              && forall i :: 0 <= i < dispatches - 1 ==> React(false, answers[i]).None?
    ensures outcome == BudgetExhausted ==>
              && dispatches < MAX_RETRIES && !Fits(meter.cap, meter.committed, estimate)
              && forall i :: 0 <= i < dispatches ==> React(false, answers[i]).None?
  {
    dispatches := 0;
    while dispatches < MAX_RETRIES
      invariant dispatches <= MAX_RETRIES
      invariant meter.Valid()
      invariant meter.committed == old(meter.committed) + StillCharged(answers[..dispatches], estimate)
      invariant forall i :: 0 <= i < dispatches ==> React(i == MAX_RETRIES - 1, answers[i]).None?
    {
      var reserved := meter.Reserve(estimate);
      if reserved != Accepted {
        return BudgetExhausted, dispatches;
      }
      var a := answers[dispatches];
      var last := dispatches == MAX_RETRIES - 1;
      assert answers[..dispatches + 1][..dispatches] == answers[..dispatches];
      dispatches := dispatches + 1;
      if BoughtNothing(a) {
        var ok := meter.Release(estimate);
      }
      match a {
        case Ok200(total) => return Success(total), dispatches;
        case Garbled => return BodyError, dispatches;
        case Refused(status, _) =>
          if status == 401 {
            return AuthError, dispatches;
          } else if status == 402 {
            return CreditsError, dispatches;
          } else if status == 429 || 500 <= status < 600 {
            if last {
              return RetriesExhausted, dispatches;
            }
          } else {
            return ApiError(status), dispatches;
          }
        case _ =>
          if last {
            return TransportError, dispatches;
          }
      }
    }
    assert false;
  }

  /** A whole call: send, then settle the answer's charge in place of the last estimate. */
  method Call(meter: Meter, estimate: real, answers: seq<Answer>) returns (outcome: Outcome, dispatches: nat)
    requires meter.Valid() && estimate >= 0.0 && |answers| == MAX_RETRIES
    modifies meter
    ensures meter.Valid() && dispatches <= MAX_RETRIES
    ensures outcome.Success? ==>
              && dispatches > 0 && answers[dispatches - 1] == Ok200(outcome.total)
              && meter.committed == old(meter.committed)
                   + StillCharged(answers[..dispatches - 1], estimate)
                   + (if Usable(outcome.total).Some? then outcome.total.value else estimate)
              && meter.receipts == old(meter.receipts) + [ReceiptOf(estimate, Usable(outcome.total))]
    ensures !outcome.Success? ==>
              && meter.committed == old(meter.committed) + StillCharged(answers[..dispatches], estimate)
              && meter.receipts == old(meter.receipts)
  {
    outcome, dispatches := Send(meter, estimate, answers);
    if outcome.Success? {
      assert answers[..dispatches][..dispatches - 1] == answers[..dispatches - 1];
      meter.Settle(estimate, outcome.total);
    }
  }
}
