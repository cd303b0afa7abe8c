/** The per-run spend meter: reserve before dispatch, settle on the answer. */
module CostMeter {
  import opened Wrappers

  const EPSILON: real := 0.000000000001
  const MICRO: real := 0.000001

  /** Python's `round(x, 6)` on an exact value: nearest millionth, ties to even. */
  function Round6(x: real): real {
    var scaled := x * 1000000.0;
    var below := scaled.Floor;
    var rest := scaled - below as real;
    var units := if rest < 0.5 || (rest == 0.5 && below % 2 == 0) then below else below + 1;
    units as real / 1000000.0
  }

  /** Rounding moves an amount by at most half a millionth and never below zero. */
  lemma Round6Close(x: real)
    ensures -0.0000005 <= Round6(x) - x <= 0.0000005
    ensures x >= 0.0 ==> Round6(x) >= 0.0
  {
    var scaled := x * 1000000.0;
    var below := scaled.Floor;
    assert below as real <= scaled < below as real + 1.0;
    var units := if scaled - below as real < 0.5 || (scaled - below as real == 0.5 && below % 2 == 0) then below else below + 1;
    assert -0.5 <= units as real - scaled <= 0.5;
    assert Round6(x) == units as real / 1000000.0;
    assert x == scaled / 1000000.0;
  }

  /** Rounding gives a whole number of millionths, an even one where two are equally near. */
  lemma Round6Whole(x: real) returns (n: int)
    ensures Round6(x) == n as real / 1000000.0
    ensures Round6(x) - x == 0.0000005 || x - Round6(x) == 0.0000005 ==> n % 2 == 0
  {
    var scaled := x * 1000000.0;
    var below := scaled.Floor;
    n := if scaled - below as real < 0.5 || (scaled - below as real == 0.5 && below % 2 == 0) then below else below + 1;
    assert x == scaled / 1000000.0;
    assert (Round6(x) - x) * 1000000.0 == n as real - scaled;
  }

  // ---- Estimates ----

  const RESULTS_INCLUDED := 10
  const EXTRA_RESULT: real := 0.001
  const CONTENT_PAGE: real := 0.001

  /** The content types a request may be billed for, per page. */
  type Types = n: nat | n <= 3

  function SearchBase(searchType: string): real {
    if searchType == "deep" then 0.012 else if searchType == "deep-reasoning" then 0.015 else 0.007
  }

  function AtLeastZero(n: int): int { if n < 0 then 0 else n }

  function EstimateSearch(searchType: string, results: int, types: Types): real {
    var pages := AtLeastZero(results);
    SearchBase(searchType) + AtLeastZero(pages - RESULTS_INCLUDED) as real * EXTRA_RESULT + (types * pages) as real * CONTENT_PAGE
  }

  /** A contents call with no type named is still served one. */
  function EstimateContents(urls: int, types: Types): real {
    ((if types == 0 then 1 else types) * AtLeastZero(urls)) as real * CONTENT_PAGE
  }

  /** What a call is priced at: the base price of the search type, a thousandth of a dollar for
      each result past the tenth, and one for each page of each content type asked for. */
  lemma EstimatePrice(searchType: string, asked: int, types: Types)
    ensures var results := if asked < 0 then 0 else asked;
            && EstimateSearch(searchType, asked, types) ==
                 (if searchType == "deep" then 0.012 else if searchType == "deep-reasoning" then 0.015 else 0.007)
                 + (if results > 10 then results - 10 else 0) as real * 0.001 + (types * results) as real * 0.001
            && EstimateContents(asked, types) == ((if types > 1 then types else 1) * results) as real * 0.001
  {
    if types <= 1 { assert (if types == 0 then 1 else types) == 1; }
  }

  /** An estimate is the worst case: a call that is served fewer pages of fewer types is priced
      no higher, no search is free, and no contents call for a page is. */
  lemma EstimatesAreWorstCase(searchType: string, served: int, asked: int, given: Types, types: Types)
    requires served <= asked && given <= types
    ensures 0.007 <= EstimateSearch(searchType, served, given) <= EstimateSearch(searchType, asked, types)
    ensures 0.0 <= EstimateContents(served, given) <= EstimateContents(asked, types)
    ensures served > 0 ==> CONTENT_PAGE <= EstimateContents(served, given)
  {
    ProductGrows(given, types, AtLeastZero(served), AtLeastZero(asked));
    ProductGrows(if given == 0 then 1 else given, if types == 0 then 1 else types, AtLeastZero(served), AtLeastZero(asked));
  }

  lemma ProductGrows(a: nat, b: nat, m: nat, n: nat)
    requires a <= b && m <= n
    ensures 0 <= a * m <= b * n
    ensures a > 0 ==> m <= a * m
  {
    assert b * n == a * m + (b - a) * n + a * (n - m);
    assert a > 0 ==> a * m == m + (a - 1) * m;
  }

  /** One line of the usage ledger. */
  datatype Receipt = Receipt(estimate: real, actual: Option<real>)

  /** The amount the ledger reader takes from a line: the measured one when there is one. */
  function Amount(r: Receipt): real {
    if r.actual.Some? && r.actual.value >= 0.0 then r.actual.value else r.estimate
  }

  function LedgerSum(rows: seq<Receipt>): real {
    if rows == [] then 0.0
    else LedgerSum(rows[..|rows| - 1]) + (if Amount(rows[|rows| - 1]) >= 0.0 then Amount(rows[|rows| - 1]) else 0.0)
  }

  function Counted(rows: seq<Receipt>): nat {
    if rows == [] then 0
    else Counted(rows[..|rows| - 1]) + (if Amount(rows[|rows| - 1]) >= 0.0 then 1 else 0)
  }

  /** One more line of the ledger counts for its measured amount, else for its estimate, and not
      at all when that is below zero. */
  lemma LedgerByLine(rows: seq<Receipt>, r: Receipt)
    ensures LedgerSum([]) == 0.0 && Counted([]) == 0
    ensures var amount := if r.actual.Some? && r.actual.value >= 0.0 then r.actual.value else r.estimate;
            && LedgerSum(rows + [r]) == LedgerSum(rows) + (if amount >= 0.0 then amount else 0.0)
            && Counted(rows + [r]) == Counted(rows) + (if amount >= 0.0 then 1 else 0)
  {
    assert (rows + [r])[..|rows|] == rows;
  }

  /** `ledger_spend_usd`: what a ledger file says was spent, and over how many receipts. */
  method LedgerSpend(rows: seq<Receipt>) returns (spend: Option<real>, receipts: nat)
    ensures receipts == Counted(rows)
    ensures spend == if Counted(rows) == 0 then None else Some(Round6(LedgerSum(rows)))
  {
    var total := 0.0;
    receipts := 0;
    var n := 0;
    while n < |rows|
      invariant 0 <= n <= |rows|
      invariant total == LedgerSum(rows[..n]) && receipts == Counted(rows[..n])
    {
      assert rows[..n + 1][..n] == rows[..n];
      var amount := Amount(rows[n]);
      if amount >= 0.0 {
        total := total + amount;
        receipts := receipts + 1;
      }
      n := n + 1;
    }
    assert rows[..n] == rows;
    spend := if receipts == 0 then None else Some(Round6(total));
  }

  datatype Reserved = Accepted | Exhausted | BadAmount

  /** Whether a reservation fits: a cap of zero turns the guard off. */
  predicate Fits(cap: real, committed: real, estimate: real) {
    cap == 0.0 || committed + estimate <= cap + EPSILON
  }

  function ClampZero(x: real): real { if x < 0.0 then 0.0 else x }

  /** What settling leaves committed: the measured charge in the estimate's place, or the
      estimate itself when the answer measured nothing usable. */
  function Settled(committed: real, estimate: real, actual: Option<real>): real {
    match actual
    case Some(a) => ClampZero(committed + (a - estimate))
    case None => committed
  }

  function ReceiptOf(estimate: real, actual: Option<real>): Receipt {
    Receipt(Round6(estimate), if actual.Some? then Some(Round6(actual.value)) else None)
  }

  /** A response's `costDollars.total` counts only when finite and not negative. */
  function Usable(total: Option<real>): Option<real> {
    if total.Some? && total.value >= 0.0 then total else None
  }

  class Meter {
    const cap: real
    var committed: real
    var calls: nat
    var receipts: seq<Receipt>

    ghost predicate Valid()
      reads this
    {
      cap >= 0.0 && committed >= 0.0
    }

    constructor (cap: real)
      requires cap >= 0.0
      ensures Valid() && this.cap == cap && committed == 0.0 && calls == 0 && receipts == []
    {
      this.cap := cap;
      committed, calls, receipts := 0.0, 0, [];
    }

    method Reserve(estimate: real) returns (r: Reserved)
      requires Valid()
      modifies this`committed
      ensures Valid()
      ensures r == BadAmount <==> estimate < 0.0
      ensures r == Accepted <==> estimate >= 0.0 && (cap == 0.0 || old(committed) + estimate <= cap + 0.000000000001)
      ensures committed == if r == Accepted then old(committed) + estimate else old(committed)
    {
      if estimate < 0.0 {
        return BadAmount;
      }
      if cap == 0.0 {
        committed := committed + estimate;
        return Accepted;
      }
      var projected := committed + estimate;
      if projected > cap + EPSILON {
        return Exhausted;
      }
      committed := projected;
      return Accepted;
    }

    method Release(estimate: real) returns (ok: bool)
      requires Valid()
      modifies this`committed
      ensures Valid()
      ensures ok <==> estimate >= 0.0
      ensures committed == if !ok then old(committed) else if old(committed) < estimate then 0.0 else old(committed) - estimate
    {
      if estimate < 0.0 {
        return false;
      }
      committed := ClampZero(committed - estimate);
      return true;
    }

    method Settle(estimate: real, total: Option<real>)
      requires Valid()
      modifies this`committed, this`calls, this`receipts
      ensures Valid() && calls == old(calls) + 1
      ensures committed == Settled(old(committed), estimate, Usable(total))
      ensures receipts == old(receipts) + [ReceiptOf(estimate, Usable(total))]
      ensures total.Some? && total.value >= 0.0 ==>
                && committed == (if old(committed) + total.value < estimate then 0.0 else old(committed) + total.value - estimate)
                && receipts == old(receipts) + [Receipt(Round6(estimate), Some(Round6(total.value)))]
      ensures total.None? || total.value < 0.0 ==>
                committed == old(committed) && receipts == old(receipts) + [Receipt(Round6(estimate), None)]
    {
      var actual := Usable(total);
      if actual.Some? {
        committed := committed + (actual.value - estimate);
        if committed < 0.0 {
          committed := 0.0;
        }
      }
      calls := calls + 1;
      receipts := receipts + [ReceiptOf(estimate, actual)];
    }
  }
}
