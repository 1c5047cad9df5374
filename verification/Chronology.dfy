/** Order of instants recorded on different clocks: monotonic epochs where they agree, UTC intervals otherwise. */
module Chronology {
  import opened Errors
  import opened Freshness

  /** The end is certainly not before the start, or certainly after it when strict. */
  function WallError(start: TimePoint, end: TimePoint, strict: bool): Option<Err> {
    if start.clock != CLOCK_UTC || end.clock != CLOCK_UTC then Some(IncomparableClockEpoch) else
    var latestStart := start.unix + start.uncertainty;
    var earliestEnd := end.unix - end.uncertainty;
    if earliestEnd < latestStart || (strict && earliestEnd == latestStart) then Some(InvalidOutcome) else None
  }

  function ContextsError(start: Context, end: Context, strict: bool): Option<Err> {
    if start.mono.epoch == end.mono.epoch then
      if end.mono.ns < start.mono.ns || (strict && end.mono.ns == start.mono.ns) then Some(InvalidOutcome) else None
    else WallError(start.at, end.at, strict)
  }

  function Receipt(times: Times): Context { Context(times.receivedAt, times.receipt) }

  function ReceiptError(completed: Context, times: Times): Option<Err> {
    if completed.mono.epoch == times.receipt.epoch then
      if times.receipt.ns <= completed.mono.ns then Some(InvalidOutcome) else None
    else if WallError(completed.at, times.receivedAt, true).Some? then Some(InvalidOutcome) else None
  }

  /** An acknowledgement is only compared on the same named wall clock, whatever it is called. */
  function AcknowledgementError(start: TimePoint, ack: TimePoint): Option<Err> {
    if start.clock != ack.clock then None
    else WallError(start.(clock := CLOCK_UTC), ack.(clock := CLOCK_UTC), false)
  }

  function DeadlineError(now: TimePoint, deadline: TimePoint): Option<Err> {
    if now.clock != CLOCK_UTC || deadline.clock != CLOCK_UTC then Some(InvalidTime)
    else if deadline.unix - deadline.uncertainty <= now.unix + now.uncertainty then Some(DeadlineExpired)
    else None
  }

  // ---------------------------------------------------------------- true times

  ghost predicate Precedes(x: int, y: int, strict: bool) { x < y || (!strict && x == y) }

  /** Readings of one monotonic epoch and the true times behind them run the same way. */
  ghost predicate Agree(a: Context, x: int, b: Context, y: int) {
    a.mono.epoch == b.mono.epoch ==> (a.mono.ns < b.mono.ns <==> x < y)
  }

  ghost predicate OnWall(a: Context, x: int) { a.at.clock == CLOCK_UTC ==> Within(a.at, x) }

  /** The true times respect every monotonic epoch and every UTC uncertainty. */
  ghost predicate Consistent(instants: set<Context>, truth: Context -> int) {
    && (forall a :: a in instants ==> OnWall(a, truth(a)))
    && (forall a, b :: a in instants && b in instants ==> Agree(a, truth(a), b, truth(b)))
  }

  /** The same, but readings that are equal within one epoch say nothing about the order of their true times. */
  ghost predicate WeaklyConsistent(instants: set<Context>, truth: Context -> int) {
    && (forall a :: a in instants ==> OnWall(a, truth(a)))
    && (forall a, b :: a in instants && b in instants ==> Increases(a, truth(a), b, truth(b)))
  }

  ghost predicate Increases(a: Context, x: int, b: Context, y: int) {
    a.mono.epoch == b.mono.epoch && a.mono.ns < b.mono.ns ==> x < y
  }

  predicate SameReading(a: Context, b: Context) { a.mono == b.mono }

  lemma ConsistentIsWeak(instants: set<Context>, truth: Context -> int)
    requires Consistent(instants, truth)
    ensures WeaklyConsistent(instants, truth)
  {
    hide OnWall;
    forall a, b | a in instants && b in instants ensures Increases(a, truth(a), b, truth(b)) {
      assert Agree(a, truth(a), b, truth(b));
    }
  }

  /** The second point lies ahead of the first, whatever their true times. */
  ghost predicate SurelyBefore(now: TimePoint, end: TimePoint) { forall x, y :: Within(now, x) && Within(end, y) ==> x < y }

  /** On UTC the comparison accepts exactly what holds of all pairs of true times. */
  lemma WallExact(start: TimePoint, end: TimePoint, strict: bool)
    requires start.clock == CLOCK_UTC && end.clock == CLOCK_UTC
    ensures WallError(start, end, strict).None? <==>
            forall x, y :: Within(start, x) && Within(end, y) ==> Precedes(x, y, strict)
  {
    var x, y := start.unix + start.uncertainty, end.unix - end.uncertainty;
    assert Within(start, x) && Within(end, y);
  }

  /** Accepted contexts are ordered in every consistent assignment of true times. */
  lemma ContextsOrdered(start: Context, end: Context, strict: bool, instants: set<Context>, truth: Context -> int)
    requires start in instants && end in instants && Consistent(instants, truth)
    requires ContextsError(start, end, strict).None?
    ensures Precedes(truth(start), truth(end), strict)
  {
    assert Agree(start, truth(start), end, truth(end)) && Agree(end, truth(end), start, truth(start));
    assert OnWall(start, truth(start)) && OnWall(end, truth(end));
  }

  /** Refused contexts of two epochs, if comparable at all, are misordered in some consistent assignment. */
  lemma RefusedIsPossible(start: Context, end: Context, strict: bool)
    requires start.mono.epoch != end.mono.epoch && start.at.clock == CLOCK_UTC && end.at.clock == CLOCK_UTC
    requires ContextsError(start, end, strict).Some?
    ensures exists truth :: Consistent({start, end}, truth) && !Precedes(truth(start), truth(end), strict)
  {
    var x, y := start.at.unix + start.at.uncertainty, end.at.unix - end.at.uncertainty;
    var truth := (c: Context) => if c == start then x else y;
    assert Consistent({start, end}, truth) && !Precedes(truth(start), truth(end), strict);
  }

  /** Refused contexts of one epoch are misordered in every consistent assignment. */
  lemma RefusedSameEpoch(start: Context, end: Context, strict: bool, truth: Context -> int)
    requires start.mono.epoch == end.mono.epoch && Consistent({start, end}, truth)
    ensures ContextsError(start, end, strict).Some? <==> !Precedes(truth(start), truth(end), strict)
  {
    assert Agree(start, truth(start), end, truth(end)) && Agree(end, truth(end), start, truth(start));
  }

  /** Without that assumption accepted contexts can be misordered at equal readings only, and never a strict pair. */
  lemma WeaklyOrdered(start: Context, end: Context, strict: bool, instants: set<Context>, truth: Context -> int)
    requires start in instants && end in instants && WeaklyConsistent(instants, truth)
    requires ContextsError(start, end, strict).None?
    ensures Precedes(truth(start), truth(end), strict) || (!strict && SameReading(start, end))
  {
    assert Increases(start, truth(start), end, truth(end));
    assert OnWall(start, truth(start)) && OnWall(end, truth(end));
  }

  /** Distinct instants with one reading whose wall intervals, if comparable, do not settle the order. */
  predicate Misorderable(start: Context, end: Context) {
    && SameReading(start, end) && start != end
    && (start.at.clock != CLOCK_UTC || end.at.clock != CLOCK_UTC || end.at.unix - end.at.uncertainty < start.at.unix + start.at.uncertainty)
  }

  /** Exactly then an accepted pair may truly run the other way. */
  lemma MisorderedExactly(start: Context, end: Context)
    requires ContextsError(start, end, false).None?
    ensures Misorderable(start, end) <==> exists truth :: WeaklyConsistent({start, end}, truth) && truth(end) < truth(start)
  {
    if Misorderable(start, end) {
      var x := if start.at.clock == CLOCK_UTC then start.at.unix + start.at.uncertainty
               else if end.at.clock == CLOCK_UTC then end.at.unix - end.at.uncertainty + 1 else 1;
      var y := if end.at.clock == CLOCK_UTC then end.at.unix - end.at.uncertainty else x - 1;
      var truth := (c: Context) => if c == start then x else y;
      assert OnWall(start, truth(start)) && OnWall(end, truth(end));
      assert WeaklyConsistent({start, end}, truth) && truth(end) < truth(start);
    }
    if truth :| WeaklyConsistent({start, end}, truth) && truth(end) < truth(start) {
      WeaklyOrdered(start, end, false, {start, end}, truth);
      assert OnWall(start, truth(start)) && OnWall(end, truth(end));
    }
  }

  /** An accepted receipt truly follows the completed dispatch, whatever equal readings mean. */
  lemma ReceiptFollows(completed: Context, times: Times, instants: set<Context>, truth: Context -> int)
    requires completed in instants && Receipt(times) in instants && WeaklyConsistent(instants, truth)
    requires ReceiptError(completed, times).None?
    ensures truth(completed) < truth(Receipt(times))
  {
    WeaklyOrdered(completed, Receipt(times), true, instants, truth);
  }

  /** A receipt is accepted exactly when the strict comparison of the two instants accepts it, and refused as an outcome error. */
  lemma ReceiptExact(completed: Context, times: Times)
    ensures ReceiptError(completed, times).None? <==> ContextsError(completed, Receipt(times), true).None?
    ensures ReceiptError(completed, times).Some? ==> ReceiptError(completed, times).value == InvalidOutcome
    ensures completed.mono.epoch == times.receipt.epoch ==> (ReceiptError(completed, times).None? <==> completed.mono.ns < times.receipt.ns)
  {}

  /** A deadline is accepted exactly when it certainly lies ahead. */
  lemma DeadlineExact(now: TimePoint, deadline: TimePoint)
    requires now.clock == CLOCK_UTC && deadline.clock == CLOCK_UTC
    ensures DeadlineError(now, deadline).None? <==> SurelyBefore(now, deadline)
    ensures DeadlineError(now, deadline).Some? ==> DeadlineError(now, deadline) == Some(DeadlineExpired)
  {
    var x, y := now.unix + now.uncertainty, deadline.unix - deadline.uncertainty;
    assert Within(now, x) && Within(deadline, y);
  }

  /** Other clocks: a deadline cannot be judged, an acknowledgement is not compared, contexts of two epochs are incomparable. */
  lemma OtherClocks(start: Context, end: Context, strict: bool)
    ensures !(start.at.clock == CLOCK_UTC && end.at.clock == CLOCK_UTC) ==> DeadlineError(start.at, end.at) == Some(InvalidTime)
    ensures start.at.clock != end.at.clock ==> AcknowledgementError(start.at, end.at).None?
    ensures start.mono.epoch != end.mono.epoch && !(start.at.clock == CLOCK_UTC && end.at.clock == CLOCK_UTC) ==>
              ContextsError(start, end, strict) == Some(IncomparableClockEpoch)
    ensures start.mono.epoch == end.mono.epoch || (start.at.clock == CLOCK_UTC && end.at.clock == CLOCK_UTC) ==>
              ContextsError(start, end, strict).None? || ContextsError(start, end, strict) == Some(InvalidOutcome)
  {}

  /** On one named clock an acknowledgement is accepted exactly when it certainly does not precede the dispatch. */
  lemma AcknowledgementExact(start: TimePoint, ack: TimePoint)
    requires start.clock == ack.clock
    ensures AcknowledgementError(start, ack).None? <==> forall x, y :: Within(start, x) && Within(ack, y) ==> x <= y
  {
    var x, y := start.unix + start.uncertainty, ack.unix - ack.uncertainty;
    assert Within(start, x) && Within(ack, y);
  }
}
