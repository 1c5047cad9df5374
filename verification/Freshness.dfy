/**
 * Freshness of one observation: elapsed time within one monotonic clock epoch,
 * and uncertainty intervals of wall-clock time across epochs.
 */
module Freshness {
  import opened Errors
  import opened Graphs

  const TWO63: int := 0x8000_0000_0000_0000
  const TWO64: int := 0x1_0000_0000_0000_0000

  const CLOCK_UTC: Id := 0

  datatype TimePoint = TimePoint(unix: int, clock: Id, uncertainty: nat)
  datatype Mono = Mono(epoch: Id, ns: nat)
  datatype Times = Times(receivedAt: TimePoint, receipt: Mono, evaluatedAt: TimePoint, evaluate: Mono)
  datatype Policy = Policy(freshFor: nat, retainFor: nat, maxUncertainty: nat)
  datatype Context = Context(at: TimePoint, mono: Mono)

  datatype Freshness = Fresh | Stale | Unknown | Expired
  datatype Timed = Ok(freshness: Freshness) | Failed(error: Err)

  predicate ValidPoint(t: TimePoint) {
    -TWO63 <= t.unix < TWO63 && t.uncertainty < TWO64
  }

  predicate ValidMono(m: Mono) { m.ns < TWO64 }

  predicate ValidTimes(t: Times) {
    && ValidPoint(t.receivedAt) && ValidMono(t.receipt) && ValidPoint(t.evaluatedAt) && ValidMono(t.evaluate)
    && (t.receipt.epoch == t.evaluate.epoch ==> t.receipt.ns <= t.evaluate.ns)
  }

  predicate ValidPolicy(p: Policy) {
    0 < p.freshFor < p.retainFor < TWO64 && p.maxUncertainty < TWO64
  }

  predicate ValidContext(c: Context) { ValidPoint(c.at) && ValidMono(c.mono) }

  function ClassifyElapsed(elapsed: int, p: Policy): Timed {
    if elapsed < 0 || TWO64 <= elapsed then Failed(InvalidTime)
    else if elapsed < p.freshFor then Ok(Fresh)
    else if elapsed < p.retainFor then Ok(Stale)
    else Ok(Expired)
  }

  function EvaluateCrossEpoch(received: TimePoint, p: Policy, evaluated: TimePoint): Timed {
    if received.clock != CLOCK_UTC || evaluated.clock != CLOCK_UTC then Ok(Unknown) else
    var u := received.uncertainty + evaluated.uncertainty;
    if TWO64 <= u then Failed(InvalidTime) else
    var delta := evaluated.unix - received.unix;
    var upper := delta + u;
    if upper < 0 then Failed(InvalidTime) else
    if TWO64 <= upper then Failed(InvalidTime) else
    var lower := if delta - u < 0 then 0 else delta - u;
    if TWO64 <= lower then Failed(InvalidTime) else
    if p.maxUncertainty < u then Ok(Unknown) else
    if upper < p.freshFor then Ok(Fresh)
    else if p.freshFor <= lower && upper < p.retainFor then Ok(Stale)
    else if p.retainFor <= lower then Ok(Expired)
    else Ok(Unknown)
  }

  function EvaluateFreshness(t: Times, p: Policy, c: Context): Timed {
    if !ValidTimes(t) || !ValidPolicy(p) || !ValidContext(c) then Failed(InvalidTime)
    else if t.receipt.epoch == c.mono.epoch then
      if c.mono.ns < t.receipt.ns then Failed(InvalidTime)
      else ClassifyElapsed(c.mono.ns - t.receipt.ns, p)
    else EvaluateCrossEpoch(t.receivedAt, p, c.at)
  }

  /** Elapsed times consistent with both uncertainties. */
  ghost predicate Possible(received: TimePoint, evaluated: TimePoint, elapsed: int) {
    var u := received.uncertainty + evaluated.uncertainty;
    var delta := evaluated.unix - received.unix;
    0 <= elapsed && delta - u <= elapsed <= delta + u
  }

  /** The true time x is consistent with the recorded point. */
  ghost predicate Within(t: TimePoint, x: int) {
    t.unix - t.uncertainty <= x <= t.unix + t.uncertainty
  }

  /** A possible elapsed time is the difference of two true times within the stated uncertainties. */
  lemma PossibleIsTrueElapsed(received: TimePoint, evaluated: TimePoint, elapsed: int)
    requires 0 <= elapsed
    ensures Possible(received, evaluated, elapsed) <==>
            exists r, e :: Within(received, r) && Within(evaluated, e) && elapsed == e - r
  {
    if Possible(received, evaluated, elapsed) {
      var high := received.unix + received.uncertainty;
      var want := evaluated.unix + evaluated.uncertainty - elapsed;
      var r := if want <= high then want else high;
      assert Within(received, r) && Within(evaluated, r + elapsed);
    }
  }

  /** The interval comparison is exact: a definite class means every possible elapsed time has it. */
  lemma CrossEpochExact(received: TimePoint, p: Policy, evaluated: TimePoint, f: Freshness)
    requires ValidPoint(received) && ValidPoint(evaluated) && ValidPolicy(p)
    requires received.clock == CLOCK_UTC && evaluated.clock == CLOCK_UTC
    requires received.uncertainty + evaluated.uncertainty <= p.maxUncertainty
    requires EvaluateCrossEpoch(received, p, evaluated).Ok?
    ensures var r := EvaluateCrossEpoch(received, p, evaluated);
            && (f != Unknown ==>
                  (r == Ok(f) <==> forall e :: Possible(received, evaluated, e) ==> ClassifyElapsed(e, p) == Ok(f)))
            && (r == Ok(Unknown) <==>
                  exists e1, e2 :: Possible(received, evaluated, e1) && Possible(received, evaluated, e2)
                                   && ClassifyElapsed(e1, p) != ClassifyElapsed(e2, p))
  {
    var u := received.uncertainty + evaluated.uncertainty;
    var delta := evaluated.unix - received.unix;
    var upper := delta + u;
    var lower := if delta - u < 0 then 0 else delta - u;
    assert Possible(received, evaluated, lower) && Possible(received, evaluated, upper);
    assert forall e :: Possible(received, evaluated, e) <==> lower <= e <= upper;
    var r := EvaluateCrossEpoch(received, p, evaluated);
    if r == Ok(Unknown) {
      assert ClassifyElapsed(lower, p) != ClassifyElapsed(upper, p);
    }
  }

  /** Cross-epoch time errors, exactly; the check on the lower bound adds none. */
  lemma CrossEpochErrors(received: TimePoint, p: Policy, evaluated: TimePoint)
    requires ValidPoint(received) && ValidPoint(evaluated) && ValidPolicy(p)
    ensures EvaluateCrossEpoch(received, p, evaluated).Failed? <==>
            && received.clock == CLOCK_UTC && evaluated.clock == CLOCK_UTC
            && (|| TWO64 <= received.uncertainty + evaluated.uncertainty
                || (forall e :: !Possible(received, evaluated, e))
                || (exists e :: Possible(received, evaluated, e) && TWO64 <= e))
  {
    var u := received.uncertainty + evaluated.uncertainty;
    var upper := evaluated.unix - received.unix + u;
    if 0 <= upper {
      assert Possible(received, evaluated, upper);
    }
  }

  /** Position in the order fresh, stale, unknown, expired. */
  function Order(f: Freshness): nat {
    match f
    case Fresh => 0
    case Stale => 1
    case Unknown => 2
    case Expired => 3
  }

  function Combine(left: Freshness, right: Freshness): Freshness {
    if Order(right) > Order(left) then right else left
  }

  /**
   * Ages within one clock epoch, exactly: a time error when the context reads
   * earlier than the receipt, and otherwise the class of the difference of the
   * two readings.
   */
  lemma SameEpochExact(t: Times, p: Policy, c: Context)
    requires ValidTimes(t) && ValidPolicy(p) && ValidContext(c) && t.receipt.epoch == c.mono.epoch
    ensures var d := c.mono.ns - t.receipt.ns; var r := EvaluateFreshness(t, p, c);
            && (d < 0 <==> r == Failed(InvalidTime)) && (0 <= d < p.freshFor <==> r == Ok(Fresh))
            && (p.freshFor <= d < p.retainFor <==> r == Ok(Stale)) && (p.retainFor <= d <==> r == Ok(Expired))
  {}

  /** Across epochs the wall readings decide, and malformed input is a time error whatever the epochs. */
  lemma CrossEpochUsed(t: Times, p: Policy, c: Context)
    ensures ValidTimes(t) && ValidPolicy(p) && ValidContext(c) && t.receipt.epoch != c.mono.epoch ==>
              EvaluateFreshness(t, p, c) == EvaluateCrossEpoch(t.receivedAt, p, c.at)
    ensures !(ValidTimes(t) && ValidPolicy(p) && ValidContext(c)) ==> EvaluateFreshness(t, p, c) == Failed(InvalidTime)
  {}

  /** Within one clock epoch a later evaluation is never fresher. */
  lemma SameEpochMonotone(t: Times, p: Policy, c: Context, d: Context)
    requires t.receipt.epoch == c.mono.epoch == d.mono.epoch && c.mono.ns <= d.mono.ns
    requires EvaluateFreshness(t, p, c).Ok? && ValidContext(d)
    ensures EvaluateFreshness(t, p, d).Ok?
    ensures Order(EvaluateFreshness(t, p, c).freshness) <= Order(EvaluateFreshness(t, p, d).freshness)
  {}

  /**
   * Across epochs that fails in both directions of the order: a vague result may
   * become definite again, and an expired one may become vague.
   */
  lemma CrossEpochNotMonotone()
    ensures exists received: TimePoint, p: Policy, early: TimePoint, late: TimePoint ::
              FresherLater(received, p, early, late) && EvaluateCrossEpoch(received, p, early) == Ok(Unknown)
              && EvaluateCrossEpoch(received, p, late) == Ok(Stale) && early.uncertainty == late.uncertainty
    ensures exists received: TimePoint, p: Policy, early: TimePoint, late: TimePoint ::
              FresherLater(received, p, early, late) && EvaluateCrossEpoch(received, p, early) == Ok(Unknown)
              && EvaluateCrossEpoch(received, p, late) == Ok(Fresh)
    ensures exists received: TimePoint, p: Policy, early: TimePoint, late: TimePoint ::
              FresherLater(received, p, early, late) && EvaluateCrossEpoch(received, p, early) == Ok(Expired)
              && EvaluateCrossEpoch(received, p, late) == Ok(Unknown)
  {
    var received := TimePoint(0, CLOCK_UTC, 0);
    var short, long := Policy(10, 100, 5), Policy(100, 200, 5);
    var a, b := TimePoint(10, CLOCK_UTC, 1), TimePoint(20, CLOCK_UTC, 1);
    assert FresherLater(received, short, a, b) && EvaluateCrossEpoch(received, short, b) == Ok(Stale);
    var c, d := TimePoint(10, CLOCK_UTC, 6), TimePoint(11, CLOCK_UTC, 0);
    assert FresherLater(received, long, c, d) && EvaluateCrossEpoch(received, long, d) == Ok(Fresh);
    var e, f := TimePoint(101, CLOCK_UTC, 0), TimePoint(102, CLOCK_UTC, 5);
    assert FresherLater(received, short, e, f) && EvaluateCrossEpoch(received, short, e) == Ok(Expired);
  }

  /** Valid evaluations, the second at the later reading and yet of the fresher class. */
  ghost predicate FresherLater(received: TimePoint, p: Policy, early: TimePoint, late: TimePoint) {
    && ValidPoint(received) && ValidPolicy(p) && ValidPoint(early) && ValidPoint(late) && early.unix <= late.unix
    && EvaluateCrossEpoch(received, p, early).Ok? && EvaluateCrossEpoch(received, p, late).Ok?
    && Order(EvaluateCrossEpoch(received, p, early).freshness) > Order(EvaluateCrossEpoch(received, p, late).freshness)
  }

  function LowerBound(received: TimePoint, evaluated: TimePoint): int {
    evaluated.unix - received.unix - received.uncertainty - evaluated.uncertainty
  }

  function UpperBound(received: TimePoint, evaluated: TimePoint): int {
    evaluated.unix - received.unix + received.uncertainty + evaluated.uncertainty
  }

  /** The elapsed time cannot be classed: incomparable clocks, too much uncertainty, or an interval across a limit. */
  predicate Vague(received: TimePoint, p: Policy, evaluated: TimePoint) {
    var lower, upper := LowerBound(received, evaluated), UpperBound(received, evaluated);
    || received.clock != CLOCK_UTC || evaluated.clock != CLOCK_UTC || received.uncertainty + evaluated.uncertainty > p.maxUncertainty
    || lower < p.freshFor <= upper || lower < p.retainFor <= upper
  }

  /**
   * Ages across clock epochs, exactly: a time error when the interval of elapsed
   * times is empty or out of range; unknown when it cannot be classed; and
   * otherwise the one class that the whole interval has.
   */
  lemma CrossEpochClasses(received: TimePoint, p: Policy, evaluated: TimePoint)
    requires ValidPoint(received) && ValidPoint(evaluated) && ValidPolicy(p)
    ensures var r := EvaluateCrossEpoch(received, p, evaluated);
            var lower, upper := LowerBound(received, evaluated), UpperBound(received, evaluated);
            var comparable := received.clock == CLOCK_UTC && evaluated.clock == CLOCK_UTC;
            && (r == Failed(InvalidTime) <==>
                  comparable && (received.uncertainty + evaluated.uncertainty >= TWO64 || upper < 0 || upper >= TWO64))
            && (r.Ok? ==>
                  && (r == Ok(Unknown) <==> Vague(received, p, evaluated))
                  && (r == Ok(Fresh) <==> !Vague(received, p, evaluated) && upper < p.freshFor)
                  && (r == Ok(Stale) <==> !Vague(received, p, evaluated) && p.freshFor <= lower && upper < p.retainFor)
                  && (r == Ok(Expired) <==> !Vague(received, p, evaluated) && p.retainFor <= lower))
            && (r.Failed? ==> r.error == InvalidTime)
  {}

  /**
   * Exactly when a later reading is of a fresher class, whatever the clocks and
   * uncertainties: the earlier one is vague and the later one surely not
   * expired, or the earlier one is surely expired and the later one vague.
   */
  lemma CrossEpochMonotoneUnless(received: TimePoint, p: Policy, early: TimePoint, late: TimePoint)
    requires ValidPoint(received) && ValidPolicy(p) && ValidPoint(early) && ValidPoint(late) && early.unix <= late.unix
    requires EvaluateCrossEpoch(received, p, early).Ok? && EvaluateCrossEpoch(received, p, late).Ok?
    ensures FresherLater(received, p, early, late) <==>
            || (Vague(received, p, early) && !Vague(received, p, late) && UpperBound(received, late) < p.retainFor)
            || (!Vague(received, p, early) && Vague(received, p, late) && p.retainFor <= LowerBound(received, early))
  {}
}
