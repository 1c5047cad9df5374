/** Causal contexts handed from receiver to receiver: no echo, no unbounded chain. */
module CausalPaths {
  import opened Errors
  import opened Graphs
  import opened Freshness
  import opened Chronology
  import opened Routing
  import opened Admission
  import opened Snapshots
  import opened Evaluation

  const MAX_LIFETIME: int := 300_000_000_000

  predicate WithinBudget(c: Causal) {
    1 <= c.maxHops <= 16 && c.hops <= c.maxHops && c.hops == |c.path| && !Repeats(c.path)
  }

  predicate Repeats(path: seq<Id>) { exists i, j :: 0 <= i < j < |path| && path[i] == path[j] }

  function CausalErrors(c: Causal): set<Err> {
    When(!ValidPoint(c.firstSeen) || !ValidPoint(c.expires), InvalidTime)
    + When(c.firstSeen.clock != CLOCK_UTC || c.expires.clock != CLOCK_UTC, InvalidTime)
    + When(c.expires.unix < c.firstSeen.unix, InvalidTime)
    + When(c.expires.unix - c.firstSeen.unix > MAX_LIFETIME, CausalBudgetExceeded)
    + When(!WithinBudget(c), CausalBudgetExceeded)
  }

  /** Entering a receiver: validity, then origin and expiry, then echo, then capacity. */
  method EnterCausal(c: Causal, receiver: Id, now: TimePoint) returns (r: Result<Causal>)
    ensures r == Enter(c, receiver, now)
  {
    var error := LeastOf(CausalErrors(c) + When(!ValidPoint(now), InvalidTime));
    if error.Some? {
      return Failure(error.value);
    }
    if CausalError(c, now).Some? {
      return Failure(CausalError(c, now).value);
    }
    for i := 0 to |c.path|
      invariant receiver !in c.path[..i]
    {
      if c.path[i] == receiver {
        return Failure(EchoSuppressed);
      }
      assert c.path[..i + 1] == c.path[..i] + [c.path[i]];
    }
    assert c.path[..|c.path|] == c.path;
    if c.hops >= c.maxHops {
      return Failure(CausalBudgetExceeded);
    }
    r := Success(c.(path := c.path + [receiver], hops := c.hops + 1));
  }

  ghost function Enter(c: Causal, receiver: Id, now: TimePoint): Result<Causal> {
    var errs := CausalErrors(c) + When(!ValidPoint(now), InvalidTime);
    if errs != {} then Failure(Least(errs).value)
    else if CausalError(c, now).Some? then Failure(CausalError(c, now).value)
    else if receiver in c.path then Failure(EchoSuppressed)
    else if c.hops >= c.maxHops then Failure(CausalBudgetExceeded)
    else Success(c.(path := c.path + [receiver], hops := c.hops + 1))
  }

  datatype Hop = Hop(receiver: Id, now: TimePoint)

  /** The context after a chain of hops, if every receiver accepts it. */
  ghost function Chain(c: Causal, hops: seq<Hop>): Result<Causal>
    decreases |hops|
  {
    if hops == [] then Success(c)
    else
      match Chain(c, hops[..|hops| - 1])
      case Failure(e) => Failure(e)
      case Success(d) => Enter(d, hops[|hops| - 1].receiver, hops[|hops| - 1].now)
  }

  lemma RepeatSplits(path: seq<Id>, receiver: Id)
    requires Repeats(path + [receiver])
    ensures Repeats(path) || receiver in path
  {
    var i, j :| 0 <= i < j < |path + [receiver]| && (path + [receiver])[i] == (path + [receiver])[j];
    if j < |path| { assert path[i] == path[j]; }
  }

  lemma AcceptedHop(c: Causal, receiver: Id, now: TimePoint)
    requires Enter(c, receiver, now).Success?
    ensures var d := Enter(c, receiver, now).value;
            && CausalErrors(c) == {} && CausalErrors(d) == {} && d.path == c.path + [receiver] && d == c.(path := d.path, hops := d.hops)
            && SurelyBefore(now, c.expires) && !c.reflected
  {
    var d := Enter(c, receiver, now).value;
    assert WithinBudget(c);
    if Repeats(d.path) { RepeatSplits(c.path, receiver); }
    DeadlineExact(now, c.expires);
  }

  /**
   * An accepted chain visits every receiver at most once, never exceeds the
   * hop budget fixed at its origin, and ends before the context expires.
   */
  lemma {:induction false} ChainIsBounded(c: Causal, hops: seq<Hop>)
    requires CausalErrors(c) == {} && Chain(c, hops).Success?
    ensures var d := Chain(c, hops).value;
            && CausalErrors(d) == {} && |d.path| == |c.path| + |hops| <= c.maxHops <= 16 && !Repeats(d.path)
            && d.path[..|c.path|] == c.path && (forall i :: 0 <= i < |hops| ==> d.path[|c.path| + i] == hops[i].receiver)
            && d.expires == c.expires && d.maxHops == c.maxHops
            && (forall i :: 0 <= i < |hops| ==> SurelyBefore(hops[i].now, c.expires))
    decreases |hops|
  {
    hide Enter, CausalError;
    if hops == [] {
      assert WithinBudget(c);
    } else {
      var n := |hops| - 1;
      ChainIsBounded(c, hops[..n]);
      var d := Chain(c, hops[..n]).value;
      AcceptedHop(d, hops[n].receiver, hops[n].now);
      var e := Chain(c, hops).value;
      assert WithinBudget(e);
      forall i | 0 <= i < |hops| ensures SurelyBefore(hops[i].now, c.expires) {
        if i < n { assert hops[..n][i] == hops[i]; }
      }
    }
  }

  /**
   * A hop is accepted exactly when the context is valid and not reflected, surely
   * unexpired, new to the receiver and within its budget; an echo is refused as
   * one, and only an exhausted budget or an expiry as such.
   */
  lemma EnterExact(c: Causal, receiver: Id, now: TimePoint)
    ensures var open := CausalErrors(c) == {} && ValidPoint(now) && now.clock == CLOCK_UTC && !c.reflected && SurelyBefore(now, c.expires);
            && (Enter(c, receiver, now).Success? <==> open && receiver !in c.path && |c.path| < c.maxHops)
            && (open && receiver in c.path ==> Enter(c, receiver, now) == Failure(EchoSuppressed))
            && (open && receiver !in c.path && |c.path| == c.maxHops ==> Enter(c, receiver, now) == Failure(CausalBudgetExceeded))
            && (CausalErrors(c) == {} && ValidPoint(now) && c.reflected ==> Enter(c, receiver, now) == Failure(EchoSuppressed))
            && (CausalErrors(c) == {} && ValidPoint(now) && !c.reflected && now.clock == CLOCK_UTC && !SurelyBefore(now, c.expires) ==>
                  Enter(c, receiver, now) == Failure(CausalBudgetExceeded))
  {
    hide SurelyBefore;
    if CausalErrors(c) == {} {
      CausalClean(c);
      if now.clock == CLOCK_UTC { DeadlineExact(now, c.expires); }
    }
  }

  /** A valid context, clause by clause. */
  lemma CausalClean(c: Causal)
    ensures CausalErrors(c) == {} <==>
            && ValidPoint(c.firstSeen) && ValidPoint(c.expires) && c.firstSeen.clock == CLOCK_UTC && c.expires.clock == CLOCK_UTC
            && 0 <= c.expires.unix - c.firstSeen.unix <= 300_000_000_000
            && 1 <= c.maxHops <= 16 && c.hops == |c.path| <= c.maxHops && forall i, j :: 0 <= i < j < |c.path| ==> c.path[i] != c.path[j]
  {}
}
