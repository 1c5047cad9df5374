/**
 * Error classes and the ranked choice among several independent diagnostics.
 *
 * Every stable error identifier has its own rank, so a class is represented by
 * its rank.  Detail texts are not modelled: two errors of one class are equal.
 */
module Errors {

  datatype Option<+T> = None | Some(value: T)

  type Err = rank: int | 1 <= rank <= 38 witness 1

  const MissingMember: Err := 4
  const InvalidIdentifier: Err := 6
  const InvalidDecimal: Err := 7
  const InvalidValue: Err := 8
  const InvalidTime: Err := 9
  const BoundsExceeded: Err := 12
  const DigestMismatch: Err := 14
  const DanglingReference: Err := 15
  const DerivationCycle: Err := 16
  const StaleSourceEpoch: Err := 17
  const StaleDriverGeneration: Err := 18
  const SequenceConflict: Err := 19
  const RevisionConflict: Err := 20
  const IncomparableClockEpoch: Err := 21
  const GenerationTransitionIncomplete: Err := 22
  const DefinitionOwnerMissing: Err := 24
  const IdentityNotQualified: Err := 25
  const CapabilityNotQualified: Err := 26
  const CapabilityUnavailable: Err := 27
  const AuthorityMissing: Err := 28
  const DeadlineExpired: Err := 29
  const PreconditionFailed: Err := 30
  const AmbiguousRoute: Err := 32
  const InvalidOutcome: Err := 34
  const EchoSuppressed: Err := 35
  const CausalBudgetExceeded: Err := 36

  /** The lower-ranked of two optional errors. */
  function Best(a: Option<Err>, b: Option<Err>): Option<Err> {
    if a.None? then b
    else if b.None? then a
    else if b.value < a.value then b else a
  }

  ghost predicate IsLeast(errs: set<Err>, e: Err) {
    e in errs && forall f :: f in errs ==> e <= f
  }

  lemma LeastExists(errs: set<Err>) returns (e: Err)
    requires errs != {}
    ensures IsLeast(errs, e)
  {
    e :| e in errs;
    var rest := errs - {e};
    assert errs == rest + {e};
    if rest != {} {
      var f := LeastExists(rest);
      if f < e { e := f; }
    }
  }

  /** The error a set of diagnostics is reported as: its lowest rank. */
  ghost function Least(errs: set<Err>): (r: Option<Err>)
    ensures r.None? <==> errs == {}
    ensures r.Some? ==> IsLeast(errs, r.value)
  {
    if errs == {} then None
    else
      assert exists e :: IsLeast(errs, e) by { var e := LeastExists(errs); }
      var e :| IsLeast(errs, e);
      Some(e)
  }

  /** Ranked choice does not depend on how the diagnostics are split or ordered. */
  lemma LeastOfUnion(a: set<Err>, b: set<Err>)
    ensures Least(a + b) == Best(Least(a), Least(b))
  {
    if a != {} && b != {} {
      assert IsLeast(a + b, Best(Least(a), Least(b)).value);
    } else {
      assert a + b == a || a + b == b;
    }
  }

  lemma LeastSingleton(e: Err)
    ensures Least({e}) == Some(e)
  {
    assert e in {e};
  }

  ghost function Present(errors: seq<Option<Err>>): set<Err> {
    set e | e in errors && e.Some? :: e.value
  }

  /** The ranking loop: the first error of the lowest rank seen so far survives. */
  method BestError(errors: seq<Option<Err>>) returns (best: Option<Err>)
    ensures best == Least(Present(errors))
  {
    best := None;
    for i := 0 to |errors|
      invariant best == Least(Present(errors[..i]))
    {
      var candidate := errors[i];
      ghost var tail := if candidate.Some? then {candidate.value} else {};
      assert errors[..i + 1] == errors[..i] + [candidate];
      assert Present(errors[..i + 1]) == Present(errors[..i]) + tail;
      LeastOfUnion(Present(errors[..i]), tail);
      if candidate.Some? {
        LeastSingleton(candidate.value);
        if best.None? || candidate.value < best.value {
          best := candidate;
        }
      }
    }
    assert errors[..|errors|] == errors;
  }

  /** The lowest rank of a set of diagnostics, in whatever order they are looked at. */
  method LeastOf(errs: set<Err>) returns (best: Option<Err>)
    ensures best == Least(errs)
  {
    best := None;
    var todo := errs;
    ghost var seen: set<Err> := {};
    while todo != {}
      invariant seen + todo == errs && best == Least(seen)
      decreases |todo|
    {
      var e :| e in todo;
      LeastOfUnion(seen, {e});
      LeastSingleton(e);
      best := Best(best, Some(e));
      todo, seen := todo - {e}, seen + {e};
    }
  }

  /** The classes from the most to the least urgent; of several diagnostics the first in this list is reported. */
  lemma RankOrder()
    ensures MissingMember < InvalidIdentifier < InvalidDecimal < InvalidValue < InvalidTime < BoundsExceeded < DigestMismatch < DanglingReference
    ensures DanglingReference < DerivationCycle < StaleSourceEpoch < StaleDriverGeneration < SequenceConflict < RevisionConflict
    ensures RevisionConflict < IncomparableClockEpoch < GenerationTransitionIncomplete < DefinitionOwnerMissing < IdentityNotQualified
    ensures IdentityNotQualified < CapabilityNotQualified < CapabilityUnavailable < AuthorityMissing < DeadlineExpired < PreconditionFailed
    ensures PreconditionFailed < AmbiguousRoute < InvalidOutcome < EchoSuppressed < CausalBudgetExceeded
  {}
}
