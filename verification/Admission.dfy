/** Admission of an intent against one snapshot at one trusted time: everything but the idempotency table. */
module Admission {
  import opened Errors
  import opened Graphs
  import opened Freshness
  import opened Records
  import opened Snapshots
  import opened Publication
  import opened Validity
  import opened Lifecycle
  import opened PublicationKernels
  import opened Evaluation
  import opened Chronology
  import opened Routing

  /** What an admission fixes besides the intent. */
  datatype Grant = Grant(context: Context, revisions: Revisions, route: Route)

  type Authority = (Intent, Route, Context) -> bool

  datatype AdmitHooks = AdmitHooks(routes: RouteHooks, typed: Intent -> Option<Err>, pack: Intent -> Option<Err>,
                                   constraintsSafe: Intent -> bool, snapshot: Snapshot -> Option<Err>,
                                   owner: Precondition -> Option<Err>, holds: (Versioned<Candidate>, Precondition) -> bool)

  /** A causal refusal leaves the intent safe to inspect further. */
  predicate SafeForHooks(e: Option<Err>) {
    e.None? || e.value == EchoSuppressed || e.value == CausalBudgetExceeded
  }

  function IntentError(h: AdmitHooks, i: Intent): Option<Err> {
    if SafeForHooks(h.typed(i)) then Best(h.typed(i), h.pack(i)) else h.typed(i)
  }

  function CausalError(c: Causal, now: TimePoint): Option<Err> {
    if c.reflected then Some(EchoSuppressed)
    else if DeadlineError(now, c.expires) == Some(DeadlineExpired) then Some(CausalBudgetExceeded)
    else DeadlineError(now, c.expires)
  }

  // ---------------------------------------------------------------- preconditions

  predicate InConflict(s: Snapshot, v: Candidate, id: Id) {
    v.key in s.envelopes && s.envelopes[v.key].conflict.Some? && id in s.envelopes[v.key].conflict.value.candidates
  }

  /** The candidate may back a decision apart from its age. */
  predicate Trusted(s: Snapshot, v: Candidate, id: Id) {
    && v.quality.qualification == Qualified && v.quality.promoted && v.quality.validity == Good
    && v.quality.availability == Available && !InConflict(s, v, id)
  }

  predicate Exactly(s: Snapshot, p: Precondition) {
    p.candidate in s.facts && s.facts[p.candidate].body.key == p.fact && s.facts[p.candidate].revision == p.revision
  }

  /** The exact candidate, trusted, fresh together with everything it was derived from, satisfies the predicate. */
  ghost predicate Met(h: AdmitHooks, s: Snapshot, c: Context, p: Precondition) {
    && Exactly(s, p) && Trusted(s, s.facts[p.candidate].body, p.candidate)
    && IsOldest(s.facts, c, p.candidate, Fresh) && h.holds(s.facts[p.candidate], p)
  }

  /** A met precondition, clause by clause. */
  lemma MetExact(h: AdmitHooks, s: Snapshot, c: Context, p: Precondition)
    ensures Met(h, s, c, p) <==>
            && p.candidate in s.facts && s.facts[p.candidate].body.key == p.fact && s.facts[p.candidate].revision == p.revision
            && var v := s.facts[p.candidate].body;
               && v.quality == Quality(v.quality.assertion, Qualified, true, Good, Available)
               && !(v.key in s.envelopes && s.envelopes[v.key].conflict.Some? && p.candidate in s.envelopes[v.key].conflict.value.candidates)
               && IsOldest(s.facts, c, p.candidate, Fresh) && h.holds(s.facts[p.candidate], p)
  {
    hide IsOldest;
  }

  ghost function ErrorOf(h: AdmitHooks, s: Snapshot, c: Context, p: Precondition): Option<Err> {
    if h.owner(p).Some? then h.owner(p) else if Met(h, s, c, p) then None else Some(PreconditionFailed)
  }

  ghost function PreconditionErrors(h: AdmitHooks, s: Snapshot, c: Context, ps: seq<Precondition>): set<Err> {
    set p | p in ps && ErrorOf(h, s, c, p).Some? :: ErrorOf(h, s, c, p).value
  }

  /** The entry of one fact in a complete view. */
  method FindEntry(s: Snapshot, c: Context, entries: seq<Entry>, id: Id) returns (e: Entry)
    requires Complete(s, c, entries) && id in s.facts
    ensures Right(s.facts, c, id, e)
  {
    hide Right;
    var i := 0;
    while entries[i].candidate != id
      invariant i < |entries| && forall k :: 0 <= k < i ==> entries[k].candidate != id
      decreases |entries| - i
    {
      i := i + 1;
    }
    e := entries[i];
  }

  /** An entry shows a usable fact exactly when the fact is available and nothing it rests on has aged. */
  lemma UsableEntry(s: Snapshot, c: Context, id: Id, e: Entry)
    requires id in s.facts && Right(s.facts, c, id, e)
    ensures e.freshness == Fresh && e.availability == Available <==>
            IsOldest(s.facts, c, id, Fresh) && s.facts[id].body.quality.availability == Available
  {
    hide IsOldest;
    if IsOldest(s.facts, c, id, Fresh) {
      OldestUnique(s.facts, c, id, Fresh, e.freshness);
    }
  }

  method CheckPreconditions(h: AdmitHooks, s: Snapshot, c: Context, entries: seq<Entry>, ps: seq<Precondition>) returns (best: Option<Err>)
    requires Complete(s, c, entries)
    ensures best == Least(PreconditionErrors(h, s, c, ps))
  {
    hide Complete, PreconditionErrors;
    best := None;
    NoPreconditions(h, s, c);
    for k := 0 to |ps|
      invariant best == Least(PreconditionErrors(h, s, c, ps[..k]))
    {
      var error := CheckOne(h, s, c, entries, ps[k]);
      assert ps[..k + 1] == ps[..k] + [ps[k]];
      MorePreconditions(h, s, c, ps[..k], ps[k]);
      best := Best(best, error);
    }
    assert ps[..|ps|] == ps;
  }

  lemma NoPreconditions(h: AdmitHooks, s: Snapshot, c: Context)
    ensures PreconditionErrors(h, s, c, []) == {}
  {}

  lemma MorePreconditions(h: AdmitHooks, s: Snapshot, c: Context, ps: seq<Precondition>, p: Precondition)
    ensures Least(PreconditionErrors(h, s, c, ps + [p])) == Best(Least(PreconditionErrors(h, s, c, ps)), ErrorOf(h, s, c, p))
  {
    hide ErrorOf;
    var e := ErrorOf(h, s, c, p);
    assert PreconditionErrors(h, s, c, ps + [p]) == PreconditionErrors(h, s, c, ps) + Opt(e);
    LeastOfUnion(PreconditionErrors(h, s, c, ps), Opt(e));
    LeastOpt(e);
  }

  lemma LeastOpt(e: Option<Err>)
    ensures Least(Opt(e)) == e
  {
    if e.Some? { LeastSingleton(e.value); }
  }

  method CheckOne(h: AdmitHooks, s: Snapshot, c: Context, entries: seq<Entry>, p: Precondition) returns (error: Option<Err>)
    requires Complete(s, c, entries)
    ensures error == ErrorOf(h, s, c, p)
  {
    hide Complete, Right, IsOldest, InConflict;
    if h.owner(p).Some? {
      return h.owner(p);
    }
    if !Exactly(s, p) {
      return Some(PreconditionFailed);
    }
    var candidate := s.facts[p.candidate];
    var entry := FindEntry(s, c, entries, p.candidate);
    UsableEntry(s, c, p.candidate, entry);
    var quality := candidate.body.quality;
    if !(quality.qualification == Qualified && quality.promoted && quality.validity == Good
         && entry.freshness == Fresh && entry.availability == Available && !InConflict(s, candidate.body, p.candidate)) {
      return Some(PreconditionFailed);
    }
    error := if h.holds(candidate, p) then None else Some(PreconditionFailed);
  }

  // ---------------------------------------------------------------- the verdict

  /** Refusals that precede the idempotency lookup. */
  ghost function EarlyErrors(h: AdmitHooks, s: Snapshot, c: Context, i: Intent): set<Err> {
    if SafeForHooks(h.typed(i)) && ValidateErrors(s) == {} && ValidContext(c) then {}
    else Opt(IntentError(h, i)) + ValidateErrors(s) + When(!ValidContext(c), InvalidTime)
  }

  ghost predicate Unevaluable(s: Snapshot, c: Context) { ContextRefused(s, c) || FactUnaged(s, c) || RetainedUnaged(s, c) }

  function StateErrors(s: Snapshot, c: Context, i: Intent): set<Err> {
    When(s.asset != i.asset, RevisionConflict)
    + When(s.revisions.semantic != i.semantic || s.revisions.capabilities != i.capabilities, RevisionConflict)
    + When(c.at.clock != CLOCK_UTC, InvalidTime) + Opt(DeadlineError(c.at, i.deadline)) + Opt(CausalError(i.causal, c.at))
  }

  function AuthorityErrors(h: AdmitHooks, c: Context, i: Intent, authority: Option<Authority>, search: Search): set<Err> {
    if authority.None? then {AuthorityMissing}
    else When(search.Found? && SafeForHooks(IntentError(h, i)) && !authority.value(i, search.route, c), AuthorityMissing)
  }

  function SearchErrors(search: Search): set<Err> { if search.NotFound? then {search.error} else {} }

  ghost function ViewErrors(h: AdmitHooks, s: Snapshot, c: Context, i: Intent): set<Err> {
    if Unevaluable(s, c) then {InvalidTime} else PreconditionErrors(h, s, c, i.preconditions)
  }

  ghost function JudgeErrors(h: AdmitHooks, s: Snapshot, c: Context, i: Intent, authority: Option<Authority>): set<Err> {
    var search := SearchOf(h.routes, s, i, h.constraintsSafe(i));
    Opt(IntentError(h, i)) + Opt(h.snapshot(s)) + StateErrors(s, c, i) + ViewErrors(h, s, c, i)
    + SearchErrors(search) + AuthorityErrors(h, c, i, authority, search)
  }

  /** The verdict on an intent that the idempotency table does not already answer. */
  ghost function Verdict(h: AdmitHooks, s: Snapshot, c: Context, i: Intent, authority: Option<Authority>): Result<Grant> {
    var errs := JudgeErrors(h, s, c, i, authority);
    var search := SearchOf(h.routes, s, i, h.constraintsSafe(i));
    if errs != {} then Failure(Least(errs).value)
    else if !search.Found? then Failure(AmbiguousRoute)
    else Success(Grant(c, s.revisions, search.route))
  }

  method CheckEarly(h: AdmitHooks, s: Snapshot, c: Context, i: Intent) returns (error: Option<Err>)
    ensures error == Least(EarlyErrors(h, s, c, i))
  {
    hide ValidateErrors, ValidContext, IntentError;
    var failure := Validate(s);
    if SafeForHooks(h.typed(i)) && failure.None? && ValidContext(c) {
      return None;
    }
    var late := When(!ValidContext(c), InvalidTime);
    LeastOfUnion(Opt(IntentError(h, i)), ValidateErrors(s));
    LeastOfUnion(Opt(IntentError(h, i)) + ValidateErrors(s), late);
    LeastOpt(IntentError(h, i));
    LeastSingleton(InvalidTime);
    error := Best(Best(IntentError(h, i), failure), if ValidContext(c) then None else Some(InvalidTime));
  }

  method CheckView(h: AdmitHooks, s: Snapshot, c: Context, i: Intent) returns (error: Option<Err>)
    requires ValidateErrors(s) == {} && ValidContext(c)
    ensures error == Least(ViewErrors(h, s, c, i))
  {
    hide ValidateErrors, Complete, RetainedView, ContextRefused, FactUnaged, RetainedUnaged, PreconditionErrors, ValidContext;
    var view := EvaluateSnapshot(s, c);
    if view.Failure? {
      LeastSingleton(InvalidTime);
      return Some(view.error);
    }
    error := CheckPreconditions(h, s, c, view.value.facts, i.preconditions);
  }

  method Judge(h: AdmitHooks, s: Snapshot, c: Context, i: Intent, authority: Option<Authority>) returns (r: Result<Grant>)
    requires ValidateErrors(s) == {} && ValidContext(c)
    ensures r == Verdict(h, s, c, i, authority)
  {
    hide ValidateErrors, ViewErrors, SearchOf, StateErrors, AuthorityErrors, IntentError, ValidContext;
    var viewError := CheckView(h, s, c, i);
    var search := FindRoute(h.routes, s, i, h.constraintsSafe(i));
    var plain := Opt(IntentError(h, i)) + Opt(h.snapshot(s)) + StateErrors(s, c, i) + SearchErrors(search)
                 + AuthorityErrors(h, c, i, authority, search);
    var error := LeastOf(plain);
    error := Best(error, viewError);
    LeastOfUnion(plain, ViewErrors(h, s, c, i));
    assert plain + ViewErrors(h, s, c, i) == JudgeErrors(h, s, c, i, authority);
    if error.Some? {
      return Failure(error.value);
    }
    r := if search.Found? then Success(Grant(c, s.revisions, search.route)) else Failure(AmbiguousRoute);
  }

  /** Made for this state of this asset, and surely in time: its deadline and its causal context both lie ahead. */
  ghost predicate InPlace(s: Snapshot, c: Context, i: Intent) {
    && s.asset == i.asset && s.revisions.semantic == i.semantic && s.revisions.capabilities == i.capabilities
    && c.at.clock == CLOCK_UTC && i.deadline.clock == CLOCK_UTC && SurelyBefore(c.at, i.deadline)
    && !i.causal.reflected && i.causal.expires.clock == CLOCK_UTC && SurelyBefore(c.at, i.causal.expires)
  }

  ghost predicate Backed(h: AdmitHooks, s: Snapshot, c: Context, ps: seq<Precondition>) {
    forall p :: p in ps ==> h.owner(p).None? && Met(h, s, c, p)
  }

  ghost predicate TheOnlyRoute(h: AdmitHooks, s: Snapshot, i: Intent, route: Route) {
    h.constraintsSafe(i) && RoutableIds(h.routes, s, i) == {route.capability} && IsRouteOf(h.routes, s, i, route)
  }

  /** Everything an admission asks for, stated without error classes. */
  ghost predicate Admissible(h: AdmitHooks, s: Snapshot, c: Context, i: Intent, authority: Option<Authority>, route: Route) {
    && h.typed(i).None? && h.pack(i).None? && h.snapshot(s).None?
    && InPlace(s, c, i) && !Unevaluable(s, c) && Backed(h, s, c, i.preconditions) && TheOnlyRoute(h, s, i, route)
    && authority.Some? && authority.value(i, route, c)
  }

  /**
   * An intent is granted exactly when it is admissible, on the single routable
   * capability of the snapshot and at its revisions.
   */
  lemma GrantedIff(h: AdmitHooks, s: Snapshot, c: Context, i: Intent, authority: Option<Authority>, g: Grant)
    ensures Verdict(h, s, c, i, authority) == Success(g) <==>
            g.context == c && g.revisions == s.revisions && Admissible(h, s, c, i, authority, g.route)
  {
    hide SearchOf, RoutableIds, IsRouteOf, Unevaluable, StateErrors, InPlace, Backed, PreconditionErrors, Least;
    StateExact(s, c, i);
    PreconditionsExact(h, s, c, i.preconditions);
    SearchExact(h.routes, s, i, h.constraintsSafe(i), g.route);
  }

  /** What a fresh admission guarantees. */
  lemma AdmittedMeans(h: AdmitHooks, s: Snapshot, c: Context, i: Intent, authority: Option<Authority>, g: Grant)
    requires Verdict(h, s, c, i, authority) == Success(g)
    ensures g.context == c && g.revisions == s.revisions && Admissible(h, s, c, i, authority, g.route)
  {
    hide Verdict, Admissible;
    GrantedIff(h, s, c, i, authority, g);
  }

  lemma PreconditionsExact(h: AdmitHooks, s: Snapshot, c: Context, ps: seq<Precondition>)
    ensures PreconditionErrors(h, s, c, ps) == {} <==> Backed(h, s, c, ps)
  {
    hide Met;
    if PreconditionErrors(h, s, c, ps) == {} {
      forall p | p in ps ensures h.owner(p).None? && Met(h, s, c, p) { ErrorListed(h, s, c, ps, p); }
    }
  }

  lemma ErrorListed(h: AdmitHooks, s: Snapshot, c: Context, ps: seq<Precondition>, p: Precondition)
    requires p in ps
    ensures PreconditionErrors(h, s, c, ps) == {} ==> h.owner(p).None? && Met(h, s, c, p)
  {
    hide Met;
    var e := ErrorOf(h, s, c, p);
    assert e.Some? ==> e.value in PreconditionErrors(h, s, c, ps);
  }

  lemma StateExact(s: Snapshot, c: Context, i: Intent)
    ensures StateErrors(s, c, i) == {} <==> InPlace(s, c, i)
  {
    hide SurelyBefore;
    if c.at.clock == CLOCK_UTC && i.deadline.clock == CLOCK_UTC { DeadlineExact(c.at, i.deadline); }
    if c.at.clock == CLOCK_UTC && i.causal.expires.clock == CLOCK_UTC { DeadlineExact(c.at, i.causal.expires); }
  }

  /** A trusted candidate of a valid snapshot is uncontradicted: every promoted, qualified candidate of its fact has the same value. */
  lemma TrustedUncontested(s: Snapshot, id: Id, other: Id)
    requires ValidateErrors(s) == {} && WellKeyed(s) && id in s.facts && other in s.facts
    requires Trusted(s, s.facts[id].body, id) && s.facts[other].body.key == s.facts[id].body.key && Snapshots.Eligible(s.facts[other].body)
    ensures s.facts[other].body.value == s.facts[id].body.value
  {
    hide RevisionsShape, KeyShapes, LifecycleErrors, GraphFaults, DeriveConflict, CandidateShape, ContentErrors;
    var key := s.facts[id].body.key;
    assert ContentErrors(s) == {};
    FactShapes(s, id);
    TrustedHasValue(s, id);
    var group := Group(s.facts, key);
    assert key in s.envelopes && s.envelopes[key].conflict == DeriveConflict(group) by { EnvelopeConflict(s, key); }
    NoConflictOneValue(group, id, other);
  }

  lemma TrustedHasValue(s: Snapshot, id: Id)
    requires id in s.facts && Trusted(s, s.facts[id].body, id) && CandidateShape(id, s.facts[id]) == {}
    ensures Snapshots.Eligible(s.facts[id].body)
  {
    hide InputsShape, ValidTimes, ValidPolicy, InConflict;
  }

  lemma NoConflictOneValue(group: Candidates, id: Id, other: Id)
    requires id in group && other in group && Snapshots.Eligible(group[id].body) && Snapshots.Eligible(group[other].body)
    requires DeriveConflict(group).None? || id !in DeriveConflict(group).value.candidates
    ensures group[id].body.value == group[other].body.value
  {
    var x, y := group[id].body.value.value, group[other].body.value.value;
    assert id in EligibleIds(group);
    assert {x, y} <= EligibleValues(group);
    SubsetCard({x, y}, EligibleValues(group));
  }

  /** The class each fault of time and state is reported as. */
  lemma StateClasses(s: Snapshot, c: Context, i: Intent)
    ensures RevisionConflict in StateErrors(s, c, i) <==>
            s.asset != i.asset || s.revisions.semantic != i.semantic || s.revisions.capabilities != i.capabilities
    ensures EchoSuppressed in StateErrors(s, c, i) <==> i.causal.reflected
    ensures c.at.clock == CLOCK_UTC && i.deadline.clock == CLOCK_UTC ==>
              (DeadlineExpired in StateErrors(s, c, i) <==> !SurelyBefore(c.at, i.deadline))
    ensures c.at.clock == CLOCK_UTC && i.causal.expires.clock == CLOCK_UTC && !i.causal.reflected ==>
              (CausalBudgetExceeded in StateErrors(s, c, i) <==> !SurelyBefore(c.at, i.causal.expires))
    ensures c.at.clock != CLOCK_UTC || i.deadline.clock != CLOCK_UTC ==> InvalidTime in StateErrors(s, c, i)
  {
    hide SurelyBefore;
    if c.at.clock == CLOCK_UTC && i.deadline.clock == CLOCK_UTC { DeadlineExact(c.at, i.deadline); }
    if c.at.clock == CLOCK_UTC && i.causal.expires.clock == CLOCK_UTC { DeadlineExact(c.at, i.causal.expires); }
  }
}
