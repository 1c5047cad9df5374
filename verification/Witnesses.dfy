/**
 * The theorems about grants and applied records are about something: a
 * concrete asset on which an intent is admitted, carried out and read back.
 */
module Witnesses {
  import opened Errors
  import opened Graphs
  import opened Freshness
  import opened Decimals
  import opened Records
  import opened Lineage
  import opened Closure
  import opened Snapshots
  import opened Publication
  import opened Validity
  import opened Evaluation
  import opened Routing
  import opened Admission
  import opened Execution
  import opened OperationTable

  function At(ns: nat): Context { Context(TimePoint(ns, CLOCK_UTC, 0), Mono(0, ns)) }

  function Path(): CursorKey { CursorKey(0, 1, 1) }

  /** One observed fact, received at the given reading. */
  function Observation(revision: nat, receipt: nat): Versioned<Candidate> {
    var point := TimePoint(0, CLOCK_UTC, 0);
    Versioned(Candidate(5, Some(Payload(0)), Quality(Observed, Qualified, true, Good, Available),
                        Times(point, Mono(0, receipt), point, Mono(0, receipt)), Policy(100, 200, 0),
                        Some(1), Some(1), Some(1), Some(0), None, {0}, 0), revision)
  }

  /** One source, binding, link, service, capability and fact. */
  function Asset(n: nat, receipt: nat, now: nat): Snapshot {
    Snapshot(0, Revisions(n, 1, 1, 1, 1), TimePoint(0, CLOCK_UTC, 0), Mono(0, now),
             map[SourceKey(0, 1) := Versioned(Source(0, 0, SourceCurrent), 1)],
             map[1 := Versioned(Binding(0, Path(), 0, BindingCurrent), 1)],
             map[1 := Versioned(Link(0, LinkQualified, {0}), 1)],
             map[2 := Observation(n, receipt)], map[5 := Envelope(None, 1)], map[],
             map[3 := Versioned(Service(0, 0, 1, 1, 1, Qualified, Available), 1)],
             map[4 := Versioned(Capability(0, 3, 0, 1, 1, 1, Qualified, Available, 0), 1)],
             map[], map[Path() := Cursor(n, 0, false)])
  }

  predicate Sensible(n: nat, receipt: nat, now: nat) { 0 < n < TWO64 && receipt < TWO64 && now < TWO64 }

  lemma AssetSizes(n: nat, receipt: nat, now: nat)
    ensures WithinLimits(Asset(n, receipt, now)) && |Asset(n, receipt, now).facts| == 1
  {
    var s := Asset(n, receipt, now);
    assert s.sources.Keys == {SourceKey(0, 1)} && s.bindings.Keys == {1} && s.links.Keys == {1} && s.facts.Keys == {2} && s.envelopes.Keys == {5};
    assert s.services.Keys == {3} && s.capabilities.Keys == {4} && s.cursors.Keys == {Path()};
  }

  lemma ObservationShape(n: nat, receipt: nat)
    requires 0 < n < TWO64 && receipt < TWO64
    ensures CandidateShape(2, Observation(n, receipt)) == {}
  {
    assert |{0}| == 1;
  }

  lemma AssetEnvelope(n: nat, receipt: nat, now: nat)
    ensures var s := Asset(n, receipt, now); EnvelopeShape(s.facts, 5, s.envelopes[5]) == {}
  {
    hide Observation;
    var s := Asset(n, receipt, now);
    assert s.facts[2].body.key == 5 by { ObservationKey(n, receipt); }
    assert Group(s.facts, 5) == s.facts;
    AssetSizes(n, receipt, now);
    assert EligibleValues(s.facts) <= {s.facts[2].body.value.value} by { ObservationKey(n, receipt); }
    SubsetCard(EligibleValues(s.facts), {s.facts[2].body.value.value});
  }

  lemma ObservationKey(n: nat, receipt: nat)
    ensures Observation(n, receipt).body.key == 5 && Observation(n, receipt).body.value.Some?
  {}

  lemma AssetRecords(n: nat, receipt: nat, now: nat)
    requires Sensible(n, receipt, now)
    ensures RecordErrors(Asset(n, receipt, now)) == {}
  {
    hide CandidateShape, EnvelopeShape, Observation, SourceShape, BindingShape, LinkShape, ServiceShape, CapabilityShape;
    AssetShapes(n, receipt, now);
    ObservationShape(n, receipt);
    AssetEnvelope(n, receipt, now);
  }

  lemma AssetShapes(n: nat, receipt: nat, now: nat)
    ensures var s := Asset(n, receipt, now);
            && SourceShape(s.sources[SourceKey(0, 1)]) == {} && BindingShape(s.bindings[1]) == {} && LinkShape(s.links[1]) == {}
            && ServiceShape(s.services[3]) == {} && CapabilityShape(s.capabilities[4]) == {}
  {
    hide Observation;
    assert |{0}| == 1;
  }

  lemma AssetContent(n: nat, receipt: nat, now: nat)
    requires Sensible(n, receipt, now)
    ensures ContentErrors(Asset(n, receipt, now)) == {}
  {
    hide RecordErrors, WithinLimits, Observation;
    AssetRecords(n, receipt, now);
    AssetSizes(n, receipt, now);
  }

  lemma AssetLifecycle(n: nat, receipt: nat, now: nat)
    ensures LifecycleOk(Asset(n, receipt, now)) && SourcesHaveCursor(Asset(n, receipt, now))
  {
    hide Observation;
    var s := Asset(n, receipt, now);
    assert HasCursor(s, SourceKey(0, 1)) by { assert Path() in s.cursors; }
  }

  lemma AssetGraph(n: nat, receipt: nat, now: nat)
    ensures GraphFaults(Asset(n, receipt, now)) == {}
  {
    hide ErrorsBelow, ClosureErrors;
    var s := Asset(n, receipt, now);
    AssetSizes(n, receipt, now);
    assert Survives(s.facts, s.bindings, 2);
    assert Survivors(s.facts, s.bindings) == s.facts;
    ClosureExact(s.facts, s.facts.Keys, s.bindings);
  }

  lemma AssetKeys(n: nat, receipt: nat, now: nat)
    requires Sensible(n, receipt, now)
    ensures KeyShapes(Asset(n, receipt, now)) == {} && RevisionsShape(Asset(n, receipt, now).revisions) == {}
  {
    hide Observation;
  }

  /** The asset is a valid snapshot. */
  lemma AssetValid(n: nat, receipt: nat, now: nat)
    requires Sensible(n, receipt, now)
    ensures ValidateErrors(Asset(n, receipt, now)) == {}
  {
    hide Asset, ContentErrors, KeyShapes, RevisionsShape, LifecycleOk, SourcesHaveCursor, GraphFaults, LifecycleErrors;
    AssetContent(n, receipt, now);
    AssetLifecycle(n, receipt, now);
    AssetGraph(n, receipt, now);
    AssetKeys(n, receipt, now);
    LifecycleErrorsExact(Asset(n, receipt, now));
  }

  /** Evaluated soon after, its one fact is fresh. */
  lemma AssetFresh(n: nat, receipt: nat, now: nat, later: nat)
    requires Sensible(n, receipt, now) && receipt <= later < receipt + 100 && now <= later < TWO63
    ensures var s := Asset(n, receipt, now);
            ValidContext(At(later)) && !Unevaluable(s, At(later)) && IsOldest(s.facts, At(later), 2, Fresh)
  {
    hide Reach;
    var s := Asset(n, receipt, now);
    ReachSelf(Adjacency(s.facts), 2);
    assert Own(s.facts, At(later), 2) == Ok(Fresh);
  }

  // ---------------------------------------------------------------- hooks and intent

  function Willing(): ExecutionHooks {
    ExecutionHooks(AdmitHooks(RouteHooks((r, d) => true, (r, d) => Matches(true), d => None, (c, i) => true),
                              i => None, i => None, i => true, s => None, p => None, (c, p) => true),
                   r => None, i => [], r => [], s => 0, i => true, (i, c) => Some(Confirms))
  }

  function Wish(): Intent {
    var soon := TimePoint(1000, CLOCK_UTC, 0);
    Intent(0, 0, Requirement(0, 0, None, false), 1, 1, 1, 1, 1, [Precondition(5, 2, 1, 0)], 5, soon,
           Causal(false, TimePoint(0, CLOCK_UTC, 0), soon, [], 0, 1, 0), 0)
  }

  function Way(): Route { Route(4, 3, 1, Path()) }

  function Granted(): Grant { Grant(At(1), Revisions(1, 1, 1, 1, 1), Way()) }

  function Allow(): Option<Authority> { Some((i, r, c) => true) }

  lemma WishRoutable()
    ensures SearchOf(Willing().admit.routes, Asset(1, 0, 0), Wish(), true) == Found(Way())
  {
    hide CandidateErrors, ErrorsOf, ErrorsAmong, Routable;
    var h, s, i := Willing().admit.routes, Asset(1, 0, 0), Wish();
    RoutableExact(h, s, i, 4);
    assert RoutableIds(h, s, i) == {4};
  }

  lemma WishJudged()
    ensures JudgeErrors(Willing().admit, Asset(1, 0, 0), At(1), Wish(), Allow()) == {}
  {
    hide SearchOf, IsOldest, Unevaluable, ValidContext;
    var h, s, i := Willing().admit, Asset(1, 0, 0), Wish();
    WishRoutable();
    AssetFresh(1, 0, 0, 1);
    assert Met(h, s, At(1), i.preconditions[0]);
    assert PreconditionErrors(h, s, At(1), i.preconditions) == {};
  }

  /** An intent is granted, on the one capability there is. */
  lemma WishGranted()
    ensures EarlyErrors(Willing().admit, Asset(1, 0, 0), At(1), Wish()) == {}
    ensures Verdict(Willing().admit, Asset(1, 0, 0), At(1), Wish(), Allow()) == Success(Granted())
  {
    hide JudgeErrors, SearchOf, ValidateErrors;
    AssetValid(1, 0, 0);
    WishRoutable();
    WishJudged();
  }

  // ---------------------------------------------------------------- carried out and read back

  function Done(): Execution {
    Execution(Wish(), Some(At(1).at), Some(Granted().revisions), Some(Way()), Some(Dispatch(At(2), Some(At(3)), Sent, true, 0)), None,
              Some(Readback(0, Revisions(2, 1, 1, 1, 1), 2, 2, 1, Path(), Confirms, At(6), 0)), Applied, None, {0})
  }

  function Later(): Snapshot { Asset(2, 4, 5) }

  lemma DoneReadback()
    ensures PlainReadbackErrors(Willing(), Done(), Later()) == {} && HookAgrees(Willing(), Done(), Later())
  {
    hide Unevaluable, IsOldest, ValidContext;
    AssetFresh(2, 4, 5, 6);
    var r, s := Done(), Later();
    var b := r.readback.value;
    assert Convincing(s, b);
    assert HeaderErrors(Willing(), r, b, Way(), Granted().revisions, s) == {};
    assert RouteCurrentErrors(s, Way(), 0) == {};
    assert CandidateReadErrors(r, b, r.dispatch.value, s) == {};
  }

  lemma DoneAccepted()
    ensures AppendErrors(Willing(), Admitted(Willing(), Wish(), Granted()), true, Done(), Some(Later())) == {}
  {
    hide PlainReadbackErrors, HookAgrees, ValidateErrors, Asset;
    var h, cell, r := Willing(), Admitted(Willing(), Wish(), Granted()), Done();
    AssetValid(2, 4, 5);
    DoneReadback();
    assert ExecutionErrors(h, r) == {};
    assert SameAdmission(h, cell, r);
    assert OwnErrors(h, cell, true, r) == {};
    assert LaterErrors(h, cell, true, r, Some(Later())) == {};
  }

  /** From the empty table, entering the grant and appending the record leaves it applied. */
  lemma AppliedHappens()
    ensures var t := Interleaving(Willing(), 1, map[], [Enter(Wish(), Granted()), Finish(0, true, Done(), Some(Later()))]);
            t == map[0 := Admitted(Willing(), Wish(), Granted()).(record := Some(Done()))] && Done().outcome == Applied
  {
    hide AppendErrors, Later;
    var h, actions := Willing(), [Enter(Wish(), Granted()), Finish(0, true, Done(), Some(Later()))];
    DoneAccepted();
    assert actions[..1] == [actions[0]] && actions[..1][..0] == [];
    assert Interleaving(h, 1, map[], []) == map[];
    assert Interleaving(h, 1, map[], actions[..1]) == map[0 := Admitted(h, Wish(), Granted())];
  }
}
