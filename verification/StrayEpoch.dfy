/**
 * The transitions alone do not guarantee a valid snapshot: a batch that retires
 * its own epoch may open a successor epoch that has no cursor yet, and only the
 * final check refuses it.
 */
module StrayEpoch {
  import opened Errors
  import opened Freshness
  import opened Records
  import opened Lineage
  import opened Closure
  import opened Snapshots
  import opened Transition
  import opened Publication
  import opened Validity
  import opened Batches
  import opened Lifecycle
  import opened Kernel
  import opened History

  /** Sources and cursors only. */
  predicate Bare(s: Snapshot) {
    && s.bindings == map[] && s.links == map[] && s.facts == map[] && s.envelopes == map[] && s.retained == map[]
    && s.services == map[] && s.capabilities == map[] && s.fences == map[]
  }

  predicate BareBatch(b: Batch) {
    && b.bindings == map[] && b.links == map[] && b.facts == map[] && b.services == map[] && b.capabilities == map[] && b.fences == map[]
    && b.factWithdrawals == {} && b.serviceWithdrawals == {} && b.capabilityWithdrawals == {}
  }

  lemma BareMoves(s: Snapshot, b: Batch)
    requires Bare(s) && BareBatch(b)
    ensures MoveErrors(s, b) == {} && Moved(s, b) == Objects(map[], map[], map[], map[]) && NextBindings(s, b) == map[]
    ensures BindingErrors(s, b) == {} && LinkErrors(s, b) == {} && NextLinks(s, b) == map[]
  {
    hide BasisFits, Retiring, BindingErrorsOf, LinkErrorsOf, StagedSources;
    assert FenceHits(s, b) == map[];
    assert AfterFences(s, b) == Objects(map[], map[], map[], map[]);
    assert RetireHits(s, b) == map[];
  }

  lemma BareDependents(h: Hooks, s: Snapshot, b: Batch)
    requires Bare(s) && BareBatch(b)
    ensures ServiceErrors(h, s, b) == {} && CapabilityErrors(h, s, b) == {} && NextServices(s, b) == map[] && NextCapabilities(s, b) == map[]
  {
    hide Moved, NextBindings, ServiceErrorsOf, ServiceWithdrawalErrorsOf, CapabilityErrorsOf, CapabilityWithdrawalErrorsOf;
    BareMoves(s, b);
  }

  lemma BareStaged(h: Hooks, s: Snapshot, b: Batch)
    requires Bare(s) && BareBatch(b)
    ensures FactErrors(h, s, b) == {} && StagedFacts(s, b) == map[]
  {
    hide FactErrorsOf, FactWithdrawalErrorsOf, FactWithdrawn;
    assert |s.facts + b.facts| == 0;
  }

  lemma BareClosure(h: Hooks, s: Snapshot, b: Batch)
    requires Bare(s) && BareBatch(b)
    ensures NextFacts(s, b) == map[] && GraphErrors(s, b) == {} && RebuildEnvelopes(s, map[]) == map[]
  {
    hide NextBindings, StagedFacts, FactErrors, Survives, ErrorsBelow, DeriveConflict, EnvelopeRevision;
    BareStaged(h, s, b);
    assert Kept(map[], {}, NextBindings(s, b)) == map[];
    assert RebuildEnvelopes(s, map[]) == map[];
  }

  lemma BareRetained(s: Snapshot, b: Batch, m: Mono)
    requires Bare(s) && BareBatch(b)
    ensures RetentionErrors(s, b, m) == {} && NextRetained(s, b, m) == map[]
  {
    hide Displaced, AgeOf, HasIdentity, Identity, RemovalOf;
    assert NewlyRetained(s, b) == map[];
    assert StagedRetained(s, b) == map[];
    assert NextRetained(s, b, m) == map[];
  }

  function ThisEpoch(): SourceKey { SourceKey(0, 1) }
  function NextEpoch(): SourceKey { SourceKey(0, 2) }
  function Described(): Versioned<Source> { Versioned(Source(0, 0, SourceCurrent), 1) }

  /** The first batch of an asset: one epoch with one open generation, and nothing on it yet. */
  function First(): Batch {
    Batch(0, CursorKey(0, 1, 1), 1, 0, TimePoint(0, CLOCK_UTC, 0), 0, map[ThisEpoch() := Described()], {}, map[], map[],
          map[], {}, map[], {}, map[], {}, map[])
  }

  /** What it publishes. */
  function OneEpoch(m: Mono): Snapshot {
    Empty(0).(revisions := Revisions(1, 1, 1, 1, 1), mono := m, sources := map[ThisEpoch() := Described()],
              cursors := map[CursorKey(0, 1, 1) := Cursor(1, 0, false)])
  }

  /** Retire the epoch and describe its successor in one batch. */
  function Successor(): Batch {
    Batch(0, CursorKey(0, 1, 1), 2, 1, TimePoint(0, CLOCK_UTC, 0), 0, map[NextEpoch() := Described()], {1}, map[], map[],
          map[], {}, map[], {}, map[], {}, map[])
  }

  function Permissive(): Hooks { Hooks((b, m) => {}, b => 0, c => {}, s => {}, c => {}) }

  lemma BareRecords(t: Snapshot)
    requires Bare(t) && forall k :: k in t.sources ==> Positive(t.sources[k].revision)
    ensures RecordErrors(t) == {}
  {
    hide BindingShape, LinkShape, CandidateShape, EnvelopeShape, ServiceShape, CapabilityShape;
  }

  lemma BareContent(t: Snapshot)
    requires Bare(t) && (forall k :: k in t.sources ==> Positive(t.sources[k].revision)) && OneCurrentEpoch(t)
    requires |t.sources| <= 32 && |t.cursors| <= 128
    ensures ContentErrors(t) == {}
  {
    hide RecordErrors, CapabilityHasService, OneCurrentEpoch, Positive;
    BareRecords(t);
  }

  // ---------------------------------------------------------------- a bare batch, in general

  lemma BareOwnership(s: Snapshot, b: Batch)
    requires BareBatch(b)
    ensures OwnershipErrors(s, b) == {}
  {
    hide Foreign, ForeignCandidate, ForeignService, ForeignCapability;
  }

  lemma BareShape(b: Batch, m: Mono)
    requires BareBatch(b) && ValidMono(m) && ValidPoint(b.observedAt) && Positive(b.header.generation) && Positive(b.sequence) && b.expected < TWO64
    requires forall k :: k in b.sources ==> b.sources[k].body.state == SourceCurrent && Positive(b.sources[k].revision) && k.source == b.header.source
    ensures BatchShape(b, m) == {} && HeaderOwned(b.asset, b)
  {
    hide SuppliedOwned, OnPath, SameEpoch, UpsertShapes, Positive;
    BareUpserts(b);
  }

  lemma BareUpserts(b: Batch)
    requires BareBatch(b) && forall k :: k in b.sources ==> Positive(b.sources[k].revision)
    ensures UpsertShapes(b) == {}
  {
    hide BindingShape, LinkShape, CandidateShape, ServiceShape, CapabilityShape, FenceShape;
  }

  lemma BareErrors(h: Hooks, s: Snapshot, b: Batch, m: Mono, first: bool)
    requires Bare(s) && BareBatch(b) && SourceErrors(s, b) == {} && GenerationErrors(s, b) == {}
    requires var t := Staged(s, b, m, first); ContentErrors(t) == {} && RevisionsShape(t.revisions) == {}
    ensures StepErrors(h, s, b, m, first) == {}
  {
    hide Staged, ContentErrors, RevisionsShape, SourceErrors, GenerationErrors, MoveErrors, BindingErrors, LinkErrors, FactErrors, ServiceErrors,
         CapabilityErrors, GraphErrors, RetentionErrors, Moved, NextBindings, NextLinks, NextServices, NextCapabilities, StagedFacts, NextFacts,
         NextRetained, RebuildEnvelopes;
    BareMoves(s, b);
    BareDependents(h, s, b);
    BareStaged(h, s, b);
    BareClosure(h, s, b);
    BareRetained(s, b, m);
  }

  lemma BareStep(s: Snapshot, b: Batch, m: Mono, first: bool)
    requires Bare(s) && BareBatch(b)
    ensures var t := Staged(s, b, m, first);
            && Bare(t) && t.sources == Normalize(s.sources, NextSources(s, b)) && t.cursors == NextCursors(s, b) && t.asset == s.asset
            && t.at == b.observedAt && t.mono == m && t.revisions == NextRevisions(s, t, first)
  {
    hide NextSources, NextFences, NextCursors, NextBindings, NextLinks, NextServices, NextCapabilities, NextFacts, NextRetained,
         RebuildEnvelopes, MoveErrors, BindingErrors, LinkErrors, ServiceErrors, CapabilityErrors, GraphErrors, RetentionErrors, Moved,
         NextRevisions;
    BareMoves(s, b);
    BareDependents(Permissive(), s, b);
    BareClosure(Permissive(), s, b);
    BareRetained(s, b, m);
    BareFences(s, b);
    StagedMaps(s, b, m, first);
  }

  lemma BareFences(s: Snapshot, b: Batch)
    requires Bare(s) && BareBatch(b)
    ensures NextFences(s, b) == map[]
  {}

  // ---------------------------------------------------------------- the first batch is accepted

  lemma FirstStaged(m: Mono)
    ensures Staged(Empty(0), First(), m, true) == OneEpoch(m)
  {
    hide Staged;
    BareStep(Empty(0), First(), m, true);
    assert NextSources(Empty(0), First()) == map[ThisEpoch() := Described()];
    assert Normalize(Empty(0).sources, NextSources(Empty(0), First())) == map[ThisEpoch() := Described()];
    assert NextCursors(Empty(0), First()) == map[CursorKey(0, 1, 1) := Cursor(1, 0, false)];
  }

  lemma OneEpochContent(m: Mono)
    ensures ContentErrors(OneEpoch(m)) == {} && RevisionsShape(OneEpoch(m).revisions) == {}
  {
    hide ContentErrors;
    var s := OneEpoch(m);
    assert s.cursors.Keys == {CursorKey(0, 1, 1)} && s.sources.Keys == {ThisEpoch()};
    BareContent(s);
  }

  lemma FirstSources()
    ensures SourceErrors(Empty(0), First()) == {} && GenerationErrors(Empty(0), First()) == {} && OrderErrors(Permissive(), Empty(0), First()) == {}
    ensures NoStrayEpoch(Empty(0), First()) && IsNew(Empty(0), First())
  {}

  /** A batch is accepted: here the first one of an asset. */
  lemma FirstAccepted(m: Mono)
    requires ValidMono(m)
    ensures Decide(Permissive(), Initial(0), First(), m) == Accepted(OneEpoch(m))
    ensures Run(Permissive(), Initial(0), [Request(First(), m)]).current == Some(OneEpoch(m))
  {
    hide Decide, StructureErrors, OwnershipErrors, OrderErrors, StepErrors, Staged, Empty, NoStrayEpoch, IsNew, SourceErrors, GenerationErrors,
         ContentErrors, RevisionsShape, BatchShape, HeaderOwned;
    var h, k, b := Permissive(), Initial(0), First();
    InitialInv(0);
    FirstStaged(m);
    OneEpochContent(m);
    FirstSources();
    assert Bare(Empty(0)) by { EmptyBare(); }
    BareErrors(h, Empty(0), b, m, true);
    BareShape(b, m);
    BareOwnership(Empty(0), b);
    CleanStart(b, m);
    AcceptedIff(h, k, b, m);
    AcceptedStaged(h, k, b, m);
    assert [Request(b, m)][..0] == [];
  }

  lemma EmptyBare()
    ensures Bare(Empty(0))
  {}

  lemma CleanStart(b: Batch, m: Mono)
    requires BatchShape(b, m) == {} && HeaderOwned(0, b)
    ensures StructureErrors(Permissive(), 0, b, m) == {}
  {
    hide BatchShape, HeaderOwned;
  }

  lemma AcceptedStaged(h: Hooks, k: State, b: Batch, m: Mono)
    requires Decide(h, k, b, m).Accepted?
    ensures Decide(h, k, b, m) == Accepted(Staged(Base(k), b, m, k.current.None?))
  {
    hide Decide, Staged, Base, ValidateErrors, StructureErrors, OrderErrors, StepErrors, IsNew;
    AcceptedPasses(h, k, b, m);
  }

  // ---------------------------------------------------------------- the second one is refused last

  lemma SuccessorPaths(m: Mono)
    ensures Normalize(OneEpoch(m).sources, NextSources(OneEpoch(m), Successor())) ==
            map[ThisEpoch() := Versioned(Source(0, 0, SourceRetired), 2), NextEpoch() := Described()]
    ensures NextCursors(OneEpoch(m), Successor()) == map[CursorKey(0, 1, 1) := Cursor(2, 0, false)]
  {
    var s, b := OneEpoch(m), Successor();
    assert StagedSources(s, b) == map[ThisEpoch() := Described(), NextEpoch() := Described()];
    assert NextSources(s, b) == map[ThisEpoch() := Versioned(Source(0, 0, SourceRetired), 2), NextEpoch() := Described()];
  }

  lemma SuccessorContent(m: Mono)
    ensures var t := Staged(OneEpoch(m), Successor(), m, false); ContentErrors(t) == {} && RevisionsShape(t.revisions) == {}
  {
    hide Staged, ContentErrors, NextSources, NextCursors, Normalize, IdentityChanged, FactsChanged;
    BareStep(OneEpoch(m), Successor(), m, false);
    SuccessorPaths(m);
    var t := Staged(OneEpoch(m), Successor(), m, false);
    assert t.sources.Keys == {ThisEpoch(), NextEpoch()} && t.cursors.Keys == {CursorKey(0, 1, 1)};
    BareContent(t);
  }

  lemma SuccessorSources(m: Mono)
    ensures SourceErrors(OneEpoch(m), Successor()) == {} && GenerationErrors(OneEpoch(m), Successor()) == {}
    ensures OrderErrors(Permissive(), OneEpoch(m), Successor()) == {} && IsNew(OneEpoch(m), Successor())
    ensures !NoStrayEpoch(OneEpoch(m), Successor())
  {
    var s, b := OneEpoch(m), Successor();
    assert RetirementsCurrent(s, b) && OtherEpochsRetire(s, b) && HeaderEpochOpen(s, b);
    assert NextEpoch() in b.sources && NextEpoch() !in s.sources;
  }

  /**
   * In the state after that batch, retiring the epoch while describing its
   * successor raises no diagnostic anywhere and is still refused.
   */
  lemma StrayEpochRefusedLast(m: Mono)
    requires ValidMono(m)
    ensures var h := Permissive(); var k := Run(h, Initial(0), [Request(First(), m)]);
            && FirstErrors(h, k, Successor(), m) == {} && NewErrors(h, k, Successor(), m) == {}
            && Decide(h, k, Successor(), m) == Rejected(DanglingReference)
  {
    hide Decide, Run, StructureErrors, OwnershipErrors, OrderErrors, StepErrors, Staged, NoStrayEpoch, IsNew, SourceErrors, GenerationErrors,
         ContentErrors, RevisionsShape, BatchShape, HeaderOwned, KernelInv;
    var h, b := Permissive(), Successor();
    var k := Run(h, Initial(0), [Request(First(), m)]);
    InitialInv(0);
    RunKeepsInv(h, Initial(0), [Request(First(), m)]);
    FirstAccepted(m);
    SuccessorContent(m);
    SuccessorSources(m);
    BareErrors(h, OneEpoch(m), b, m, false);
    BareShape(b, m);
    BareOwnership(OneEpoch(m), b);
    CleanStart(b, m);
    AcceptedIff(h, k, b, m);
  }
}
