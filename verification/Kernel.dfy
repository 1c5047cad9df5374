/** The publication kernel of one asset: its decision on a batch, the step it takes, and the invariant of its states. */
module Kernel {
  import opened Errors
  import opened Graphs
  import opened Freshness
  import opened Records
  import opened Lineage
  import opened Closure
  import opened Snapshots
  import opened Publication
  import opened Validity
  import opened Batches
  import opened Lifecycle

  datatype State = State(asset: Id, current: Option<Snapshot>, replays: map<CursorKey, Snapshot>)

  datatype Outcome = Accepted(snapshot: Snapshot) | Replayed(snapshot: Snapshot) | Rejected(error: Err)

  function Initial(asset: Id): State { State(asset, None, map[]) }

  function Empty(asset: Id): Snapshot {
    Snapshot(asset, Revisions(0, 0, 0, 0, 0), TimePoint(0, CLOCK_UTC, 0), Mono(0, 0),
             map[], map[], map[], map[], map[], map[], map[], map[], map[], map[])
  }

  function Base(k: State): Snapshot { if k.current.None? then Empty(k.asset) else k.current.value }

  /** Some error outranks the limit, so the batch is refused without looking further. */
  predicate Outranks(errs: set<Err>, limit: Err) { exists e :: e in errs && e < limit }

  predicate IsNew(s: Snapshot, b: Batch) { b.header in s.cursors ==> s.cursors[b.header].lastSequence < b.sequence }

  ghost function Reject(errs: set<Err>): Outcome
    requires errs != {}
  {
    Rejected(Least(errs).value)
  }

  /** Structure, and for a new sequence also ownership already on record. */
  function FirstErrors(h: Hooks, k: State, b: Batch, m: Mono): set<Err> {
    StructureErrors(h, k.asset, b, m) + (if IsNew(Base(k), b) then OwnershipErrors(Base(k), b) else {})
  }

  /** A sequence already accepted: an exact repetition is answered from the replay table. */
  function DecideReplay(h: Hooks, k: State, b: Batch): Outcome
    requires b.header in Base(k).cursors
  {
    var cursor := Base(k).cursors[b.header];
    if b.sequence < cursor.lastSequence then Rejected(SequenceConflict)
    else if h.digestOf(b) != b.digest || b.digest != cursor.lastDigest then Rejected(SequenceConflict)
    else if b.header in k.replays then Replayed(k.replays[b.header])
    else Rejected(DanglingReference)
  }

  ghost function NewErrors(h: Hooks, k: State, b: Batch, m: Mono): set<Err> {
    OrderErrors(h, Base(k), b) + StepErrors(h, Base(k), b, m, k.current.None?)
  }

  ghost function DecideNew(h: Hooks, k: State, b: Batch, m: Mono): Outcome {
    var errs := FirstErrors(h, k, b, m) + NewErrors(h, k, b, m);
    var t := Staged(Base(k), b, m, k.current.None?);
    if errs != {} then Reject(errs)
    else if ValidateErrors(t) != {} then Reject(ValidateErrors(t))
    else Accepted(t)
  }

  ghost function Decide(h: Hooks, k: State, b: Batch, m: Mono): Outcome {
    var structure := StructureErrors(h, k.asset, b, m);
    var errs := FirstErrors(h, k, b, m);
    if Outranks(structure, InvalidValue) then Reject(structure)
    else if Outranks(errs, DanglingReference) then Reject(errs)
    else if IsNew(Base(k), b) then DecideNew(h, k, b, m)
    else if errs != {} then Reject(errs)
    else DecideReplay(h, k, b)
  }

  /** Only an accepted batch changes the state, and then all of it at once. */
  ghost function Step(h: Hooks, k: State, b: Batch, m: Mono): State {
    match Decide(h, k, b, m)
    case Accepted(t) => State(k.asset, Some(t), k.replays[b.header := t])
    case _ => k
  }

  // ---------------------------------------------------------------- the invariant of every reachable state

  /** The replay of a cursor was committed at that cursor's last sequence and digest. */
  predicate ReplayMatches(s: Snapshot, replays: map<CursorKey, Snapshot>, key: CursorKey) {
    && key in replays && key in s.cursors && key in replays[key].cursors
    && replays[key].cursors[key].lastSequence == s.cursors[key].lastSequence
    && replays[key].cursors[key].lastDigest == s.cursors[key].lastDigest
  }

  ghost predicate KernelInv(k: State) {
    match k.current
    case None => k.replays == map[]
    case Some(s) =>
      && Valid(s) && s.asset == k.asset && k.replays.Keys == s.cursors.Keys
      && forall key :: key in k.replays ==> ReplayMatches(s, k.replays, key)
  }

  lemma EmptyRecords(asset: Id)
    ensures RecordErrors(Empty(asset)) == {}
  {
    hide SourceShape, BindingShape, LinkShape, CandidateShape, EnvelopeShape, ServiceShape, CapabilityShape;
  }

  lemma EmptyContent(asset: Id)
    ensures ContentErrors(Empty(asset)) == {}
  {
    hide RecordErrors, CapabilityHasService, IsCurrent;
    EmptyRecords(asset);
  }

  lemma EmptyKeys(asset: Id)
    ensures WellKeyed(Empty(asset)) && KeyShapes(Empty(asset)) == {}
  {
    hide FenceShape, CursorShape;
  }

  lemma EmptyGraph(asset: Id)
    ensures GraphFaults(Empty(asset)) == {}
  {
    hide Survives;
    var s := Empty(asset);
    assert ObservedAreLeaves(s.facts);
    assert Survivors(s.facts, s.bindings) == map[];
    ClosureExact(s.facts, s.facts.Keys, s.bindings);
  }

  lemma EmptyLifecycle(asset: Id)
    ensures LifecycleOk(Empty(asset)) && SourcesHaveCursor(Empty(asset))
  {
    hide BindingOk, LinkOk, ServiceOk, CapabilityOk, RetainedOk, OpenHere;
  }

  lemma EmptySound(asset: Id)
    ensures Sound(Empty(asset))
  {
    hide Empty, LifecycleOk, SourcesHaveCursor, ContentErrors, KeyShapes, GraphFaults, WellKeyed;
    EmptyContent(asset);
    EmptyKeys(asset);
    EmptyGraph(asset);
    EmptyLifecycle(asset);
  }

  lemma BaseSound(k: State)
    requires KernelInv(k)
    ensures Sound(Base(k)) && Base(k).asset == k.asset
  {
    hide Valid, LifecycleOk, SourcesHaveCursor, ContentErrors, KeyShapes, GraphFaults, WellKeyed;
    EmptySound(k.asset);
    if k.current.Some? { ValidMeans(k.current.value); }
  }

  /** What acceptance means. */
  lemma AcceptedMeans(h: Hooks, k: State, b: Batch, m: Mono)
    requires KernelInv(k) && Decide(h, k, b, m).Accepted?
    ensures var s := Base(k); var t := Staged(s, b, m, k.current.None?);
            && Decide(h, k, b, m) == Accepted(t) && Step(h, k, b, m) == State(k.asset, Some(t), k.replays[b.header := t])
            && IsNew(s, b) && Passes(h, s, b, m, k.current.None?) && Valid(t) && NoStrayEpoch(s, b)
            && OrderErrors(h, s, b) == {} && HeaderOwned(k.asset, b) && s.asset == k.asset
  {
    hide StructureErrors, OrderErrors, StepErrors, Sound, ValidateErrors, Staged, KernelInv, Base, NoStrayEpoch, WellKeyed, Decide, HeaderOwned,
         BatchShape, IsNew;
    BaseSound(k);
    var s := Base(k);
    AcceptedPasses(h, k, b, m);
    CleanStructure(h, k.asset, b, m);
    CleanOrder(h, s, b);
    FinalCheckExact(h, s, b, m, k.current.None?);
  }

  /** Acceptance takes a new sequence, no diagnostic at all, and a valid staged snapshot. */
  lemma AcceptedPasses(h: Hooks, k: State, b: Batch, m: Mono)
    requires Decide(h, k, b, m).Accepted?
    ensures var s := Base(k); var t := Staged(s, b, m, k.current.None?);
            && Decide(h, k, b, m) == Accepted(t) && IsNew(s, b) && ValidateErrors(t) == {}
            && StructureErrors(h, k.asset, b, m) == {} && OrderErrors(h, s, b) == {} && StepErrors(h, s, b, m, k.current.None?) == {}
  {
    hide StructureErrors, OwnershipErrors, OrderErrors, StepErrors, ValidateErrors, Staged, Base, IsNew, Outranks;
    assert IsNew(Base(k), b) && Decide(h, k, b, m) == DecideNew(h, k, b, m);
    SplitEmpty(FirstErrors(h, k, b, m), NewErrors(h, k, b, m));
    SplitEmpty(OrderErrors(h, Base(k), b), StepErrors(h, Base(k), b, m, k.current.None?));
    SplitEmpty(StructureErrors(h, k.asset, b, m), if IsNew(Base(k), b) then OwnershipErrors(Base(k), b) else {});
  }

  /**
   * Acceptance, exactly: a new sequence that no check before the final one
   * objects to, and no source upsert for an epoch other than the header's.
   * Failing only that, the batch is refused as a dangling reference.
   */
  lemma AcceptedIff(h: Hooks, k: State, b: Batch, m: Mono)
    requires KernelInv(k)
    ensures var clean := IsNew(Base(k), b) && FirstErrors(h, k, b, m) == {} && NewErrors(h, k, b, m) == {};
            && (Decide(h, k, b, m).Accepted? <==> clean && NoStrayEpoch(Base(k), b))
            && (clean && !NoStrayEpoch(Base(k), b) ==> Decide(h, k, b, m) == Rejected(DanglingReference))
  {
    hide StructureErrors, OwnershipErrors, OrderErrors, StepErrors, ValidateErrors, Staged, Base, IsNew, Sound, KernelInv, NoStrayEpoch, WellKeyed,
         HeaderOwned, BatchShape, HeaderFenced, Regressed;
    var s := Base(k);
    if IsNew(s, b) && FirstErrors(h, k, b, m) == {} && NewErrors(h, k, b, m) == {} {
      SplitEmpty(StructureErrors(h, k.asset, b, m), OwnershipErrors(s, b));
      SplitEmpty(OrderErrors(h, s, b), StepErrors(h, s, b, m, k.current.None?));
      BaseSound(k);
      CleanStructure(h, k.asset, b, m);
      CleanOrder(h, s, b);
      FinalCheckExact(h, s, b, m, k.current.None?);
      LeastSingleton(DanglingReference);
      assert Decide(h, k, b, m) == DecideNew(h, k, b, m);
    }
    if Decide(h, k, b, m).Accepted? {
      AcceptedMeans(h, k, b, m);
      assert Decide(h, k, b, m) == DecideNew(h, k, b, m);
    }
  }

  lemma CleanStructure(h: Hooks, asset: Id, b: Batch, m: Mono)
    requires StructureErrors(h, asset, b, m) == {}
    ensures BatchShape(b, m) == {} && HeaderOwned(asset, b)
  {
    hide BatchShape, HeaderOwned;
  }

  lemma CleanOrder(h: Hooks, s: Snapshot, b: Batch)
    requires OrderErrors(h, s, b) == {}
    ensures !HeaderFenced(s, b) && !Regressed(s, b) && (b.header !in s.cursors ==> b.sequence == 1)
    ensures h.digestOf(b) == b.digest && b.expected == s.revisions.semantic
  {
    hide HeaderFenced, Regressed;
  }

  /** Every step keeps the invariant. */
  lemma StepKeepsInv(h: Hooks, k: State, b: Batch, m: Mono)
    requires KernelInv(k)
    ensures KernelInv(Step(h, k, b, m))
  {
    hide Passes, Staged, Valid, Decide, Base, NoStrayEpoch, OrderErrors, HeaderOwned, IsNew, KernelInv, ReplayMatches;
    if Decide(h, k, b, m).Accepted? {
      AcceptedMeans(h, k, b, m);
      StagedCursors(Base(k), b, m, k.current.None?);
      BaseCursors(k);
      CommitKeepsInv(k, Base(k), b, Staged(Base(k), b, m, k.current.None?));
    }
  }

  /** Committing a valid successor under the header's key keeps the table and the cursors in step. */
  lemma CommitKeepsInv(k: State, s: Snapshot, b: Batch, t: Snapshot)
    requires Valid(t) && t.asset == k.asset && k.replays.Keys == s.cursors.Keys && t.cursors.Keys == s.cursors.Keys + {b.header}
    requires forall key :: key in k.replays ==> ReplayMatches(s, k.replays, key)
    requires forall key :: key in s.cursors && key != b.header ==>
               t.cursors[key].lastSequence == s.cursors[key].lastSequence && t.cursors[key].lastDigest == s.cursors[key].lastDigest
    ensures KernelInv(State(k.asset, Some(t), k.replays[b.header := t]))
  {
    hide Valid;
    var replays := k.replays[b.header := t];
    forall key | key in replays ensures ReplayMatches(t, replays, key) {
      if key != b.header { assert ReplayMatches(s, k.replays, key); }
    }
  }

  lemma BaseCursors(k: State)
    requires KernelInv(k)
    ensures k.replays.Keys == Base(k).cursors.Keys
    ensures forall key :: key in k.replays ==> ReplayMatches(Base(k), k.replays, key)
  {
    hide Valid;
  }

  lemma StagedCursors(s: Snapshot, b: Batch, m: Mono, first: bool)
    ensures var t := Staged(s, b, m, first);
            && t.asset == s.asset && t.cursors.Keys == s.cursors.Keys + {b.header}
            && t.cursors[b.header].lastSequence == b.sequence && t.cursors[b.header].lastDigest == b.digest
            && forall key :: key in s.cursors && key != b.header ==>
                 t.cursors[key].lastSequence == s.cursors[key].lastSequence && t.cursors[key].lastDigest == s.cursors[key].lastDigest
  {
    hide Staged, NextSources, NextBindings, NextLinks, NextServices, NextCapabilities, NextFences, NextFacts, NextRetained, RebuildEnvelopes;
    StagedContent(s, b, m, first);
  }
}
