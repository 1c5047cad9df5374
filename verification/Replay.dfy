/** The replay table refines a log of commits; revisions move exactly once. */
module Replay {
  import opened Errors
  import opened Graphs
  import opened Freshness
  import opened Records
  import opened Lineage
  import opened Snapshots
  import opened Publication
  import opened Validity
  import opened Batches
  import opened Lifecycle
  import opened Kernel
  import opened History

  ghost predicate Commits(h: Hooks, k: State, r: Request) { Decide(h, k, r.batch, r.mono).Accepted? }

  /** Request i of the run was accepted and published on this cursor. */
  ghost predicate CommitsAt(h: Hooks, asset: Id, requests: seq<Request>, i: nat, key: CursorKey) {
    && i < |requests| && requests[i].batch.header == key
    && Commits(h, Run(h, Initial(asset), requests[..i]), requests[i])
  }

  ghost predicate LastCommit(h: Hooks, asset: Id, requests: seq<Request>, i: nat, key: CursorKey) {
    CommitsAt(h, asset, requests, i, key) && forall j :: i < j < |requests| ==> !CommitsAt(h, asset, requests, j, key)
  }

  /** What the table and the cursor of a key hold after the run, when its last commit was request i. */
  ghost predicate HeldFrom(h: Hooks, asset: Id, requests: seq<Request>, i: nat, key: CursorKey) {
    var k := Run(h, Initial(asset), requests);
    && i < |requests| && key in k.replays
    && Some(k.replays[key]) == Run(h, Initial(asset), requests[..i + 1]).current
    && k.current.Some? && key in k.current.value.cursors
    && k.current.value.cursors[key].lastSequence == requests[i].batch.sequence
    && k.current.value.cursors[key].lastDigest == requests[i].batch.digest
  }

  lemma PrefixCommits(h: Hooks, asset: Id, requests: seq<Request>, i: nat, key: CursorKey)
    requires requests != []
    ensures i < |requests| - 1 ==>
              (CommitsAt(h, asset, requests, i, key) <==> CommitsAt(h, asset, requests[..|requests| - 1], i, key))
  {
    hide Commits, Run;
    if i < |requests| - 1 {
      assert requests[..|requests| - 1][..i] == requests[..i];
    }
  }

  /** One more request either commits on the key or leaves what the key holds alone. */
  lemma HeldStep(h: Hooks, asset: Id, requests: seq<Request>, i: nat, key: CursorKey)
    requires requests != [] && i < |requests| - 1
    requires HeldFrom(h, asset, requests[..|requests| - 1], i, key)
    requires !CommitsAt(h, asset, requests, |requests| - 1, key)
    ensures HeldFrom(h, asset, requests, i, key)
  {
    hide Decide, KernelInv, Staged, Passes, Valid, NoStrayEpoch, OrderErrors, HeaderOwned, IsNew, Base;
    var before, last := requests[..|requests| - 1], requests[|requests| - 1];
    var k := Run(h, Initial(asset), before);
    assert before[..i + 1] == requests[..i + 1];
    InitialInv(asset);
    RunKeepsInv(h, Initial(asset), before);
    if Commits(h, k, last) {
      AcceptedMeans(h, k, last.batch, last.mono);
      StagedCursors(Base(k), last.batch, last.mono, k.current.None?);
      assert Base(k) == k.current.value by { CurrentIsBase(k); }
      assert last.batch.header != key;
    }
  }

  lemma CurrentIsBase(k: State)
    requires k.current.Some?
    ensures Base(k) == k.current.value
  {}

  lemma HeldFresh(h: Hooks, asset: Id, requests: seq<Request>, key: CursorKey)
    requires requests != [] && CommitsAt(h, asset, requests, |requests| - 1, key)
    ensures HeldFrom(h, asset, requests, |requests| - 1, key)
  {
    hide Decide, KernelInv, Staged, Passes, Valid, NoStrayEpoch, OrderErrors, HeaderOwned, IsNew, Base;
    var before, last := requests[..|requests| - 1], requests[|requests| - 1];
    var k := Run(h, Initial(asset), before);
    assert requests[..|requests|] == requests;
    InitialInv(asset);
    RunKeepsInv(h, Initial(asset), before);
    AcceptedMeans(h, k, last.batch, last.mono);
    StagedCursors(Base(k), last.batch, last.mono, k.current.None?);
  }

  /**
   * After any run the replay table has an entry exactly for the cursors that
   * ever committed, and it is the snapshot their last commit published.
   */
  lemma {:induction false} TableIsLog(h: Hooks, asset: Id, requests: seq<Request>, key: CursorKey)
    ensures key in Run(h, Initial(asset), requests).replays <==> exists i :: CommitsAt(h, asset, requests, i, key)
    ensures forall i :: LastCommit(h, asset, requests, i, key) ==> HeldFrom(h, asset, requests, i, key)
    decreases |requests|
  {
    hide Decide, HeldFrom, Commits;
    if requests != [] {
      var n := |requests| - 1;
      var before, last := requests[..n], requests[n];
      TableIsLog(h, asset, before, key);
      assert CommitsAt(h, asset, requests, n, key) <==>
             last.batch.header == key && Commits(h, Run(h, Initial(asset), before), last);
      ReplaysStep(h, Run(h, Initial(asset), before), last);
      forall i: nat ensures i < n ==> (CommitsAt(h, asset, requests, i, key) <==> CommitsAt(h, asset, before, i, key)) {
        PrefixCommits(h, asset, requests, i, key);
      }
      forall i: nat | LastCommit(h, asset, requests, i, key) ensures HeldFrom(h, asset, requests, i, key) {
        if i == n {
          HeldFresh(h, asset, requests, key);
        } else {
          assert LastCommit(h, asset, before, i, key);
          HeldStep(h, asset, requests, i, key);
        }
      }
    }
  }

  lemma ReplaysStep(h: Hooks, k: State, r: Request)
    ensures Step(h, k, r.batch, r.mono).replays.Keys ==
            k.replays.Keys + if Commits(h, k, r) then {r.batch.header} else {}
  {
    hide Decide;
  }

  /** An exact repetition of a cursor's last accepted batch returns the committed snapshot and changes nothing. */
  lemma ExactReplay(h: Hooks, k: State, b: Batch, m: Mono)
    requires KernelInv(k) && k.current.Some? && b.header in k.current.value.cursors
    requires StructureErrors(h, k.asset, b, m) == {} && h.digestOf(b) == b.digest
    requires b.sequence == k.current.value.cursors[b.header].lastSequence && b.digest == k.current.value.cursors[b.header].lastDigest
    ensures b.header in k.replays && Decide(h, k, b, m) == Replayed(k.replays[b.header]) && Step(h, k, b, m) == k
  {
    hide StructureErrors, Valid, DecideNew, OwnershipErrors;
  }

  /** An older sequence, or the same sequence with other bytes, is refused and changes nothing. */
  lemma StaleOrChanged(h: Hooks, k: State, b: Batch, m: Mono)
    requires KernelInv(k) && k.current.Some? && b.header in k.current.value.cursors && StructureErrors(h, k.asset, b, m) == {}
    requires var c := k.current.value.cursors[b.header];
             b.sequence < c.lastSequence
             || (b.sequence == c.lastSequence && (h.digestOf(b) != b.digest || b.digest != c.lastDigest))
    ensures Decide(h, k, b, m) == Rejected(SequenceConflict) && Step(h, k, b, m) == k
  {
    hide StructureErrors, Valid, DecideNew, OwnershipErrors;
  }

  /**
   * The two together, over a whole run: whatever was submitted in between, the
   * last accepted batch of a cursor is answered with the snapshot it committed.
   */
  lemma ReplayAnswered(h: Hooks, asset: Id, requests: seq<Request>, i: nat, m: Mono)
    requires i < |requests| && LastCommit(h, asset, requests, i, requests[i].batch.header)
    requires StructureErrors(h, asset, requests[i].batch, m) == {}
    ensures var k := Run(h, Initial(asset), requests);
            var committed := Run(h, Initial(asset), requests[..i + 1]).current;
            && committed.Some? && Decide(h, k, requests[i].batch, m) == Replayed(committed.value)
            && Step(h, k, requests[i].batch, m) == k
  {
    hide StructureErrors, Decide, Step, KernelInv, LastCommit;
    var b := requests[i].batch;
    var k := Run(h, Initial(asset), requests);
    InitialInv(asset);
    RunKeepsInv(h, Initial(asset), requests);
    RunAsset(h, asset, requests);
    TableIsLog(h, asset, requests, b.header);
    RunKeepsInv(h, Initial(asset), requests[..i]);
    AcceptedDigest(h, asset, requests, i);
    ExactReplay(h, k, b, m);
  }

  lemma RunAsset(h: Hooks, asset: Id, requests: seq<Request>)
    ensures Run(h, Initial(asset), requests).asset == asset
  {
    hide KernelInv, Step;
    InitialInv(asset);
    RunKeepsInv(h, Initial(asset), requests);
  }

  lemma AcceptedDigest(h: Hooks, asset: Id, requests: seq<Request>, i: nat)
    requires i < |requests| && LastCommit(h, asset, requests, i, requests[i].batch.header)
    ensures h.digestOf(requests[i].batch) == requests[i].batch.digest
  {
    hide Decide, KernelInv, Staged, Passes, Valid, NoStrayEpoch, OrderErrors, HeaderOwned, IsNew, Base, Run;
    var k := Run(h, Initial(asset), requests[..i]);
    assert CommitsAt(h, asset, requests, i, requests[i].batch.header);
    InitialInv(asset);
    RunKeepsInv(h, Initial(asset), requests[..i]);
    AcceptedMeans(h, k, requests[i].batch, requests[i].mono);
    CleanOrder(h, Base(k), requests[i].batch);
  }

  // ---------------------------------------------------------------- revisions

  /** The revision moved by one exactly when the content changed. */
  ghost predicate MovedOnce<T>(x: Versioned<T>, y: Versioned<T>) {
    y.revision == if x.body == y.body then x.revision else x.revision + 1
  }

  ghost predicate AllMovedOnce<K, T>(x: map<K, Versioned<T>>, y: map<K, Versioned<T>>) {
    forall k :: k in x && k in y ==> MovedOnce(x[k], y[k])
  }

  /** Same objects with the same content. */
  ghost predicate SameObjects<K, T>(x: map<K, Versioned<T>>, y: map<K, Versioned<T>>) {
    x.Keys == y.Keys && forall k :: k in x ==> x[k].body == y[k].body
  }

  lemma NormalizeMovesOnce<K, T>(before: map<K, Versioned<T>>, after: map<K, Versioned<T>>)
    ensures AllMovedOnce(before, Normalize(before, after))
  {}

  lemma UnchangedIff<K, T>(x: map<K, Versioned<T>>, y: map<K, Versioned<T>>)
    requires AllMovedOnce(x, y)
    ensures x == y <==> SameObjects(x, y)
  {
    if SameObjects(x, y) {
      forall k | k in x ensures x[k] == y[k] {
        assert MovedOnce(x[k], y[k]);
      }
    }
  }

  ghost predicate IdentityContentSame(s: Snapshot, t: Snapshot) {
    SameObjects(s.sources, t.sources) && SameObjects(s.bindings, t.bindings) && SameObjects(s.links, t.links) && s.fences == t.fences
  }

  function Next(same: bool, revision: nat): nat { if same then revision else revision + 1 }

  /** No published fact or retained record differs; envelopes follow from the facts. */
  ghost predicate FactContentSame(s: Snapshot, t: Snapshot) { s.facts == t.facts && s.retained == t.retained }

  lemma ObjectsMoveOnce(s: Snapshot, b: Batch, m: Mono)
    ensures var t := Staged(s, b, m, false);
            && AllMovedOnce(s.sources, t.sources) && AllMovedOnce(s.bindings, t.bindings) && AllMovedOnce(s.links, t.links)
            && AllMovedOnce(s.services, t.services) && AllMovedOnce(s.capabilities, t.capabilities)
  {
    hide NextSources, NextBindings, NextLinks, NextServices, NextCapabilities, NextFences, NextCursors, NextFacts,
         NextRetained, RebuildEnvelopes, Normalize, Staged, AllMovedOnce;
    StagedMaps(s, b, m, false);
    NormalizeMovesOnce(s.sources, NextSources(s, b));
    NormalizeMovesOnce(s.bindings, NextBindings(s, b));
    NormalizeMovesOnce(s.links, NextLinks(s, b));
    NormalizeMovesOnce(s.services, NextServices(s, b));
    NormalizeMovesOnce(s.capabilities, NextCapabilities(s, b));
  }

  /** Unchanged facts rebuild the very same envelopes. */
  lemma EnvelopesFollowFacts(s: Snapshot)
    requires WellKeyed(s) && ContentErrors(s) == {}
    ensures RebuildEnvelopes(s, s.facts) == s.envelopes
  {
    hide DeriveConflict, Group, ContentErrors;
    forall key | key in s.envelopes ensures s.envelopes[key].conflict == DeriveConflict(Group(s.facts, key)) {
      EnvelopeConflict(s, key);
    }
  }

  /** A kept envelope moved by one exactly when its candidates or its conflict changed; a new one starts at one. */
  ghost predicate EnvelopesMovedOnce(s: Snapshot, t: Snapshot) {
    forall key :: key in t.envelopes ==>
      if key in s.envelopes
      then t.envelopes[key].revision == Next(SameEnvelope(s, t, key), s.envelopes[key].revision)
      else t.envelopes[key].revision == 1
  }

  ghost predicate SameEnvelope(s: Snapshot, t: Snapshot, key: Id)
    requires key in s.envelopes && key in t.envelopes
  {
    Group(s.facts, key) == Group(t.facts, key) && s.envelopes[key].conflict == t.envelopes[key].conflict
  }

  lemma EnvelopesStep(s: Snapshot, t: Snapshot)
    requires t.envelopes == RebuildEnvelopes(s, t.facts)
    ensures EnvelopesMovedOnce(s, t)
  {
    hide Group, DeriveConflict;
  }

  predicate InRange<K, T>(objects: map<K, Versioned<T>>) { forall k :: k in objects ==> Positive(objects[k].revision) }

  predicate ObjectsInRange(t: Snapshot) {
    && InRange(t.sources) && InRange(t.bindings) && InRange(t.links) && InRange(t.services) && InRange(t.capabilities) && InRange(t.facts)
    && forall key :: key in t.envelopes ==> Positive(t.envelopes[key].revision)
  }

  lemma NoRecordErrors(t: Snapshot, e: Err)
    requires ContentErrors(t) == {}
    ensures forall k :: k in t.sources ==> e !in SourceShape(t.sources[k])
    ensures forall k :: k in t.bindings ==> e !in BindingShape(t.bindings[k])
    ensures forall k :: k in t.links ==> e !in LinkShape(t.links[k])
    ensures forall k :: k in t.facts ==> e !in CandidateShape(k, t.facts[k])
    ensures forall k :: k in t.envelopes ==> e !in EnvelopeShape(t.facts, k, t.envelopes[k])
    ensures forall k :: k in t.services ==> e !in ServiceShape(t.services[k])
    ensures forall k :: k in t.capabilities ==> e !in CapabilityShape(t.capabilities[k])
  {
    hide WithinLimits, OneCurrentEpoch, CapabilityHasService, SourceShape, BindingShape, LinkShape, CandidateShape, EnvelopeShape, ServiceShape,
         CapabilityShape;
    assert e !in RecordErrors(t);
  }

  /** No revision of a snapshot without content errors has left its range. */
  lemma ContentInRange(t: Snapshot)
    requires ContentErrors(t) == {}
    ensures ObjectsInRange(t)
  {
    hide ContentErrors, InputsShape, ObservedShape, InferredShape, DeriveConflict, Group, ConflictShape, ValidTimes, ValidPolicy;
    NoRecordErrors(t, InvalidIdentifier);
  }

  /**
   * An accepted batch raises the semantic revision by one, each component by
   * one exactly when some content of it changed, each object by one exactly when
   * its other fields did; no revision leaves its range.
   */
  lemma RevisionsExactlyOnce(h: Hooks, k: State, b: Batch, m: Mono)
    requires KernelInv(k) && k.current.Some? && Decide(h, k, b, m).Accepted?
    ensures var s, t := k.current.value, Decide(h, k, b, m).snapshot;
            && t.revisions == Revisions(s.revisions.semantic + 1,
                                        Next(IdentityContentSame(s, t), s.revisions.identity),
                                        Next(FactContentSame(s, t), s.revisions.facts),
                                        Next(SameObjects(s.services, t.services), s.revisions.services),
                                        Next(SameObjects(s.capabilities, t.capabilities), s.revisions.capabilities))
            && AllMovedOnce(s.sources, t.sources) && AllMovedOnce(s.bindings, t.bindings) && AllMovedOnce(s.links, t.links)
            && AllMovedOnce(s.services, t.services) && AllMovedOnce(s.capabilities, t.capabilities)
            && EnvelopesMovedOnce(s, t) && ObjectsInRange(t)
            && Positive(t.revisions.semantic) && Positive(t.revisions.identity) && Positive(t.revisions.facts)
            && Positive(t.revisions.services) && Positive(t.revisions.capabilities)
  {
    hide KernelInv, Decide, Staged, Passes, Valid, NoStrayEpoch, OrderErrors, HeaderOwned, IsNew, Base, NextSources, NextBindings, NextLinks,
         NextServices, NextCapabilities, NextFences, NextCursors, NextFacts, NextRetained, RebuildEnvelopes, Normalize, AllMovedOnce, SameObjects,
         WellKeyed, ContentErrors, LifecycleOk, SourcesHaveCursor, KeyShapes, GraphFaults, EnvelopesMovedOnce, ObjectsInRange;
    AcceptedMeans(h, k, b, m);
    CurrentIsBase(k);
    var s, t := k.current.value, Staged(k.current.value, b, m, false);
    ObjectsMoveOnce(s, b, m);
    StagedMaps(s, b, m, false);
    UnchangedIff(s.sources, t.sources);
    UnchangedIff(s.bindings, t.bindings);
    UnchangedIff(s.links, t.links);
    UnchangedIff(s.services, t.services);
    UnchangedIff(s.capabilities, t.capabilities);
    ValidMeans(t);
    EnvelopesStep(s, t);
    ContentInRange(t);
    ValidMeans(s) by { CurrentIsValid(k); }
    EnvelopesFollowFacts(s);
  }

  lemma CurrentIsValid(k: State)
    requires KernelInv(k) && k.current.Some?
    ensures Valid(k.current.value)
  {
    hide Valid;
  }

  /** A published candidate that survives a batch is the old one, or has new content at exactly the next revision. */
  lemma FactsMoveOnce(h: Hooks, s: Snapshot, b: Batch, m: Mono, first: bool, id: Id)
    requires Passes(h, s, b, m, first) && id in s.facts && id in NextFacts(s, b)
    ensures var x, y := s.facts[id], NextFacts(s, b)[id]; y == x || (y.body != x.body && y.revision == x.revision + 1)
  {
    hide Passes, Staged, StepErrors, NextBindings, FactErrorsOf;
    PassesParts(h, s, b, m, first);
    FactFrom(s, b, id);
    if id in b.facts {
      UpsertStep(h, s, b, id);
    }
  }

  lemma FactFrom(s: Snapshot, b: Batch, id: Id)
    requires id in s.facts && id in NextFacts(s, b)
    ensures NextFacts(s, b)[id] == if id in b.facts then b.facts[id] else s.facts[id]
  {
    hide NextBindings, Survives;
  }

  lemma UpsertStep(h: Hooks, s: Snapshot, b: Batch, id: Id)
    requires FactErrors(h, s, b) == {} && id in b.facts && id in s.facts
    ensures RevisionStep(s.facts[id], b.facts[id])
  {
    hide ObservedForBatch, FactWithdrawalErrorsOf, OwnObservation;
    assert forall e :: e in FactErrorsOf(h, s, b, id) ==> e in FactErrors(h, s, b);
  }
}
