/** Retained observations: nothing displaced is lost, nothing retained changes, nothing that left comes back. */
module Retention {
  import opened Graphs
  import opened Freshness
  import opened Records
  import opened Lineage
  import opened Snapshots
  import opened Publication
  import opened Validity
  import opened Batches
  import opened Lifecycle
  import opened Kernel
  import opened History

  lemma NoWithdrawalErrors(h: Hooks, s: Snapshot, b: Batch, id: Id)
    requires FactErrors(h, s, b) == {} && id in b.factWithdrawals
    ensures FactWithdrawalErrorsOf(s, b, id) == {}
  {
    hide FactErrorsOf, FactWithdrawalErrorsOf;
    assert forall e :: e in FactWithdrawalErrorsOf(s, b, id) ==> e in FactErrors(h, s, b);
  }

  /** A batch cannot withdraw an observation whose path it fences or retires. */
  lemma DisplacedNotWithdrawn(h: Hooks, s: Snapshot, b: Batch, id: Id)
    requires FactErrors(h, s, b) == {} && HeaderOwned(s.asset, b) && id in s.facts && IsObserved(s.facts[id])
    requires ObservedCurrent(s.bindings, s.facts[id].body) && Hit(s, b, s.bindings[s.facts[id].body.binding.value].body.path)
    ensures id !in b.factWithdrawals
  {
    hide FactErrors, StagedSources;
    assert Overlaps(b, s.facts[id].body);
    if id in b.factWithdrawals {
      NoWithdrawalErrors(h, s, b, id);
    }
  }

  /** An observation's identity: the candidate, its revision and fact, and the path it was made on. */
  lemma IdentityExact(i: Id, v: Versioned<Candidate>, j: Id, w: Versioned<Candidate>)
    ensures Identity(i, v) == Identity(j, w) <==>
            && i == j && v.revision == w.revision && v.body.key == w.body.key && v.body.binding == w.body.binding
            && v.body.epoch == w.body.epoch && v.body.generation == w.body.generation
  {}

  /** Retirement is the stronger reason. */
  function ReasonIn(t: Snapshot, binding: Id): Removal {
    if binding in t.bindings && t.bindings[binding].body.state == BindingRetired then ByRetirement else ByFence
  }

  /** Conservation: an observation whose binding stops being current is retained unchanged, for the reason its binding shows, unless already expired. */
  lemma DisplacedIsRetained(h: Hooks, s: Snapshot, b: Batch, m: Mono, first: bool, id: Id)
    requires Passes(h, s, b, m, first) && id in s.facts && IsObserved(s.facts[id])
    requires s.facts[id].body.binding.Some? && !Live(Staged(s, b, m, first), s.facts[id].body.binding.value)
    ensures var t := Staged(s, b, m, first); var key := Identity(id, s.facts[id]);
            if AgeOf(Retained(s.facts[id], ByFence), Context(b.observedAt, m)) == Ok(Expired) then key !in t.retained
            else key in t.retained && t.retained[key] == Retained(s.facts[id], ReasonIn(t, s.facts[id].body.binding.value))
  {
    hide Passes, Staged, NextBindings, ContentErrors, GraphFaults, LifecycleOk, KeyShapes, SourcesHaveCursor, WellKeyed, BatchShape, UpsertShapes,
         NoRetiredUpserts, HeaderFenced, SourcesPass, GenerationsPass, BindingsPass, MoveErrors, LinkErrors, ServiceErrors, CapabilityErrors,
         GraphErrors, FactErrors, Survives, ObservedAreLeaves, Hit, BindingErrors, EvaluateFreshness, RemovalOf, ReasonIn, SameBodies;
    PassesFacts(h, s, b, m, first);
    PassesParts(h, s, b, m, first);
    PassParts(s, b);
    PublishedGrounded(s, id);
    var binding := s.facts[id].body.binding.value;
    StagedMaps(s, b, m, first);
    var n := s.(bindings := NextBindings(s, b));
    LiveNext(s, b, n, binding);
    NormalizedBodies(s.bindings, NextBindings(s, b));
    DisplacedNotWithdrawn(h, s, b, id);
    BecomesDisplaced(s, b, Staged(s, b, m, first), id);
    RetainedWhenDisplaced(s, b, m, id);
  }

  lemma BecomesDisplaced(s: Snapshot, b: Batch, t: Snapshot, id: Id)
    requires id in s.facts && id !in b.factWithdrawals && IsObserved(s.facts[id]) && s.facts[id].body.binding.Some?
    requires s.facts[id].body.binding.value in NextBindings(s, b) && SameBodies(t.bindings, NextBindings(s, b)) && !Live(t, s.facts[id].body.binding.value)
    ensures Displaced(s, b, id) && RemovalOf(s, b, id) == ReasonIn(t, s.facts[id].body.binding.value)
  {
    hide NextBindings;
  }

  lemma RetainedWhenDisplaced(s: Snapshot, b: Batch, m: Mono, id: Id)
    requires Displaced(s, b, id)
    ensures var key := Identity(id, s.facts[id]); var t := NextRetained(s, b, m);
            if AgeOf(Retained(s.facts[id], ByFence), Context(b.observedAt, m)) == Ok(Expired) then key !in t
            else key in t && t[key] == Retained(s.facts[id], RemovalOf(s, b, id))
  {
    hide NextBindings, EvaluateFreshness;
    var key := Identity(id, s.facts[id]);
    assert key in NewlyRetained(s, b);
    assert StagedRetained(s, b)[key] == Retained(s.facts[id], RemovalOf(s, b, id));
  }

  // ---------------------------------------------------------------- no change, no return

  /** The identity names a binding that is no longer current. */
  predicate Historic(s: Snapshot, key: RetainedKey) {
    key.binding.Some? && key.binding.value in s.bindings && !Live(s, key.binding.value)
  }

  lemma RetainedIsHistoric(s: Snapshot, key: RetainedKey)
    requires WellKeyed(s) && AllRetainedOk(s) && key in s.retained
    ensures Historic(s, key)
  {
    assert RetainedOk(s, s.retained[key]);
  }

  /** What this batch newly retains was current before it. */
  lemma NewlyRetainedWasLive(s: Snapshot, b: Batch, key: RetainedKey)
    requires ContentErrors(s) == {} && GraphFaults(s) == {} && Historic(s, key)
    ensures key !in NewlyRetained(s, b)
  {
    hide ContentErrors, GraphFaults, Survives, NextBindings, ObservedAreLeaves;
    if key in NewlyRetained(s, b) {
      var id :| id in s.facts && Displaced(s, b, id) && key == Identity(id, s.facts[id]);
      PublishedGrounded(s, id);
    }
  }

  /** The batch withdraws the retained record, or its time finds the record expired. */
  predicate Drops(r: Request, key: RetainedKey, record: Retained) {
    key.candidate in r.batch.factWithdrawals || AgeOf(record, Context(r.batch.observedAt, r.mono)) == Ok(Expired)
  }

  /** A retained record leaves exactly by withdrawal or expiry, and stays byte for byte until then. */
  lemma RetainedStep(s: Snapshot, b: Batch, m: Mono, t: Snapshot, key: RetainedKey)
    requires ContentErrors(s) == {} && GraphFaults(s) == {} && Historic(s, key) && t.retained == NextRetained(s, b, m)
    ensures key in t.retained ==> key in s.retained && t.retained[key] == s.retained[key]
    ensures key in s.retained ==> (key !in t.retained <==> Drops(Request(b, m), key, s.retained[key]))
  {
    hide ContentErrors, GraphFaults, NewlyRetained, EvaluateFreshness;
    NewlyRetainedWasLive(s, b, key);
  }

  /** No published fact has the identity of a historic observation. */
  lemma HistoricNotPublished(t: Snapshot, key: RetainedKey, id: Id)
    requires ContentErrors(t) == {} && GraphFaults(t) == {} && Historic(t, key) && id in t.facts
    ensures Identity(id, t.facts[id]) != key
  {
    hide ContentErrors, GraphFaults, Survives, ObservedAreLeaves, CandidateShape;
    PublishedGrounded(t, id);
    if !IsObserved(t.facts[id]) {
      FactShapes(t, id);
      InferredHasNoBinding(id, t.facts[id]);
    }
  }

  lemma InferredHasNoBinding(id: Id, v: Versioned<Candidate>)
    requires CandidateShape(id, v) == {} && !IsObserved(v)
    ensures v.body.binding.None?
  {
    hide InputsShape;
  }

  lemma HistoricStays(s: Snapshot, t: Snapshot, key: RetainedKey)
    requires BindingsAdvance(s, t) && Historic(s, key)
    ensures Historic(t, key)
  {}

  /**
   * Over any run: a historic observation is never published again; once gone
   * from the retained records it never returns to them; while there it is unchanged.
   */
  lemma {:induction false} HistoricForever(h: Hooks, k: State, requests: seq<Request>, key: RetainedKey)
    requires KernelInv(k) && k.current.Some? && Historic(k.current.value, key)
    ensures var n := Run(h, k, requests);
            && n.current.Some? && Historic(n.current.value, key)
            && (forall id :: id in n.current.value.facts ==> Identity(id, n.current.value.facts[id]) != key)
            && (key in n.current.value.retained ==>
                  key in k.current.value.retained && n.current.value.retained[key] == k.current.value.retained[key])
    decreases |requests|
  {
    hide KernelInv, Step, ContentErrors, GraphFaults, Valid, Evolves, LifecycleOk, KeyShapes, SourcesHaveCursor, WellKeyed, RevisionsShape, Historic;
    RunKeepsInv(h, k, requests);
    RunEvolves(h, k, requests);
    var t := Run(h, k, requests).current.value;
    CurrentValid(Run(h, k, requests));
    HistoricAfter(k.current.value, t, key);
    forall id | id in t.facts ensures Identity(id, t.facts[id]) != key {
      HistoricNotPublished(t, key, id);
    }
    if requests != [] {
      var before := requests[..|requests| - 1];
      HistoricForever(h, k, before, key);
      RunKeepsInv(h, k, before);
      RetainedOverStep(h, Run(h, k, before), requests[|requests| - 1], key);
    }
  }

  lemma HistoricAfter(s: Snapshot, t: Snapshot, key: RetainedKey)
    requires Evolves(s, t) && Historic(s, key)
    ensures Historic(t, key)
  {
    hide FencesKept, CursorsAdvance, RetiredSourcesFrozen, WithdrawnFrozen;
    HistoricStays(s, t, key);
  }

  lemma CurrentValid(k: State)
    requires KernelInv(k) && k.current.Some?
    ensures var t := k.current.value;
            WellKeyed(t) && LifecycleOk(t) && SourcesHaveCursor(t) && ContentErrors(t) == {} && KeyShapes(t) == {} && GraphFaults(t) == {}
  {
    hide Valid, WellKeyed, LifecycleOk, SourcesHaveCursor, ContentErrors, KeyShapes, GraphFaults;
    ValidMeans(k.current.value);
  }

  lemma RetainedOverStep(h: Hooks, k: State, r: Request, key: RetainedKey)
    requires KernelInv(k) && k.current.Some? && Historic(k.current.value, key)
    ensures var n := Step(h, k, r.batch, r.mono);
            && n.current.Some?
            && (key in n.current.value.retained ==>
                  key in k.current.value.retained && n.current.value.retained[key] == k.current.value.retained[key])
            && (key in k.current.value.retained ==>
                  (key in n.current.value.retained <==>
                     !(Decide(h, k, r.batch, r.mono).Accepted? && Drops(r, key, k.current.value.retained[key]))))
  {
    hide Drops, KernelInv, Decide, ContentErrors, GraphFaults, Valid, Passes, Staged, NoStrayEpoch, OrderErrors, HeaderOwned, IsNew, Historic, Base,
         NextRetained, LifecycleOk, KeyShapes, SourcesHaveCursor, WellKeyed;
    if Decide(h, k, r.batch, r.mono).Accepted? {
      AcceptedMeans(h, k, r.batch, r.mono);
      var s := k.current.value;
      assert Base(k) == s by { BaseIsCurrent(k); }
      CurrentValid(k);
      StagedRetainedRecords(s, r.batch, r.mono, false);
      RetainedStep(s, r.batch, r.mono, Staged(s, r.batch, r.mono, false), key);
    }
  }

  lemma BaseIsCurrent(k: State)
    requires k.current.Some?
    ensures Base(k) == k.current.value
  {}

  lemma StagedRetainedRecords(s: Snapshot, b: Batch, m: Mono, first: bool)
    ensures Staged(s, b, m, first).retained == NextRetained(s, b, m)
  {
    hide NextSources, NextBindings, NextLinks, NextServices, NextCapabilities, NextFences, NextCursors, NextFacts,
         NextRetained, RebuildEnvelopes, Normalize, NextRevisions;
  }

  // ---------------------------------------------------------------- from retention to departure, over runs

  /** Request i of the run was accepted and dropped the record. */
  ghost predicate DroppedAt(h: Hooks, k: State, requests: seq<Request>, i: nat, key: RetainedKey, record: Retained) {
    && i < |requests| && Drops(requests[i], key, record)
    && Decide(h, Run(h, k, requests[..i]), requests[i].batch, requests[i].mono).Accepted?
  }

  lemma DroppedBefore(h: Hooks, k: State, requests: seq<Request>, i: nat, key: RetainedKey, record: Retained)
    requires requests != [] && i < |requests| - 1
    ensures DroppedAt(h, k, requests, i, key, record) <==> DroppedAt(h, k, requests[..|requests| - 1], i, key, record)
  {
    hide Decide, Run, Drops;
    assert requests[..|requests| - 1][..i] == requests[..i];
  }

  /**
   * A retained record is there after any run, unchanged, exactly when no
   * accepted request of the run withdrew it or found it expired; either way its
   * identity is published by no snapshot of the run.
   */
  lemma {:induction false} RetainedOverRun(h: Hooks, k: State, requests: seq<Request>, key: RetainedKey)
    requires KernelInv(k) && k.current.Some? && key in k.current.value.retained
    ensures var n := Run(h, k, requests); var record := k.current.value.retained[key];
            && n.current.Some?
            && (key in n.current.value.retained <==> !exists i :: DroppedAt(h, k, requests, i, key, record))
            && (key in n.current.value.retained ==> n.current.value.retained[key] == record)
            && (forall id :: id in n.current.value.facts ==> Identity(id, n.current.value.facts[id]) != key)
    decreases |requests|
  {
    hide KernelInv, Decide, Step, WellKeyed, LifecycleOk, SourcesHaveCursor, ContentErrors, KeyShapes, GraphFaults, Historic, Drops;
    var s := k.current.value;
    assert Historic(s, key) by { StartsHistoric(k, key); }
    HistoricForever(h, k, requests, key);
    if requests != [] {
      var n := |requests| - 1;
      var before, last := requests[..n], requests[n];
      RetainedOverRun(h, k, before, key);
      HistoricForever(h, k, before, key);
      RunKeepsInv(h, k, before);
      RetainedOverStep(h, Run(h, k, before), last, key);
      DepartureStep(h, k, requests, key);
    }
  }

  lemma StartsHistoric(k: State, key: RetainedKey)
    requires KernelInv(k) && k.current.Some? && key in k.current.value.retained
    ensures Historic(k.current.value, key)
  {
    hide KernelInv, FencesOk, CursorsOk, OneOpenGeneration, BindingsOk, LinksOk, ServicesOk, CapabilitiesOk, AllRetainedOk, ContentErrors,
         KeyShapes, GraphFaults, SourcesHaveCursor, WellKeyed, Historic;
    CurrentValid(k);
    RetainedIsHistoric(k.current.value, key);
  }

  /** Some request dropped the record: one before the last, or the last itself. */
  lemma DepartureStep(h: Hooks, k: State, requests: seq<Request>, key: RetainedKey)
    requires requests != [] && k.current.Some? && key in k.current.value.retained
    ensures var n := |requests| - 1; var record := k.current.value.retained[key];
            (exists i :: DroppedAt(h, k, requests, i, key, record)) <==>
            || (exists i :: DroppedAt(h, k, requests[..n], i, key, record))
            || (Decide(h, Run(h, k, requests[..n]), requests[n].batch, requests[n].mono).Accepted? && Drops(requests[n], key, record))
  {
    hide Decide, Run, Drops;
    var n := |requests| - 1;
    var record := k.current.value.retained[key];
    forall i: nat | i < n ensures DroppedAt(h, k, requests, i, key, record) <==> DroppedAt(h, k, requests[..n], i, key, record) {
      DroppedBefore(h, k, requests, i, key, record);
    }
    assert DroppedAt(h, k, requests, n, key, record) <==>
           Drops(requests[n], key, record) && Decide(h, Run(h, k, requests[..n]), requests[n].batch, requests[n].mono).Accepted?;
  }
}
