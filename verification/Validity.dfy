/** The complete validity of a snapshot, as checked again before every commit. */
module Validity {
  import opened Errors
  import opened Graphs
  import opened Freshness
  import opened Records
  import opened Lineage
  import opened Resolver
  import opened Closure
  import opened Snapshots
  import opened Publication

  predicate FencesOk(t: Snapshot) {
    forall k :: k in t.fences ==> SourceOf(k) in t.sources && k in t.cursors && t.cursors[k].fenced
  }

  predicate CursorsOk(t: Snapshot) {
    forall k :: k in t.cursors ==> SourceOf(k) in t.sources && (t.cursors[k].fenced <==> k in t.fences)
  }

  predicate OpenHere(t: Snapshot, k: CursorKey)
    requires k in t.cursors
  {
    !t.cursors[k].fenced && IsCurrent(t.sources, SourceOf(k))
  }

  /** At most one unfenced generation in each current epoch. */
  predicate OneOpenGeneration(t: Snapshot) {
    forall j, k :: j in t.cursors && k in t.cursors && OpenHere(t, j) && OpenHere(t, k) && SameEpoch(j, k) ==> j == k
  }

  predicate HasCursor(t: Snapshot, k: SourceKey) {
    exists c :: c in t.cursors && SourceOf(c) == k
  }

  predicate SourcesHaveCursor(t: Snapshot) { forall k :: k in t.sources ==> HasCursor(t, k) }

  predicate BindingOk(t: Snapshot, v: Binding) {
    && v.asset == t.asset && SourceOf(v.path) in t.sources && v.path in t.cursors
    && (v.state == BindingCurrent ==> IsCurrent(t.sources, SourceOf(v.path)) && !t.cursors[v.path].fenced)
    && (v.state == BindingFenced ==> v.path in t.fences)
    && (v.state == BindingRetired ==> t.sources[SourceOf(v.path)].body.state == SourceRetired)
  }

  predicate BindingsOk(t: Snapshot) { forall id :: id in t.bindings ==> BindingOk(t, t.bindings[id].body) }

  predicate Live(t: Snapshot, id: Id) { id in t.bindings && t.bindings[id].body.state == BindingCurrent }

  predicate LinkOk(t: Snapshot, id: Id, v: Link) {
    id in t.bindings && v.asset == t.asset && (v.state != LinkWithdrawn ==> Live(t, id))
  }

  predicate LinksOk(t: Snapshot) { forall id :: id in t.links ==> LinkOk(t, id, t.links[id].body) }

  predicate ServiceOk(t: Snapshot, v: Service) {
    && v.binding in t.bindings && v.asset == t.asset && OnPath(v.epoch, v.generation, t.bindings[v.binding].body.path)
    && (v.availability != Withdrawn ==> Live(t, v.binding))
  }

  predicate ServicesOk(t: Snapshot) { forall id :: id in t.services ==> ServiceOk(t, t.services[id].body) }

  predicate CapabilityOk(t: Snapshot, v: Capability) {
    && v.binding in t.bindings && v.asset == t.asset && OnPath(v.epoch, v.generation, t.bindings[v.binding].body.path)
    && v.service in t.services && t.services[v.service].body.binding == v.binding
    && (v.availability != Withdrawn ==> Live(t, v.binding) && t.services[v.service].body.availability != Withdrawn)
    && (!Live(t, v.binding) ==> v.availability == Withdrawn && t.services[v.service].body.availability == Withdrawn)
  }

  predicate CapabilitiesOk(t: Snapshot) { forall id :: id in t.capabilities ==> CapabilityOk(t, t.capabilities[id].body) }

  /** A retained observation names a binding that is no longer current, by its own path, for a recorded reason. */
  predicate RetainedOk(t: Snapshot, r: Retained) {
    && IsObserved(r.record) && HasPath(r.record.body)
    && r.record.body.binding.value in t.bindings
    && var binding := t.bindings[r.record.body.binding.value].body;
       && binding.state != BindingCurrent && binding.path == PathOf(r.record.body).path
       && (r.removal == ByFence ==> binding.path in t.fences)
       && (r.removal == ByRetirement ==> binding.state == BindingRetired)
       && (binding.state == BindingRetired ==> SourceOf(binding.path) in t.sources && t.sources[SourceOf(binding.path)].body.state == SourceRetired)
  }

  predicate AllRetainedOk(t: Snapshot) { forall k :: k in t.retained ==> RetainedOk(t, t.retained[k]) }

  /** Every lifecycle clause but one: sources may lack a cursor. */
  predicate LifecycleOk(t: Snapshot) {
    && FencesOk(t) && CursorsOk(t) && OneOpenGeneration(t) && BindingsOk(t) && LinksOk(t)
    && ServicesOk(t) && CapabilitiesOk(t) && AllRetainedOk(t)
  }

  /** Keys agree with the records they index. */
  predicate WellKeyed(t: Snapshot) {
    t.envelopes.Keys == FactKeys(t.facts) && forall k :: k in t.retained ==> k == Identity(k.candidate, t.retained[k].record)
  }

  function KeyShapes(t: Snapshot): set<Err> {
    (set k, e | k in t.fences && e in FenceShape(k, t.fences[k]) :: e)
    + (set k, e | k in t.cursors && e in CursorShape(k, t.cursors[k]) :: e)
    + When(!ValidPoint(t.at) || !ValidMono(t.mono), InvalidTime)
  }

  ghost function GraphFaults(t: Snapshot): set<Err> {
    if |t.facts| > MAX_NODES then {BoundsExceeded} else ClosureErrors(t.facts, t.facts.Keys, t.bindings)
  }

  /** The lifecycle clauses with the class each is reported as. */
  function LifecycleErrors(t: Snapshot): set<Err> {
    When(!OneOpenGeneration(t), StaleDriverGeneration)
    + When(!(FencesOk(t) && CursorsOk(t) && BindingsOk(t) && LinksOk(t) && ServicesOk(t) && CapabilitiesOk(t)), DanglingReference)
    + When(!SourcesHaveCursor(t), DanglingReference)
    + When(exists k :: k in t.retained && !(IsObserved(t.retained[k].record) && HasPath(t.retained[k].record.body)), InvalidValue)
    + When(exists k :: k in t.retained && IsObserved(t.retained[k].record) && HasPath(t.retained[k].record.body)
                       && !RetainedOk(t, t.retained[k]), DanglingReference)
  }

  ghost function ValidateErrors(t: Snapshot): set<Err> {
    RevisionsShape(t.revisions) + KeyShapes(t) + ContentErrors(t) + LifecycleErrors(t) + GraphFaults(t)
  }

  ghost predicate Valid(t: Snapshot) { WellKeyed(t) && ValidateErrors(t) == {} }

  /** What validity says, clause by clause. */
  lemma ValidMeans(t: Snapshot)
    requires Valid(t)
    ensures LifecycleOk(t) && SourcesHaveCursor(t) && ContentErrors(t) == {} && KeyShapes(t) == {} && GraphFaults(t) == {}
    ensures RevisionsShape(t.revisions) == {} && WellKeyed(t)
  {
    hide FencesOk, CursorsOk, OneOpenGeneration, BindingsOk, LinksOk, ServicesOk, CapabilitiesOk, SourcesHaveCursor,
         ContentErrors, KeyShapes, GraphFaults, RevisionsShape, WellKeyed;
    assert LifecycleErrors(t) == {};
  }

  lemma LifecycleErrorsExact(t: Snapshot)
    ensures LifecycleOk(t) ==> LifecycleErrors(t) == if SourcesHaveCursor(t) then {} else {DanglingReference}
  {
    hide FencesOk, CursorsOk, OneOpenGeneration, BindingsOk, LinksOk, ServicesOk, CapabilitiesOk, SourcesHaveCursor;
  }
}
