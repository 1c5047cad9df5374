/** Sources do not interfere: a batch changes nothing that came through another source, over single steps and over runs. */
module Isolation {
  import opened Graphs
  import opened Freshness
  import opened Records
  import opened Lineage
  import opened Snapshots
  import opened Publication
  import opened Validity
  import opened Batches
  import opened Lifecycle
  import opened Kernel
  import opened History
  import opened Retention
  import opened Replay
  import opened Effects
  import opened Rules
  import opened Acceptance

  /** The binding is of this source. */
  predicate Of(s: Snapshot, binding: Id, source: Id) { binding in s.bindings && s.bindings[binding].body.path.source == source }

  ghost predicate PathsSame(s: Snapshot, t: Snapshot, source: Id) {
    && (forall k :: k in s.sources && k.source == source ==> k in t.sources && t.sources[k] == s.sources[k])
    && (forall k :: k in s.cursors && k.source == source ==> k in t.cursors && t.cursors[k] == s.cursors[k])
    && (forall k :: k in s.fences && k.source == source ==> k in t.fences && t.fences[k] == s.fences[k])
    && (forall id :: Of(s, id, source) ==> id in t.bindings && t.bindings[id] == s.bindings[id])
  }

  ghost predicate DependentsSame(s: Snapshot, t: Snapshot, source: Id) {
    && (forall id :: id in s.links && Of(s, id, source) ==> id in t.links && t.links[id] == s.links[id])
    && (forall id :: id in s.services && Of(s, s.services[id].body.binding, source) ==> id in t.services && t.services[id] == s.services[id])
    && (forall id :: id in s.capabilities && Of(s, s.capabilities[id].body.binding, source) ==>
          id in t.capabilities && t.capabilities[id] == s.capabilities[id])
  }

  predicate ObservedThrough(s: Snapshot, id: Id, source: Id) {
    id in s.facts && IsObserved(s.facts[id]) && s.facts[id].body.binding.Some? && Of(s, s.facts[id].body.binding.value, source)
  }

  ghost predicate FactsSame(s: Snapshot, t: Snapshot, source: Id) {
    forall id :: ObservedThrough(s, id, source) ==> id in t.facts && t.facts[id] == s.facts[id]
  }

  /** Everything published through the source is in the other snapshot, record for record. */
  ghost predicate Untouched(s: Snapshot, t: Snapshot, source: Id) { PathsSame(s, t, source) && DependentsSame(s, t, source) && FactsSame(s, t, source) }

  // ---------------------------------------------------------------- one step

  lemma SameBodySameRecord<K, T>(x: map<K, Versioned<T>>, y: map<K, Versioned<T>>, k: K)
    requires AllMovedOnce(x, y) && k in x && k in y && x[k].body == y[k].body
    ensures x[k] == y[k]
  {}

  lemma BindingHeld(s: Snapshot, b: Batch, id: Id)
    requires BindingsRule(s, b) && Owned(s.asset, b)
    ensures id in b.bindings && id in s.bindings ==> s.bindings[id].body.path == b.header
  {
    hide Supersedes;
  }

  lemma ServiceHeld(h: Hooks, s: Snapshot, b: Batch, id: Id)
    requires ServicesRule(h, s, b)
    ensures id in b.services && id in s.services ==> HeldOpen(s, b, s.services[id].body.binding)
    ensures id in b.serviceWithdrawals && id in s.services ==> MayWithdraw(s, b, s.services[id].body.binding)
  {
    hide Supersedes, OpenAfter, HeldOpen, MayWithdraw;
  }

  lemma CapabilityHeld(h: Hooks, s: Snapshot, b: Batch, id: Id)
    requires CapabilitiesRule(h, s, b)
    ensures id in b.capabilities && id in s.capabilities ==> HeldOpen(s, b, s.capabilities[id].body.binding)
    ensures id in b.capabilityWithdrawals && id in s.capabilities ==> MayWithdraw(s, b, s.capabilities[id].body.binding)
  {
    hide Supersedes, OpenAfter, HeldOpen, MayWithdraw, Served;
  }

  lemma FactHeld(h: Hooks, s: Snapshot, b: Batch, id: Id)
    requires FactsRule(h, s, b)
    ensures id in b.facts && id in s.facts && IsObserved(s.facts[id]) ==> FromSource(s, b, s.facts[id].body)
    ensures id in b.factWithdrawals && id in s.facts && IsObserved(s.facts[id]) ==>
              s.facts[id].body.binding.Some? && HeldOpen(s, b, s.facts[id].body.binding.value)
  {
    hide Supersedes, OpenAfter, HeldOpen, FromSource;
  }

  lemma PathsUntouched(s: Snapshot, b: Batch, t: Snapshot, source: Id)
    requires OwnersEffect(s, b, t) && PathsEffect(s, b, t) && AllMovedOnce(s.sources, t.sources) && AllMovedOnce(s.bindings, t.bindings)
    requires Owned(s.asset, b) && BindingsRule(s, b) && source != b.header.source
    ensures PathsSame(s, t, source)
  {
    hide AllMovedOnce, BindingsRule, Owned, OwnersEffect, PathsEffect;
    forall k | k in s.sources && k.source == source ensures k in t.sources && t.sources[k] == s.sources[k] { SourceUntouched(s, b, t, k); }
    forall id | Of(s, id, source) ensures id in t.bindings && t.bindings[id] == s.bindings[id] { BindingUntouched(s, b, t, id); }
    CursorsUntouched(s, b, t, source);
  }

  lemma CursorsUntouched(s: Snapshot, b: Batch, t: Snapshot, source: Id)
    requires PathsEffect(s, b, t) && Owned(s.asset, b) && source != b.header.source
    ensures forall k :: k in s.cursors && k.source == source ==> k in t.cursors && t.cursors[k] == s.cursors[k]
    ensures forall k :: k in s.fences && k.source == source ==> k in t.fences && t.fences[k] == s.fences[k]
  {
    hide Owned;
    OwnedFences(s.asset, b);
  }

  lemma OwnedFences(asset: Id, b: Batch)
    requires Owned(asset, b)
    ensures forall k :: k in b.fences ==> k.source == b.header.source
  {}

  lemma SourceUntouched(s: Snapshot, b: Batch, t: Snapshot, k: SourceKey)
    requires OwnersEffect(s, b, t) && AllMovedOnce(s.sources, t.sources) && Owned(s.asset, b) && k in s.sources && k.source != b.header.source
    ensures k in t.sources && t.sources[k] == s.sources[k]
  {
    hide AllMovedOnce;
    assert t.sources[k].body == SourceEffect(s, b, k);
    SameBodySameRecord(s.sources, t.sources, k);
  }

  lemma BindingUntouched(s: Snapshot, b: Batch, t: Snapshot, id: Id)
    requires OwnersEffect(s, b, t) && AllMovedOnce(s.bindings, t.bindings) && Owned(s.asset, b) && BindingsRule(s, b)
    requires id in s.bindings && s.bindings[id].body.path.source != b.header.source
    ensures id in t.bindings && t.bindings[id] == s.bindings[id]
  {
    hide AllMovedOnce, BindingsRule, Owned;
    BindingHeld(s, b, id);
    OwnedFences(s.asset, b);
    assert t.bindings[id].body == BindingEffect(s, b, id);
    SameBodySameRecord(s.bindings, t.bindings, id);
  }

  /** No operation of the batch reaches an object on that binding. */
  lemma NotShut(s: Snapshot, b: Batch, binding: Id, source: Id)
    requires Owned(s.asset, b) && Of(s, binding, source) && source != b.header.source
    ensures !Shut(s, b, binding) && !MayWithdraw(s, b, binding) && !HeldOpen(s, b, binding)
  {}

  lemma LinksUntouched(s: Snapshot, b: Batch, t: Snapshot, id: Id, source: Id)
    requires LinksEffect(s, b, t) && AllMovedOnce(s.links, t.links) && Owned(s.asset, b) && BindingsRule(s, b) && LinksRule(s, b)
    requires id in s.links && Of(s, id, source) && source != b.header.source
    ensures id in t.links && t.links[id] == s.links[id]
  {
    hide AllMovedOnce, Supersedes, Owned, BindingsRule, OpenAfter, Shut, MayWithdraw, HeldOpen, Foreign;
    NotShut(s, b, id, source);
    if id in b.links {
      LinkOwn(s, b, id);
      ForeignOf(s, b, id, source);
    }
    SameBodySameRecord(s.links, t.links, id);
  }

  lemma ForeignOf(s: Snapshot, b: Batch, id: Id, source: Id)
    requires Of(s, id, source) && source != b.header.source
    ensures Foreign(s, b, id)
  {}

  lemma ServicesUntouched(h: Hooks, s: Snapshot, b: Batch, t: Snapshot, id: Id, source: Id)
    requires ServicesEffect(s, b, t) && AllMovedOnce(s.services, t.services) && Owned(s.asset, b) && ServicesRule(h, s, b)
    requires id in s.services && Of(s, s.services[id].body.binding, source) && source != b.header.source
    ensures id in t.services && t.services[id] == s.services[id]
  {
    hide AllMovedOnce, Owned, ServicesRule, Shut, MayWithdraw, HeldOpen;
    NotShut(s, b, s.services[id].body.binding, source);
    ServiceHeld(h, s, b, id);
    SameBodySameRecord(s.services, t.services, id);
  }

  lemma CapabilitiesUntouched(h: Hooks, s: Snapshot, b: Batch, t: Snapshot, id: Id, source: Id)
    requires CapabilitiesEffect(s, b, t) && AllMovedOnce(s.capabilities, t.capabilities) && Owned(s.asset, b) && CapabilitiesRule(h, s, b)
    requires id in s.capabilities && Of(s, s.capabilities[id].body.binding, source) && source != b.header.source
    ensures id in t.capabilities && t.capabilities[id] == s.capabilities[id]
  {
    hide AllMovedOnce, Owned, CapabilitiesRule, Shut, MayWithdraw, HeldOpen;
    NotShut(s, b, s.capabilities[id].body.binding, source);
    CapabilityHeld(h, s, b, id);
    SameBodySameRecord(s.capabilities, t.capabilities, id);
  }

  lemma FactUntouched(h: Hooks, s: Snapshot, b: Batch, t: Snapshot, id: Id, source: Id)
    requires FactsEffect(s, b, t) && Owned(s.asset, b) && FactsRule(h, s, b) && PathsSame(s, t, source)
    requires ObservedThrough(s, id, source) && source != b.header.source && ObservedCurrent(s.bindings, s.facts[id].body)
    ensures id in t.facts && t.facts[id] == s.facts[id]
  {
    hide FactsRule, Owned, MayWithdraw, HeldOpen, Shut, Leaves, Lists;
    NotShut(s, b, s.facts[id].body.binding.value, source);
    FactHeld(h, s, b, id);
    assert id in Proposed(s, b) && Proposed(s, b)[id] == s.facts[id];
    assert Survives(Proposed(s, b), t.bindings, id);
  }

  /** The facts about an accepted batch that the frame conditions rest on. */
  lemma AcceptedFrame(h: Hooks, k: State, b: Batch, m: Mono)
    requires KernelInv(k) && k.current.Some? && Decide(h, k, b, m).Accepted?
    ensures var s := k.current.value; var t := Decide(h, k, b, m).snapshot;
            && Owned(s.asset, b) && BindingsRule(s, b) && LinksRule(s, b) && FactsRule(h, s, b) && ServicesRule(h, s, b) && CapabilitiesRule(h, s, b)
            && OwnersEffect(s, b, t) && LinksEffect(s, b, t) && ServicesEffect(s, b, t) && CapabilitiesEffect(s, b, t)
            && PathsEffect(s, b, t) && FactsEffect(s, b, t)
            && AllMovedOnce(s.sources, t.sources) && AllMovedOnce(s.bindings, t.bindings) && AllMovedOnce(s.links, t.links)
            && AllMovedOnce(s.services, t.services) && AllMovedOnce(s.capabilities, t.capabilities)
  {
    hide KernelInv, Decide, Base, Staged, Owned, BindingsRule, LinksRule, FactsRule, ServicesRule, CapabilitiesRule, SourcesRule, GenerationsRule, ClosingRule,
         OwnersEffect, LinksEffect, ServicesEffect, CapabilitiesEffect, PathsEffect, FactsEffect, AllMovedOnce, ResultRules, BatchFits, InSequence,
         NoForeignEpoch, EnvelopesMovedOnce, ObjectsInRange, SameObjects;
    BaseIsCurrent(k);
    AcceptedIffAcceptable(h, k, b, m);
    AcceptedEffect(h, k, b, m);
    RevisionsExactlyOnce(h, k, b, m);
  }

  /** An accepted batch leaves everything of every other source exactly as it was. */
  lemma SourceIsolation(h: Hooks, k: State, b: Batch, m: Mono, source: Id)
    requires KernelInv(k) && k.current.Some? && Decide(h, k, b, m).Accepted? && source != b.header.source
    ensures Untouched(k.current.value, Decide(h, k, b, m).snapshot, source)
  {
    hide KernelInv, Decide, Owned, BindingsRule, LinksRule, FactsRule, ServicesRule, CapabilitiesRule, OwnersEffect, LinksEffect, ServicesEffect,
         CapabilitiesEffect, PathsEffect, FactsEffect, AllMovedOnce, PathsSame, Of, ContentErrors, GraphFaults, WellKeyed, LifecycleOk, KeyShapes,
         SourcesHaveCursor, Survives, ObservedAreLeaves, ObservedCurrent;
    var s, t := k.current.value, Decide(h, k, b, m).snapshot;
    AcceptedFrame(h, k, b, m);
    PathsUntouched(s, b, t, source);
    forall id | id in s.links && Of(s, id, source) ensures id in t.links && t.links[id] == s.links[id] { LinksUntouched(s, b, t, id, source); }
    forall id | id in s.services && Of(s, s.services[id].body.binding, source) ensures id in t.services && t.services[id] == s.services[id] {
      ServicesUntouched(h, s, b, t, id, source);
    }
    forall id | id in s.capabilities && Of(s, s.capabilities[id].body.binding, source)
      ensures id in t.capabilities && t.capabilities[id] == s.capabilities[id] {
      CapabilitiesUntouched(h, s, b, t, id, source);
    }
    CurrentValid(k);
    forall id | ObservedThrough(s, id, source) ensures id in t.facts && t.facts[id] == s.facts[id] {
      PublishedGrounded(s, id);
      FactUntouched(h, s, b, t, id, source);
    }
  }

  // ---------------------------------------------------------------- runs

  /** Some accepted request of the run came from the source. */
  ghost predicate Publishes(h: Hooks, k: State, requests: seq<Request>, source: Id) {
    exists i :: 0 <= i < |requests| && requests[i].batch.header.source == source
                && Decide(h, Run(h, k, requests[..i]), requests[i].batch, requests[i].mono).Accepted?
  }

  lemma PublishesPrefix(h: Hooks, k: State, requests: seq<Request>, source: Id)
    requires requests != [] && !Publishes(h, k, requests, source)
    ensures var n := |requests| - 1;
            && !Publishes(h, k, requests[..n], source)
            && (Decide(h, Run(h, k, requests[..n]), requests[n].batch, requests[n].mono).Accepted? ==> requests[n].batch.header.source != source)
  {
    hide Decide, Run;
    var n := |requests| - 1;
    forall i | 0 <= i < n ensures requests[..n][..i] == requests[..i] {}
  }

  lemma UntouchedTrans(r: Snapshot, s: Snapshot, t: Snapshot, source: Id)
    requires Untouched(r, s, source) && Untouched(s, t, source)
    ensures Untouched(r, t, source)
  {
    PathsTrans(r, s, t, source);
    DependentsTrans(r, s, t, source);
  }

  lemma PathsTrans(r: Snapshot, s: Snapshot, t: Snapshot, source: Id)
    requires PathsSame(r, s, source) && PathsSame(s, t, source)
    ensures PathsSame(r, t, source)
  {}

  lemma DependentsTrans(r: Snapshot, s: Snapshot, t: Snapshot, source: Id)
    requires PathsSame(r, s, source) && DependentsSame(r, s, source) && DependentsSame(s, t, source)
    ensures DependentsSame(r, t, source)
  {}

  /** Over any run in which a source publishes nothing, everything of that source stays exactly as it was. */
  lemma {:induction false} RunIsolation(h: Hooks, k: State, requests: seq<Request>, source: Id)
    requires KernelInv(k) && k.current.Some? && !Publishes(h, k, requests, source)
    ensures var n := Run(h, k, requests); n.current.Some? && Untouched(k.current.value, n.current.value, source)
    decreases |requests|
  {
    hide KernelInv, Decide, Untouched, Publishes;
    if requests == [] {
      UntouchedSelf(k.current.value, source);
    } else {
      var n := |requests| - 1;
      var before, last := requests[..n], requests[n];
      PublishesPrefix(h, k, requests, source);
      RunIsolation(h, k, before, source);
      RunKeepsInv(h, k, before);
      var j := Run(h, k, before);
      if Decide(h, j, last.batch, last.mono).Accepted? {
        SourceIsolation(h, j, last.batch, last.mono, source);
        UntouchedTrans(k.current.value, j.current.value, Decide(h, j, last.batch, last.mono).snapshot, source);
      }
    }
  }

  lemma UntouchedSelf(s: Snapshot, source: Id)
    ensures Untouched(s, s, source)
  {}

  // ---------------------------------------------------------------- retained records

  /** A batch withdraws only what its own source had observed. */
  lemma WithdrawsOwn(h: Hooks, k: State, b: Batch, m: Mono, key: RetainedKey)
    requires KernelInv(k) && k.current.Some? && Decide(h, k, b, m).Accepted?
    requires key in k.current.value.retained && key.candidate in b.factWithdrawals && key.binding.Some?
    requires key == Identity(key.candidate, k.current.value.retained[key].record)
    ensures Of(k.current.value, key.binding.value, b.header.source)
  {
    hide KernelInv, Decide, Owned, BindingsRule, LinksRule, ServicesRule, CapabilitiesRule, OwnersEffect, LinksEffect, ServicesEffect,
         CapabilitiesEffect, PathsEffect, FactsEffect, AllMovedOnce, HeldOpen, FactAllowed;
    AcceptedFrame(h, k, b, m);
    assert FactWithdrawalAllowed(k.current.value, b, key.candidate);
  }

  /** The accepted request found the record expired, or withdrew it on behalf of the source it came from. */
  ghost predicate Explains(h: Hooks, k: State, requests: seq<Request>, i: nat, key: RetainedKey, source: Id, record: Retained) {
    && i < |requests| && Decide(h, Run(h, k, requests[..i]), requests[i].batch, requests[i].mono).Accepted?
    && (AgeOf(record, Context(requests[i].batch.observedAt, requests[i].mono)) == Ok(Expired)
        || (key.candidate in requests[i].batch.factWithdrawals && requests[i].batch.header.source == source))
  }

  /** A retained record is lost to expiry or to its own source, over any run. */
  lemma {:induction false} LossExplained(h: Hooks, k: State, requests: seq<Request>, key: RetainedKey, source: Id)
    requires KernelInv(k) && k.current.Some? && key in k.current.value.retained && key.binding.Some? && Of(k.current.value, key.binding.value, source)
    ensures var n := Run(h, k, requests); var record := k.current.value.retained[key];
            n.current.Some? && (key in n.current.value.retained || exists i :: Explains(h, k, requests, i, key, source, record))
    decreases |requests|
  {
    hide KernelInv, Decide, Step, Of, Evolves, Drops, DroppedAt;
    RetainedOverRun(h, k, requests, key);
    if requests != [] {
      var n := |requests| - 1;
      var before, last := requests[..n], requests[n];
      var record := k.current.value.retained[key];
      LossExplained(h, k, before, key, source);
      RetainedOverRun(h, k, before, key);
      if key in Run(h, k, before).current.value.retained {
        LastStep(h, k, requests, key, source);
      } else {
        var i: nat :| Explains(h, k, before, i, key, source, record);
        assert before[..i] == requests[..i];
        assert Explains(h, k, requests, i, key, source, record);
      }
    }
  }

  lemma LastStep(h: Hooks, k: State, requests: seq<Request>, key: RetainedKey, source: Id)
    requires requests != [] && KernelInv(k) && k.current.Some? && key in k.current.value.retained && key.binding.Some?
    requires Of(k.current.value, key.binding.value, source)
    requires var j := Run(h, k, requests[..|requests| - 1]);
             j.current.Some? && key in j.current.value.retained && j.current.value.retained[key] == k.current.value.retained[key]
    ensures var n := Run(h, k, requests);
            && n.current.Some?
            && (key in n.current.value.retained || Explains(h, k, requests, |requests| - 1, key, source, k.current.value.retained[key]))
  {
    hide KernelInv, Decide, Evolves, Historic, WellKeyed, LifecycleOk, SourcesHaveCursor, ContentErrors, KeyShapes, GraphFaults, AgeOf, Of;
    var n := |requests| - 1;
    var last := requests[n];
    var j := Run(h, k, requests[..n]);
    RunKeepsInv(h, k, requests[..n]);
    RunEvolves(h, k, requests[..n]);
    StartsHistoric(j, key);
    RetainedOverStep(h, j, last, key);
    if Decide(h, j, last.batch, last.mono).Accepted? && key.candidate in last.batch.factWithdrawals {
      CurrentValid(j);
      RetainedKeyed(j.current.value, key);
      WithdrawsOwn(h, j, last.batch, last.mono, key);
      SameOwner(k.current.value, j.current.value, key.binding.value, source, last.batch.header.source);
    }
  }

  lemma RetainedKeyed(s: Snapshot, key: RetainedKey)
    requires WellKeyed(s) && key in s.retained
    ensures key == Identity(key.candidate, s.retained[key].record)
  {}

  lemma SameOwner(s: Snapshot, t: Snapshot, binding: Id, a: Id, b: Id)
    requires Evolves(s, t) && Of(s, binding, a) && Of(t, binding, b)
    ensures a == b
  {
    hide FencesKept, CursorsAdvance, RetiredSourcesFrozen, WithdrawnFrozen;
  }
}
