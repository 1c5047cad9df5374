/** Snapshots, publication batches, and the validity of single records. */
module Snapshots {
  import opened Errors
  import opened Graphs
  import opened Freshness
  import opened Decimals
  import opened Records

  datatype Revisions = Revisions(semantic: nat, identity: nat, facts: nat, services: nat, capabilities: nat)

  /** Identity of a retained observation: the immutable original, never a replacement. */
  datatype RetainedKey = RetainedKey(candidate: Id, revision: nat, key: Id,
                                     binding: Option<Id>, epoch: Option<Id>, generation: Option<nat>)
  datatype Removal = ByFence | ByRetirement
  datatype Retained = Retained(record: Versioned<Candidate>, removal: Removal)

  datatype Conflict = Conflict(candidates: set<Id>, evidence: set<Id>)
  datatype Envelope = Envelope(conflict: Option<Conflict>, revision: nat)

  type Sources = map<SourceKey, Versioned<Source>>
  type Links = map<Id, Versioned<Link>>
  type Services = map<Id, Versioned<Service>>
  type Capabilities = map<Id, Versioned<Capability>>
  type Fences = map<CursorKey, Fence>
  type Cursors = map<CursorKey, Cursor>
  type RetainedRecords = map<RetainedKey, Retained>
  type Envelopes = map<Id, Envelope>

  /**
   * The fact envelopes of the wire form are the candidates grouped by fact key;
   * here the candidates are one map and each key keeps its conflict and revision.
   */
  datatype Snapshot = Snapshot(asset: Id, revisions: Revisions, at: TimePoint, mono: Mono,
                               sources: Sources, bindings: Bindings, links: Links,
                               facts: Candidates, envelopes: Envelopes, retained: RetainedRecords,
                               services: Services, capabilities: Capabilities,
                               fences: Fences, cursors: Cursors)

  datatype Batch = Batch(asset: Id, header: CursorKey, sequence: nat, expected: nat, observedAt: TimePoint, digest: Id,
                         sources: Sources, retirements: set<Id>, bindings: Bindings, links: Links,
                         facts: Candidates, factWithdrawals: set<Id>,
                         services: Services, serviceWithdrawals: set<Id>,
                         capabilities: Capabilities, capabilityWithdrawals: set<Id>, fences: Fences)

  /**
   * Code the model does not see: field syntax, the batch digest and the pack
   * hooks, all arbitrary.
   */
  datatype Hooks = Hooks(syntax: (Batch, Mono) -> set<Err>, digestOf: Batch -> Id,
                         fact: Candidate -> set<Err>, service: Service -> set<Err>, capability: Capability -> set<Err>)

  const MAX_EVIDENCE: nat := 32
  const MAX_CANDIDATES: nat := 32
  const MAX_CONFLICT_EVIDENCE: nat := 1024

  function When(condition: bool, e: Err): set<Err> {
    if condition then {e} else {}
  }

  function SourceShape(v: Versioned<Source>): set<Err> { When(!Positive(v.revision), InvalidIdentifier) }

  function BindingShape(v: Versioned<Binding>): set<Err> {
    When(!Positive(v.revision) || !Positive(v.body.path.generation), InvalidIdentifier)
  }

  function LinkShape(v: Versioned<Link>): set<Err> {
    When(!Positive(v.revision), InvalidIdentifier) + When(v.body.basis == {}, IdentityNotQualified)
    + When(|v.body.basis| > MAX_EVIDENCE, BoundsExceeded)
  }

  function ServiceShape(v: Versioned<Service>): set<Err> {
    When(!Positive(v.revision) || !Positive(v.body.generation), InvalidIdentifier)
  }

  function CapabilityShape(v: Versioned<Capability>): set<Err> {
    When(!Positive(v.revision) || !Positive(v.body.generation), InvalidIdentifier)
  }

  function FenceShape(key: CursorKey, f: Fence): set<Err> {
    When(!Positive(key.generation) || !Positive(f.revision), InvalidIdentifier)
    + When(!(1 <= |f.evidence| <= MAX_EVIDENCE), BoundsExceeded)
  }

  function CursorShape(key: CursorKey, c: Cursor): set<Err> {
    When(!Positive(key.generation) || !Positive(c.lastSequence), InvalidIdentifier)
  }

  /** A value must be absent for an unsupported, rejected or withdrawn candidate and present otherwise. */
  predicate ValueForbidden(q: Quality) {
    q.qualification == Unsupported || q.qualification == QualificationRejected || q.availability == Withdrawn
  }

  function ObservedShape(v: Candidate): set<Err> {
    When(v.derivation.Some?, InvalidValue)
    + When(v.binding.None? || v.epoch.None? || v.generation.None?, MissingMember)
  }

  function InferredShape(v: Candidate): set<Err> {
    When(v.binding.Some? || v.epoch.Some? || v.generation.Some?, InvalidValue)
    + When(v.derivation.None?, MissingMember)
  }

  function InputsShape(id: Id, inputs: seq<Input>): set<Err> {
    When(!(1 <= |inputs| <= 32) || exists i :: 0 <= i < |inputs| && !(1 <= |inputs[i].paths| <= 32), BoundsExceeded)
    + When(exists i :: 0 <= i < |inputs| && !Positive(inputs[i].revision), InvalidIdentifier)
    + When(exists i :: 0 <= i < |inputs| && inputs[i].candidate == id, DerivationCycle)
    + When(exists i, j :: 0 <= i < j < |inputs| && inputs[i].candidate == inputs[j].candidate, DerivationCycle)
  }

  function CandidateShape(id: Id, v: Versioned<Candidate>): set<Err> {
    var c := v.body;
    When(!Positive(v.revision) || (c.generation.Some? && !Positive(c.generation.value)), InvalidIdentifier)
    + (if c.quality.assertion == Observed then ObservedShape(c) else InferredShape(c))
    + (if c.derivation.Some? then InputsShape(id, c.derivation.value) else {})
    + When(!ValidTimes(c.times) || !ValidPolicy(c.policy), InvalidTime)
    + When(!(1 <= |c.evidence| <= MAX_EVIDENCE), BoundsExceeded)
    + When(c.value.Some? && !ValidValue(c.value.value), InvalidDecimal)
    + When(ValueForbidden(c.quality) && c.value.Some?, InvalidValue)
    + When(!ValueForbidden(c.quality) && c.value.None?, MissingMember)
  }

  function RevisionsShape(r: Revisions): set<Err> {
    When(!(Positive(r.semantic) && Positive(r.identity) && Positive(r.facts) && Positive(r.services) && Positive(r.capabilities)),
         InvalidIdentifier)
  }

  function Identity(id: Id, v: Versioned<Candidate>): RetainedKey {
    RetainedKey(id, v.revision, v.body.key, v.body.binding, v.body.epoch, v.body.generation)
  }

  /** Candidates published under one fact key. */
  function Group(facts: Candidates, key: Id): Candidates {
    map id | id in facts && facts[id].body.key == key :: facts[id]
  }

  predicate Eligible(v: Candidate) {
    v.value.Some? && v.quality.qualification == Qualified && v.quality.promoted
  }

  function EligibleValues(group: Candidates): set<Value> {
    set id | id in group && Eligible(group[id].body) :: group[id].body.value.value
  }

  function EligibleIds(group: Candidates): set<Id> { set id | id in group && Eligible(group[id].body) }

  function EligibleEvidence(group: Candidates): set<Id> {
    set id, e | id in group && Eligible(group[id].body) && e in group[id].body.evidence :: e
  }

  /** A conflict among the promoted, qualified values of one key; it names all of them. */
  function DeriveConflict(group: Candidates): Option<Conflict> {
    if |EligibleValues(group)| < 2 then None
    else Some(Conflict(EligibleIds(group), EligibleEvidence(group)))
  }

  /** A conflict stands between at least two candidates and shows some evidence. */
  function ConflictShape(c: Conflict): set<Err> {
    When(!(2 <= |c.candidates| <= MAX_CANDIDATES) || !(1 <= |c.evidence| <= MAX_CONFLICT_EVIDENCE), BoundsExceeded)
  }

  function EnvelopeShape(facts: Candidates, key: Id, e: Envelope): set<Err> {
    When(!Positive(e.revision), InvalidIdentifier) + When(!(1 <= |Group(facts, key)| <= MAX_CANDIDATES), BoundsExceeded)
    + (if e.conflict.Some? then ConflictShape(e.conflict.value) else {})
    + When(e.conflict != DeriveConflict(Group(facts, key)), InvalidValue)
  }

  /**
   * A conflict is open exactly when two qualified, promoted candidates carry
   * different values; it names all such candidates and all their evidence.
   */
  lemma ConflictExact(group: Candidates)
    ensures DeriveConflict(group).Some? <==>
            exists i, j :: i in group && j in group && Counted(group, i) && Counted(group, j) && group[i].body.value != group[j].body.value
    ensures DeriveConflict(group).Some? ==>
              && (forall id :: id in DeriveConflict(group).value.candidates <==> id in group && Counted(group, id))
              && (forall e :: e in DeriveConflict(group).value.evidence <==> exists id :: id in group && Counted(group, id) && e in group[id].body.evidence)
  {
    hide EligibleValues, EligibleIds, EligibleEvidence;
    ConflictOpens(group);
    ConflictNames(group);
  }

  lemma ConflictOpens(group: Candidates)
    ensures |EligibleValues(group)| >= 2 <==>
            exists i, j :: i in group && j in group && Counted(group, i) && Counted(group, j) && group[i].body.value != group[j].body.value
  {
    var values := EligibleValues(group);
    if |values| >= 2 {
      var x :| x in values;
      assert |values - {x}| == |values| - 1;
      var y :| y in values - {x};
      var i :| i in group && Eligible(group[i].body) && group[i].body.value.value == x;
      var j :| j in group && Eligible(group[j].body) && group[j].body.value.value == y;
      assert Counted(group, i) && Counted(group, j);
    }
    if i, j :| i in group && j in group && Counted(group, i) && Counted(group, j) && group[i].body.value != group[j].body.value {
      var x, y := group[i].body.value.value, group[j].body.value.value;
      assert x in values && y in values;
      SubsetCard({x, y}, values);
    }
  }

  lemma ConflictNames(group: Candidates)
    ensures forall id :: id in EligibleIds(group) <==> id in group && Counted(group, id)
    ensures forall e :: e in EligibleEvidence(group) <==> exists id :: id in group && Counted(group, id) && e in group[id].body.evidence
  {
    forall e ensures e in EligibleEvidence(group) <==> exists id :: id in group && Counted(group, id) && e in group[id].body.evidence {
      if id :| id in group && Counted(group, id) && e in group[id].body.evidence { assert Eligible(group[id].body); }
      if e in EligibleEvidence(group) {
        var id :| id in group && Eligible(group[id].body) && e in group[id].body.evidence;
        assert Counted(group, id);
      }
    }
  }

  predicate Counted(group: Candidates, id: Id) {
    && id in group && group[id].body.value.Some? && group[id].body.quality.promoted && group[id].body.quality.qualification == Qualified
  }

  predicate IsQuantity(v: Candidate, unit: Id) {
    v.value.Some? && v.value.value.Quantity? && v.value.value.unit == unit && Valid(v.value.value.number)
  }

  predicate DiffersNumerically(a: Candidate, b: Candidate, unit: Id) {
    IsQuantity(a, unit) && IsQuantity(b, unit) && Compare(a.value.value.number, b.value.value.number) != 0
  }

  /** For quantities of one unit, a conflict is open exactly when two promoted qualified numbers differ numerically. */
  lemma ConflictIffNumericallyDifferent(group: Candidates, unit: Id)
    requires forall id :: id in group && Eligible(group[id].body) ==> IsQuantity(group[id].body, unit)
    ensures DeriveConflict(group).Some? <==>
            exists i, j :: && i in group && j in group && Eligible(group[i].body) && Eligible(group[j].body)
                           && DiffersNumerically(group[i].body, group[j].body, unit)
  {
    hide Compare, Decimals.Valid;
    var values := EligibleValues(group);
    if |values| >= 2 {
      var x :| x in values;
      assert |values - {x}| == |values| - 1;
      var y :| y in values - {x};
      var i :| i in group && Eligible(group[i].body) && group[i].body.value.value == x;
      var j :| j in group && Eligible(group[j].body) && group[j].body.value.value == y;
      DecimalUnique(x.number, y.number);
      assert DiffersNumerically(group[i].body, group[j].body, unit);
    }
    if i, j :| && i in group && j in group && Eligible(group[i].body) && Eligible(group[j].body)
               && DiffersNumerically(group[i].body, group[j].body, unit) {
      var x, y := group[i].body.value.value, group[j].body.value.value;
      DecimalUnique(x.number, y.number);
      assert {x, y} <= values;
      SubsetCard({x, y}, values);
    }
  }
}
