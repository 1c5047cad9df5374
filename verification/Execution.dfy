/** Execution records: which evidence an outcome needs, and what a confirming readback proves. */
module Execution {
  import opened Errors
  import opened Graphs
  import opened Freshness
  import opened Records
  import opened Lineage
  import opened Snapshots
  import opened Publication
  import opened Validity
  import opened Evaluation
  import opened Chronology
  import opened Routing
  import opened Admission

  datatype Delivery = NotSent | Sent | DeliveryUnknown
  datatype Dispatch = Dispatch(started: Context, completed: Option<Context>, delivery: Delivery, sideEffect: bool, details: Id)
  datatype AckState = AckAccepted | AckRejected | AckProvisional
  datatype Acknowledgement = Acknowledgement(state: AckState, at: TimePoint, details: Id)
  datatype Relation = Confirms | Contradicts | Inconclusive
  datatype Readback = Readback(snapshot: Id, revisions: Revisions, candidate: Id, revision: nat, binding: Id, path: CursorKey,
                               relation: Relation, evaluation: Context, details: Id)
  datatype Ending = Rejected | FailedNoContact | AcknowledgedUnverified | Applied | NoEffect | Conflicting | Indeterminate

  datatype Execution = Execution(intent: Intent, admittedAt: Option<TimePoint>, admittedRevision: Option<Revisions>,
                                 route: Option<Route>, dispatch: Option<Dispatch>, acknowledgement: Option<Acknowledgement>,
                                 readback: Option<Readback>, outcome: Ending, error: Option<Err>, evidence: set<Id>)

  datatype ExecutionHooks = ExecutionHooks(admit: AdmitHooks, syntax: Execution -> Option<Err>, canonical: Intent -> Bytes,
                                           canonicalRecord: Execution -> Bytes, snapshotId: Snapshot -> Id,
                                           owned: Intent -> bool, relation: (Intent, Candidate) -> Option<Relation>)

  /** One entry of the idempotency table; a rejection has no grant. */
  datatype Cell = Cell(bytes: Bytes, intent: Intent, grant: Option<Grant>, record: Option<Execution>)

  // ---------------------------------------------------------------- the record by itself

  function DispatchErrors(d: Dispatch): set<Err> {
    (if d.completed.Some? then Opt(ContextsError(d.started, d.completed.value, false)) else {})
    + When(d.delivery == NotSent && d.sideEffect, InvalidOutcome)
  }

  predicate RejectionEvidence(r: Execution) {
    && r.error.Some? && r.admittedAt.None? && r.admittedRevision.None? && r.route.None? && r.dispatch.None?
    && r.acknowledgement.None? && r.readback.None?
  }

  predicate ReadsBack(r: Execution, relation: Relation) { r.readback.Some? && r.readback.value.relation == relation }

  predicate NoReadbackBut(r: Execution, relation: Relation) { r.readback.Some? ==> r.readback.value.relation == relation }

  predicate EndingEvidence(r: Execution, d: Dispatch) {
    match r.outcome
    case Rejected => false
    case FailedNoContact => d.delivery == NotSent && !d.sideEffect && r.acknowledgement.None? && r.readback.None?
    case AcknowledgedUnverified =>
      && d.delivery == Sent && d.sideEffect && r.acknowledgement.Some? && r.acknowledgement.value.state != AckRejected
      && NoReadbackBut(r, Inconclusive)
    case Applied => d.delivery == Sent && d.sideEffect && d.completed.Some? && ReadsBack(r, Confirms)
    case NoEffect => d.delivery == Sent && !ReadsBack(r, Confirms)
    case Conflicting => d.delivery == Sent && d.sideEffect && ReadsBack(r, Contradicts)
    case Indeterminate => d.delivery != NotSent && d.sideEffect && NoReadbackBut(r, Inconclusive)
  }

  predicate Combines(r: Execution) {
    if r.outcome == Rejected then RejectionEvidence(r)
    else
      && r.error.None? && r.admittedAt.Some? && r.admittedRevision.Some? && r.route.Some? && r.evidence != {}
      && r.dispatch.Some? && EndingEvidence(r, r.dispatch.value)
  }

  /** The evidence decides: only a confirmed readback ends as applied, and nothing unsent ends as anything but no contact. */
  lemma EvidenceDecides(r: Execution)
    requires Combines(r) && r.outcome != Rejected
    ensures r.outcome == Applied <==> ReadsBack(r, Confirms)
    ensures r.dispatch.value.delivery == NotSent <==> r.outcome == FailedNoContact
    ensures ReadsBack(r, Contradicts) ==> r.outcome == Conflicting || r.outcome == NoEffect
    ensures r.dispatch.value.sideEffect && r.outcome == NoEffect ==> !ReadsBack(r, Confirms)
  {}

  function ExecutionErrors(h: ExecutionHooks, r: Execution): set<Err> {
    Opt(h.syntax(r)) + (if r.dispatch.Some? then DispatchErrors(r.dispatch.value) else {}) + When(!Combines(r), InvalidOutcome)
  }

  // ---------------------------------------------------------------- the readback against a later snapshot

  function RouteLinkErrors(s: Snapshot, route: Route, asset: Id): set<Err> {
    if route.binding !in s.links then {IdentityNotQualified}
    else if s.links[route.binding].body.asset != asset then {InvalidOutcome}
    else When(s.links[route.binding].body.state != LinkQualified, IdentityNotQualified)
  }

  predicate RouteBindingFound(s: Snapshot, route: Route, asset: Id) {
    && route.binding in s.bindings && s.bindings[route.binding].body.asset == asset
    && s.bindings[route.binding].body.state == BindingCurrent && s.bindings[route.binding].body.path.source == route.path.source
  }

  predicate RouteServiceFound(s: Snapshot, route: Route, asset: Id) {
    && route.service in s.services
    && var v := s.services[route.service].body;
       v.asset == asset && v.binding == route.binding && v.epoch == route.path.epoch && v.generation == route.path.generation
       && v.availability != Withdrawn
  }

  predicate RouteCapabilityFound(s: Snapshot, route: Route, asset: Id) {
    && route.capability in s.capabilities
    && var v := s.capabilities[route.capability].body;
       v.asset == asset && v.service == route.service && v.binding == route.binding && v.epoch == route.path.epoch
       && v.generation == route.path.generation && v.availability != Withdrawn
  }

  function RouteBindingErrors(s: Snapshot, route: Route): set<Err> {
    if route.binding !in s.bindings then {} else
    var b := s.bindings[route.binding].body;
    When(b.path.epoch != route.path.epoch, StaleSourceEpoch)
    + When(b.path.generation != route.path.generation || b.state == BindingFenced, StaleDriverGeneration)
  }

  /** The admitted route is still the current one in the later snapshot. */
  function RouteCurrentErrors(s: Snapshot, route: Route, asset: Id): set<Err> {
    When(SourceOf(route.path) !in s.sources || s.sources[SourceOf(route.path)].body.state != SourceCurrent, StaleSourceEpoch)
    + When(route.path in s.fences, StaleDriverGeneration) + RouteBindingErrors(s, route) + RouteLinkErrors(s, route, asset)
    + When(!RouteBindingFound(s, route, asset) || !RouteServiceFound(s, route, asset) || !RouteCapabilityFound(s, route, asset), InvalidOutcome)
  }

  function HeaderErrors(h: ExecutionHooks, r: Execution, b: Readback, route: Route, admitted: Revisions, s: Snapshot): set<Err> {
    When(s.asset != r.intent.asset, InvalidOutcome)
    + When(h.snapshotId(s) != b.snapshot || s.revisions != b.revisions, DanglingReference)
    + When(b.revisions.semantic <= admitted.semantic, InvalidOutcome)
    + When(b.path.epoch != route.path.epoch, StaleSourceEpoch) + When(b.path.generation != route.path.generation, StaleDriverGeneration)
    + When(b.binding != route.binding || b.path.source != route.path.source, InvalidOutcome)
  }

  predicate Resolved(s: Snapshot, b: Readback) { b.candidate in s.facts && s.facts[b.candidate].revision == b.revision }

  /** The candidate read back was observed on the readback's own path. */
  function ObservedOnErrors(v: Versioned<Candidate>, b: Readback, effect: Id): set<Err> {
    When(!IsObserved(v) || v.body.binding.None? || v.body.epoch.None? || v.body.generation.None?, InvalidOutcome)
    + When(v.body.epoch.Some? && v.body.epoch.value != b.path.epoch, StaleSourceEpoch)
    + When(v.body.generation.Some? && v.body.generation.value != b.path.generation, StaleDriverGeneration)
    + When(v.body.binding != Some(b.binding) || v.body.originSource != Some(b.path.source), InvalidOutcome)
    + When(v.body.key != effect, InvalidOutcome)
  }

  /** The readback must have been received after the dispatch it is to confirm or contradict. */
  function ReceiptErrors(r: Execution, d: Dispatch, times: Times): set<Err> {
    match r.outcome
    case Applied => if d.completed.None? then {InvalidOutcome} else Opt(ReceiptError(d.completed.value, times))
    case Conflicting => Opt(ReceiptError(d.started, times))
    case _ => {}
  }

  ghost predicate Aged(s: Snapshot, c: Context) { !ValidContext(c) || Unevaluable(s, c) }

  ghost predicate Convincing(s: Snapshot, b: Readback)
    requires b.candidate in s.facts
  {
    && !Aged(s, b.evaluation) && Trusted(s, s.facts[b.candidate].body, b.candidate)
    && IsOldest(s.facts, b.evaluation, b.candidate, Fresh)
  }

  ghost function CandidateReadErrors(r: Execution, b: Readback, d: Dispatch, s: Snapshot): set<Err> {
    if !Resolved(s, b) then {DanglingReference} else
    var v := s.facts[b.candidate];
    ObservedOnErrors(v, b, r.intent.effect) + When(!Convincing(s, b), InvalidOutcome) + ReceiptErrors(r, d, v.body.times)
  }

  ghost function PlainReadbackErrors(h: ExecutionHooks, r: Execution, s: Snapshot): set<Err> {
    Opt(h.admit.snapshot(s))
    + if r.readback.None? || r.route.None? || r.admittedRevision.None? || r.dispatch.None? then {InvalidOutcome} else
      var b := r.readback.value;
      HeaderErrors(h, r, b, r.route.value, r.admittedRevision.value, s) + RouteCurrentErrors(s, r.route.value, r.intent.asset)
      + When(Aged(s, b.evaluation), InvalidOutcome) + CandidateReadErrors(r, b, r.dispatch.value, s)
  }

  predicate HookAgrees(h: ExecutionHooks, r: Execution, s: Snapshot) {
    r.readback.Some? && r.readback.value.candidate in s.facts
    && h.relation(r.intent, s.facts[r.readback.value.candidate].body) == Some(r.readback.value.relation)
  }

  /** The pack is only asked about a bound record whose readback is otherwise in order. */
  ghost function ReadbackErrors(h: ExecutionHooks, r: Execution, s: Snapshot, bound: bool): set<Err> {
    var plain := PlainReadbackErrors(h, r, s);
    if r.readback.None? || r.route.None? || r.admittedRevision.None? || r.dispatch.None? then plain
    else if !h.owned(r.intent) then plain + {DefinitionOwnerMissing}
    else if bound && plain == {} then When(!HookAgrees(h, r, s), InvalidOutcome)
    else plain
  }

  // ---------------------------------------------------------------- the record against its admission

  predicate SameAdmission(h: ExecutionHooks, cell: Cell, r: Execution) {
    && cell.grant.Some? && h.canonical(r.intent) == cell.bytes && r.admittedAt == Some(cell.grant.value.context.at)
    && r.admittedRevision == Some(cell.grant.value.revisions) && r.route == Some(cell.grant.value.route)
  }

  ghost function SnapshotErrors(r: Execution, later: Option<Snapshot>): set<Err> {
    if r.readback.Some? && later.Some? then ValidateErrors(later.value) else {}
  }

  function ClockErrors(cell: Cell, r: Execution): set<Err> {
    (if r.dispatch.Some? && cell.grant.Some? then Opt(ContextsError(cell.grant.value.context, r.dispatch.value.started, false)) else {})
    + if r.dispatch.Some? && r.acknowledgement.Some?
      then Opt(AcknowledgementError(r.dispatch.value.started.at, r.acknowledgement.value.at)) else {}
  }

  ghost function LaterErrors(h: ExecutionHooks, cell: Cell, owned: bool, r: Execution, later: Option<Snapshot>): set<Err> {
    if r.readback.None? then {}
    else if later.None? then {DanglingReference}
    else if ValidateErrors(later.value) != {} then {}
    else ReadbackErrors(h, r, later.value, owned && SameAdmission(h, cell, r) && ExecutionErrors(h, r) == {})
  }

  function OwnErrors(h: ExecutionHooks, cell: Cell, owned: bool, r: Execution): set<Err> {
    ExecutionErrors(h, r) + When(!owned, DanglingReference) + When(cell.record.Some?, SequenceConflict)
    + When(!SameAdmission(h, cell, r), RevisionConflict) + ClockErrors(cell, r)
  }

  ghost function AppendErrors(h: ExecutionHooks, cell: Cell, owned: bool, r: Execution, later: Option<Snapshot>): set<Err> {
    OwnErrors(h, cell, owned, r) + SnapshotErrors(r, later) + LaterErrors(h, cell, owned, r, later)
  }

  // ---------------------------------------------------------------- what an applied outcome proves

  /** The readback was observed on the admitted route, still current, at a later semantic revision. */
  predicate ConfirmedOn(g: Grant, r: Execution, s: Snapshot) {
    && r.route == Some(g.route) && r.readback.Some? && Resolved(s, r.readback.value)
    && ObservedOn(s.facts[r.readback.value.candidate], g.route, r.intent.effect)
    && s.revisions.semantic > g.revisions.semantic
    && IsCurrent(s.sources, SourceOf(g.route.path)) && g.route.path !in s.fences
    && g.route.binding in s.bindings && s.bindings[g.route.binding].body.state == BindingCurrent
    && s.bindings[g.route.binding].body.path == g.route.path
  }

  predicate ObservedOn(v: Versioned<Candidate>, route: Route, effect: Id) {
    IsObserved(v) && HasPath(v.body) && PathOf(v.body) == PathRef(route.path, route.binding) && v.body.key == effect
  }

  function Instants(g: Grant, r: Execution, s: Snapshot): set<Context>
    requires ConfirmedOn(g, r, s) && r.dispatch.Some? && r.dispatch.value.completed.Some?
  {
    {g.context, r.dispatch.value.started, r.dispatch.value.completed.value, Receipt(s.facts[r.readback.value.candidate].body.times)}
  }

  ghost predicate Follows(truth: Context -> int, a: Context, b: Context) { truth(a) <= truth(b) || SameReading(a, b) }

  /**
   * In every consistent assignment of true times: admitted, then started, then
   * completed, then strictly later read back.  If equal readings of one epoch
   * are not taken as one time, only the first two comparisons can fail, and only there.
   */
  ghost predicate TrulyOrdered(g: Grant, r: Execution, s: Snapshot)
    requires ConfirmedOn(g, r, s) && r.dispatch.Some? && r.dispatch.value.completed.Some?
  {
    var started, completed := r.dispatch.value.started, r.dispatch.value.completed.value;
    var receipt := Receipt(s.facts[r.readback.value.candidate].body.times);
    && (forall truth :: Consistent(Instants(g, r, s), truth) ==> truth(g.context) <= truth(started) <= truth(completed) < truth(receipt))
    && (forall truth :: WeaklyConsistent(Instants(g, r, s), truth) ==>
          Follows(truth, g.context, started) && Follows(truth, started, completed) && truth(completed) < truth(receipt))
  }

  /** A valid later snapshot and the pack agree that the intended effect was there after the dispatch. */
  ghost predicate ProvenApplied(h: ExecutionHooks, g: Grant, r: Execution, s: Snapshot) {
    && ValidateErrors(s) == {} && PackConfirms(h, r, s) && ConfirmedOn(g, r, s) && Convincing(s, r.readback.value)
    && r.dispatch.Some? && r.dispatch.value.completed.Some? && TrulyOrdered(g, r, s)
  }

  predicate PackConfirms(h: ExecutionHooks, r: Execution, s: Snapshot) {
    && r.readback.Some? && r.readback.value.candidate in s.facts
    && h.relation(r.intent, s.facts[r.readback.value.candidate].body) == Some(Confirms)
  }

  lemma ReadbackIsOn(h: ExecutionHooks, g: Grant, r: Execution, s: Snapshot)
    requires PlainReadbackErrors(h, r, s) == {} && r.route == Some(g.route) && r.admittedRevision == Some(g.revisions)
    ensures ConfirmedOn(g, r, s) && Convincing(s, r.readback.value) && r.dispatch.Some?
    ensures ReceiptErrors(r, r.dispatch.value, s.facts[r.readback.value.candidate].body.times) == {}
  {
    hide Convincing, Aged, ReceiptErrors, RouteLinkErrors, RouteServiceFound, RouteCapabilityFound;
    var b := r.readback.value;
    assert HeaderErrors(h, r, b, g.route, g.revisions, s) == {} && RouteCurrentErrors(s, g.route, r.intent.asset) == {};
    assert CandidateReadErrors(r, b, r.dispatch.value, s) == {};
  }

  lemma AppliedOrder(g: Grant, r: Execution, s: Snapshot)
    requires ConfirmedOn(g, r, s) && r.dispatch.Some? && r.dispatch.value.completed.Some?
    requires ContextsError(g.context, r.dispatch.value.started, false).None? && DispatchErrors(r.dispatch.value) == {}
    requires ReceiptError(r.dispatch.value.completed.value, s.facts[r.readback.value.candidate].body.times).None?
    ensures TrulyOrdered(g, r, s)
  {
    hide ObservedOn, ContextsError, ReceiptError, Consistent, WeaklyConsistent, Receipt;
    var d := r.dispatch.value;
    var times := s.facts[r.readback.value.candidate].body.times;
    var instants := Instants(g, r, s);
    forall truth | WeaklyConsistent(instants, truth)
      ensures Follows(truth, g.context, d.started) && Follows(truth, d.started, d.completed.value)
      ensures truth(d.completed.value) < truth(Receipt(times))
    {
      WeaklyOrdered(g.context, d.started, false, instants, truth);
      WeaklyOrdered(d.started, d.completed.value, false, instants, truth);
      ReceiptFollows(d.completed.value, times, instants, truth);
    }
    forall truth | Consistent(instants, truth)
      ensures truth(g.context) <= truth(d.started) <= truth(d.completed.value) < truth(Receipt(times))
    {
      ContextsOrdered(g.context, d.started, false, instants, truth);
      ContextsOrdered(d.started, d.completed.value, false, instants, truth);
      ConsistentIsWeak(instants, truth);
    }
  }

  /** An accepted record that claims the effect was applied is proven so by its readback snapshot. */
  lemma AppliedMeans(h: ExecutionHooks, cell: Cell, owned: bool, r: Execution, later: Option<Snapshot>)
    requires AppendErrors(h, cell, owned, r, later) == {} && r.outcome == Applied
    ensures cell.grant.Some? && later.Some? && ProvenApplied(h, cell.grant.value, r, later.value)
  {
    hide PlainReadbackErrors, ValidateErrors, ConfirmedOn, Convincing, TrulyOrdered, ContextsError, AcknowledgementError, DispatchErrors, ReceiptError,
         HookAgrees;
    assert OwnErrors(h, cell, owned, r) == {} && SnapshotErrors(r, later) == {} && LaterErrors(h, cell, owned, r, later) == {};
    assert ExecutionErrors(h, r) == {} && ClockErrors(cell, r) == {};
    assert Combines(r) && DispatchErrors(r.dispatch.value) == {};
    var s := later.value;
    assert PlainReadbackErrors(h, r, s) == {};
    ReadbackIsOn(h, cell.grant.value, r, s);
    AppliedOrder(cell.grant.value, r, s);
    assert PackConfirms(h, r, s) by { HookConfirms(h, r, s); }
  }

  lemma HookConfirms(h: ExecutionHooks, r: Execution, s: Snapshot)
    requires ReadbackErrors(h, r, s, true) == {} && r.dispatch.Some? && ReadsBack(r, Confirms) && r.route.Some? && r.admittedRevision.Some?
    ensures PackConfirms(h, r, s)
  {
    hide PlainReadbackErrors;
  }

  /** Only a grant can carry a record, and never a rejection. */
  lemma AppendedIsNotRejection(h: ExecutionHooks, cell: Cell, owned: bool, r: Execution, later: Option<Snapshot>)
    requires AppendErrors(h, cell, owned, r, later) == {}
    ensures cell.grant.Some? && cell.record.None? && r.outcome != Rejected && h.canonical(r.intent) == cell.bytes
    ensures r.route == Some(cell.grant.value.route)
  {
    hide SnapshotErrors, ClockErrors, LaterErrors, EndingEvidence, DispatchErrors;
    assert OwnErrors(h, cell, owned, r) == {};
    assert Combines(r);
  }

  // ---------------------------------------------------------------- acceptance of a record, without error classes

  /** The admitted route in the later snapshot: every record it names is there, on its path, current and not withdrawn. */
  predicate RouteStands(s: Snapshot, route: Route, asset: Id) {
    && IsCurrent(s.sources, SourceOf(route.path)) && route.path !in s.fences
    && route.binding in s.bindings && route.binding in s.links && route.service in s.services && route.capability in s.capabilities
    && var b := s.bindings[route.binding].body; var link := s.links[route.binding].body;
       && b.asset == link.asset == asset && b.state == BindingCurrent && b.path == route.path && link.state == LinkQualified
       && RecordStands(s.services[route.service].body.asset, s.services[route.service].body.binding, s.services[route.service].body.epoch,
                       s.services[route.service].body.generation, s.services[route.service].body.availability, route, asset)
       && RecordStands(s.capabilities[route.capability].body.asset, s.capabilities[route.capability].body.binding,
                       s.capabilities[route.capability].body.epoch, s.capabilities[route.capability].body.generation,
                       s.capabilities[route.capability].body.availability, route, asset)
       && s.capabilities[route.capability].body.service == route.service
  }

  predicate RecordStands(owner: Id, binding: Id, epoch: Id, generation: nat, availability: Availability, route: Route, asset: Id) {
    owner == asset && binding == route.binding && epoch == route.path.epoch && generation == route.path.generation && availability != Withdrawn
  }

  lemma RouteCurrentExact(s: Snapshot, route: Route, asset: Id)
    ensures RouteCurrentErrors(s, route, asset) == {} <==> RouteStands(s, route, asset)
  {}

  /** What the readback says about itself: this very snapshot, later than the admission, on the admitted path. */
  predicate NamesLater(h: ExecutionHooks, g: Grant, r: Execution, b: Readback, s: Snapshot) {
    && s.asset == r.intent.asset && h.snapshotId(s) == b.snapshot && s.revisions == b.revisions
    && g.revisions.semantic < s.revisions.semantic && b.path == g.route.path && b.binding == g.route.binding
  }

  lemma HeaderExact(h: ExecutionHooks, g: Grant, r: Execution, b: Readback, s: Snapshot)
    ensures HeaderErrors(h, r, b, g.route, g.revisions, s) == {} <==> NamesLater(h, g, r, b, s)
  {}

  lemma ObservedOnExact(v: Versioned<Candidate>, b: Readback, route: Route, effect: Id)
    requires b.path == route.path && b.binding == route.binding
    ensures ObservedOnErrors(v, b, effect) == {} <==> ObservedOn(v, route, effect)
  {}

  /** Received after the dispatch it confirms was completed, or after the one it contradicts was started. */
  predicate ReceivedAfter(r: Execution, d: Dispatch, times: Times) {
    && (r.outcome == Applied ==> d.completed.Some? && ContextsError(d.completed.value, Receipt(times), true).None?)
    && (r.outcome == Conflicting ==> ContextsError(d.started, Receipt(times), true).None?)
  }

  lemma ReceivedExact(r: Execution, d: Dispatch, times: Times)
    ensures ReceiptErrors(r, d, times) == {} <==> ReceivedAfter(r, d, times)
  {
    hide ContextsError, ReceiptError;
    if d.completed.Some? { ReceiptExact(d.completed.value, times); }
    ReceiptExact(d.started, times);
  }

  /** The candidate read back: the exact one, observed on the admitted route, trusted, fresh, and related as the pack says. */
  ghost predicate ReadsCandidate(h: ExecutionHooks, g: Grant, r: Execution, b: Readback, d: Dispatch, s: Snapshot) {
    && b.candidate in s.facts && s.facts[b.candidate].revision == b.revision
    && ObservedOn(s.facts[b.candidate], g.route, r.intent.effect) && Convincing(s, b)
    && ReceivedAfter(r, d, s.facts[b.candidate].body.times)
    && h.relation(r.intent, s.facts[b.candidate].body) == Some(b.relation)
  }

  ghost predicate ReadbackGood(h: ExecutionHooks, g: Grant, r: Execution, s: Snapshot) {
    && r.readback.Some? && r.dispatch.Some? && h.admit.snapshot(s).None? && h.owned(r.intent)
    && NamesLater(h, g, r, r.readback.value, s) && RouteStands(s, g.route, r.intent.asset)
    && ReadsCandidate(h, g, r, r.readback.value, r.dispatch.value, s)
  }

  lemma ReadbackExact(h: ExecutionHooks, g: Grant, r: Execution, s: Snapshot)
    requires r.readback.Some? && r.route == Some(g.route) && r.admittedRevision == Some(g.revisions)
    ensures ReadbackErrors(h, r, s, true) == {} <==> ReadbackGood(h, g, r, s)
  {
    hide HeaderErrors, RouteCurrentErrors, ObservedOnErrors, ReceiptErrors, Convincing, Aged, NamesLater, RouteStands, ObservedOn, ReceivedAfter;
    var b := r.readback.value;
    HeaderExact(h, g, r, b, s);
    RouteCurrentExact(s, g.route, r.intent.asset);
    ConvincingAged(s, b);
    if r.dispatch.Some? && Resolved(s, b) {
      if NamesLater(h, g, r, b, s) {
        assert b.path == g.route.path && b.binding == g.route.binding by { NamesPath(h, g, r, b, s); }
        ObservedOnExact(s.facts[b.candidate], b, g.route, r.intent.effect);
      }
      ReceivedExact(r, r.dispatch.value, s.facts[b.candidate].body.times);
    }
  }

  lemma NamesPath(h: ExecutionHooks, g: Grant, r: Execution, b: Readback, s: Snapshot)
    requires NamesLater(h, g, r, b, s)
    ensures b.path == g.route.path && b.binding == g.route.binding
  {}

  lemma ConvincingAged(s: Snapshot, b: Readback)
    ensures b.candidate in s.facts && Convincing(s, b) ==> !Aged(s, b.evaluation)
  {}

  /** The dispatch runs forward, and nothing unsent had an effect. */
  predicate DispatchRuns(d: Dispatch) {
    && (d.completed.Some? ==> ContextsError(d.started, d.completed.value, false).None?)
    && !(d.delivery == NotSent && d.sideEffect)
  }

  /** Everything a record needs to be appended to an admission. */
  ghost predicate Recordable(h: ExecutionHooks, cell: Cell, owned: bool, r: Execution, later: Option<Snapshot>) {
    && owned && cell.record.None? && cell.grant.Some? && h.syntax(r).None? && Combines(r) && r.outcome != Rejected
    && h.canonical(r.intent) == cell.bytes && r.admittedAt == Some(cell.grant.value.context.at)
    && r.admittedRevision == Some(cell.grant.value.revisions) && r.route == Some(cell.grant.value.route)
    && r.dispatch.Some? && DispatchRuns(r.dispatch.value)
    && ContextsError(cell.grant.value.context, r.dispatch.value.started, false).None?
    && (r.acknowledgement.Some? ==> AcknowledgementError(r.dispatch.value.started.at, r.acknowledgement.value.at).None?)
    && (r.readback.Some? ==> later.Some? && ValidateErrors(later.value) == {} && ReadbackGood(h, cell.grant.value, r, later.value))
  }

  lemma OwnExact(h: ExecutionHooks, cell: Cell, owned: bool, r: Execution)
    ensures OwnErrors(h, cell, owned, r) == {} <==>
            && owned && cell.record.None? && cell.grant.Some? && h.syntax(r).None? && Combines(r) && r.outcome != Rejected
            && h.canonical(r.intent) == cell.bytes && r.admittedAt == Some(cell.grant.value.context.at)
            && r.admittedRevision == Some(cell.grant.value.revisions) && r.route == Some(cell.grant.value.route)
            && r.dispatch.Some? && DispatchRuns(r.dispatch.value)
            && ContextsError(cell.grant.value.context, r.dispatch.value.started, false).None?
            && (r.acknowledgement.Some? ==> AcknowledgementError(r.dispatch.value.started.at, r.acknowledgement.value.at).None?)
  {
    hide ContextsError, AcknowledgementError, EndingEvidence;
  }

  /** A record is appended exactly when it is recordable. */
  lemma AppendedIff(h: ExecutionHooks, cell: Cell, owned: bool, r: Execution, later: Option<Snapshot>)
    ensures AppendErrors(h, cell, owned, r, later) == {} <==> Recordable(h, cell, owned, r, later)
  {
    hide OwnErrors, ReadbackErrors, ReadbackGood, ValidateErrors, Combines, DispatchRuns, ContextsError, AcknowledgementError, ExecutionErrors;
    OwnExact(h, cell, owned, r);
    OwnClean(h, cell, owned, r);
    if OwnErrors(h, cell, owned, r) == {} && r.readback.Some? && later.Some? {
      ReadbackExact(h, cell.grant.value, r, later.value);
    }
  }

  lemma OwnClean(h: ExecutionHooks, cell: Cell, owned: bool, r: Execution)
    ensures OwnErrors(h, cell, owned, r) == {} ==> owned && SameAdmission(h, cell, r) && ExecutionErrors(h, r) == {}
  {
    hide SameAdmission, ExecutionErrors, ClockErrors;
  }

  /** The evidence each outcome needs, outcome by outcome. */
  lemma CombinesExact(r: Execution)
    ensures Combines(r) <==>
            if r.outcome == Rejected
            then r.error.Some? && r.admittedAt.None? && r.admittedRevision.None? && r.route.None? && r.dispatch.None?
                 && r.acknowledgement.None? && r.readback.None?
            else
              && r.error.None? && r.admittedAt.Some? && r.admittedRevision.Some? && r.route.Some? && r.evidence != {} && r.dispatch.Some?
              && (r.outcome == FailedNoContact <==> r.dispatch.value.delivery == NotSent)
              && (r.outcome == FailedNoContact ==> !r.dispatch.value.sideEffect && r.acknowledgement.None? && r.readback.None?)
              && (r.outcome !in {FailedNoContact, NoEffect} ==> r.dispatch.value.sideEffect)
              && (r.outcome !in {FailedNoContact, Indeterminate} ==> r.dispatch.value.delivery == Sent)
              && (r.outcome == AcknowledgedUnverified ==> r.acknowledgement.Some? && r.acknowledgement.value.state != AckRejected)
              && (r.outcome == Applied ==> r.dispatch.value.completed.Some?)
              && (r.outcome == Applied <==> r.readback.Some? && r.readback.value.relation == Confirms)
              && (r.outcome == Conflicting ==> r.readback.Some? && r.readback.value.relation == Contradicts)
              && (r.readback.Some? && r.readback.value.relation == Contradicts ==> r.outcome in {Conflicting, NoEffect})
  {}
}
