/**
 * The idempotency table of the operation kernel as a state machine.  Each
 * critical section of the original is one action; since callers hold no lock
 * between sections, every sequence of actions is a possible interleaving.
 */
module OperationTable {
  import opened Errors
  import opened Graphs
  import opened Freshness
  import opened Records
  import opened Snapshots
  import opened Validity
  import opened Evaluation
  import opened Routing
  import opened Admission
  import opened Execution

  type Table = map<Id, Cell>

  const MAX_RETAINED_OPERATIONS: nat := 65536

  function Admitted(h: ExecutionHooks, i: Intent, g: Grant): Cell { Cell(h.canonical(i), i, Some(g), None) }

  function Rejection(i: Intent, error: Err, evidence: set<Id>): Execution {
    Execution(i, None, None, None, None, None, None, Rejected, Some(error), evidence)
  }

  function RejectedCell(h: ExecutionHooks, i: Intent, error: Err, evidence: set<Id>): Cell {
    Cell(h.canonical(i), i, None, Some(Rejection(i, error, evidence)))
  }

  function Lookup(t: Table, key: Id, bytes: Bytes): Result<Option<Cell>> {
    if key !in t then Success(None)
    else if t[key].bytes != bytes then Failure(SequenceConflict)
    else Success(Some(t[key]))
  }

  /** Installing repeats the lookup, then respects the bound. */
  function Install(h: ExecutionHooks, limit: nat, t: Table, i: Intent, g: Grant): Result<Cell> {
    if i.key in t then (if t[i.key].bytes == h.canonical(i) then Success(t[i.key]) else Failure(SequenceConflict))
    else if |t| >= limit then Failure(BoundsExceeded)
    else Success(Admitted(h, i, g))
  }

  function AfterInstall(h: ExecutionHooks, limit: nat, t: Table, i: Intent, g: Grant): Table {
    if i.key !in t && |t| < limit then t[i.key := Admitted(h, i, g)] else t
  }

  /** Admission by a caller who meets no other: early refusals, the table's own answer, the verdict, the installation. */
  ghost function Admit(h: ExecutionHooks, limit: nat, t: Table, s: Snapshot, c: Context, i: Intent, authority: Option<Authority>): Result<Cell> {
    var early := EarlyErrors(h.admit, s, c, i);
    if early != {} then Failure(Least(early).value)
    else if IntentError(h.admit, i).None? && i.key in t then
      if t[i.key].bytes == h.canonical(i) then Success(t[i.key]) else Failure(SequenceConflict)
    else
      match Verdict(h.admit, s, c, i, authority)
      case Failure(e) => Failure(e)
      case Success(g) => Install(h, limit, t, i, g)
  }

  ghost function AfterAdmit(h: ExecutionHooks, limit: nat, t: Table, s: Snapshot, c: Context, i: Intent, authority: Option<Authority>): Table {
    var verdict := Verdict(h.admit, s, c, i, authority);
    if EarlyErrors(h.admit, s, c, i) == {} && !(IntentError(h.admit, i).None? && i.key in t) && verdict.Success?
    then AfterInstall(h, limit, t, i, verdict.value) else t
  }

  function Reject(h: ExecutionHooks, limit: nat, t: Table, i: Intent, error: Err, evidence: set<Id>): Result<Execution> {
    var r := Rejection(i, error, evidence);
    if h.syntax(r).Some? then Failure(h.syntax(r).value)
    else if i.key in t then
      if t[i.key].bytes != h.canonical(i) then Failure(SequenceConflict)
      else if t[i.key].record.Some? && h.canonicalRecord(t[i.key].record.value) == h.canonicalRecord(r) then Success(t[i.key].record.value)
      else Failure(SequenceConflict)
    else if |t| >= limit then Failure(BoundsExceeded)
    else Success(r)
  }

  function AfterReject(h: ExecutionHooks, limit: nat, t: Table, i: Intent, error: Err, evidence: set<Id>): Table {
    if h.syntax(Rejection(i, error, evidence)).None? && i.key !in t && |t| < limit
    then t[i.key := RejectedCell(h, i, error, evidence)] else t
  }

  /** The same record again, byte for byte. */
  ghost predicate Repeats(h: ExecutionHooks, cell: Cell, owned: bool, r: Execution, later: Option<Snapshot>) {
    && cell.record.Some? && ExecutionErrors(h, r) == {} && SnapshotErrors(r, later) == {} && owned
    && h.canonicalRecord(cell.record.value) == h.canonicalRecord(r)
  }

  ghost function Append(h: ExecutionHooks, cell: Cell, owned: bool, r: Execution, later: Option<Snapshot>): Result<Execution> {
    var errs := AppendErrors(h, cell, owned, r, later);
    if Repeats(h, cell, owned, r, later) then Success(cell.record.value)
    else if errs != {} then Failure(Least(errs).value)
    else Success(r)
  }

  ghost function AppendedCell(h: ExecutionHooks, cell: Cell, owned: bool, r: Execution, later: Option<Snapshot>): Cell {
    if AppendErrors(h, cell, owned, r, later) == {} then cell.(record := Some(r)) else cell
  }

  /** Ownership was read in an earlier critical section, so an append carries whatever was read then. */
  datatype Action =
    | Find(key: Id, bytes: Bytes)
    | Enter(intent: Intent, grant: Grant)
    | Refuse(intent: Intent, error: Err, evidence: set<Id>)
    | Finish(key: Id, owned: bool, record: Execution, later: Option<Snapshot>)

  ghost function After(h: ExecutionHooks, limit: nat, t: Table, a: Action): Table {
    match a
    case Find(_, _) => t
    case Enter(i, g) => AfterInstall(h, limit, t, i, g)
    case Refuse(i, e, evidence) => AfterReject(h, limit, t, i, e, evidence)
    case Finish(key, owned, r, later) => if key in t then t[key := AppendedCell(h, t[key], owned, r, later)] else t
  }

  ghost function Interleaving(h: ExecutionHooks, limit: nat, t: Table, actions: seq<Action>): Table
    decreases |actions|
  {
    if actions == [] then t
    else After(h, limit, Interleaving(h, limit, t, actions[..|actions| - 1]), actions[|actions| - 1])
  }

  // ---------------------------------------------------------------- invariant and history

  ghost predicate GrantedRecord(h: ExecutionHooks, cell: Cell, g: Grant, r: Execution) {
    && r.outcome != Rejected && r.route == Some(g.route) && h.canonical(r.intent) == cell.bytes
    && (r.readback.Some? ==> exists s :: ValidateErrors(s) == {} && ReadbackGood(h, g, r, s))
    && (r.outcome == Applied ==> exists s :: ProvenApplied(h, g, r, s))
  }

  /** A cell is either a finished rejection or a grant, and a grant never ends as a rejection. */
  ghost predicate CellOk(h: ExecutionHooks, key: Id, cell: Cell) {
    && cell.intent.key == key && cell.bytes == h.canonical(cell.intent)
    && (cell.grant.None? ==> cell.record.Some? && cell.record.value.outcome == Rejected && RejectionEvidence(cell.record.value))
    && (cell.grant.Some? && cell.record.Some? ==> GrantedRecord(h, cell, cell.grant.value, cell.record.value))
  }

  ghost predicate TableInv(h: ExecutionHooks, limit: nat, t: Table) {
    |t| <= limit && forall key :: key in t ==> CellOk(h, key, t[key])
  }

  /** Nothing but an absent record may still change. */
  predicate Settled(x: Cell, y: Cell) {
    y.bytes == x.bytes && y.intent == x.intent && y.grant == x.grant && (x.record.Some? ==> y.record == x.record)
  }

  ghost predicate Grows(t: Table, u: Table) { forall key :: key in t ==> key in u && Settled(t[key], u[key]) }

  lemma AppendKeeps(h: ExecutionHooks, key: Id, cell: Cell, owned: bool, r: Execution, later: Option<Snapshot>)
    requires CellOk(h, key, cell)
    ensures var c := AppendedCell(h, cell, owned, r, later); CellOk(h, key, c) && Settled(cell, c)
  {
    hide AppendErrors, ProvenApplied, RejectionEvidence, ReadbackGood, ValidateErrors, Combines, DispatchRuns;
    if AppendErrors(h, cell, owned, r, later) == {} {
      AppendedIsNotRejection(h, cell, owned, r, later);
      AppendedIff(h, cell, owned, r, later);
      if r.outcome == Applied { AppliedMeans(h, cell, owned, r, later); }
    }
  }

  lemma AdmittedOk(h: ExecutionHooks, i: Intent, g: Grant)
    ensures CellOk(h, i.key, Admitted(h, i, g))
  {
    hide ProvenApplied, ReadbackGood, ValidateErrors;
  }

  lemma RejectedOk(h: ExecutionHooks, i: Intent, error: Err, evidence: set<Id>)
    ensures CellOk(h, i.key, RejectedCell(h, i, error, evidence))
  {
    hide ProvenApplied, ReadbackGood, ValidateErrors;
  }

  lemma AddedKeeps(h: ExecutionHooks, limit: nat, t: Table, key: Id, cell: Cell)
    requires TableInv(h, limit, t) && key !in t && |t| < limit && CellOk(h, key, cell)
    ensures TableInv(h, limit, t[key := cell])
  {
    hide CellOk;
    assert t[key := cell].Keys == t.Keys + {key} && |t.Keys + {key}| == |t.Keys| + 1;
    assert |t[key := cell]| == |t[key := cell].Keys|;
  }

  lemma ActionKeeps(h: ExecutionHooks, limit: nat, t: Table, a: Action)
    requires TableInv(h, limit, t)
    ensures var u := After(h, limit, t, a); TableInv(h, limit, u) && Grows(t, u)
  {
    hide CellOk, AppendedCell, Admitted, RejectedCell;
    match a
    case Find(_, _) =>
    case Enter(i, g) => AdmittedOk(h, i, g);
    case Refuse(i, e, evidence) => RejectedOk(h, i, e, evidence);
    case Finish(key, owned, r, later) =>
      if key in t { AppendKeeps(h, key, t[key], owned, r, later); }
  }

  /**
   * Under every interleaving: the table stays within its bound, keys and their
   * bytes and grants never change, and a terminal record never changes.
   */
  lemma {:induction false} InterleavingKeeps(h: ExecutionHooks, limit: nat, t: Table, actions: seq<Action>)
    requires TableInv(h, limit, t)
    ensures var u := Interleaving(h, limit, t, actions); TableInv(h, limit, u) && Grows(t, u)
    decreases |actions|
  {
    hide After, TableInv;
    if actions != [] {
      var before := actions[..|actions| - 1];
      InterleavingKeeps(h, limit, t, before);
      ActionKeeps(h, limit, Interleaving(h, limit, t, before), actions[|actions| - 1]);
    }
  }

  // ---------------------------------------------------------------- guard claims

  datatype GuardClaims = GuardClaims(asset: Id, capabilities: nat, capability: Id, instanceRevision: nat,
                                     service: Id, binding: Id, path: CursorKey)

  function Claims(cell: Cell): Option<GuardClaims> {
    if cell.grant.None? then None
    else
      var route := cell.grant.value.route;
      Some(GuardClaims(cell.intent.asset, cell.intent.capabilities, route.capability, cell.intent.instanceRevision,
                       route.service, route.binding, route.path))
  }

  /** The claims of a fresh admission are the records of the one routable capability of its snapshot. */
  lemma ClaimsReproduceRoute(h: ExecutionHooks, s: Snapshot, c: Context, i: Intent, authority: Option<Authority>, g: Grant)
    requires Verdict(h.admit, s, c, i, authority) == Success(g)
    ensures var claims := Claims(Admitted(h, i, g));
            && claims.Some? && RoutableIds(h.admit.routes, s, i) == {claims.value.capability}
            && IsRouteOf(h.admit.routes, s, i, g.route) && claims.value.capability in s.capabilities && claims.value.binding in s.bindings
            && var v := s.capabilities[claims.value.capability];
               claims.value == GuardClaims(s.asset, s.revisions.capabilities, claims.value.capability, v.revision,
                                           v.body.service, v.body.binding, s.bindings[v.body.binding].body.path)
  {
    hide Verdict, RoutableIds, Met, CandidateErrors, Offered;
    AdmittedMeans(h.admit, s, c, i, authority, g);
  }

  /**
   * What a key may become: one recorded as rejected never yields claims and
   * keeps its record; an admitted one keeps its claims and is never rejected.
   */
  lemma {:induction false} KeyHistory(h: ExecutionHooks, limit: nat, t: Table, actions: seq<Action>, key: Id)
    requires TableInv(h, limit, t) && key in t
    ensures var u := Interleaving(h, limit, t, actions);
            && key in u && Claims(u[key]) == Claims(t[key])
            && (t[key].grant.None? ==> Claims(u[key]).None? && u[key] == t[key])
            && (t[key].grant.Some? ==> Claims(u[key]).Some? && (u[key].record.Some? ==> u[key].record.value.outcome != Rejected))
            && (t[key].record.Some? ==> u[key].record == t[key].record)
  {
    hide Interleaving, ProvenApplied, ReadbackGood, ValidateErrors;
    InterleavingKeeps(h, limit, t, actions);
    var u := Interleaving(h, limit, t, actions);
    assert CellOk(h, key, t[key]) && CellOk(h, key, u[key]) && Settled(t[key], u[key]);
  }

  /** Once a key is answered, the same bytes get the same admission, with at most its record added, and other bytes stay refused. */
  lemma {:induction false} LookupStable(h: ExecutionHooks, limit: nat, t: Table, actions: seq<Action>, key: Id, bytes: Bytes)
    requires TableInv(h, limit, t) && Lookup(t, key, bytes) != Success(None)
    ensures var later := Lookup(Interleaving(h, limit, t, actions), key, bytes);
            && (later.Failure? <==> Lookup(t, key, bytes).Failure?)
            && later != Success(None)
            && (later.Success? ==> Settled(Lookup(t, key, bytes).value.value, later.value.value))
  {
    hide Interleaving, TableInv;
    InterleavingKeeps(h, limit, t, actions);
    assert Settled(t[key], Interleaving(h, limit, t, actions)[key]);
  }

  // ---------------------------------------------------------------- answers and states together

  /** An admission takes a free key while there is room, keeps what is there, and answers with what the table then holds. */
  lemma InstallEffect(h: ExecutionHooks, limit: nat, t: Table, i: Intent, g: Grant)
    ensures var r, u := Install(h, limit, t, i, g), AfterInstall(h, limit, t, i, g);
            && (r.Success? ==> i.key in u && u[i.key] == r.value && Lookup(u, i.key, h.canonical(i)) == Success(Some(r.value)))
            && (i.key in t ==> u == t && (r.Success? <==> t[i.key].bytes == h.canonical(i)) && (r.Failure? ==> r.error == SequenceConflict))
            && (i.key !in t ==> (r.Success? <==> |t| < limit) && (r.Failure? ==> u == t && r.error == BoundsExceeded))
            && (i.key !in t && r.Success? ==> u == t[i.key := Cell(h.canonical(i), i, Some(g), None)])
  {}

  /** A lookup knows nothing, the admission of these very bytes, or a conflict. */
  lemma LookupExact(t: Table, key: Id, bytes: Bytes)
    ensures Lookup(t, key, bytes) == Success(None) <==> key !in t
    ensures key in t && t[key].bytes == bytes <==> Lookup(t, key, bytes).Success? && Lookup(t, key, bytes).value.Some?
    ensures key in t && t[key].bytes == bytes ==> Lookup(t, key, bytes) == Success(Some(t[key]))
    ensures key in t && t[key].bytes != bytes ==> Lookup(t, key, bytes) == Failure(SequenceConflict)
  {}

  /** A rejection takes a free key while there is room; on a taken one it is only ever repeated, byte for byte. */
  lemma RejectEffect(h: ExecutionHooks, limit: nat, t: Table, i: Intent, error: Err, evidence: set<Id>)
    ensures var record := Execution(i, None, None, None, None, None, None, Rejected, Some(error), evidence);
            var r, u := Reject(h, limit, t, i, error, evidence), AfterReject(h, limit, t, i, error, evidence);
            && (h.syntax(record).Some? ==> u == t && r == Failure(h.syntax(record).value))
            && (h.syntax(record).None? && i.key in t ==>
                  && u == t && (r.Failure? ==> r.error == SequenceConflict)
                  && (r.Success? <==> t[i.key].bytes == h.canonical(i) && t[i.key].record.Some?
                                      && h.canonicalRecord(t[i.key].record.value) == h.canonicalRecord(record))
                  && (r.Success? ==> t[i.key].record == Some(r.value)))
            && (h.syntax(record).None? && i.key !in t && |t| >= limit ==> u == t && r == Failure(BoundsExceeded))
            && (h.syntax(record).None? && i.key !in t && |t| < limit ==>
                  r == Success(record) && u == t[i.key := Cell(h.canonical(i), i, None, Some(record))])
  {}

  /** An append answers with the record that stands afterwards: the new one when recordable, or the stored one repeated. */
  lemma AppendEffect(h: ExecutionHooks, cell: Cell, owned: bool, r: Execution, later: Option<Snapshot>)
    ensures var reply, after := Append(h, cell, owned, r, later), AppendedCell(h, cell, owned, r, later);
            && (reply.Success? ==> after.record == Some(reply.value))
            && (Recordable(h, cell, owned, r, later) ==> reply == Success(r) && after == cell.(record := Some(r)))
            && (!Recordable(h, cell, owned, r, later) ==> after == cell)
            && (reply.Success? <==> Recordable(h, cell, owned, r, later) || Repeats(h, cell, owned, r, later))
  {
    hide AppendErrors, Recordable, ExecutionErrors, SnapshotErrors;
    AppendedIff(h, cell, owned, r, later);
    if cell.record.Some? { RecordedOnce(h, cell, owned, r, later); }
  }

  lemma RecordedOnce(h: ExecutionHooks, cell: Cell, owned: bool, r: Execution, later: Option<Snapshot>)
    requires cell.record.Some?
    ensures !Recordable(h, cell, owned, r, later)
  {
    hide Combines, DispatchRuns, ValidateErrors, ReadbackGood;
  }

  /**
   * The table gains a key by admission exactly when the key is free, there is
   * room, and the intent is admissible; otherwise it stays as it is.
   */
  lemma AdmitEffect(h: ExecutionHooks, limit: nat, t: Table, s: Snapshot, c: Context, i: Intent, authority: Option<Authority>)
    ensures var u := AfterAdmit(h, limit, t, s, c, i, authority);
            && (u != t ==> exists g :: u == t[i.key := Cell(h.canonical(i), i, Some(g), None)] && Admissible(h.admit, s, c, i, authority, g.route)
                                       && g.context == c && g.revisions == s.revisions)
            && (u != t <==> && i.key !in t && |t| < limit && ValidateErrors(s) == {} && ValidContext(c)
                            && exists route :: Admissible(h.admit, s, c, i, authority, route))
  {
    hide Verdict, Admissible, ValidateErrors, ValidContext, Install, Claims;
    EarlyExact(h.admit, s, c, i);
    var verdict := Verdict(h.admit, s, c, i, authority);
    if verdict.Success? {
      GrantedIff(h.admit, s, c, i, authority, verdict.value);
      TypedIntent(h.admit, s, c, i, authority, verdict.value.route);
      assert i.key !in t && |t| < limit ==> i.key in AfterInstall(h, limit, t, i, verdict.value);
    }
    if route :| Admissible(h.admit, s, c, i, authority, route) {
      GrantedIff(h.admit, s, c, i, authority, Grant(c, s.revisions, route));
      TypedIntent(h.admit, s, c, i, authority, route);
    }
  }

  lemma EarlyExact(h: AdmitHooks, s: Snapshot, c: Context, i: Intent)
    ensures EarlyErrors(h, s, c, i) == {} <==>
            h.typed(i) in {None, Some(EchoSuppressed), Some(CausalBudgetExceeded)} && ValidateErrors(s) == {} && ValidContext(c)
  {
    hide ValidateErrors, ValidContext;
  }

  lemma TypedIntent(h: AdmitHooks, s: Snapshot, c: Context, i: Intent, authority: Option<Authority>, route: Route)
    requires Admissible(h, s, c, i, authority, route)
    ensures h.typed(i).None? && IntentError(h, i).None? && !i.causal.reflected
  {
    hide Unevaluable, Backed, TheOnlyRoute;
  }

  /** A reflected intent is never granted, whatever the table, the hooks, the snapshot and the authority. */
  lemma ReflectedNeverAdmitted(h: ExecutionHooks, limit: nat, t: Table, s: Snapshot, c: Context, i: Intent, authority: Option<Authority>)
    requires i.causal.reflected
    ensures AfterAdmit(h, limit, t, s, c, i, authority) == t && Verdict(h.admit, s, c, i, authority).Failure?
  {
    hide Verdict, Admissible, ValidateErrors, ValidContext, AfterAdmit;
    AdmitEffect(h, limit, t, s, c, i, authority);
    if route :| Admissible(h.admit, s, c, i, authority, route) {
      TypedIntent(h.admit, s, c, i, authority, route);
    }
    var verdict := Verdict(h.admit, s, c, i, authority);
    if verdict.Success? {
      GrantedIff(h.admit, s, c, i, authority, verdict.value);
    }
  }
}
