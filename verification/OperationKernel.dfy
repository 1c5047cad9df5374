/** The operation kernel as an object: admissions under their idempotency keys, and the records appended to them. */
module OperationKernels {
  import opened Errors
  import opened Graphs
  import opened Freshness
  import opened Records
  import opened Snapshots
  import opened Validity
  import opened PublicationKernels
  import opened Evaluation
  import opened Routing
  import opened Admission
  import opened Execution
  import opened OperationTable

  // ---------------------------------------------------------------- checking a readback

  /** Whether the view of the snapshot at the readback's time shows the candidate fresh, available and trusted. */
  method CheckConvincing(s: Snapshot, b: Readback) returns (aged: bool, convincing: bool)
    requires ValidateErrors(s) == {}
    ensures aged == Aged(s, b.evaluation)
    ensures b.candidate in s.facts ==> convincing == Convincing(s, b)
  {
    hide ValidateErrors, Complete, RetainedView, ContextRefused, FactUnaged, RetainedUnaged, ValidContext, IsOldest, Right, InConflict;
    var view := EvaluateSnapshot(s, b.evaluation);
    aged, convincing := view.Failure?, false;
    if !aged && b.candidate in s.facts {
      var entry := FindEntry(s, b.evaluation, view.value.facts, b.candidate);
      UsableEntry(s, b.evaluation, b.candidate, entry);
      var v := s.facts[b.candidate].body;
      convincing := v.quality.qualification == Qualified && v.quality.promoted && v.quality.validity == Good
                    && entry.freshness == Fresh && entry.availability == Available && !InConflict(s, v, b.candidate);
    }
  }

  method CheckReadback(h: ExecutionHooks, r: Execution, s: Snapshot, bound: bool) returns (error: Option<Err>)
    requires ValidateErrors(s) == {}
    ensures error == Least(ReadbackErrors(h, r, s, bound))
  {
    hide ValidateErrors, HeaderErrors, RouteCurrentErrors, Aged, Convincing, ObservedOnErrors, ReceiptErrors, HookAgrees;
    if r.readback.None? || r.route.None? || r.admittedRevision.None? || r.dispatch.None? {
      error := LeastOf(Opt(h.admit.snapshot(s)) + {InvalidOutcome});
      return;
    }
    var b := r.readback.value;
    var aged, convincing := CheckConvincing(s, b);
    var candidate := {DanglingReference};
    if Resolved(s, b) {
      var v := s.facts[b.candidate];
      candidate := ObservedOnErrors(v, b, r.intent.effect) + When(!convincing, InvalidOutcome) + ReceiptErrors(r, r.dispatch.value, v.body.times);
    }
    var plain := Opt(h.admit.snapshot(s)) + (HeaderErrors(h, r, b, r.route.value, r.admittedRevision.value, s)
                 + RouteCurrentErrors(s, r.route.value, r.intent.asset) + When(aged, InvalidOutcome) + candidate);
    assert plain == PlainReadbackErrors(h, r, s);
    if !h.owned(r.intent) {
      error := LeastOf(plain + {DefinitionOwnerMissing});
    } else if bound && plain == {} {
      error := LeastOf(When(!HookAgrees(h, r, s), InvalidOutcome));
    } else {
      error := LeastOf(plain);
    }
  }

  method CheckLater(h: ExecutionHooks, cell: Cell, owned: bool, r: Execution, later: Option<Snapshot>)
    returns (snapshotError: Option<Err>, error: Option<Err>)
    ensures snapshotError == Least(SnapshotErrors(r, later)) && error == Least(LaterErrors(h, cell, owned, r, later))
  {
    hide ValidateErrors, ReadbackErrors, SameAdmission, ExecutionErrors;
    if r.readback.None? {
      return None, None;
    }
    if later.None? {
      LeastSingleton(DanglingReference);
      return None, Some(DanglingReference);
    }
    snapshotError := Validate(later.value);
    if snapshotError.Some? {
      return snapshotError, None;
    }
    error := CheckReadback(h, r, later.value, owned && SameAdmission(h, cell, r) && ExecutionErrors(h, r) == {});
  }

  // ---------------------------------------------------------------- the objects

  /** One admission handed to its caller; only its record is ever written. */
  class Handle {
    const bytes: Bytes
    const intent: Intent
    const grant: Option<Grant>
    var record: Option<Execution>

    constructor (c: Cell)
      ensures bytes == c.bytes && intent == c.intent && grant == c.grant && record == c.record
    {
      bytes, intent, grant, record := c.bytes, c.intent, c.grant, c.record;
    }

    function Contents(): Cell
      reads this
    {
      Cell(bytes, intent, grant, record)
    }
  }

  class OperationKernel {
    const hooks: ExecutionHooks
    const limit: nat
    var admissions: map<Id, Handle>

    ghost function View(): Table
      reads this, admissions.Values
    {
      map key | key in admissions :: admissions[key].Contents()
    }

    ghost predicate Distinct()
      reads this
    {
      forall j, k :: j in admissions && k in admissions && admissions[j] == admissions[k] ==> j == k
    }

    ghost predicate Valid()
      reads this, admissions.Values
    {
      0 < limit <= MAX_RETAINED_OPERATIONS && Distinct() && TableInv(hooks, limit, View())
    }

    constructor (h: ExecutionHooks, max: nat)
      requires 0 < max <= MAX_RETAINED_OPERATIONS
      ensures Valid() && View() == map[] && hooks == h && limit == max
    {
      hide CellOk;
      hooks, limit, admissions := h, max, map[];
    }

    method Find(key: Id, bytes: Bytes) returns (r: Result<Option<Handle>>)
      requires Valid()
      ensures var reply := Lookup(View(), key, bytes);
              if r.Failure? then reply == Failure(r.error)
              else if r.value.None? then reply == Success(None)
              else key in admissions && r.value.value == admissions[key] && reply == Success(Some(r.value.value.Contents()))
    {
      hide TableInv;
      if key !in admissions {
        return Success(None);
      }
      if admissions[key].bytes != bytes {
        return Failure(SequenceConflict);
      }
      r := Success(Some(admissions[key]));
    }

    /** Put a new object under an unused key. */
    method Add(key: Id, cell: Cell) returns (handle: Handle)
      requires Valid() && key !in admissions && |admissions| < limit && CellOk(hooks, key, cell)
      modifies this`admissions
      ensures Valid() && fresh(handle) && key in admissions && admissions[key] == handle && handle.Contents() == cell
      ensures View() == old(View())[key := cell]
    {
      hide CellOk, TableInv;
      Size();
      AddedKeeps(hooks, limit, View(), key, cell);
      handle := new Handle(cell);
      admissions := admissions[key := handle];
      assert View() == old(View())[key := cell];
    }

    lemma Size()
      ensures |View()| == |admissions|
    {
      assert View().Keys == admissions.Keys;
      assert |View()| == |View().Keys| && |admissions| == |admissions.Keys|;
    }

    /** The last critical section of an admission: look again, then install within the bound. */
    method Enter(i: Intent, g: Grant) returns (r: Result<Handle>)
      requires Valid()
      modifies this`admissions
      ensures Valid() && View() == AfterInstall(hooks, limit, old(View()), i, g)
      ensures var reply := Install(hooks, limit, old(View()), i, g);
              if r.Failure? then reply == Failure(r.error)
              else i.key in admissions && r.value == admissions[i.key] && reply == Success(r.value.Contents())
    {
      hide TableInv, CellOk;
      Size();
      var bytes := hooks.canonical(i);
      if i.key in admissions {
        if admissions[i.key].bytes == bytes {
          return Success(admissions[i.key]);
        }
        return Failure(SequenceConflict);
      }
      if |admissions| >= limit {
        return Failure(BoundsExceeded);
      }
      AdmittedOk(hooks, i, g);
      var handle := Add(i.key, Admitted(hooks, i, g));
      r := Success(handle);
    }

    /**
     * Admission as one caller sees it alone: refuse what is malformed, answer
     * from the table, judge against the snapshot, install.
     */
    method Admit(s: Snapshot, c: Context, i: Intent, authority: Option<Authority>) returns (r: Result<Handle>)
      requires Valid()
      modifies this`admissions
      ensures Valid()
      ensures View() == AfterAdmit(hooks, limit, old(View()), s, c, i, authority)
      ensures var reply := OperationTable.Admit(hooks, limit, old(View()), s, c, i, authority);
              if r.Failure? then reply == Failure(r.error)
              else i.key in admissions && r.value == admissions[i.key] && reply == Success(r.value.Contents())
    {
      hide Valid, View, EarlyErrors, Verdict, IntentError, AfterInstall, Install, ValidateErrors, ValidContext;
      var early := CheckEarly(hooks.admit, s, c, i);
      if early.Some? {
        return Failure(early.value);
      }
      if IntentError(hooks.admit, i).None? {
        var prior := Find(i.key, hooks.canonical(i));
        if prior.Failure? {
          return Failure(prior.error);
        }
        if prior.value.Some? {
          return Success(prior.value.value);
        }
      }
      EarlyPassed(hooks.admit, s, c, i);
      var verdict := Judge(hooks.admit, s, c, i, authority);
      if verdict.Failure? {
        return Failure(verdict.error);
      }
      r := Enter(i, verdict.value);
    }

    method RecordRejection(i: Intent, error: Err, evidence: set<Id>) returns (r: Result<Execution>)
      requires Valid()
      modifies this`admissions
      ensures Valid() && View() == AfterReject(hooks, limit, old(View()), i, error, evidence)
      ensures r == Reject(hooks, limit, old(View()), i, error, evidence)
    {
      hide TableInv, CellOk;
      Size();
      var record := Rejection(i, error, evidence);
      if hooks.syntax(record).Some? {
        return Failure(hooks.syntax(record).value);
      }
      if i.key in admissions {
        var prior := admissions[i.key];
        if prior.bytes != hooks.canonical(i) {
          return Failure(SequenceConflict);
        }
        if prior.record.Some? && hooks.canonicalRecord(prior.record.value) == hooks.canonicalRecord(record) {
          return Success(prior.record.value);
        }
        return Failure(SequenceConflict);
      }
      if |admissions| >= limit {
        return Failure(BoundsExceeded);
      }
      RejectedOk(hooks, i, error, evidence);
      var _ := Add(i.key, RejectedCell(hooks, i, error, evidence));
      r := Success(record);
    }

    /** Append one terminal record; a handle this kernel does not hold under the record's key changes nothing. */
    method Record(handle: Handle, record: Execution, later: Option<Snapshot>) returns (r: Result<Execution>)
      requires Valid()
      modifies handle`record
      ensures Valid() && admissions == old(admissions)
      ensures var owned := record.intent.key in admissions && admissions[record.intent.key] == handle;
              && r == Append(hooks, old(handle.Contents()), owned, record, later)
              && handle.Contents() == AppendedCell(hooks, old(handle.Contents()), owned, record, later)
              && View() == (if owned then old(View())[record.intent.key := handle.Contents()] else old(View()))
    {
      hide TableInv, CellOk, ExecutionErrors, SnapshotErrors, LaterErrors, OwnErrors;
      var key := record.intent.key;
      var owned := key in admissions && admissions[key] == handle;
      ghost var cell := handle.Contents();
      var error, repeats := CheckAppend(hooks, handle.Contents(), owned, record, later);
      if repeats {
        SequenceRefuses(hooks, cell, owned, record, later);
        return Success(handle.record.value);
      }
      if error.Some? {
        return Failure(error.value);
      }
      OwnedOnly(hooks, cell, owned, record, later);
      handle.record := Some(record);
      ghost var after := AppendedCell(hooks, cell, owned, record, later);
      assert View() == old(View())[key := after];
      InstalledCell(hooks, limit, old(View()), key, owned, record, later);
      r := Success(record);
    }
  }

  method NewKernel(h: ExecutionHooks, max: nat) returns (r: Result<OperationKernel>)
    ensures r.Failure? <==> !(1 <= max <= 65536)
    ensures r.Failure? ==> r.error == BoundsExceeded
    ensures r.Success? ==> fresh(r.value) && r.value.Valid() && r.value.limit == max && r.value.View() == map[]
  {
    hide TableInv;
    if max == 0 || max > MAX_RETAINED_OPERATIONS {
      return Failure(BoundsExceeded);
    }
    var kernel := new OperationKernel(h, max);
    r := Success(kernel);
  }

  lemma EarlyPassed(h: AdmitHooks, s: Snapshot, c: Context, i: Intent)
    requires EarlyErrors(h, s, c, i) == {}
    ensures ValidateErrors(s) == {} && ValidContext(c)
  {
    hide ValidateErrors, ValidContext, IntentError;
  }

  lemma SequenceRefuses(h: ExecutionHooks, cell: Cell, owned: bool, r: Execution, later: Option<Snapshot>)
    requires cell.record.Some?
    ensures AppendErrors(h, cell, owned, r, later) != {}
  {
    hide ExecutionErrors, SnapshotErrors, LaterErrors, SameAdmission, ClockErrors;
    assert SequenceConflict in OwnErrors(h, cell, owned, r);
    assert SequenceConflict in AppendErrors(h, cell, owned, r, later);
  }

  lemma OwnedOnly(h: ExecutionHooks, cell: Cell, owned: bool, r: Execution, later: Option<Snapshot>)
    requires AppendErrors(h, cell, owned, r, later) == {}
    ensures owned
  {
    hide ExecutionErrors, SnapshotErrors, LaterErrors, SameAdmission, ClockErrors;
    assert OwnErrors(h, cell, owned, r) == {};
    assert !owned ==> DanglingReference in OwnErrors(h, cell, owned, r);
  }

  lemma InstalledCell(h: ExecutionHooks, limit: nat, t: Table, key: Id, owned: bool, r: Execution, later: Option<Snapshot>)
    requires TableInv(h, limit, t) && key in t
    ensures TableInv(h, limit, t[key := AppendedCell(h, t[key], owned, r, later)])
  {
    hide AppendedCell, CellOk;
    AppendKeeps(h, key, t[key], owned, r, later);
    assert t[key := AppendedCell(h, t[key], owned, r, later)].Keys == t.Keys;
  }

  /** The diagnostics of an append, and whether it merely repeats what is stored. */
  method CheckAppend(h: ExecutionHooks, cell: Cell, owned: bool, r: Execution, later: Option<Snapshot>) returns (error: Option<Err>, repeats: bool)
    ensures repeats == Repeats(h, cell, owned, r, later)
    ensures error == Least(AppendErrors(h, cell, owned, r, later))
  {
    hide ExecutionErrors, SnapshotErrors, LaterErrors, OwnErrors;
    var snapshotError, laterError := CheckLater(h, cell, owned, r, later);
    repeats := cell.record.Some? && ExecutionErrors(h, r) == {} && snapshotError.None? && owned
               && h.canonicalRecord(cell.record.value) == h.canonicalRecord(r);
    error := LeastOf(OwnErrors(h, cell, owned, r));
    LeastOfUnion(OwnErrors(h, cell, owned, r), SnapshotErrors(r, later));
    LeastOfUnion(OwnErrors(h, cell, owned, r) + SnapshotErrors(r, later), LaterErrors(h, cell, owned, r, later));
    error := Best(Best(error, snapshotError), laterError);
  }
}
