/**
  Holds that no V2 step owns, on the accounts the V2 ledger shares with V1 billing and plain requests. The
  transactions of the V2 ledger leave them alone; the other billings take, close and suspend them.
 */
module Foreign {
  import opened Wrappers
  import opened Model
  import opened RequestStates
  import opened Ledger
  import opened EventGroup
  import opened Billing
  import opened Settling
  import opened Grants
  import opened Invariant
  import opened Frame
  import opened Preservation
  import opened ReceiptPreservation
  import opened RefreshPreservation
  import opened AdmissionPreservation
  import opened Runs
  import opened Tables
  import opened Finality
  import opened Money
  import opened Solvency
  import opened Text

  // What the V2 ledger leaves alone

  ghost predicate ForeignSame(db: Db, db': Db, id: nat)
    requires id < |db.reservations|
  {
    && id < |db'.reservations|
    && !OwnedByStep(db', id)
    && db'.reservations[id] == db.reservations[id]
    && EventsOf(db'.ledger, HoldGroup(id)) == EventsOf(db.ledger, HoldGroup(id))
  }

  /** What steps do not own stays as it is, and every new hold is a step's. */
  ghost predicate ForeignKept(db: Db, db': Db) {
    && |db.reservations| <= |db'.reservations|
    && (forall id: nat | id < |db.reservations| && !OwnedByStep(db, id) :: ForeignSame(db, db', id))
    && (forall id: nat | |db.reservations| <= id < |db'.reservations| :: OwnedByStep(db', id))
  }

  /** Every step keeps its reservation, and there is no other step. */
  ghost predicate OwnersKept(db: Db, db': Db) {
    && db'.steps.Keys == db.steps.Keys
    && forall r | r in db.steps :: db'.steps[r].reservation == db.steps[r].reservation
  }

  lemma QuietForeign(db: Db, db': Db)
    requires OwnersKept(db, db') && db'.reservations == db.reservations && db'.ledger == db.ledger
    ensures ForeignKept(db, db')
  {
    hide EventsOf;
  }

  lemma TouchedForeign(db: Db, db': Db, r: Id)
    requires TablesSound(db) && OnlyTouched(db, db', r)
    ensures ForeignKept(db, db')
  {
    hide EventsOf, LedgerSound, BudgetIdsUnique, ReferencesSound, AccountsShaped, AccountsGrow, IdentitiesKept,
         OperationsKept, RowsElsewhereKept, AccountsOf;
    var touched := db.steps[r].reservation;
    assert StepLinked(db, r);
    forall id: nat | id < |db.reservations| && !OwnedByStep(db, id)
      ensures ForeignSame(db, db', id)
    {
      assert id != touched;
      assert HoldGroup(id) != db.reservations[touched].group;
    }
  }

  lemma NewStepForeign(db: Db, now: Millis, operation: Id, kind: StepKind, auth: Authorization, hold: Reservation)
    requires TablesSound(db) && Admissible(db, operation, kind, auth, hold)
    ensures ForeignKept(db, NewStepRows(db, now, operation, kind, auth, hold))
  {
    hide EventsOf, HoldEntries, LedgerSound, BudgetIdsUnique, ReferencesSound, AccountsShaped, BudgetIdUsed, NewStep,
         FirstRevision, AdmissionFits;
    var db' := NewStepRows(db, now, operation, kind, auth, hold);
    AdmissibleHold(db, operation, kind, auth, hold);
    UnreservedIsNew(db, auth.request);
    NewStepHeld(operation, kind, auth, |db.reservations|);
    AppendHoldEntries(db.ledger, db.accounts, hold, ReserveEvent, hold.amount, -hold.amount, Some(1));
    forall id: nat | id < |db.reservations| && !OwnedByStep(db, id)
      ensures ForeignSame(db, db', id)
    {
      assert EventsOf(db.ledger, HoldGroup(id)) + [] == EventsOf(db.ledger, HoldGroup(id));
    }
  }

  lemma NewStepHeld(operation: Id, kind: StepKind, auth: Authorization, id: nat)
    ensures NewStep(operation, kind, auth, id).reservation == id
  {
  }

  /** A transaction may open the operation first: those rows are not the holds'. */
  lemma OpenedForeign(db: Db, opened': Db, db': Db)
    requires opened'.reservations == db.reservations && opened'.ledger == db.ledger && opened'.steps == db.steps
    requires ForeignKept(opened', db')
    ensures ForeignKept(db, db')
  {
    hide EventsOf;
    forall id: nat | id < |db.reservations| && !OwnedByStep(db, id)
      ensures ForeignSame(db, db', id)
    {
      assert !OwnedByStep(opened', id);
      assert ForeignSame(opened', db', id);
    }
  }

  lemma BeginForeign(db: Db, now: Millis, parent: Id, kind: StepKind, auth: Authorization)
    requires Inv(db)
    ensures ForeignKept(db, Begin(db, now, parent, kind, auth).db)
  {
    hide BeginVerdict, HoldFor, Inv, Opened, NewStepRows, ForeignKept, CheckPreparation, CheckIdentity, AdmissionCount,
         KeyBlockedIn, BudgetIdUsed, Blank, MinAvailable, Admissible;
    NothingForeign(db);
    if BeginVerdict(db, now, parent, kind, auth).Proceed? {
      var opened' := Opened(db, parent, auth.key);
      OpenedShape(db, parent, auth.key);
      OpenedKeepsInv(db, parent, auth.key);
      BeginAdmissible(db, now, parent, kind, auth);
      InvTables(opened');
      NewStepForeign(opened', now, parent, kind, auth, BeginHold(db, parent, auth).value);
      OpenedForeign(db, opened', NewStepRows(opened', now, parent, kind, auth, BeginHold(db, parent, auth).value));
    }
  }

  lemma InvTables(db: Db)
    requires Inv(db)
    ensures TablesSound(db)
  {
    hide TablesSound, StepsSound;
  }

  lemma NothingForeign(db: Db)
    ensures ForeignKept(db, db)
  {
    QuietForeign(db, db);
  }

  lemma AddForeign(db: Db, now: Millis, parent: Id, kind: StepKind, auth: Authorization)
    requires Inv(db)
    ensures ForeignKept(db, Add(db, now, parent, kind, auth).db)
  {
    hide AddVerdict, HoldFor, Inv, NewStepRows, ForeignKept, AddFits, KeyBlockedIn, BudgetIdUsed, Blank, MinAvailable,
         Admissible;
    NothingForeign(db);
    if AddVerdict(db, now, parent, kind, auth).Proceed? {
      AddRequests(db, now, parent, kind, auth);
      AddAdmissible(db, now, parent, kind, auth);
      InvTables(db);
      NewStepForeign(db, now, parent, kind, auth, BeginHold(db, parent, auth).value);
    }
  }

  lemma RefreshForeign(db: Db, now: Millis, request: Id, expectedOld: Id, replacement: Authorization, proof: Proof)
    requires Inv(db)
    ensures ForeignKept(db, Refresh(db, now, request, expectedOld, replacement, proof).db)
  {
    hide Inv, RefreshVerdict, RefreshRows, BudgetIdUsed, MinAvailable, KeyBlockedIn, Blank, ForeignKept, OnlyTouched,
         StepLinked;
    NothingForeign(db);
    if RefreshVerdict(db, now, request, expectedOld, replacement, proof).Proceed? {
      InvTables(db);
      HoldOf(db, request);
      RefreshRowsTouch(db, now, request, expectedOld, replacement, proof, db.steps[request].reservation);
      TouchedForeign(db, RefreshRows(db, now, request, expectedOld, replacement, proof), request);
    }
  }

  lemma SyncForeign(db: Db, synced: Db, db': Db)
    requires synced == db.(requests := synced.requests) && ForeignKept(synced, db')
    ensures ForeignKept(db, db')
  {
    hide ForeignKept;
    OpenedForeign(db, synced, db');
  }

  lemma ReleaseForeign(db: Db, request: Id, reason: string)
    requires Inv(db)
    ensures ForeignKept(db, Release(db, request, reason).db)
  {
    hide Inv, ReleaseVerdict, ReleaseRows, SyncRows, ForeignKept, OnlyTouched, StepLinked, Trim;
    NothingForeign(db);
    if ReleaseVerdict(db, request, reason).Proceed? {
      var synced := db;
      if SyncsOnRelease(db.steps[request]) {
        SyncKeepsInv(db, request, ExecCanceled);
        synced := SyncRows(db, request, ExecCanceled);
      }
      InvTables(synced);
      SoundStep(synced, request);
      ReleaseRowsTouch(synced, request, Trim(reason));
      TouchedForeign(synced, ReleaseRows(synced, request, Trim(reason)), request);
      SyncForeign(db, synced, ReleaseRows(synced, request, Trim(reason)));
    }
  }

  // Transactions that move no hold

  lemma DispatchHolds(db: Db, now: Millis, request: Id, expected: Id)
    ensures var db' := Dispatch(db, now, request, expected).db;
            db'.reservations == db.reservations && db'.ledger == db.ledger
  {
    hide DispatchVerdict, KeyBlockedIn, Terminal;
  }

  lemma BindHolds(db: Db, request: Id, task: Id)
    ensures var db' := Bind(db, request, task).db; db'.reservations == db.reservations && db'.ledger == db.ledger
  {
    hide BindVerdict;
  }

  lemma MarkHolds(db: Db, request: Id, next: ExecState)
    ensures var db' := MarkExecution(db, request, next).db;
            db'.reservations == db.reservations && db'.ledger == db.ledger
  {
    hide MarkVerdict, SyncRows, Terminal;
  }

  lemma FinishHolds(db: Db, parent: Id, terminal: ExecState)
    ensures var db' := Finish(db, parent, terminal).db;
            db'.reservations == db.reservations && db'.ledger == db.ledger
  {
    hide FinishVerdict, FinishParent, Terminal, AllStepsTerminal;
  }

  lemma ConflictHolds(db: Db, now: Millis, input: ConflictInput)
    ensures var db' := MarkConflict(db, now, input).db;
            db'.reservations == db.reservations && db'.ledger == db.ledger
  {
    hide ConflictVerdict, ConflictRows, Blank, BlankHash, EvidenceOf;
    if ConflictVerdict(db, input).Proceed? {
      ConflictRowsShape(db, input.request, input.hash, ReportedRow(input, now));
    }
  }

  lemma OwnersStay(db: Db, db': Db)
    requires Advances(db, db') && db'.steps.Keys == db.steps.Keys
    ensures OwnersKept(db, db')
  {
    hide StepHoldsAdvance, OperationsAdvance, RevisionsOf, EvidenceOf, SettlementOf, Terminal;
    forall r | r in db.steps
      ensures db'.steps[r].reservation == db.steps[r].reservation
    {
      assert StepRowsAdvance(db, db', r);
    }
  }

  lemma StillForeign(db: Db, action: Action, db': Db)
    requires Inv(db) && Next(db, action, db')
    requires db'.reservations == db.reservations && db'.ledger == db.ledger
    requires !action.BeginOperation? && !action.AddStep? && !IsAdministrative(action)
    ensures ForeignKept(db, db')
  {
    hide Inv, Next, Advances, OwnersKept, ForeignKept, OuterTablesKept, TablesKept, OnlyRunning, SameScopes;
    NextAdvances(db, action, db');
    NextKeepsTables(db, action, db');
    OwnersStay(db, db');
    QuietForeign(db, db');
  }

  lemma ReceiptForeign(db: Db, now: Millis, input: ReceiptInput)
    requires Inv(db)
    ensures ForeignKept(db, ApplyReceipt(db, now, input).db)
  {
    hide Inv, ReceiptCourse, ReceiptFits, TaskConflict, SameSettlement, Unsettled, InsertEvidence, HashOf, NoteRow,
         ContradictionRow, ConflictRows, SettleRows, SettledReplyFor, AccountsOf, AccountsKnown, EvidenceOf, IsFinal,
         SuspendRows, ForeignKept, OnlyTouched, StepLinked;
    var r, course := input.receipt.request, ReceiptCourse(db, input);
    var db' := ApplyReceipt(db, now, input).db;
    if course.Charge? {
      CourseStep(db, input);
      InvTables(db);
      SoundStep(db, r);
      SettleRowsTouch(db, now, input);
      TouchedForeign(db, db', r);
    } else if course.Suspend? {
      CourseStep(db, input);
      InvTables(db);
      SoundStep(db, r);
      SuspendTouches(db, r, HashOf(input), NoteRow(input, now));
      TouchedForeign(db, db', r);
    } else {
      ReceiptHolds(db, now, input);
      StillForeign(db, DeliverReceipt(now, input), db');
    }
  }

  lemma SuspendTouches(db: Db, r: Id, hash: EvidenceHash, row: Evidence)
    requires StepLinked(db, r)
    ensures OnlyTouched(db, SuspendRows(db, r, hash, row), r)
  {
    hide InsertEvidence, OnlyTouched, EventsOf;
    InsertTouches(db, r, hash, row);
    RowsTouch(db, SuspendRows(db, r, hash, row), r);
  }

  lemma ReceiptHolds(db: Db, now: Millis, input: ReceiptInput)
    requires !ReceiptCourse(db, input).Charge? && !ReceiptCourse(db, input).Suspend?
    ensures var db' := ApplyReceipt(db, now, input).db;
            db'.reservations == db.reservations && db'.ledger == db.ledger
  {
    hide ReceiptCourse, ReceiptFits, TaskConflict, SameSettlement, Unsettled, InsertEvidence, HashOf, NoteRow,
         ContradictionRow, ConflictRows, SettleRows, SettledReplyFor, AccountsOf, AccountsKnown, EvidenceOf, IsFinal,
         SuspendRows;
    var r, course := input.receipt.request, ReceiptCourse(db, input);
    if course.Note? {
      InsertShape(db, r, HashOf(input), NoteRow(input, now));
    } else if course.Contradict? {
      CourseStep(db, input);
      ConflictRowsShape(db, r, HashOf(input), ContradictionRow(input, course.reason, now));
    }
  }

  lemma GrantForeign(db: Db, action: Action, db': Db)
    requires Next(db, action, db') && IsAdministrative(action)
    ensures ForeignKept(db, db')
  {
    hide Begin, Add, Refresh, Dispatch, Release, Bind, MarkExecution, Finish, ApplyReceipt, MarkConflict, GrantKey,
         GrantPool, AllocateFromPool, DeleteKey, ForeignKept, Committed, CommitmentOverflows, SnapshotFresh;
    NothingForeign(db);
    match action
    case CreditKey(key, amount) => GrantKeyForeign(db, key, amount);
    case CreditPool(user, amount) => GrantPoolForeign(db, user, amount);
    case AllocateCredit(_, key, amount, _) => GrantKeyForeign(db, key, amount);
    case AllocatePool(key, amount) => AllocatePoolForeign(db, key, amount);
    case DeleteApiKey(key, facts) => DeleteKeyForeign(db, key, facts);
  }

  lemma CreditRowsForeign(db: Db, before: Db, account: Option<nat>, initial: Account, amount: int)
    requires account.Some? ==> account.value < |db.accounts|
    requires before.reservations == db.reservations && before.ledger == db.ledger && before.steps == db.steps
    ensures ForeignKept(before, CreditRows(db, account, initial, amount))
  {
    hide EventsOf, AdvanceAccount;
    var db' := CreditRows(db, account, initial, amount);
    AppendEntry(db.ledger, db'.ledger[|db.ledger|]);
    forall id: nat | id < |before.reservations| && !OwnedByStep(before, id)
      ensures ForeignSame(before, db', id)
    {
      assert EventsOf(db.ledger, HoldGroup(id)) + [] == EventsOf(db.ledger, HoldGroup(id));
    }
  }

  lemma GrantKeyForeign(db: Db, key: Id, amount: int)
    ensures ForeignKept(db, GrantKey(db, key, amount).db)
  {
    hide GrantKeyError, CreditRows, ForeignKept;
    NothingForeign(db);
    if GrantKeyError(db, key, amount).None? {
      CreditRowsForeign(db, db, FindAccountOfKey(db.accounts, key),
                        Account(KeyScope, db.keys[key].user, Some(key), 1, true, Ready), amount);
    }
  }

  lemma GrantPoolForeign(db: Db, user: Id, amount: int)
    ensures ForeignKept(db, GrantPool(db, user, amount).db)
  {
    hide GrantPoolError, CreditRows, PromotedCap, ForeignKept;
    NothingForeign(db);
    if GrantPoolError(db, user, amount).None? {
      PromotedLength(db.accounts, user);
      CreditRowsForeign(db.(accounts := PromotedCap(db.accounts, user)), db, FindUserCap(db.accounts, user),
                        Account(UserCapScope, user, None, 1, true, Ready), amount);
    }
  }

  lemma AllocatePoolForeign(db: Db, key: Id, amount: int)
    ensures ForeignKept(db, AllocateFromPool(db, key, amount).db)
  {
    hide PoolError, GrantKeyError, CreditRows, PromotedCap, ForeignKept;
    NothingForeign(db);
    if AllocateFromPool(db, key, amount).db != db {
      var promoted := db.(accounts := PromotedCap(db.accounts, db.keys[key].user));
      PromotedLength(db.accounts, db.keys[key].user);
      CreditRowsForeign(promoted, db, FindAccountOfKey(promoted.accounts, key),
                        Account(KeyScope, db.keys[key].user, Some(key), 1, true, Ready), amount);
    }
  }

  /** One administrative entry more, or none, is nothing to a hold. */
  lemma AdminEntryForeign(db: Db, db': Db)
    requires db'.reservations == db.reservations && db'.steps == db.steps
    requires db'.ledger == db.ledger
             || exists e: Entry :: e.group.AdminGroup? && db'.ledger == db.ledger + [e]
    ensures ForeignKept(db, db')
  {
    hide EventsOf;
    if db'.ledger != db.ledger {
      var e: Entry :| e.group.AdminGroup? && db'.ledger == db.ledger + [e];
      AppendEntry(db.ledger, e);
    }
    forall id: nat | id < |db.reservations| && !OwnedByStep(db, id)
      ensures ForeignSame(db, db', id)
    {
      assert EventsOf(db.ledger, HoldGroup(id)) + [] == EventsOf(db.ledger, HoldGroup(id));
    }
  }

  lemma DeleteKeyForeign(db: Db, key: Id, facts: DeletionFacts)
    ensures ForeignKept(db, DeleteKey(db, key, facts).db)
  {
    hide DeleteKey, ForeignKept, SameScopes;
    DeleteKeyShape(db, key, facts);
    var move := DeleteKeyMoves(db, key, facts);
    AdminEntryForeign(db, DeleteKey(db, key, facts).db);
  }

  /** No transaction of the V2 ledger touches a hold that is not a step's. */
  lemma NextForeign(db: Db, action: Action, db': Db)
    requires Inv(db) && Next(db, action, db') && !action.OtherWork?
    ensures ForeignKept(db, db')
  {
    hide Inv, Begin, Add, Refresh, Dispatch, Release, Bind, MarkExecution, Finish, ApplyReceipt, MarkConflict, GrantKey,
         GrantPool, Allocate, AllocateFromPool, DeleteKey, ForeignKept;
    match action
    case BeginOperation(now, parent, kind, auth) => BeginForeign(db, now, parent, kind, auth);
    case AddStep(now, parent, kind, auth) => AddForeign(db, now, parent, kind, auth);
    case RefreshAuthorization(now, request, expectedOld, replacement, proof) =>
      RefreshForeign(db, now, request, expectedOld, replacement, proof);
    case DispatchStep(now, request, expected) =>
      DispatchHolds(db, now, request, expected);
      StillForeign(db, action, db');
    case ReleaseStep(request, reason) => ReleaseForeign(db, request, reason);
    case BindTask(request, task) =>
      BindHolds(db, request, task);
      StillForeign(db, action, db');
    case MarkStep(request, next) =>
      MarkHolds(db, request, next);
      StillForeign(db, action, db');
    case FinishOperation(parent, terminal) =>
      FinishHolds(db, parent, terminal);
      StillForeign(db, action, db');
    case DeliverReceipt(now, input) => ReceiptForeign(db, now, input);
    case ReportConflict(now, conflict) =>
      ConflictHolds(db, now, conflict);
      StillForeign(db, action, db');
    case _ => GrantForeign(db, action, db');
  }
}
