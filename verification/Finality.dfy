/**
  What no transaction ever takes back. Advances relates every state of a run to every later one: the ledger
  and the evidence only grow, a settlement stands as it was written, a conflict stays a conflict, and from
  the moment a step is dispatched its authorization and its revisions are fixed.
 */
module Finality {
  import opened Wrappers
  import opened Model
  import opened Ledger
  import opened EventGroup
  import opened Billing
  import opened Settling
  import opened Grants
  import opened Invariant
  import opened Frame
  import opened Preservation
  import opened ReceiptPreservation
  import opened RefreshPreservation
  import opened AdmissionPreservation
  import opened GrantPreservation
  import opened Runs
  import opened Tables
  import opened RequestStates
  import opened Text

  ghost predicate StepAdvances(s: Step, s': Step) {
    && s'.operation == s.operation && s'.kind == s.kind && s'.reservation == s.reservation
    && s'.auth.key == s.auth.key
    && (s.dispatched ==> s'.dispatched && s'.auth == s.auth && s'.digest == s.digest)
    && (s.fin == FinConflict ==> s'.fin == FinConflict)
    && (s.fin == FinReleased ==> s'.fin == FinReleased)
    && (s.fin == FinSettled ==> s'.fin == FinSettled || s'.fin == FinConflict)
    && (s.actual.Some? ==> s'.actual == s.actual)
    && (s.task.Some? ==> s'.task == s.task)
    && (Terminal(s.exec) ==> s'.exec == s.exec)
  }

  ghost predicate RevisionsAdvance(s: Step, rows: seq<Revision>, rows': seq<Revision>) {
    rows <= rows' && (s.dispatched ==> rows' == rows)
  }

  ghost predicate EvidenceAdvances(rows: map<EvidenceHash, Evidence>, rows': map<EvidenceHash, Evidence>) {
    forall h | h in rows :: h in rows' && rows'[h] == rows[h]
  }

  ghost predicate SettlementAdvances(s: Step, row: Option<Settlement>, row': Option<Settlement>) {
    (row.Some? || s.fin == FinConflict || s.fin == FinReleased) ==> row' == row
  }

  ghost predicate StepRowsAdvance(db: Db, db': Db, r: Id) {
    && r in db.steps && r in db'.steps
    && StepAdvances(db.steps[r], db'.steps[r])
    && RevisionsAdvance(db.steps[r], RevisionsOf(db, r), RevisionsOf(db', r))
    && EvidenceAdvances(EvidenceOf(db, r), EvidenceOf(db', r))
    && SettlementAdvances(db.steps[r], SettlementOf(db, r), SettlementOf(db', r))
  }

  ghost predicate HoldAdvances(hold: Reservation, hold': Reservation) {
    && hold'.request == hold.request && hold'.group == hold.group
    && AccountsOf(hold') == AccountsOf(hold)
    && (Closed(hold.state) ==> hold' == hold)
    && (hold.state == HoldUnknown ==> hold' == hold.(state := hold'.state) && hold'.state != HoldHeld)
  }

  ghost predicate HoldsAdvance(holds: seq<Reservation>, holds': seq<Reservation>) {
    && |holds| <= |holds'|
    && forall i | 0 <= i < |holds| :: HoldAdvances(holds[i], holds'[i])
  }

  /** The holds of steps; V1 billing and plain requests have their own rules. */
  ghost predicate StepHoldsAdvance(db: Db, db': Db) {
    && |db.reservations| <= |db'.reservations|
    && forall id: nat | OwnedByStep(db, id) :: HoldAdvances(db.reservations[id], db'.reservations[id])
  }

  ghost predicate OperationsAdvance(operations: map<Id, Operation>, operations': map<Id, Operation>) {
    forall p | p in operations ::
      && p in operations'
      && operations'[p].key == operations[p].key
      && (Terminal(operations[p].state) ==> operations'[p] == operations[p])
  }

  ghost predicate StepsAdvance(db: Db, db': Db) {
    forall r | r in db.steps :: StepRowsAdvance(db, db', r)
  }

  ghost predicate Advances(db: Db, db': Db) {
    && db.ledger <= db'.ledger
    && db.blocks <= db'.blocks
    && StepHoldsAdvance(db, db')
    && OperationsAdvance(db.operations, db'.operations)
    && StepsAdvance(db, db')
  }

  lemma StepRowsCompose(a: Db, b: Db, c: Db, r: Id)
    requires StepRowsAdvance(a, b, r) && StepRowsAdvance(b, c, r)
    ensures StepRowsAdvance(a, c, r)
  {
    hide RevisionsOf, EvidenceOf, SettlementOf, Terminal;
  }

  lemma StillOwned(a: Db, b: Db, id: nat)
    requires OwnedByStep(a, id) && StepHoldsAdvance(a, b) && StepsAdvance(a, b)
    ensures OwnedByStep(b, id)
  {
    hide AccountsOf, RevisionsOf, EvidenceOf, SettlementOf, Terminal;
    assert HoldAdvances(a.reservations[id], b.reservations[id]);
    assert StepRowsAdvance(a, b, a.reservations[id].request);
  }

  lemma HoldsCompose(a: Db, b: Db, c: Db)
    requires StepHoldsAdvance(a, b) && StepHoldsAdvance(b, c) && StepsAdvance(a, b)
    ensures StepHoldsAdvance(a, c)
  {
    hide AccountsOf, StepsAdvance;
    forall id: nat | OwnedByStep(a, id)
      ensures HoldAdvances(a.reservations[id], c.reservations[id])
    {
      StillOwned(a, b, id);
      assert HoldAdvances(a.reservations[id], b.reservations[id]) && HoldAdvances(b.reservations[id], c.reservations[id]);
    }
  }

  lemma AllHoldsAdvance(db: Db, db': Db)
    requires HoldsAdvance(db.reservations, db'.reservations)
    ensures StepHoldsAdvance(db, db')
  {
    hide HoldAdvances;
  }

  lemma AdvancesCompose(a: Db, b: Db, c: Db)
    requires Advances(a, b) && Advances(b, c)
    ensures Advances(a, c)
  {
    hide StepRowsAdvance, StepHoldsAdvance, Terminal;
    HoldsCompose(a, b, c);
    forall r | r in a.steps
      ensures StepRowsAdvance(a, c, r)
    {
      assert StepRowsAdvance(a, b, r);
      StepRowsInto(a, b, r);
      StepRowsCompose(a, b, c, r);
    }
  }

  lemma StepRowsInto(a: Db, b: Db, r: Id)
    requires StepRowsAdvance(a, b, r)
    ensures r in b.steps
  {
  }

  // Shapes of transactions

  lemma NothingAdvances(db: Db)
    ensures Advances(db, db)
  {
    hide Terminal, RevisionsOf, EvidenceOf, SettlementOf, OwnedByStep, AccountsOf;
  }

  /** Request, preparation, account and operation states may move, Keys may be blocked, entries may be added. */
  lemma StatesAdvance(db: Db, db': Db)
    requires db.ledger <= db'.ledger && db.blocks <= db'.blocks
    requires db'.reservations == db.reservations && db'.steps == db.steps && db'.revisions == db.revisions
    requires db'.evidence == db.evidence && db'.settlements == db.settlements
    requires OperationsAdvance(db.operations, db'.operations)
    ensures Advances(db, db')
  {
    hide Terminal, AccountsOf, OwnedByStep;
  }

  /** One step's rows move. */
  lemma StepMoveAdvances(db: Db, db': Db, r: Id)
    requires r in db.steps && r in db'.steps && db'.steps == db.steps[r := db'.steps[r]]
    requires KeptBut(db.revisions, db'.revisions, r) && KeptBut(db.evidence, db'.evidence, r)
    requires KeptBut(db.settlements, db'.settlements, r)
    requires StepRowsAdvance(db, db', r)
    requires db.ledger <= db'.ledger && db.blocks <= db'.blocks
    requires HoldsAdvance(db.reservations, db'.reservations)
    requires OperationsAdvance(db.operations, db'.operations)
    ensures Advances(db, db')
  {
    hide Terminal, HoldsAdvance, StepHoldsAdvance;
    AllHoldsAdvance(db, db');
    forall q | q in db.steps
      ensures StepRowsAdvance(db, db', q)
    {
      if q != r {
        assert StepAdvances(db.steps[q], db'.steps[q]) by { SameStepAdvances(db.steps[q]); }
      }
    }
  }

  lemma SameStepAdvances(s: Step)
    ensures StepAdvances(s, s)
  {
  }

  lemma SameHoldsAdvance(holds: seq<Reservation>)
    ensures HoldsAdvance(holds, holds)
  {
    hide AccountsOf;
  }

  lemma OneHoldAdvances(holds: seq<Reservation>, id: nat, hold': Reservation)
    requires id < |holds| && HoldAdvances(holds[id], hold')
    ensures HoldsAdvance(holds, holds[id := hold'])
  {
    hide AccountsOf;
  }

  // Each transaction

  lemma SyncAdvances(db: Db, r: Id, terminal: ExecState)
    requires Terminal(terminal) && SyncedState(db, r, terminal).Ok?
    ensures Advances(db, SyncRows(db, r, terminal))
  {
    hide Advances, SyncRows, Terminal, OperationsAdvance;
    SameOperationsAdvance(db.operations);
    StatesAdvance(db, SyncRows(db, r, terminal));
  }

  lemma SameOperationsAdvance(operations: map<Id, Operation>)
    ensures OperationsAdvance(operations, operations)
  {
  }

  lemma DispatchAdvances(db: Db, now: Millis, request: Id, expected: Id)
    ensures Advances(db, Dispatch(db, now, request, expected).db)
  {
    hide Advances, DispatchVerdict, KeyBlockedIn, HoldsAdvance;
    NothingAdvances(db);
    SameHoldsAdvance(db.reservations);
    if DispatchVerdict(db, now, request, expected).Proceed? {
      StepMoveAdvances(db, DispatchRows(db, request), request);
    }
  }

  lemma BindAdvances(db: Db, request: Id, task: Id)
    ensures Advances(db, Bind(db, request, task).db)
  {
    hide Advances, BindVerdict, HoldsAdvance, Terminal;
    NothingAdvances(db);
    SameHoldsAdvance(db.reservations);
    if BindVerdict(db, request, task).Proceed? {
      StepMoveAdvances(db, BindRows(db, request, task), request);
    }
  }

  lemma MarkRowsAdvance(db: Db, request: Id, next: ExecState)
    requires request in db.steps && db.steps[request].operation in db.operations
    requires !Terminal(db.steps[request].exec) && !Terminal(db.operations[db.steps[request].operation].state)
    ensures Advances(db, MarkRows(db, request, next))
  {
    hide Advances, HoldsAdvance, Terminal;
    SameHoldsAdvance(db.reservations);
    StepMoveAdvances(db, MarkRows(db, request, next), request);
  }

  lemma MarkAdvances(db: Db, request: Id, next: ExecState)
    ensures Advances(db, MarkExecution(db, request, next).db)
  {
    hide Advances, MarkVerdict, MarkRows, SyncRows, Terminal;
    NothingAdvances(db);
    if MarkVerdict(db, request, next).Proceed? {
      var synced := db;
      if SyncsOnMark(db.steps[request], next) {
        SyncAdvances(db, request, next);
        synced := SyncRows(db, request, next);
      }
      MarkRowsAdvance(synced, request, next);
      AdvancesCompose(db, synced, MarkRows(synced, request, next));
    }
  }

  lemma FinishAdvances(db: Db, parent: Id, terminal: ExecState)
    ensures Advances(db, Finish(db, parent, terminal).db)
  {
    hide Advances, FinishVerdict, FinishParent, AllStepsTerminal;
    NothingAdvances(db);
    if FinishVerdict(db, parent, terminal).Proceed? {
      StatesAdvance(db, Finish(db, parent, terminal).db);
    }
  }

  lemma ReleaseRowsAdvance(db: Db, request: Id, reason: string)
    requires request in db.steps && db.steps[request].reservation < |db.reservations|
    requires db.steps[request].fin == FinHeld && db.reservations[db.steps[request].reservation].state == HoldHeld
    requires !db.steps[request].dispatched
    ensures Advances(db, ReleaseRows(db, request, reason))
  {
    hide Advances, HoldsAdvance, HoldEntries, LatestRevision;
    var db' := ReleaseRows(db, request, reason);
    var id := db.steps[request].reservation;
    OneHoldAdvances(db.reservations, id, db'.reservations[id]);
    StepMoveAdvances(db, db', request);
  }

  lemma ReleaseAdvances(db: Db, request: Id, reason: string)
    ensures Advances(db, Release(db, request, reason).db)
  {
    hide Advances, ReleaseVerdict, ReleaseRows, SyncRows, Trim;
    NothingAdvances(db);
    if ReleaseVerdict(db, request, reason).Proceed? {
      var synced := db;
      if SyncsOnRelease(db.steps[request]) {
        SyncAdvances(db, request, ExecCanceled);
        synced := SyncRows(db, request, ExecCanceled);
      }
      ReleaseRowsAdvance(synced, request, Trim(reason));
      AdvancesCompose(db, synced, ReleaseRows(synced, request, Trim(reason)));
    }
  }

  lemma RefreshRowsAdvance(
    db: Db, now: Millis, request: Id, expectedOld: Id, replacement: Authorization, proof: Proof)
    requires request in db.steps && db.steps[request].reservation < |db.reservations|
    requires AccountsKnown(db.accounts, AccountsOf(db.reservations[db.steps[request].reservation]))
    requires db.steps[request].fin == FinHeld && db.reservations[db.steps[request].reservation].state == HoldHeld
    requires !db.steps[request].dispatched && replacement.key == db.steps[request].auth.key
    ensures Advances(db, RefreshRows(db, now, request, expectedOld, replacement, proof))
  {
    hide Advances, HoldsAdvance, HoldEntries, AdvanceAll;
    var db' := RefreshRows(db, now, request, expectedOld, replacement, proof);
    var id := db.steps[request].reservation;
    OneHoldAdvances(db.reservations, id, db'.reservations[id]);
    StepMoveAdvances(db, db', request);
  }

  lemma RefreshAdvances(db: Db, now: Millis, request: Id, expectedOld: Id, replacement: Authorization, proof: Proof)
    ensures Advances(db, Refresh(db, now, request, expectedOld, replacement, proof).db)
  {
    hide Advances, RefreshVerdict, RefreshRows, BudgetIdUsed, MinAvailable, KeyBlockedIn, Blank;
    NothingAdvances(db);
    if RefreshVerdict(db, now, request, expectedOld, replacement, proof).Proceed? {
      RefreshRowsAdvance(db, now, request, expectedOld, replacement, proof);
    }
  }

  lemma NewStepAdvances(db: Db, now: Millis, operation: Id, kind: StepKind, auth: Authorization, hold: Reservation)
    requires Inv(db) && !HasReservation(db, auth.request)
    ensures Advances(db, NewStepRows(db, now, operation, kind, auth, hold))
  {
    hide HoldEntries, StepsSound, HasReservation, Terminal, TablesSound, AccountsOf, OwnedByStep;
    UnreservedIsNew(db, auth.request);
    var db' := NewStepRows(db, now, operation, kind, auth, hold);
    AllHoldsAdvance(db, db');
    forall r | r in db.steps
      ensures StepRowsAdvance(db, db', r)
    {
      SameStepAdvances(db.steps[r]);
    }
  }

  lemma OpenedAdvances(db: Db, parent: Id, key: Id)
    requires parent in db.requests && parent !in db.operations
    ensures Advances(db, Opened(db, parent, key))
  {
    hide Advances;
    StatesAdvance(db, Opened(db, parent, key));
  }

  lemma BeginAdvances(db: Db, now: Millis, parent: Id, kind: StepKind, auth: Authorization)
    requires Inv(db)
    ensures Advances(db, Begin(db, now, parent, kind, auth).db)
  {
    hide BeginVerdict, HoldFor, Inv, Opened, NewStepRows, Advances, AdmissionFits, HasReservation, CheckPreparation,
         CheckIdentity, AdmissionCount, KeyBlockedIn, BudgetIdUsed, Blank, MinAvailable;
    NothingAdvances(db);
    if BeginVerdict(db, now, parent, kind, auth).Proceed? {
      var opened' := Opened(db, parent, auth.key);
      var hold := BeginHold(db, parent, auth).value;
      BeginAdmissible(db, now, parent, kind, auth);
      OpenedKeepsInv(db, parent, auth.key);
      OpenedAdvances(db, parent, auth.key);
      NewStepAdvances(opened', now, parent, kind, auth, hold);
      AdvancesCompose(db, opened', NewStepRows(opened', now, parent, kind, auth, hold));
    }
  }

  lemma AddAdvances(db: Db, now: Millis, parent: Id, kind: StepKind, auth: Authorization)
    requires Inv(db)
    ensures Advances(db, Add(db, now, parent, kind, auth).db)
  {
    hide AddVerdict, HoldFor, Inv, NewStepRows, Advances, AddFits, HasReservation, KeyBlockedIn, BudgetIdUsed, Blank,
         MinAvailable, AdmissionFits;
    NothingAdvances(db);
    if AddVerdict(db, now, parent, kind, auth).Proceed? {
      AddRequests(db, now, parent, kind, auth);
      AddAdmissible(db, now, parent, kind, auth);
      NewStepAdvances(db, now, parent, kind, auth, BeginHold(db, parent, auth).value);
    }
  }

  // Receipts

  lemma OtherDependents(db: Db, db': Db, r: Id)
    requires db'.revisions == db.revisions
    ensures RevisionsOf(db', r) == RevisionsOf(db, r)
    ensures db'.settlements == db.settlements ==> SettlementOf(db', r) == SettlementOf(db, r)
  {
  }

  lemma NoteAdvances(db: Db, r: Id, hash: EvidenceHash, row: Evidence)
    requires r in db.steps
    ensures Advances(db, InsertEvidence(db, r, hash, row))
  {
    hide Advances, HoldsAdvance, OperationsAdvance, Terminal, InsertEvidence, EvidenceOf, RevisionsOf, SettlementOf;
    var db' := InsertEvidence(db, r, hash, row);
    SameHoldsAdvance(db.reservations);
    SameOperationsAdvance(db.operations);
    SameStepAdvances(db.steps[r]);
    InsertTouches(db, r, hash, row);
    OtherDependents(db, db', r);
    StepMoveAdvances(db, db', r);
  }

  lemma MarkUnknownAdvances(db: Db, r: Id)
    requires r in db.steps && db.steps[r].reservation < |db.reservations|
    requires Unsettled(db.steps[r], db.reservations[db.steps[r].reservation])
    ensures Advances(db, MarkUnknown(db, r))
  {
    hide Advances, HoldsAdvance, OperationsAdvance, Terminal;
    SameOperationsAdvance(db.operations);
    var id := db.steps[r].reservation;
    OneHoldAdvances(db.reservations, id, MarkUnknown(db, r).reservations[id]);
    StepMoveAdvances(db, MarkUnknown(db, r), r);
  }

  lemma FreezeAdvances(db: Db, r: Id)
    requires r in db.steps
    ensures Advances(db, FreezeStep(db, r))
  {
    hide Advances, HoldsAdvance, OperationsAdvance, Terminal;
    SameHoldsAdvance(db.reservations);
    SameOperationsAdvance(db.operations);
    StepMoveAdvances(db, FreezeStep(db, r), r);
  }

  lemma ConflictRowsAdvance(db: Db, r: Id, hash: EvidenceHash, row: Evidence)
    requires r in db.steps
    ensures Advances(db, ConflictRows(db, r, hash, row))
  {
    hide Advances;
    NoteAdvances(db, r, hash, row);
    FreezeAdvances(InsertEvidence(db, r, hash, row), r);
    AdvancesCompose(db, InsertEvidence(db, r, hash, row), ConflictRows(db, r, hash, row));
  }

  lemma SameEvidence(db: Db, db': Db, r: Id)
    requires db'.evidence == db.evidence
    ensures EvidenceOf(db', r) == EvidenceOf(db, r)
  {
  }

  lemma SettleRowsAdvance(db: Db, now: Millis, input: ReceiptInput)
    requires input.receipt.request in db.steps
    requires db.steps[input.receipt.request].reservation < |db.reservations|
    requires Unsettled(db.steps[input.receipt.request], db.reservations[db.steps[input.receipt.request].reservation])
    requires input.receipt.request !in db.settlements && db.steps[input.receipt.request].actual.None?
    ensures Advances(db, SettleRows(db, now, input))
  {
    hide Advances, HoldsAdvance, OperationsAdvance, Terminal, HashOf, EvidenceFor, HoldEntries, InDebt, ChargeOf,
         NewSettlement, LatestRevision, InsertEvidence, EvidenceOf, RevisionsOf;
    var r := input.receipt.request;
    var id := db.steps[r].reservation;
    var db' := SettleRows(db, now, input);
    var row := EvidenceFor(input, ReceiptRecord, Some(ChargeOf(input.receipt)), None, now);
    SameOperationsAdvance(db.operations);
    InsertTouches(db, r, HashOf(input), row);
    SameEvidence(InsertEvidence(db, r, HashOf(input), row), db', r);
    OtherDependents(db, db', r);
    OneHoldAdvances(db.reservations, id, db'.reservations[id]);
    StepMoveAdvances(db, db', r);
  }

  lemma SuspendAdvances(db: Db, r: Id, hash: EvidenceHash, row: Evidence)
    requires r in db.steps && db.steps[r].reservation < |db.reservations|
    requires Unsettled(db.steps[r], db.reservations[db.steps[r].reservation])
    ensures Advances(db, SuspendRows(db, r, hash, row))
  {
    hide Advances, InsertEvidence, MarkUnknown;
    var noted := InsertEvidence(db, r, hash, row);
    InsertShape(db, r, hash, row);
    NoteAdvances(db, r, hash, row);
    MarkUnknownAdvances(noted, r);
    AdvancesCompose(db, noted, MarkUnknown(noted, r));
  }

  lemma NoChargeYet(db: Db, r: Id)
    requires Inv(db) && r in db.steps && db.steps[r].reservation < |db.reservations|
    requires Unsettled(db.steps[r], db.reservations[db.steps[r].reservation])
    ensures db.steps[r].actual.None?
  {
    hide StepView, EventsExact, HistoryValid, EvidenceSound, AccountsSound, TablesSound, StepsSound;
    SoundStep(db, r);
    ViewParts(db, r);
  }

  lemma ReceiptAdvances(db: Db, now: Millis, input: ReceiptInput)
    requires Inv(db)
    ensures Advances(db, ApplyReceipt(db, now, input).db)
  {
    hide Inv, ReceiptCourse, ReceiptFits, TaskConflict, SameSettlement, Unsettled, InsertEvidence, HashOf, NoteRow,
         ContradictionRow, ConflictRows, SettleRows, SettledReplyFor, AccountsOf, AccountsKnown, EvidenceOf, IsFinal,
         SuspendRows, Advances;
    var r := input.receipt.request;
    var course := ReceiptCourse(db, input);
    NothingAdvances(db);
    if course.Reject? || course.Answer? {
    } else {
      CourseStep(db, input);
      if course.Note? {
        NoteAdvances(db, r, HashOf(input), NoteRow(input, now));
      } else if course.Contradict? {
        ConflictRowsAdvance(db, r, HashOf(input), ContradictionRow(input, course.reason, now));
      } else if course.Suspend? {
        SuspendAdvances(db, r, HashOf(input), NoteRow(input, now));
      } else {
        NoChargeYet(db, r);
        SettleRowsAdvance(db, now, input);
      }
    }
  }

  lemma ConflictAdvances(db: Db, now: Millis, input: ConflictInput)
    ensures Advances(db, MarkConflict(db, now, input).db)
  {
    hide Advances, ConflictVerdict, ConflictRows, Blank, BlankHash, EvidenceOf;
    NothingAdvances(db);
    if ConflictVerdict(db, input).Proceed? {
      ConflictRowsAdvance(db, input.request, input.hash, ReportedRow(input, now));
    }
  }

  lemma CreditAdvances(db: Db, db': Db)
    requires db' == db.(keys := db'.keys, accounts := db'.accounts, ledger := db'.ledger) && db.ledger <= db'.ledger
    ensures Advances(db, db')
  {
    hide Advances, OperationsAdvance;
    SameOperationsAdvance(db.operations);
    StatesAdvance(db, db');
  }

  lemma GrantLedger(db: Db, account: Option<nat>, initial: Account, amount: int)
    requires account.Some? ==> account.value < |db.accounts|
    ensures db.ledger <= CreditRows(db, account, initial, amount).ledger
  {
    hide AdvanceAccount, GrantEntry;
  }

  lemma GrantKeyAdvances(db: Db, key: Id, amount: int)
    ensures Advances(db, GrantKey(db, key, amount).db)
  {
    hide Advances, CreditRows, GrantKeyError;
    GrantKeyShape(db, key, amount);
    if GrantKeyError(db, key, amount).None? {
      GrantLedger(db, FindAccountOfKey(db.accounts, key),
                  Account(KeyScope, db.keys[key].user, Some(key), 1, true, Ready), amount);
    }
    CreditAdvances(db, GrantKey(db, key, amount).db);
  }

  lemma GrantPoolAdvances(db: Db, user: Id, amount: int)
    ensures Advances(db, GrantPool(db, user, amount).db)
  {
    hide Advances, CreditRows, GrantPoolError, PromotedCap;
    GrantPoolShape(db, user, amount);
    if GrantPoolError(db, user, amount).None? {
      PromotedLength(db.accounts, user);
      GrantLedger(db.(accounts := PromotedCap(db.accounts, user)), FindUserCap(db.accounts, user),
                  Account(UserCapScope, user, None, 1, true, Ready), amount);
    }
    CreditAdvances(db, GrantPool(db, user, amount).db);
  }

  lemma AllocatePoolAdvances(db: Db, key: Id, amount: int)
    ensures Advances(db, AllocateFromPool(db, key, amount).db)
  {
    hide Advances, GrantKey, GrantKeyRows, PoolError, PromotedCap;
    AllocatePoolShape(db, key, amount);
    if AllocateFromPool(db, key, amount).db != db {
      PoolLedger(db.(accounts := PromotedCap(db.accounts, db.keys[key].user)), key, amount);
    }
    CreditAdvances(db, AllocateFromPool(db, key, amount).db);
  }

  lemma PoolLedger(db: Db, key: Id, amount: int)
    ensures db.ledger <= GrantKey(db, key, amount).db.ledger
  {
    hide CreditRows, GrantKeyError;
    if GrantKeyError(db, key, amount).None? {
      GrantLedger(db, FindAccountOfKey(db.accounts, key),
                  Account(KeyScope, db.keys[key].user, Some(key), 1, true, Ready), amount);
    }
  }

  lemma DeleteKeyAdvances(db: Db, key: Id, facts: DeletionFacts)
    ensures Advances(db, DeleteKey(db, key, facts).db)
  {
    hide Advances, DeleteKey;
    DeleteKeyShape(db, key, facts);
    CreditAdvances(db, DeleteKey(db, key, facts).db);
  }

  lemma ForeignHoldsSpareSteps(db: Db, db': Db)
    requires ForeignHoldsMove(db, db')
    ensures StepHoldsAdvance(db, db')
  {
    hide AccountsOf, ReservationsSound;
  }

  lemma OtherWorkAdvances(db: Db, db': Db)
    requires OtherWorkDone(db, db')
    ensures Advances(db, db')
  {
    hide Terminal, StepHoldsAdvance, ReservationsSound, AdmissionsKept, AccountsGrow, IdentitiesKept;
    ForeignHoldsSpareSteps(db, db');
    forall r | r in db.steps
      ensures StepRowsAdvance(db, db', r)
    {
      SameStepAdvances(db.steps[r]);
    }
  }

  lemma NextAdvances(db: Db, action: Action, db': Db)
    requires Inv(db) && Next(db, action, db')
    ensures Advances(db, db')
  {
    hide Inv, Advances, Begin, Add, Refresh, Dispatch, Release, Bind, MarkExecution, Finish, ApplyReceipt, MarkConflict,
         GrantKey, GrantPool, AllocateFromPool, DeleteKey, OtherWorkDone;
    match action
    case BeginOperation(now, parent, kind, auth) => BeginAdvances(db, now, parent, kind, auth);
    case AddStep(now, parent, kind, auth) => AddAdvances(db, now, parent, kind, auth);
    case RefreshAuthorization(now, request, expectedOld, replacement, proof) =>
      RefreshAdvances(db, now, request, expectedOld, replacement, proof);
    case DispatchStep(now, request, expected) => DispatchAdvances(db, now, request, expected);
    case ReleaseStep(request, reason) => ReleaseAdvances(db, request, reason);
    case BindTask(request, task) => BindAdvances(db, request, task);
    case MarkStep(request, next) => MarkAdvances(db, request, next);
    case FinishOperation(parent, terminal) => FinishAdvances(db, parent, terminal);
    case DeliverReceipt(now, input) => ReceiptAdvances(db, now, input);
    case ReportConflict(now, conflict) => ConflictAdvances(db, now, conflict);
    case CreditKey(key, amount) => GrantKeyAdvances(db, key, amount);
    case CreditPool(user, amount) => GrantPoolAdvances(db, user, amount);
    case AllocateCredit(now, key, amount, snapshot) =>
      GrantKeyAdvances(db, key, amount);
      NothingAdvances(db);
    case AllocatePool(key, amount) => AllocatePoolAdvances(db, key, amount);
    case DeleteApiKey(key, facts) => DeleteKeyAdvances(db, key, facts);
    case OtherWork => OtherWorkAdvances(db, db');
  }

  /** Nothing an earlier state of a run has recorded is taken back by a later one. */
  lemma {:induction false} RunAdvances(states: seq<Db>, actions: seq<Action>, i: nat, j: nat)
    requires |states| == |actions| + 1 && i <= j < |states|
    requires Run(states, actions)
    ensures Advances(states[i], states[j])
  {
    hide Inv, Next, Advances;
    if i == j {
      NothingAdvances(states[i]);
    } else {
      RunAdvances(states, actions, i, j - 1);
      ReachableInv(states, actions, j - 1);
      NextAdvances(states[j - 1], actions[j - 1], states[j]);
      AdvancesCompose(states[i], states[j - 1], states[j]);
    }
  }
}
