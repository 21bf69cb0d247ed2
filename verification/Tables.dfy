/** Which rows outside a step's own each transaction leaves alone. */
module Tables {
  import opened Wrappers
  import opened Model
  import opened RequestStates
  import opened Ledger
  import opened EventGroup
  import opened Billing
  import opened Settling
  import opened Grants
  import opened Invariant
  import opened Frame
  import opened Preservation
  import opened ReceiptPreservation
  import opened RefreshPreservation
  import opened AdmissionPreservation
  import opened Runs
  import opened Text

  predicate IsGrant(action: Action) {
    action.CreditKey? || action.CreditPool? || action.AllocateCredit? || action.AllocatePool?
  }

  /** The transactions of administrators: they write accounts, Keys and entries of their own. */
  predicate IsAdministrative(action: Action) {
    IsGrant(action) || action.DeleteApiKey?
  }

  /** The scopes of the first `count` accounts, which never change. */
  ghost predicate SameScopes(db: Db, db': Db, count: nat) {
    && count <= |db.accounts| && count <= |db'.accounts|
    && forall i | 0 <= i < count :: db'.accounts[i].scope == db.accounts[i].scope
  }

  /** Keys, relations and the set of accounts are as they were. */
  ghost predicate OuterTablesKept(db: Db, db': Db) {
    && db'.keys == db.keys
    && db'.relations == db.relations
    && |db'.accounts| == |db.accounts| && SameScopes(db, db', |db.accounts|)
  }

  /** And no operation was begun. */
  ghost predicate TablesKept(db: Db, db': Db) {
    OuterTablesKept(db, db') && db'.operations.Keys == db.operations.Keys
  }

  /** The tables a transaction on steps may write. */
  ghost predicate StepTablesOnly(db: Db, db': Db) {
    db' == db.(requests := db'.requests, preparations := db'.preparations, reservations := db'.reservations,
               ledger := db'.ledger, operations := db'.operations, steps := db'.steps, revisions := db'.revisions,
               evidence := db'.evidence, settlements := db'.settlements, blocks := db'.blocks)
  }

  /** No operation became terminal. */
  ghost predicate OnlyRunning(operations: map<Id, Operation>, operations': map<Id, Operation>) {
    forall p | p in operations' ::
      p in operations && (operations'[p] == operations[p] || !Terminal(operations'[p].state))
  }

  lemma SameTables(db: Db, db': Db)
    requires StepTablesOnly(db, db') && db'.operations.Keys == db.operations.Keys
    ensures TablesKept(db, db')
  {
  }

  lemma NewStepShape(db: Db, now: Millis, operation: Id, kind: StepKind, auth: Authorization, hold: Reservation)
    ensures var db' := NewStepRows(db, now, operation, kind, auth, hold);
            db' == db.(reservations := db'.reservations, ledger := db'.ledger, steps := db'.steps,
                       revisions := db'.revisions)
  {
    hide HoldEntries, NewStep, FirstRevision;
  }

  lemma OpenedShape(db: Db, parent: Id, key: Id)
    requires parent in db.requests
    ensures var db' := Opened(db, parent, key);
            && db' == db.(requests := db'.requests, preparations := db'.preparations, operations := db'.operations)
            && db'.operations == db.operations[parent := Operation(key, ExecReady)]
  {
  }

  lemma BeginShape(db: Db, now: Millis, parent: Id, kind: StepKind, auth: Authorization)
    ensures var outcome := Begin(db, now, parent, kind, auth);
            && StepTablesOnly(db, outcome.db)
            && if outcome.reply == Ok(Applied)
               then outcome.db.operations == db.operations[parent := Operation(auth.key, ExecReady)]
               else outcome.db == db
  {
    hide BeginVerdict, HoldFor, Opened, NewStepRows, CheckPreparation, CheckIdentity, AdmissionCount, KeyBlockedIn,
         BudgetIdUsed, Blank;
    if BeginVerdict(db, now, parent, kind, auth).Proceed? {
      OpenedShape(db, parent, auth.key);
      NewStepShape(Opened(db, parent, auth.key), now, parent, kind, auth, BeginHold(db, parent, auth).value);
    }
  }

  lemma AddShape(db: Db, now: Millis, parent: Id, kind: StepKind, auth: Authorization)
    ensures var db' := Add(db, now, parent, kind, auth).db;
            StepTablesOnly(db, db') && db'.operations == db.operations
  {
    hide AddVerdict, HoldFor, NewStepRows, AddFits, KeyBlockedIn, BudgetIdUsed, Blank;
    if AddVerdict(db, now, parent, kind, auth).Proceed? {
      AddRequests(db, now, parent, kind, auth);
      NewStepShape(db, now, parent, kind, auth, BeginHold(db, parent, auth).value);
    }
  }

  lemma RefreshRowsKeepTables(
    db: Db, now: Millis, request: Id, expectedOld: Id, replacement: Authorization, proof: Proof)
    requires request in db.steps && db.steps[request].reservation < |db.reservations|
    requires AccountsKnown(db.accounts, AccountsOf(db.reservations[db.steps[request].reservation]))
    ensures var db' := RefreshRows(db, now, request, expectedOld, replacement, proof);
            TablesKept(db, db') && db'.operations == db.operations && db'.steps.Keys == db.steps.Keys
  {
    hide HoldEntries, NextRevision;
  }

  lemma RefreshKeepsTables(db: Db, now: Millis, request: Id, expectedOld: Id, replacement: Authorization, proof: Proof)
    ensures var db' := Refresh(db, now, request, expectedOld, replacement, proof).db;
            TablesKept(db, db') && db'.operations == db.operations && db'.steps.Keys == db.steps.Keys
  {
    hide TablesKept, RefreshRows, RefreshVerdict, BudgetIdUsed, KeyBlockedIn, Blank, MinAvailable;
    SameTables(db, db);
    if RefreshVerdict(db, now, request, expectedOld, replacement, proof).Proceed? {
      RefreshRowsKeepTables(db, now, request, expectedOld, replacement, proof);
    }
  }

  lemma DispatchShape(db: Db, now: Millis, request: Id, expected: Id)
    ensures var db' := Dispatch(db, now, request, expected).db;
            && StepTablesOnly(db, db') && db'.operations.Keys == db.operations.Keys
            && db'.steps.Keys == db.steps.Keys && OnlyRunning(db.operations, db'.operations)
  {
    hide DispatchVerdict, KeyBlockedIn;
  }

  lemma ReleaseShape(db: Db, request: Id, reason: string)
    ensures var db' := Release(db, request, reason).db;
            StepTablesOnly(db, db') && db'.operations == db.operations && db'.steps.Keys == db.steps.Keys
  {
    hide ReleaseVerdict, SyncRows, HoldEntries, LatestRevision, Trim;
  }

  lemma BindShape(db: Db, request: Id, task: Id)
    ensures var db' := Bind(db, request, task).db;
            StepTablesOnly(db, db') && db'.operations == db.operations && db'.steps.Keys == db.steps.Keys
  {
    hide BindVerdict, StepTablesOnly;
    NothingWritten(db);
    if BindVerdict(db, request, task).Proceed? {
      BindOnly(db, request, task);
    }
  }

  lemma BindOnly(db: Db, request: Id, task: Id)
    requires request in db.steps
    ensures StepTablesOnly(db, BindRows(db, request, task))
  {
  }

  lemma MarkShape(db: Db, request: Id, next: ExecState)
    ensures var db' := MarkExecution(db, request, next).db;
            && StepTablesOnly(db, db') && db'.operations.Keys == db.operations.Keys
            && db'.steps.Keys == db.steps.Keys && OnlyRunning(db.operations, db'.operations)
  {
    hide MarkVerdict, MarkRows, SyncRows, StepTablesOnly, OnlyRunning;
    NothingWritten(db);
    if MarkVerdict(db, request, next).Proceed? {
      var synced := if SyncsOnMark(db.steps[request], next) then SyncRows(db, request, next) else db;
      MarkOnly(db, synced, request, next);
    } else {
      NothingStopped(db.operations);
    }
  }

  lemma MarkOnly(db: Db, synced: Db, request: Id, next: ExecState)
    requires synced == db.(requests := synced.requests)
    requires request in db.steps && db.steps[request].operation in db.operations
    ensures var db' := MarkRows(synced, request, next);
            && StepTablesOnly(db, db') && db'.operations.Keys == db.operations.Keys
            && db'.steps.Keys == db.steps.Keys && OnlyRunning(db.operations, db'.operations)
  {
  }

  lemma NothingStopped(operations: map<Id, Operation>)
    ensures OnlyRunning(operations, operations)
  {
  }

  lemma FinishShape(db: Db, parent: Id, terminal: ExecState)
    ensures var db' := Finish(db, parent, terminal).db;
            StepTablesOnly(db, db') && db'.operations.Keys == db.operations.Keys && db'.steps == db.steps
  {
    hide FinishVerdict, FinishParent, Terminal, AllStepsTerminal;
  }

  lemma InsertShape(db: Db, r: Id, hash: EvidenceHash, row: Evidence)
    ensures var db' := InsertEvidence(db, r, hash, row); db' == db.(evidence := db'.evidence)
  {
    hide EvidenceOf;
  }

  lemma ConflictRowsShape(db: Db, r: Id, hash: EvidenceHash, row: Evidence)
    requires r in db.steps
    ensures var db' := ConflictRows(db, r, hash, row);
            && db' == db.(evidence := db'.evidence, steps := db'.steps, blocks := db'.blocks)
            && db'.steps.Keys == db.steps.Keys
  {
    hide InsertEvidence;
    InsertShape(db, r, hash, row);
  }

  lemma SettleRowsShape(db: Db, now: Millis, input: ReceiptInput)
    requires input.receipt.request in db.steps
    requires db.steps[input.receipt.request].reservation < |db.reservations|
    ensures var db' := SettleRows(db, now, input);
            && db' == db.(reservations := db'.reservations, ledger := db'.ledger, steps := db'.steps,
                          evidence := db'.evidence, settlements := db'.settlements)
            && db'.steps.Keys == db.steps.Keys
  {
    hide InsertEvidence, HashOf, EvidenceFor, CommitLedger, NewSettlement, InDebt, ChargeOf;
    InsertShape(db, input.receipt.request, HashOf(input),
                EvidenceFor(input, ReceiptRecord, Some(ChargeOf(input.receipt)), None, now));
  }

  lemma ReceiptShape(db: Db, now: Millis, input: ReceiptInput)
    ensures var db' := ApplyReceipt(db, now, input).db;
            StepTablesOnly(db, db') && db'.operations == db.operations && db'.steps.Keys == db.steps.Keys
  {
    hide ReceiptCourse, ReceiptFits, TaskConflict, SameSettlement, Unsettled, InsertEvidence, HashOf, NoteRow,
         ContradictionRow, ConflictRows, SettleRows, SettledReplyFor, AccountsOf, AccountsKnown, EvidenceOf, IsFinal,
         StepTablesOnly;
    var r := input.receipt.request;
    var course := ReceiptCourse(db, input);
    if course.Reject? || course.Answer? {
      NothingWritten(db);
    } else if course.Note? {
      InsertOnly(db, r, HashOf(input), NoteRow(input, now));
    } else {
      CourseStep(db, input);
      if course.Contradict? {
        ConflictOnly(db, r, HashOf(input), ContradictionRow(input, course.reason, now));
      } else if course.Suspend? {
        SuspendOnly(db, r, HashOf(input), NoteRow(input, now));
      } else {
        SettleOnly(db, now, input);
      }
    }
  }

  lemma NothingWritten(db: Db)
    ensures StepTablesOnly(db, db)
  {
  }

  lemma InsertOnly(db: Db, r: Id, hash: EvidenceHash, row: Evidence)
    ensures StepTablesOnly(db, InsertEvidence(db, r, hash, row))
    ensures InsertEvidence(db, r, hash, row).operations == db.operations && InsertEvidence(db, r, hash, row).steps.Keys == db.steps.Keys
  {
    hide InsertEvidence;
    InsertShape(db, r, hash, row);
  }

  lemma ConflictOnly(db: Db, r: Id, hash: EvidenceHash, row: Evidence)
    requires r in db.steps
    ensures StepTablesOnly(db, ConflictRows(db, r, hash, row))
    ensures ConflictRows(db, r, hash, row).operations == db.operations && ConflictRows(db, r, hash, row).steps.Keys == db.steps.Keys
  {
    hide ConflictRows;
    ConflictRowsShape(db, r, hash, row);
  }

  lemma SuspendOnly(db: Db, r: Id, hash: EvidenceHash, row: Evidence)
    requires r in db.steps && db.steps[r].reservation < |db.reservations|
    ensures StepTablesOnly(db, SuspendRows(db, r, hash, row))
    ensures SuspendRows(db, r, hash, row).operations == db.operations && SuspendRows(db, r, hash, row).steps.Keys == db.steps.Keys
  {
    hide InsertEvidence;
    InsertShape(db, r, hash, row);
  }

  lemma SettleOnly(db: Db, now: Millis, input: ReceiptInput)
    requires input.receipt.request in db.steps
    requires db.steps[input.receipt.request].reservation < |db.reservations|
    ensures StepTablesOnly(db, SettleRows(db, now, input))
    ensures SettleRows(db, now, input).operations == db.operations && SettleRows(db, now, input).steps.Keys == db.steps.Keys
  {
    hide SettleRows;
    SettleRowsShape(db, now, input);
  }

  /** A receipt that writes anything is about a step with a reservation. */
  lemma CourseStep(db: Db, input: ReceiptInput)
    requires !ReceiptCourse(db, input).Reject? && !ReceiptCourse(db, input).Answer?
    ensures input.receipt.request in db.steps
    ensures db.steps[input.receipt.request].reservation < |db.reservations|
  {
    hide ReceiptCourse, ReceiptMalformed, CheckReceiptOwner, AlreadyRecorded, EvidenceOf;
  }

  lemma ConflictShape(db: Db, now: Millis, input: ConflictInput)
    ensures var db' := MarkConflict(db, now, input).db;
            StepTablesOnly(db, db') && db'.operations == db.operations && db'.steps.Keys == db.steps.Keys
  {
    hide ConflictVerdict, ConflictRows, Blank, BlankHash, EvidenceOf, StepTablesOnly;
    NothingWritten(db);
    if ConflictVerdict(db, input).Proceed? {
      ConflictOnly(db, input.request, input.hash, ReportedRow(input, now));
    }
  }

  /** No transaction but a grant changes the accounts' number or scopes. */
  lemma NextKeepsTables(db: Db, action: Action, db': Db)
    requires Next(db, action, db') && !IsAdministrative(action)
    ensures |db'.accounts| == |db.accounts| && SameScopes(db, db', |db.accounts|)
    ensures !action.OtherWork? ==> OuterTablesKept(db, db')
    ensures !action.BeginOperation? && !action.OtherWork? ==> TablesKept(db, db')
    ensures !action.BeginOperation? && !action.AddStep? ==> db'.steps.Keys == db.steps.Keys
    ensures action.AddStep? ==> db'.operations == db.operations
    ensures !action.BeginOperation? && !action.FinishOperation? ==> OnlyRunning(db.operations, db'.operations)
  {
    hide Begin, Add, Refresh, Release, ApplyReceipt, MarkConflict, Dispatch, MarkExecution, Finish, Bind;
    match action
    case BeginOperation(now, parent, kind, auth) =>
      BeginShape(db, now, parent, kind, auth);
      OuterSame(db, db');
    case AddStep(now, parent, kind, auth) => AddShape(db, now, parent, kind, auth); SameTables(db, db');
    case RefreshAuthorization(now, request, expectedOld, replacement, proof) =>
      RefreshKeepsTables(db, now, request, expectedOld, replacement, proof);
    case DispatchStep(now, request, expected) => DispatchShape(db, now, request, expected); SameTables(db, db');
    case ReleaseStep(request, reason) => ReleaseShape(db, request, reason); SameTables(db, db');
    case BindTask(request, task) => BindShape(db, request, task); SameTables(db, db');
    case MarkStep(request, next) => MarkShape(db, request, next); SameTables(db, db');
    case FinishOperation(parent, terminal) => FinishShape(db, parent, terminal); SameTables(db, db');
    case DeliverReceipt(now, input) => ReceiptShape(db, now, input); SameTables(db, db');
    case ReportConflict(now, conflict) => ConflictShape(db, now, conflict); SameTables(db, db');
    case OtherWork =>
  }

  lemma OuterSame(db: Db, db': Db)
    requires StepTablesOnly(db, db')
    ensures OuterTablesKept(db, db')
  {
  }

  lemma CreditRowsShape(db: Db, account: Option<nat>, initial: Account, amount: int)
    requires account.Some? ==> account.value < |db.accounts|
    ensures var db' := CreditRows(db, account, initial, amount);
            db' == db.(accounts := db'.accounts, ledger := db'.ledger)
  {
    hide GrantEntry, AdvanceAccount;
  }

  lemma GrantKeyShape(db: Db, key: Id, amount: int)
    ensures var db' := GrantKey(db, key, amount).db;
            db' == db.(accounts := db'.accounts, ledger := db'.ledger)
  {
    hide GrantKeyError, CreditRows;
    if GrantKeyError(db, key, amount).None? {
      CreditRowsShape(db, FindAccountOfKey(db.accounts, key),
                      Account(KeyScope, db.keys[key].user, Some(key), 1, true, Ready), amount);
    }
  }

  lemma AllocateShape(db: Db, now: Millis, key: Id, amount: int, snapshot: Snapshot)
    ensures var db' := Allocate(db, now, key, amount, snapshot).db;
            db' == db.(accounts := db'.accounts, ledger := db'.ledger)
  {
    hide GrantKey, Committed, CommitmentOverflows, SnapshotFresh;
    GrantKeyShape(db, key, amount);
  }

  lemma GrantPoolShape(db: Db, user: Id, amount: int)
    ensures var db' := GrantPool(db, user, amount).db;
            db' == db.(accounts := db'.accounts, ledger := db'.ledger)
  {
    hide GrantPoolError, CreditRows, PromotedCap;
    if GrantPoolError(db, user, amount).None? {
      PromotedLength(db.accounts, user);
      CreditRowsShape(db.(accounts := PromotedCap(db.accounts, user)), FindUserCap(db.accounts, user),
                      Account(UserCapScope, user, None, 1, true, Ready), amount);
    }
  }

  /** What an administrator's transaction can write. */
  ghost predicate AdministrativeOnly(db: Db, db': Db) {
    && db' == db.(keys := db'.keys, accounts := db'.accounts, ledger := db'.ledger)
    && db'.keys.Keys == db.keys.Keys
    && (forall k | k in db.keys ::
          db'.keys[k].user == db.keys[k].user && db'.keys[k].maxConcurrency == db.keys[k].maxConcurrency)
  }

  lemma AllocatePoolShape(db: Db, key: Id, amount: int)
    ensures AdministrativeOnly(db, AllocateFromPool(db, key, amount).db)
  {
    hide GrantKey, PoolError;
    if PoolError(db, key, amount).None? {
      GrantKeyShape(db.(accounts := PromotedCap(db.accounts, db.keys[key].user)), key, amount);
    }
  }

  lemma ReturnShape(db: Db, account: nat)
    requires account < |db.accounts|
    ensures var db' := ReturnRows(db, account);
            && db' == db.(accounts := db'.accounts, ledger := db'.ledger)
            && |db'.accounts| == |db.accounts| && SameScopes(db, db', |db.accounts|)
            && db.ledger <= db'.ledger
  {
    hide Returned, SameScopes, AdvanceAccount;
    var db' := ReturnRows(db, account);
    if Returned(db, account) == 0 {
      NothingScoped(db);
    } else {
      AdvanceScopes(db, account, db'.ledger);
    }
  }

  lemma AdvanceScopes(db: Db, account: nat, ledger: seq<Entry>)
    requires account < |db.accounts|
    ensures |AdvanceAccount(db.accounts, account)| == |db.accounts|
    ensures SameScopes(db, db.(accounts := AdvanceAccount(db.accounts, account), ledger := ledger), |db.accounts|)
  {
  }

  lemma DeletedShape(db: Db, key: Id)
    requires key in db.keys
    ensures AdministrativeOnly(db, DeletedRows(db, key))
    ensures |DeletedRows(db, key).accounts| == |db.accounts| && SameScopes(db, DeletedRows(db, key), |db.accounts|)
    ensures db.ledger <= DeletedRows(db, key).ledger
  {
    hide ReturnRows, FindKeyAccount, SameScopes, AdministrativeOnly;
    var account := FindKeyAccount(db.accounts, key, db.keys[key].user);
    NothingScoped(db);
    if account.Some? {
      ReturnShape(db, account.value);
      RevokedOnly(db, ReturnRows(db, account.value), key);
    } else {
      RevokedOnly(db, db, key);
    }
  }

  lemma NothingScoped(db: Db)
    ensures SameScopes(db, db, |db.accounts|)
  {
  }

  lemma RevokedOnly(db: Db, db': Db, key: Id)
    requires key in db.keys && db' == db.(accounts := db'.accounts, ledger := db'.ledger)
    ensures var revoked := db'.(keys := db.keys[key := db.keys[key].(active := false)]);
            && AdministrativeOnly(db, revoked)
            && (SameScopes(db, db', |db.accounts|) ==> SameScopes(db, revoked, |db.accounts|))
  {
  }

  lemma DeleteKeyShape(db: Db, key: Id, facts: DeletionFacts)
    ensures var db' := DeleteKey(db, key, facts).db;
            && AdministrativeOnly(db, db')
            && |db'.accounts| == |db.accounts| && SameScopes(db, db', |db.accounts|)
            && db.ledger <= db'.ledger
  {
    hide DeletedRows, DeletionError, FindKeyAccount, Returned;
    if DeleteKey(db, key, facts).db != db {
      DeletedShape(db, key);
    }
  }

  lemma CreditOnly(db: Db, db': Db)
    requires db' == db.(accounts := db'.accounts, ledger := db'.ledger)
    ensures AdministrativeOnly(db, db')
  {
  }

  lemma AdministrativeShape(db: Db, action: Action, db': Db)
    requires Next(db, action, db') && IsAdministrative(action)
    ensures AdministrativeOnly(db, db')
  {
    hide Begin, Add, Refresh, Dispatch, Release, Bind, MarkExecution, Finish, ApplyReceipt, MarkConflict, GrantKey,
         GrantPool, Allocate, AllocateFromPool, DeleteKey, AdministrativeOnly;
    match action
    case CreditKey(key, amount) => GrantKeyShape(db, key, amount); CreditOnly(db, db');
    case CreditPool(user, amount) => GrantPoolShape(db, user, amount); CreditOnly(db, db');
    case AllocateCredit(now, key, amount, snapshot) =>
      AllocateShape(db, now, key, amount, snapshot);
      CreditOnly(db, db');
    case AllocatePool(key, amount) => AllocatePoolShape(db, key, amount);
    case DeleteApiKey(key, facts) => DeleteKeyShape(db, key, facts);
  }

  lemma CreditKeepsScopes(db: Db, account: Option<nat>, initial: Account, amount: int)
    requires account.Some? ==> account.value < |db.accounts|
    ensures SameScopes(db, CreditRows(db, account, initial, amount), |db.accounts|)
  {
  }

  lemma PromotedKeepsScopes(db: Db, user: Id)
    ensures SameScopes(db, db.(accounts := PromotedCap(db.accounts, user)), |db.accounts|)
    ensures |PromotedCap(db.accounts, user)| == |db.accounts|
  {
  }

  lemma SameScopesFrom(a: Db, b: Db, c: Db, count: nat)
    requires SameScopes(a, b, count) && SameScopes(b, c, count)
    ensures SameScopes(a, c, count)
  {
  }

  lemma GrantKeyKeepsScopes(db: Db, key: Id, amount: int)
    ensures SameScopes(db, GrantKey(db, key, amount).db, |db.accounts|)
  {
    hide GrantKeyError, CreditRows, SameScopes;
    NothingScoped(db);
    if GrantKeyError(db, key, amount).None? {
      CreditKeepsScopes(db, FindAccountOfKey(db.accounts, key),
                        Account(KeyScope, db.keys[key].user, Some(key), 1, true, Ready), amount);
    }
  }

  lemma GrantPoolKeepsScopes(db: Db, user: Id, amount: int)
    ensures SameScopes(db, GrantPool(db, user, amount).db, |db.accounts|)
  {
    hide GrantPoolError, CreditRows, PromotedCap, SameScopes;
    NothingScoped(db);
    if GrantPoolError(db, user, amount).None? {
      PromotedKeepsScopes(db, user);
      var promoted := db.(accounts := PromotedCap(db.accounts, user));
      CreditKeepsScopes(promoted, FindUserCap(db.accounts, user), Account(UserCapScope, user, None, 1, true, Ready),
                        amount);
      SameScopesFrom(db, promoted, GrantPool(db, user, amount).db, |db.accounts|);
    }
  }

  lemma AllocatePoolKeepsScopes(db: Db, key: Id, amount: int)
    ensures SameScopes(db, AllocateFromPool(db, key, amount).db, |db.accounts|)
  {
    hide PoolError, GrantKey, PromotedCap, SameScopes;
    NothingScoped(db);
    if AllocateFromPool(db, key, amount).db != db {
      var promoted := db.(accounts := PromotedCap(db.accounts, db.keys[key].user));
      PromotedKeepsScopes(db, db.keys[key].user);
      GrantKeyKeepsScopes(promoted, key, amount);
      SameScopesFrom(db, promoted, AllocateFromPool(db, key, amount).db, |db.accounts|);
    }
  }

  /** No transaction changes an account's scope. */
  lemma ScopesStay(db: Db, action: Action, db': Db)
    requires Next(db, action, db')
    ensures SameScopes(db, db', |db.accounts|)
  {
    hide Begin, Add, Refresh, Dispatch, Release, Bind, MarkExecution, Finish, ApplyReceipt, MarkConflict, GrantKey,
         GrantPool, AllocateFromPool, DeleteKey, SameScopes, CommitmentOverflows, Committed;
    if IsGrant(action) {
      match action
      case CreditKey(key, amount) => GrantKeyKeepsScopes(db, key, amount);
      case CreditPool(user, amount) => GrantPoolKeepsScopes(db, user, amount);
      case AllocateCredit(_, key, amount, _) =>
        GrantKeyKeepsScopes(db, key, amount);
        NothingScoped(db);
      case AllocatePool(key, amount) => AllocatePoolKeepsScopes(db, key, amount);
    } else {
      NextKeepsScopes(db, action, db');
    }
  }

  /** Only a grant changes the number of the accounts, and no transaction their scopes. */
  lemma NextKeepsScopes(db: Db, action: Action, db': Db)
    requires Next(db, action, db') && !IsGrant(action)
    ensures |db'.accounts| == |db.accounts| && SameScopes(db, db', |db.accounts|)
  {
    hide Next, OuterTablesKept, TablesKept, OnlyRunning, SameScopes;
    if action.DeleteApiKey? {
      DeletionKeepsScopes(db, action, db');
    } else {
      NextKeepsTables(db, action, db');
    }
  }

  lemma DeletionKeepsScopes(db: Db, action: Action, db': Db)
    requires Next(db, action, db') && action.DeleteApiKey?
    ensures |db'.accounts| == |db.accounts| && SameScopes(db, db', |db.accounts|)
  {
    hide Begin, Add, Refresh, Dispatch, Release, Bind, MarkExecution, Finish, ApplyReceipt, MarkConflict, GrantKey,
         GrantPool, Allocate, AllocateFromPool, DeleteKey, SameScopes;
    DeleteKeyShape(db, action.key, action.facts);
  }

  lemma PromotedLength(accounts: seq<Account>, user: Id)
    ensures |PromotedCap(accounts, user)| == |accounts|
  {
  }
}
