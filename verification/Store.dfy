/**
  The core store as objects. A Transaction works on its own copy of the database, one statement after the
  other; CoreStore commits that copy when a transaction succeeds and drops it when one fails.
 */
module Store {
  import opened Wrappers
  import opened Model
  import opened RequestStates
  import opened Ledger
  import opened EventGroup
  import opened Billing
  import opened Settling
  import opened Grants
  import opened Text
  import Validator

  /** Only the last of several states a request is moved to shows. */
  lemma StateOverwritten(db: Db, request: Id, first: RequestState, last: RequestState)
    requires request in db.requests
    ensures SetRequestState(SetRequestState(db, request, first), request, last) == SetRequestState(db, request, last)
  {
    var once := db.requests[request := db.requests[request].(state := first)];
    assert once[request := once[request].(state := last)]
        == db.requests[request := db.requests[request].(state := last)];
  }

  /** `db` is `origin` with the request moved to `state`. */
  ghost predicate Walked(origin: Db, db: Db, request: Id, state: RequestState) {
    request in origin.requests && db == SetRequestState(origin, request, state)
  }

  lemma StartWalk(db: Db, request: Id)
    requires request in db.requests
    ensures Walked(db, db, request, db.requests[request].state)
  {
    StateUnmoved(db, request);
  }

  lemma EndWalk(origin: Db, db: Db, request: Id, state: RequestState)
    requires Walked(origin, db, request, state)
    ensures request in origin.requests && db == SetRequestState(origin, request, state)
  {
  }

  lemma AddParent(db: Db, now: Millis, parent: Id, kind: StepKind, auth: Authorization)
    requires AddVerdict(db, now, parent, kind, auth).Proceed?
    ensures parent in db.requests && parent in db.operations
  {
    hide AddVerdict;
  }

  // The rows of an admission are the same however the statements that write them are ordered

  lemma HoldAfterState(db: Db, hold: Reservation, request: Id, state: RequestState)
    requires request in db.requests
    ensures HoldRows(db, hold).requests == db.requests
    ensures SetRequestState(HoldRows(db, hold), request, state) == HoldRows(SetRequestState(db, request, state), hold)
  {
    hide HoldEntries;
  }

  lemma HoldAfterAdmission(db: Db, hold: Reservation, parent: Id)
    ensures AdmitPreparation(HoldRows(db, hold), parent) == HoldRows(AdmitPreparation(db, parent), hold)
  {
    hide HoldEntries;
  }

  lemma RecordAfterState(
    db: Db, now: Millis, operation: Id, kind: StepKind, auth: Authorization, id: nat, request: Id, state: RequestState)
    requires request in db.requests
    ensures RecordStep(db, now, operation, kind, auth, id).requests == db.requests
    ensures SetRequestState(RecordStep(db, now, operation, kind, auth, id), request, state)
            == RecordStep(SetRequestState(db, request, state), now, operation, kind, auth, id)
  {
    hide NewStep, FirstRevision;
  }

  lemma RecordAfterAdmission(
    db: Db, now: Millis, operation: Id, kind: StepKind, auth: Authorization, id: nat, parent: Id)
    ensures AdmitPreparation(RecordStep(db, now, operation, kind, auth, id), parent)
            == RecordStep(AdmitPreparation(db, parent), now, operation, kind, auth, id)
  {
    hide NewStep, FirstRevision;
  }

  lemma HoldAfterOperation(db: Db, hold: Reservation, operations: map<Id, Operation>)
    ensures HoldRows(db, hold).operations == db.operations
    ensures HoldRows(db, hold).(operations := operations) == HoldRows(db.(operations := operations), hold)
  {
    hide HoldEntries;
  }

  lemma BeginRowsInOrder(db: Db, now: Millis, parent: Id, kind: StepKind, auth: Authorization, hold: Reservation)
    requires parent in db.requests
    ensures var held := HoldRows(db, hold);
            var begun := held.(operations := held.operations[parent := Operation(auth.key, ExecReady)]);
            var recorded := RecordStep(begun, now, parent, kind, auth, |db.reservations|);
            && parent in recorded.requests && recorded.requests == db.requests
            && AdmitPreparation(SetRequestState(recorded, parent, Reserved), parent)
               == NewStepRows(Opened(db, parent, auth.key), now, parent, kind, auth, hold)
  {
    hide HoldRows, RecordStep, SetRequestState, AdmitPreparation;
    var id := |db.reservations|;
    var operations := db.operations[parent := Operation(auth.key, ExecReady)];
    var begun := db.(operations := operations);
    HoldAfterOperation(db, hold, operations);
    HoldAfterState(begun, hold, parent, Reserved);
    RecordAfterState(HoldRows(begun, hold), now, parent, kind, auth, id, parent, Reserved);
    var reserved := SetRequestState(begun, parent, Reserved);
    RecordAfterAdmission(HoldRows(reserved, hold), now, parent, kind, auth, id, parent);
    HoldAfterAdmission(reserved, hold, parent);
    OpenedReservations(db, parent, auth.key);
  }

  lemma OpenedReservations(db: Db, parent: Id, key: Id)
    requires parent in db.requests
    ensures Opened(db, parent, key).reservations == db.reservations
  {
  }

  function AdjustedOn(db: Db, hold: Reservation, account: nat, amount: int, delta: int, revision: int): Db
    requires account < |db.accounts|
  {
    var accounts := AdvanceAccount(db.accounts, account);
    db.(accounts := accounts,
        ledger := db.ledger + [HoldEntry(accounts, hold, account, AdjustHoldEvent, amount, delta, Some(revision))])
  }

  /** The accounts adjusted one after the other. */
  function AdjustedUpTo(db: Db, hold: Reservation, ids: seq<nat>, amount: int, delta: int, revision: int): Db {
    if ids == [] then db
    else
      var before := AdjustedUpTo(db, hold, ids[..|ids| - 1], amount, delta, revision);
      var account := ids[|ids| - 1];
      if account < |before.accounts| then AdjustedOn(before, hold, account, amount, delta, revision) else before
  }

  lemma AdjustedKeepsAccounts(
    db: Db, hold: Reservation, account: nat, amount: int, delta: int, revision: int, ids: seq<nat>)
    requires account < |db.accounts| && AccountsKnown(db.accounts, ids)
    ensures AccountsKnown(AdjustedOn(db, hold, account, amount, delta, revision).accounts, ids)
  {
  }

  /** Adjusting one account after the other is adjusting them all: they are different accounts. */
  lemma AdjustedAll(db: Db, hold: Reservation, amount: int, delta: int, revision: int)
    requires AccountsKnown(db.accounts, AccountsOf(hold)) && hold.userCap != Some(hold.keyAccount)
    ensures var accounts := AdvanceAll(db.accounts, hold);
            AdjustedUpTo(db, hold, AccountsOf(hold), amount, delta, revision)
            == db.(accounts := accounts,
                   ledger := db.ledger + HoldEntries(accounts, hold, AdjustHoldEvent, amount, delta, Some(revision)))
  {
    var ids := AccountsOf(hold);
    var first := AdjustedOn(db, hold, ids[0], amount, delta, revision);
    assert AdjustedUpTo(db, hold, [], amount, delta, revision) == db;
    assert ids[..1] == [ids[0]] && [ids[0]][..0] == [];
    assert AdjustedUpTo(db, hold, [ids[0]], amount, delta, revision) == first;
    if hold.userCap.Some? {
      var second := AdjustedOn(first, hold, ids[1], amount, delta, revision);
      assert AdjustedUpTo(db, hold, ids, amount, delta, revision) == second;
      var accounts := AdvanceAll(db.accounts, hold);
      var entries := HoldEntries(accounts, hold, AdjustHoldEvent, amount, delta, Some(revision));
      assert second.ledger == db.ledger + [entries[0]] + [entries[1]];
      assert entries == [entries[0]] + [entries[1]];
    }
  }

  lemma NoteKeepsTables(db: Db, r: Id, hash: EvidenceHash, row: Evidence)
    ensures InsertEvidence(db, r, hash, row) == db.(evidence := InsertEvidence(db, r, hash, row).evidence)
  {
    hide EvidenceOf;
  }

  lemma StateUnmoved(db: Db, request: Id)
    requires request in db.requests
    ensures SetRequestState(db, request, db.requests[request].state) == db
  {
    assert db.requests[request := db.requests[request]] == db.requests;
  }

  lemma StateSet(db: Db, request: Id, state: RequestState)
    requires request in db.requests
    ensures request in SetRequestState(db, request, state).requests
    ensures SetRequestState(db, request, state).requests[request].state == state
  {
  }

  class Transaction {
    var db: Db

    constructor (committed: Db)
      ensures db == committed
    {
      db := committed;
    }

    // Request states

    method TransitionRequest(request: Id, expected: RequestState, next: RequestState) returns (error: Option<Error>)
      modifies this
      ensures error.None? <==>
                CanTransition(expected, next) && request in old(db).requests
                && old(db).requests[request].state == expected
      ensures db == if error.None? then SetRequestState(old(db), request, next) else old(db)
      ensures error.Some? ==> error.value == InvalidTransition
    {
      if !CanTransition(expected, next) {
        return Some(InvalidTransition);
      }
      if request in db.requests && db.requests[request].state == expected {
        db := db.(requests := db.requests[request := db.requests[request].(state := next)]);
        return None;
      }
      return Some(InvalidTransition);
    }

    /** Walks a request through the states before `dispatched`, one transition at a time. */
    method AdvanceRequestToDispatched(request: Id) returns (error: Option<Error>)
      modifies this
      ensures error ==
              if request !in old(db).requests then Some(RequestNotFound)
              else if !Dispatchable(old(db).requests[request].state) then Some(InvalidTransition)
              else None
      ensures error.None? ==> db == SetRequestState(old(db), request, Dispatched)
    {
      hide SetRequestState;
      ghost var origin := db;
      if request !in db.requests {
        return Some(RequestNotFound);
      }
      var state := db.requests[request].state;
      StateUnmoved(db, request);
      if state == Received {
        state := Step(origin, request, state, Validating);
      }
      if state == Validating {
        state := Step(origin, request, state, Reserved);
      }
      if state == Reserved {
        state := Step(origin, request, state, Queued);
      }
      if state != Queued {
        return Some(InvalidTransition);
      }
      state := Step(origin, request, state, Dispatched);
      return None;
    }

    /** One move of a walk that began at `origin`; the state table must allow it. */
    method Step(ghost origin: Db, request: Id, expected: RequestState, next: RequestState) returns (state: RequestState)
      requires Walked(origin, db, request, expected) && CanTransition(expected, next)
      modifies this
      ensures state == next && Walked(origin, db, request, next)
    {
      StateSet(origin, request, expected);
      StateOverwritten(origin, request, expected, next);
      var error := TransitionRequest(request, expected, next);
      state := next;
    }

    /** The last move of a walk, which the state table may refuse. */
    method LastStep(ghost origin: Db, request: Id, expected: RequestState, next: RequestState) returns (error: Option<Error>)
      requires Walked(origin, db, request, expected)
      modifies this
      ensures error == if CanTransition(expected, next) then None else Some(InvalidTransition)
      ensures error.None? ==> Walked(origin, db, request, next)
    {
      StateSet(origin, request, expected);
      StateOverwritten(origin, request, expected, next);
      error := TransitionRequest(request, expected, next);
    }

    /** The moves of a succeeding parent request up to `completing`. */
    method CompleteParent(ghost origin: Db, parent: Id, from: RequestState) returns (state: RequestState)
      requires Walked(origin, db, parent, from)
      modifies this
      ensures Walked(origin, db, parent, state)
      ensures state == if from == Validating || from == Reserved || from == Queued || from == Dispatched
                       then Completing else from
    {
      hide Walked;
      state := from;
      if state == Validating {
        state := Step(origin, parent, state, Reserved);
      }
      if state == Reserved {
        state := Step(origin, parent, state, Queued);
      }
      if state == Queued {
        state := Step(origin, parent, state, Dispatched);
      }
      if state == Dispatched {
        state := Step(origin, parent, state, Completing);
      }
    }

    /** The moves of a canceled parent request up to `cancel_requested`. */
    method CancelParent(ghost origin: Db, parent: Id, from: RequestState) returns (state: RequestState)
      requires Walked(origin, db, parent, from)
      modifies this
      ensures Walked(origin, db, parent, state)
      ensures state == if from == Validating || from == Reserved || from == Queued || from == Dispatched
                          || from == Completing
                       then CancelRequested else from
    {
      hide Walked;
      state := from;
      if state == Validating || state == Reserved || state == Queued || state == Dispatched || state == Completing {
        if state == Validating {
          state := Step(origin, parent, state, Reserved);
        }
        state := Step(origin, parent, state, CancelRequested);
      }
    }

    /** finish_parent_request_execution: the walk of a parent request to the outcome of its operation. */
    method FinishParentRequest(parent: Id, terminal: ExecState) returns (error: Option<Error>)
      requires Terminal(terminal)
      modifies this
      ensures error ==
              if parent !in old(db).requests then Some(RequestNotFound)
              else if FinishParent(old(db).requests[parent].state, terminal).Err? then
                Some(FinishParent(old(db).requests[parent].state, terminal).error)
              else None
      ensures error.None? ==>
                db == SetRequestState(old(db), parent, FinishParent(old(db).requests[parent].state, terminal).value)
    {
      hide SetRequestState;
      ghost var origin := db;
      if parent !in db.requests {
        return Some(RequestNotFound);
      }
      var state := db.requests[parent].state;
      StateUnmoved(db, parent);
      var target := TargetOf(terminal);
      if state == target {
        return None;
      }
      if state == Succeeded || state == Failed || state == Canceled || state == Settled {
        return Some(IdempotencyConflict);
      }
      hide Walked;
      if state == Received {
        state := Step(origin, parent, state, Validating);
      }
      if terminal == ExecSucceeded {
        state := CompleteParent(origin, parent, state);
      } else if terminal == ExecCanceled {
        state := CancelParent(origin, parent, state);
      } else if state == CancelRequested {
        state := Step(origin, parent, state, UnknownOutcome);
      }
      error := LastStep(origin, parent, state, target);
    }

    /** The first moves of the walk of an assist request: up to `reserved`, unless its step failed. */
    method OpenForSync(ghost origin: Db, request: Id, from: RequestState, terminal: ExecState)
      returns (state: RequestState)
      requires Walked(origin, db, request, from)
      modifies this
      ensures Walked(origin, db, request, state)
      ensures state == if from == Received || from == Validating then
                         if terminal == ExecFailed then Validating else Reserved
                       else from
    {
      hide Walked;
      state := from;
      if state == Received {
        state := Step(origin, request, state, Validating);
      }
      if state == Validating && terminal != ExecFailed {
        state := Step(origin, request, state, Reserved);
      }
    }

    /** The next moves: a cancellation is requested first, a dispatched request that succeeded completes first. */
    method CloseForSync(ghost origin: Db, request: Id, from: RequestState, terminal: ExecState)
      returns (state: RequestState)
      requires Walked(origin, db, request, from)
      modifies this
      ensures Walked(origin, db, request, state)
      ensures state == if terminal == ExecCanceled
                          && (from == Reserved || from == Queued || from == Dispatched || from == Completing)
                       then CancelRequested
                       else if terminal == ExecSucceeded && from == Dispatched then Completing
                       else from
    {
      hide Walked;
      state := from;
      if state == Reserved && terminal == ExecCanceled {
        state := Step(origin, request, state, CancelRequested);
      }
      if state == Queued && terminal == ExecCanceled {
        state := Step(origin, request, state, CancelRequested);
      }
      if terminal == ExecSucceeded && state == Dispatched {
        state := Step(origin, request, state, Completing);
      }
      if terminal == ExecCanceled && (state == Dispatched || state == Completing) {
        state := Step(origin, request, state, CancelRequested);
      }
    }

    /** sync_assist_request_execution: the walk of an assist request to the outcome of its step. */
    method SyncAssistRequest(request: Id, terminal: ExecState) returns (error: Option<Error>)
      requires Terminal(terminal)
      modifies this
      ensures error == if SyncedState(old(db), request, terminal).Err?
                       then Some(SyncedState(old(db), request, terminal).error) else None
      ensures error.None? ==> db == SyncRows(old(db), request, terminal)
    {
      hide SetRequestState;
      ghost var origin := db;
      if request !in db.requests {
        return Some(RequestNotFound);
      }
      var state := db.requests[request].state;
      StateUnmoved(db, request);
      hide Walked;
      state := OpenForSync(origin, request, state, terminal);
      state := CloseForSync(origin, request, state, terminal);
      var target := TargetOf(terminal);
      if state == target {
        return None;
      }
      error := LastStep(origin, request, state, target);
    }

    // Ledger rows

    /** insert_reservation_budget_event: one entry for each account of the hold, under the account's version. */
    method InsertReservationBudgetEvent(
      hold: Reservation, kind: EventKind, amount: int, delta: int, revision: Option<int>)
      modifies this
      ensures db == old(db).(ledger := old(db).ledger
                                       + HoldEntries(old(db).accounts, hold, kind, amount, delta, revision))
    {
      hide VersionOf;
      var entry := HoldEntry(db.accounts, hold, hold.keyAccount, kind, amount, delta, revision);
      db := db.(ledger := db.ledger + [entry]);
      if hold.userCap.Some? {
        entry := HoldEntry(db.accounts, hold, hold.userCap.value, kind, amount, delta, revision);
        db := db.(ledger := db.ledger + [entry]);
      }
    }

    /** advance_budget_account */
    method AdvanceBudgetAccount(account: nat) returns (version: int)
      requires account < |db.accounts|
      modifies this
      ensures db == old(db).(accounts := AdvanceAccount(old(db).accounts, account))
      ensures version == VersionOf(db.accounts, account)
    {
      version := db.accounts[account].version + 1;
      db := db.(accounts := db.accounts[account := db.accounts[account].(version := version)]);
    }

    method AdjustAccount(hold: Reservation, account: nat, amount: int, delta: int, revision: int)
      requires account < |db.accounts|
      modifies this
      ensures db == AdjustedOn(old(db), hold, account, amount, delta, revision)
    {
      var version := AdvanceBudgetAccount(account);
      var entry := Entry(account, AdjustHoldEvent, amount, delta, Some(hold.request), hold.user, Some(hold.key),
                         hold.group, version, Some(revision));
      db := db.(ledger := db.ledger + [entry]);
    }

    /** The loop of refresh_budget_authorization over the hold's accounts: a new version each, and an entry under it. */
    method AdjustHold(hold: Reservation, amount: int, delta: int, revision: int)
      requires AccountsKnown(db.accounts, AccountsOf(hold)) && hold.userCap != Some(hold.keyAccount)
      modifies this
      ensures var accounts := AdvanceAll(old(db).accounts, hold);
              db == old(db).(accounts := accounts,
                             ledger := old(db).ledger
                                       + HoldEntries(accounts, hold, AdjustHoldEvent, amount, delta, Some(revision)))
    {
      hide AdjustedOn, AdvanceAll, HoldEntries;
      ghost var before := db;
      var ids := AccountsOf(hold);
      for i := 0 to |ids|
        invariant AccountsKnown(db.accounts, ids)
        invariant db == AdjustedUpTo(before, hold, ids[..i], amount, delta, revision)
      {
        assert ids[..i + 1] == ids[..i] + [ids[i]];
        AdjustedKeepsAccounts(db, hold, ids[i], amount, delta, revision, ids);
        AdjustAccount(hold, ids[i], amount, delta, revision);
      }
      assert ids[..|ids|] == ids;
      AdjustedAll(before, hold, amount, delta, revision);
    }

    // Receipts

    /** INSERT OR IGNORE into budget_receipt_evidence */
    method InsertBudgetReceiptEvidence(request: Id, hash: EvidenceHash, row: Evidence)
      modifies this
      ensures db == InsertEvidence(old(db), request, hash, row)
    {
      var rows := EvidenceOf(db, request);
      if hash !in rows {
        db := db.(evidence := db.evidence[request := rows[hash := row]]);
      }
    }

    /** record_budget_receipt_conflict_in_transaction: the row, the step's state and the Key's block. */
    method RecordReceiptConflict(request: Id, hash: EvidenceHash, row: Evidence)
      requires request in db.steps
      modifies this
      ensures db == ConflictRows(old(db), request, hash, row)
    {
      hide EvidenceOf;
      InsertBudgetReceiptEvidence(request, hash, row);
      var key := db.steps[request].auth.key;
      if db.steps[request].fin != FinReleased {
        db := db.(steps := db.steps[request := db.steps[request].(fin := FinConflict)]);
      } else {
        assert db.steps[request := db.steps[request]] == db.steps;
      }
      db := db.(blocks := db.blocks + {key});
    }

    /** The statements that settle a step: evidence, reservation, commit entries, step, and then the settlement. */
    method SettleStep(now: Millis, input: ReceiptInput)
      requires input.receipt.request in db.steps
      requires db.steps[input.receipt.request].reservation < |db.reservations|
      modifies this
      ensures db == SettleRows(old(db), now, input)
    {
      hide EvidenceOf, InsertEvidence, HoldEntries, HashOf, EvidenceFor, ChargeOf, MinAvailable;
      ghost var before := db;
      var r := input.receipt.request;
      var step := db.steps[r];
      var hold := db.reservations[step.reservation];
      var actual := ChargeOf(input.receipt);
      NoteKeepsTables(db, r, HashOf(input), EvidenceFor(input, ReceiptRecord, Some(actual), None, now));
      InsertBudgetReceiptEvidence(r, HashOf(input), EvidenceFor(input, ReceiptRecord, Some(actual), None, now));
      db := db.(reservations := db.reservations[step.reservation := hold.(state := HoldCommitted)]);
      InsertReservationBudgetEvent(hold, CommitEvent, actual, step.auth.hold - actual, LatestRevision(db, r));
      db := db.(steps := db.steps[r := step.(fin := FinSettled, actual := Some(actual))]);
      var debt := InDebt(db.ledger, hold);
      db := db.(settlements := db.settlements[r := NewSettlement(step, input, debt, now)]);
    }

    /** The reservation and the step of a pending receipt go to `unknown`. */
    method MarkStepUnknown(request: Id)
      requires request in db.steps && db.steps[request].reservation < |db.reservations|
      modifies this
      ensures db == MarkUnknown(old(db), request)
    {
      var step := db.steps[request];
      var hold := db.reservations[step.reservation];
      db := db.(reservations := db.reservations[step.reservation := hold.(state := HoldUnknown)]);
      db := db.(steps := db.steps[request := step.(fin := FinUnknown)]);
    }

    // Grants

    /** The account, created at version 1 or moved to its next version, and the entry that credits it. */
    method CreditAccount(found: Option<nat>, initial: Account, amount: int) returns (reply: Result<Mutation, Error>)
      requires found.Some? ==> found.value < |db.accounts|
      modifies this
      ensures reply == (var error := CreditError(old(db).accounts, found);
                        if error.Some? then Err(error.value) else Ok(Applied))
      ensures reply.Ok? ==> db == CreditRows(old(db), found, initial, amount)
    {
      var account;
      var version;
      if found.None? {
        account := |db.accounts|;
        version := initial.version;
        db := db.(accounts := db.accounts + [initial]);
      } else {
        account := found.value;
        if !AccountReady(db.accounts[account]) {
          return Err(AccountNotReady);
        }
        if db.accounts[account].version >= MAX_I64 {
          return Err(InvalidConfiguration);
        }
        version := AdvanceBudgetAccount(account);
      }
      var owner := db.accounts[account];
      db := db.(ledger := db.ledger + [GrantEntry(db.ledger, account, owner.user, owner.key, amount, version)]);
      return Ok(Applied);
    }

    /** The step row and its first revision. */
    method InsertStep(now: Millis, operation: Id, kind: StepKind, auth: Authorization, reservation: nat)
      modifies this
      ensures db == RecordStep(old(db), now, operation, kind, auth, reservation)
    {
      db := db.(steps := db.steps[auth.request := NewStep(operation, kind, auth, reservation)]);
      db := db.(revisions := db.revisions[auth.request := RevisionsOf(db, auth.request) + [FirstRevision(auth, now)]]);
    }

    /** The parent goes from `received` to `reserved`, and its open preparation is admitted. */
    method AdmitParent(parent: Id)
      requires parent in db.requests && db.requests[parent].state == Received
      modifies this
      ensures db == AdmitPreparation(SetRequestState(old(db), parent, Reserved), parent)
    {
      hide SetRequestState, Walked;
      ghost var origin := db;
      StartWalk(db, parent);
      var state := Step(origin, parent, Received, Validating);
      state := Step(origin, parent, Validating, Reserved);
      EndWalk(origin, db, parent, Reserved);
      if parent in db.preparations {
        db := db.(preparations := db.preparations[parent := db.preparations[parent].(state := PrepAdmitted)]);
      }
    }

    /** reserve_dual_in_transaction */
    method ReserveDual(user: Id, key: Id, request: Id, amount: int, expiresAt: int) returns (r: Result<Reservation, Error>)
      modifies this
      ensures r == HoldFor(old(db), user, key, request, amount, expiresAt)
      ensures db == if r.Ok? then HoldRows(old(db), r.value) else old(db)
    {
      hide HasReservation, MinAvailable, HoldEntries;
      if HasReservation(db, request) {
        return Err(ReservationConflict);
      }
      var keyAccount := FindKeyAccount(db.accounts, key, user);
      if keyAccount.None? {
        return Err(KeyQuotaNotConfigured);
      }
      if !AccountReady(db.accounts[keyAccount.value]) {
        return Err(AccountNotReady);
      }
      var cap := FindUserCap(db.accounts, user);
      if cap.Some? && !AccountReady(db.accounts[cap.value]) {
        return Err(AccountNotReady);
      }
      var available := MinAvailable(db.ledger, keyAccount.value, cap);
      if available < amount {
        return Err(QuotaInsufficient(available, amount));
      }
      var hold := NewHold(user, key, request, amount, expiresAt, keyAccount.value, cap, |db.reservations|);
      db := db.(reservations := db.reservations + [hold]);
      InsertReservationBudgetEvent(hold, ReserveEvent, amount, -amount, Some(1));
      return Ok(hold);
    }
  }

  class CoreStore {
    var db: Db

    constructor (committed: Db)
      ensures db == committed
    {
      db := committed;
    }

    /** Loads an event group and runs the integrity check over it. */
    method GroupIntact(id: nat) returns (intact: bool)
      requires id < |db.reservations|
      ensures intact <==> GroupValid(db, id)
    {
      hide ViewValid;
      var view := ViewOf(db, id);
      if view.None? {
        return false;
      }
      intact := Validator.ValidateGroup(db.accounts, view.value);
    }

    /** The guards of mark_budget_step_dispatched that only read; the request's state is the writer's to check. */
    method GuardDispatch(now: Millis, request: Id, expected: Id) returns (verdict: Verdict)
      ensures DispatchVerdict(db, now, request, expected)
              == if verdict == Proceed && request !in db.requests then Refusal(RequestNotFound)
                 else if verdict == Proceed && !Dispatchable(db.requests[request].state) then Refusal(InvalidTransition)
                 else verdict
      ensures verdict == Proceed ==> request in db.steps && db.steps[request].operation in db.operations
    {
      hide GroupValid, HasV2Context, KeyBlockedIn, AllReady, MinAvailable, AccountsOf, Dispatchable;
      if request !in db.steps {
        return Refusal(RequestNotFound);
      }
      var step := db.steps[request];
      if step.auth.budgetId != expected {
        return Refusal(IdempotencyConflict);
      }
      var found := ReservationFor(db.reservations, request);
      if found.None? {
        return Refusal(ReservationNotFound);
      }
      var hold := db.reservations[found.value];
      if HasV2Context(db, found.value, request) {
        var intact := GroupIntact(found.value);
        if !intact {
          return Refusal(IntegrityRefused);
        }
        if !AllReady(db.accounts, AccountsOf(hold)) {
          return Refusal(AccountNotReady);
        }
      }
      if step.dispatched {
        if step.exec == ExecRunning || step.exec == ExecUnknown {
          return Replay;
        }
        return Refusal(IdempotencyConflict);
      }
      if step.exec != ExecReady || step.fin != FinHeld {
        return Refusal(IdempotencyConflict);
      }
      if step.auth.expiresAt <= now {
        return Refusal(QuoteExpired);
      }
      if step.operation !in db.operations {
        return Refusal(IdempotencyConflict);
      }
      var operation := db.operations[step.operation];
      if operation.state != ExecReady && operation.state != ExecRunning {
        return Refusal(IdempotencyConflict);
      }
      if step.auth.key !in db.keys || !db.keys[step.auth.key].active {
        return Refusal(InvalidIdentity);
      }
      if KeyBlockedIn(db, step.auth.key) {
        return Refusal(KeyBlocked);
      }
      if !AllReady(db.accounts, AccountsOf(hold)) {
        return Refusal(AccountNotReady);
      }
      var available := MinAvailable(db.ledger, hold.keyAccount, hold.userCap);
      if available < 0 {
        return Refusal(QuotaInsufficient(available, hold.amount));
      }
      return Proceed;
    }

    /** mark_budget_step_dispatched */
    method MarkBudgetStepDispatched(now: Millis, request: Id, expected: Id) returns (reply: Result<Mutation, Error>)
      modifies this
      ensures Tx(db, reply) == Dispatch(old(db), now, request, expected)
    {
      hide DispatchVerdict, Dispatchable, KeyBlockedIn, Terminal;
      var verdict := GuardDispatch(now, request, expected);
      if verdict == Replay {
        return Ok(Duplicate);
      }
      if verdict.Refusal? {
        return Err(verdict.error);
      }
      var tx := new Transaction(db);
      var error := tx.AdvanceRequestToDispatched(request);
      if error.Some? {
        return Err(error.value);
      }
      var step := db.steps[request];
      tx.db := tx.db.(steps := tx.db.steps[request := step.(dispatched := true, exec := ExecRunning)]);
      tx.db := tx.db.(operations := tx.db.operations[step.operation :=
                                                     tx.db.operations[step.operation].(state := ExecRunning)]);
      db := tx.db;
      return Ok(Applied);
    }

    // Admission

    /** begin_budget_operation */
    method BeginBudgetOperation(now: Millis, parent: Id, kind: StepKind, auth: Authorization)
      returns (reply: Result<Mutation, Error>)
      modifies this
      ensures Tx(db, reply) == Begin(old(db), now, parent, kind, auth)
    {
      hide BeginVerdict, HoldFor, HoldRows, CheckPreparation, CheckIdentity, KeyBlockedIn, AdmissionCount, BudgetIdUsed,
           Blank, MinAvailable, RecordStep, SetRequestState, AdmitPreparation, NewStepRows, Opened;
      var verdict := BeginVerdict(db, now, parent, kind, auth);
      if verdict == Replay {
        return Ok(Duplicate);
      }
      if verdict.Refusal? {
        return Err(verdict.error);
      }
      var tx := new Transaction(db);
      var held := tx.ReserveDual(db.requests[parent].identity.user, auth.key, auth.request, auth.hold, auth.expiresAt);
      BeginRowsInOrder(db, now, parent, kind, auth, held.value);
      tx.db := tx.db.(operations := tx.db.operations[parent := Operation(auth.key, ExecReady)]);
      tx.InsertStep(now, parent, kind, auth, |db.reservations|);
      tx.AdmitParent(parent);
      db := tx.db;
      return Ok(Applied);
    }

    /** add_budget_step */
    method AddBudgetStep(now: Millis, parent: Id, kind: StepKind, auth: Authorization)
      returns (reply: Result<Mutation, Error>)
      modifies this
      ensures Tx(db, reply) == Add(old(db), now, parent, kind, auth)
    {
      hide AddVerdict, HoldFor, HoldRows, AddFits, KeyBlockedIn, BudgetIdUsed, Blank, MinAvailable, RecordStep;
      var verdict := AddVerdict(db, now, parent, kind, auth);
      if verdict == Replay {
        return Ok(Duplicate);
      }
      if verdict.Refusal? {
        return Err(verdict.error);
      }
      AddParent(db, now, parent, kind, auth);
      var tx := new Transaction(db);
      var held := tx.ReserveDual(db.requests[parent].identity.user, auth.key, auth.request, auth.hold, auth.expiresAt);
      tx.InsertStep(now, parent, kind, auth, |db.reservations|);
      db := tx.db;
      return Ok(Applied);
    }

    // Releasing

    /** release_unattempted_budget_step */
    method ReleaseUnattemptedBudgetStep(request: Id, reason: string) returns (reply: Result<Mutation, Error>)
      modifies this
      ensures Tx(db, reply) == Release(old(db), request, reason)
    {
      hide ReleaseVerdict, SyncRows, SyncedState, HoldEntries, Trim;
      var verdict := ReleaseVerdict(db, request, reason);
      if verdict == Replay {
        return Ok(Duplicate);
      }
      if verdict.Refusal? {
        return Err(verdict.error);
      }
      var step := db.steps[request];
      var hold := db.reservations[step.reservation];
      var tx := new Transaction(db);
      if SyncsOnRelease(step) {
        var error := tx.SyncAssistRequest(request, ExecCanceled);
      }
      tx.db := tx.db.(reservations := tx.db.reservations[step.reservation := hold.(state := HoldReleased)]);
      tx.InsertReservationBudgetEvent(hold, ReleaseEvent, hold.amount, hold.amount, LatestRevision(tx.db, request));
      var exec := if step.exec == ExecReady then ExecCanceled else step.exec;
      tx.db := tx.db.(steps := tx.db.steps[request :=
                                           step.(fin := FinReleased, exec := exec, releaseReason := Some(Trim(reason)))]);
      db := tx.db;
      return Ok(Applied);
    }

    // Execution facts

    /** bind_budget_video_task */
    method BindBudgetVideoTask(request: Id, task: Id) returns (reply: Result<Mutation, Error>)
      modifies this
      ensures Tx(db, reply) == Bind(old(db), request, task)
    {
      hide Blank;
      if Blank(task) {
        return Err(QuoteMismatch);
      }
      if request !in db.steps {
        return Err(RequestNotFound);
      }
      var step := db.steps[request];
      if step.kind != Video || !step.dispatched {
        return Err(QuoteMismatch);
      }
      if step.task.Some? {
        if step.task.value == task {
          return Ok(Duplicate);
        }
        return Err(IdempotencyConflict);
      }
      if step.exec == ExecFailed || step.exec == ExecCanceled {
        return Err(IdempotencyConflict);
      }
      db := db.(steps := db.steps[request := step.(task := Some(task))]);
      return Ok(Applied);
    }

    /** mark_budget_step_execution */
    method MarkBudgetStepExecution(request: Id, next: ExecState) returns (reply: Result<Mutation, Error>)
      modifies this
      ensures Tx(db, reply) == MarkExecution(old(db), request, next)
    {
      hide MarkVerdict, SyncRows, SyncedState, Terminal;
      var verdict := MarkVerdict(db, request, next);
      if verdict == Replay {
        return Ok(Duplicate);
      }
      if verdict.Refusal? {
        return Err(verdict.error);
      }
      var step := db.steps[request];
      var tx := new Transaction(db);
      if SyncsOnMark(step, next) {
        var error := tx.SyncAssistRequest(request, next);
      }
      tx.db := tx.db.(steps := tx.db.steps[request := step.(exec := next)]);
      var state := if next == ExecUnknown then ExecUnknown else ExecRunning;
      tx.db := tx.db.(operations := tx.db.operations[step.operation :=
                                                     tx.db.operations[step.operation].(state := state)]);
      db := tx.db;
      return Ok(Applied);
    }

    /** finish_budget_execution */
    method FinishBudgetExecution(parent: Id, terminal: ExecState) returns (reply: Result<Mutation, Error>)
      modifies this
      ensures Tx(db, reply) == Finish(old(db), parent, terminal)
    {
      hide FinishVerdict, FinishParent, Terminal, AllStepsTerminal;
      var verdict := FinishVerdict(db, parent, terminal);
      if verdict == Replay {
        return Ok(Duplicate);
      }
      if verdict.Refusal? {
        return Err(verdict.error);
      }
      var tx := new Transaction(db);
      var error := tx.FinishParentRequest(parent, terminal);
      tx.db := tx.db.(operations := tx.db.operations[parent := tx.db.operations[parent].(state := terminal)]);
      db := tx.db;
      return Ok(Applied);
    }

    // Refreshing

    /** refresh_budget_authorization */
    method RefreshBudgetAuthorization(
      now: Millis, request: Id, expectedOld: Id, replacement: Authorization, proof: Proof)
      returns (reply: Result<Mutation, Error>)
      modifies this
      ensures Tx(db, reply) == Refresh(old(db), now, request, expectedOld, replacement, proof)
    {
      hide RefreshVerdict, BudgetIdUsed, KeyBlockedIn, Blank, MinAvailable, HoldEntries, AdvanceAll, NextRevision;
      var verdict := RefreshVerdict(db, now, request, expectedOld, replacement, proof);
      if verdict == Replay {
        return Ok(Duplicate);
      }
      if verdict.Refusal? {
        return Err(verdict.error);
      }
      var step := db.steps[request];
      var hold := db.reservations[step.reservation];
      var rows := RevisionsOf(db, request);
      var delta := step.auth.hold - replacement.hold;
      var tx := new Transaction(db);
      tx.db := tx.db.(steps := tx.db.steps[request :=
                                           step.(auth := replacement, digest := AuthorizationDigest(replacement))]);
      tx.db := tx.db.(reservations :=
                        tx.db.reservations[step.reservation :=
                                           hold.(amount := replacement.hold, expiresAt := replacement.expiresAt)]);
      tx.AdjustHold(hold, Abs(delta), delta, |rows| + 1);
      tx.db := tx.db.(revisions := tx.db.revisions[request :=
                                                   rows + [NextRevision(rows, now, expectedOld, replacement, proof)]]);
      db := tx.db;
      return Ok(Applied);
    }

    // Receipts

    /** apply_budget_receipt */
    method ApplyBudgetReceipt(now: Millis, input: ReceiptInput) returns (reply: Result<ReceiptReply, Error>)
      modifies this
      ensures Tx(db, reply) == ApplyReceipt(old(db), now, input)
    {
      hide ReceiptCourse, ReceiptMalformed, CheckReceiptOwner, AlreadyRecorded, EvidenceOf, TaskConflict, SameSettlement,
           Unsettled, HashOf, NoteRow, ContradictionRow, ConflictRows, InsertEvidence, MarkUnknown, SettleRows, CommitLedger,
           InDebt, ChargeOf, AccountsKnown, AccountsOf;
      var course := ReceiptCourse(db, input);
      var r := input.receipt.request;
      var tx := new Transaction(db);
      match course
      case Reject(error) =>
        return Err(error);
      case Answer(answer) =>
        return Ok(answer);
      case Contradict(reason) =>
        tx.RecordReceiptConflict(r, HashOf(input), ContradictionRow(input, reason, now));
        db := tx.db;
        return Ok(ConflictReply);
      case Note(answer) =>
        tx.InsertBudgetReceiptEvidence(r, HashOf(input), NoteRow(input, now));
        db := tx.db;
        return Ok(answer);
      case Suspend =>
        NoteKeepsTables(db, r, HashOf(input), NoteRow(input, now));
        tx.InsertBudgetReceiptEvidence(r, HashOf(input), NoteRow(input, now));
        tx.MarkStepUnknown(r);
        db := tx.db;
        return Ok(PendingReply);
      case Charge =>
        tx.SettleStep(now, input);
        var settled := SettledReplyFor(db, input);
        db := tx.db;
        return Ok(settled);
    }

    /** mark_budget_receipt_conflict */
    method MarkBudgetReceiptConflict(now: Millis, input: ConflictInput) returns (reply: Result<Mutation, Error>)
      modifies this
      ensures Tx(db, reply) == MarkConflict(old(db), now, input)
    {
      hide ConflictVerdict, Blank, BlankHash, EvidenceOf, ConflictRows, ReportedRow;
      var verdict := ConflictVerdict(db, input);
      if verdict == Replay {
        return Ok(Duplicate);
      }
      if verdict.Refusal? {
        return Err(verdict.error);
      }
      var tx := new Transaction(db);
      tx.RecordReceiptConflict(input.request, input.hash, ReportedRow(input, now));
      db := tx.db;
      return Ok(Applied);
    }

    // Grants

    /** key_quota_grant_as_admin */
    method GrantKeyQuota(key: Id, amount: int) returns (reply: Result<Mutation, Error>)
      modifies this
      ensures Tx(db, reply) == GrantKey(old(db), key, amount)
    {
      if amount <= 0 {
        return Err(InvalidAmount);
      }
      if key !in db.keys {
        return Err(KeyNotFound);
      }
      if !db.keys[key].active {
        return Err(InvalidIdentity);
      }
      var user := db.keys[key].user;
      var found := FindAccountOfKey(db.accounts, key);
      if found.Some? && db.accounts[found.value].user != user {
        return Err(KeyOwnershipMismatch);
      }
      var tx := new Transaction(db);
      reply := tx.CreditAccount(found, Account(KeyScope, user, Some(key), 1, true, Ready), amount);
      if reply.Ok? {
        db := tx.db;
      }
    }

    /** quota_pool_grant_as_admin */
    method GrantQuotaPool(user: Id, amount: int) returns (reply: Result<Mutation, Error>)
      modifies this
      ensures Tx(db, reply) == GrantPool(old(db), user, amount)
    {
      if amount <= 0 {
        return Err(InvalidAmount);
      }
      var found := FindUserCap(db.accounts, user);
      var tx := new Transaction(db);
      if found.Some? && db.accounts[found.value].mode == LegacyUnassigned {
        tx.db := tx.db.(accounts := tx.db.accounts[found.value := tx.db.accounts[found.value].(mode := Ready)]);
      }
      reply := tx.CreditAccount(found, Account(UserCapScope, user, None, 1, true, Ready), amount);
      if reply.Ok? {
        db := tx.db;
      }
    }

    /** The fold over the Key accounts in upstream_credit_capacity_in_transaction, checked against i64 at each step. */
    method CommittedCapacity() returns (r: Result<int, Error>)
      ensures r == if CommitmentOverflows(db) then Err(InvalidConfiguration) else Ok(Committed(db))
    {
      hide Available, HeldOn;
      var total := 0;
      for i := 0 to |db.accounts|
        invariant total == CommittedTo(db, i)
        invariant forall j | 0 <= j < i :: !OverflowsAt(db, j)
      {
        if db.accounts[i].scope == KeyScope {
          var commitment := Available(db.ledger, i) + HeldOn(db.reservations, i);
          if commitment < MIN_I64 || commitment > MAX_I64 {
            assert OverflowsAt(db, i);
            return Err(InvalidConfiguration);
          }
          total := total + if commitment < 0 then 0 else commitment;
          if total > MAX_I64 {
            assert OverflowsAt(db, i);
            return Err(InvalidConfiguration);
          }
        }
      }
      return Ok(total);
    }

    /** key_quota_allocate_from_upstream_as_admin */
    method AllocateFromUpstream(now: Millis, key: Id, amount: int, snapshot: Snapshot)
      returns (reply: Result<Mutation, Error>)
      modifies this
      ensures Tx(db, reply) == Allocate(old(db), now, key, amount, snapshot)
    {
      hide GrantKey, Committed, CommitmentOverflows;
      if amount <= 0 {
        return Err(InvalidAmount);
      }
      if !SnapshotFresh(snapshot, now) {
        return Err(SnapshotUnavailable);
      }
      var committed := CommittedCapacity();
      if committed.Err? {
        return Err(committed.error);
      }
      if committed.value > snapshot.total {
        return Err(CommitmentsExceedBalance);
      }
      if amount > snapshot.total - committed.value {
        return Err(UpstreamLimitExceeded(snapshot.total - committed.value, amount));
      }
      reply := GrantKeyQuota(key, amount);
    }

    /** allocated_key_quota_in_transaction: the fold over the Keys that draw on the pool, checked against i64. */
    method AllocatedKeyQuota(user: Id) returns (r: Result<int, Error>)
      ensures r == if DrawnOverflows(db, user) then Err(InvalidConfiguration) else Ok(Drawn(db, user))
    {
      hide Available, HeldOn, DrawsOnPool;
      var total := 0;
      for i := 0 to |db.accounts|
        invariant total == DrawnTo(db, user, i)
        invariant forall j | 0 <= j < i :: !DrawnOverflowsAt(db, user, j)
      {
        if DrawsOnPool(db, user, i) {
          total := total + Clamped(Available(db.ledger, i) + HeldOn(db.reservations, i));
        }
        if total < MIN_I64 || total > MAX_I64 {
          assert DrawnOverflowsAt(db, user, i);
          return Err(InvalidConfiguration);
        }
      }
      return Ok(total);
    }

    /** key_quota_allocate_from_pool_as_admin */
    method AllocateKeyFromPool(key: Id, amount: int) returns (reply: Result<Mutation, Error>)
      modifies this
      ensures Tx(db, reply) == AllocateFromPool(old(db), key, amount)
    {
      hide GrantKey, Drawn, DrawnOverflows, Available;
      if amount <= 0 {
        return Err(InvalidAmount);
      }
      if key !in db.keys {
        return Err(KeyNotFound);
      }
      if !db.keys[key].active {
        return Err(InvalidIdentity);
      }
      var user := db.keys[key].user;
      var pool := FindUserCap(db.accounts, user);
      if pool.None? {
        return Err(PoolNotConfigured);
      }
      var committed := db;
      var promoted := PromotedCap(db.accounts, user);
      if !AccountReady(promoted[pool.value]) {
        return Err(AccountNotReady);
      }
      var drawn := AllocatedKeyQuota(user);
      if drawn.Err? {
        return Err(drawn.error);
      }
      var rest := Clamped(Available(db.ledger, pool.value) - drawn.value);
      var allocatable := if rest < 0 then 0 else rest;
      if amount > allocatable {
        return Err(PoolInsufficient(allocatable, amount));
      }
      db := db.(accounts := promoted);
      reply := GrantKeyQuota(key, amount);
      if reply.Err? {
        db := committed;
      }
    }

    /** delete_api_key_as_admin */
    method DeleteApiKey(key: Id, facts: DeletionFacts) returns (reply: Result<int, Error>)
      modifies this
      ensures Tx(db, reply) == DeleteKey(old(db), key, facts)
    {
      hide Available, KeyInUse;
      if key !in db.keys {
        return Err(KeyNotFound);
      }
      if facts.administrators {
        return Err(DeletionBlocked);
      }
      if facts.deleted {
        return Ok(0);
      }
      if facts.working || KeyInUse(db, key) {
        return Err(DeletionBlocked);
      }
      var account := FindKeyAccount(db.accounts, key, db.keys[key].user);
      var returned := 0;
      if account.Some? {
        returned := Returned(db, account.value);
        if returned > 0 {
          var row := db.accounts[account.value];
          if row.version >= MAX_I64 {
            return Err(InvalidConfiguration);
          }
          db := db.(accounts := AdvanceAccount(db.accounts, account.value));
          db := db.(ledger := db.ledger
                              + [Entry(account.value, GrantEvent, returned, -returned, None, row.user, row.key,
                                       AdminGroup(|db.ledger|), row.version + 1, None)]);
        }
      }
      db := db.(keys := db.keys[key := db.keys[key].(active := false)]);
      reply := Ok(returned);
    }
  }
}
