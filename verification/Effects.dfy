/** What each transaction does to the money of every account, to the credit. */
module Effects {
  import opened Wrappers
  import opened Model
  import opened Ledger
  import opened EventGroup
  import opened Billing
  import opened Settling
  import opened Invariant
  import opened Frame
  import opened Preservation
  import opened AdmissionPreservation
  import opened Money
  import opened Tables
  import opened Solvency
  import opened Text

  /** Available, held and settled change by these amounts on the accounts of the hold, and nowhere else. */
  predicate MoneyMoves(db: Db, db': Db, hold: Reservation, account: nat, available: int, held: int, settled: int) {
    var charged := ChargedTo(hold, account);
    && Available(db'.ledger, account) - Available(db.ledger, account) == (if charged then available else 0)
    && HeldOn(db'.reservations, account) - HeldOn(db.reservations, account) == (if charged then held else 0)
    && SettledOn(db'.ledger, account) - SettledOn(db.ledger, account) == (if charged then settled else 0)
  }

  lemma RoundMoves(db: Db, db': Db, hold: Reservation, round: Round, account: nat, held: int)
    requires round.hold.keyAccount == hold.keyAccount && round.hold.userCap == hold.userCap
    requires hold.userCap != Some(hold.keyAccount)
    requires db'.ledger == db.ledger + RoundEntries(round)
    requires HeldOn(db'.reservations, account) - HeldOn(db.reservations, account)
             == (if ChargedTo(hold, account) then held else 0)
    ensures MoneyMoves(db, db', hold, account, round.delta, held, if round.kind == CommitEvent then round.amount else 0)
  {
    hide Available, HeldOn, SettledOn, GrantedOn, RoundEntries, OverrunOf, SumOf;
    RoundOnAccount(db.ledger, round, account);
  }

  // Taking a hold

  predicate TakesHold(db: Db, db': Db, auth: Authorization, account: nat) {
    && |db'.reservations| == |db.reservations| + 1
    && var hold := db'.reservations[|db.reservations|];
       && hold.request == auth.request && hold.key == auth.key && hold.amount == auth.hold && hold.state == HoldHeld
       && MinAvailable(db.ledger, hold.keyAccount, hold.userCap) >= auth.hold
       && MoneyMoves(db, db', hold, account, -auth.hold, auth.hold, 0)
  }

  lemma NewStepTakesHold(
    db: Db, before: Db, now: Millis, operation: Id, kind: StepKind, auth: Authorization, user: Id, account: nat)
    requires HoldFor(before, user, auth.key, auth.request, auth.hold, auth.expiresAt).Ok?
    requires db.ledger == before.ledger && db.accounts == before.accounts && db.reservations == before.reservations
    ensures var hold := HoldFor(before, user, auth.key, auth.request, auth.hold, auth.expiresAt).value;
            TakesHold(before, NewStepRows(db, now, operation, kind, auth, hold), auth, account)
  {
    hide HoldFor, HoldEntries, HasReservation, Available, HeldOn, SettledOn, MinAvailable, NewStep, FirstRevision,
         MoneyMoves;
    var hold := HoldFor(before, user, auth.key, auth.request, auth.hold, auth.expiresAt).value;
    var db' := NewStepRows(db, now, operation, kind, auth, hold);
    AppendReservation(before.reservations, hold, account);
    RoundMoves(before, db', hold, Round(db.accounts, hold, ReserveEvent, hold.amount, -hold.amount, Some(1)), account,
               hold.amount);
  }

  /** Beginning an operation moves exactly the authorized hold from available to held, on the accounts that cover it. */
  lemma BeginTakesHold(db: Db, now: Millis, parent: Id, kind: StepKind, auth: Authorization, account: nat)
    requires Begin(db, now, parent, kind, auth).reply == Ok(Applied)
    ensures TakesHold(db, Begin(db, now, parent, kind, auth).db, auth, account)
  {
    hide BeginVerdict, HoldFor, Opened, NewStepRows, TakesHold, CheckPreparation, CheckIdentity, AdmissionCount,
         KeyBlockedIn, BudgetIdUsed, Blank;
    OpenedShape(db, parent, auth.key);
    NewStepTakesHold(Opened(db, parent, auth.key), db, now, parent, kind, auth, db.requests[parent].identity.user, account);
  }

  /** So does adding a step. */
  lemma AddTakesHold(db: Db, now: Millis, parent: Id, kind: StepKind, auth: Authorization, account: nat)
    requires Add(db, now, parent, kind, auth).reply == Ok(Applied)
    ensures TakesHold(db, Add(db, now, parent, kind, auth).db, auth, account)
  {
    hide AddVerdict, HoldFor, NewStepRows, TakesHold, AddFits, KeyBlockedIn, BudgetIdUsed, Blank;
    AddRequests(db, now, parent, kind, auth);
    NewStepTakesHold(db, db, now, parent, kind, auth, db.requests[parent].identity.user, account);
  }

  // Moving, returning and charging a hold

  /** A refresh moves the difference between the old and the new hold. */
  lemma RefreshMovesDifference(
    db: Db, now: Millis, request: Id, expectedOld: Id, replacement: Authorization, proof: Proof, account: nat)
    requires Refresh(db, now, request, expectedOld, replacement, proof).reply == Ok(Applied)
    requires Inv(db)
    ensures request in db.steps && db.steps[request].reservation < |db.reservations|
    ensures var more := replacement.hold - db.steps[request].auth.hold;
            MoneyMoves(db, Refresh(db, now, request, expectedOld, replacement, proof).db,
                       db.reservations[db.steps[request].reservation], account, -more, more, 0)
  {
    hide Inv, RefreshVerdict, BudgetIdUsed, KeyBlockedIn, Blank, HoldEntries, Available, HeldOn, SettledOn, AdvanceAll,
         NextRevision, MoneyMoves;
    HoldOf(db, request);
    var step := db.steps[request];
    var hold := db.reservations[step.reservation];
    var hold' := hold.(amount := replacement.hold, expiresAt := replacement.expiresAt);
    var delta := step.auth.hold - replacement.hold;
    UpdateReservation(db.reservations, step.reservation, hold', account);
    RoundMoves(db, Refresh(db, now, request, expectedOld, replacement, proof).db, hold,
               Round(AdvanceAll(db.accounts, hold), hold, AdjustHoldEvent, Abs(delta), delta,
                     Some(|RevisionsOf(db, request)| + 1)),
               account, -delta);
  }

  lemma ReleaseRowsReturn(db: Db, synced: Db, request: Id, reason: string, account: nat)
    requires request in db.steps && db.steps[request].reservation < |db.reservations|
    requires synced == db.(requests := synced.requests)
    requires var hold := db.reservations[db.steps[request].reservation];
             hold.userCap != Some(hold.keyAccount) && Outstanding(hold.state)
    ensures var hold := db.reservations[db.steps[request].reservation];
            MoneyMoves(db, ReleaseRows(synced, request, reason), hold, account, hold.amount, -hold.amount, 0)
  {
    hide HoldEntries, Available, HeldOn, SettledOn, MoneyMoves, LatestRevision;
    var id := db.steps[request].reservation;
    var hold := db.reservations[id];
    UpdateReservation(db.reservations, id, hold.(state := HoldReleased), account);
    RoundMoves(db, ReleaseRows(synced, request, reason), hold,
               Round(db.accounts, hold, ReleaseEvent, hold.amount, hold.amount, LatestRevision(synced, request)), account,
               -hold.amount);
  }

  /** A release gives the whole hold back. */
  lemma ReleaseReturnsHold(db: Db, request: Id, reason: string, account: nat)
    requires Release(db, request, reason).reply == Ok(Applied)
    requires Inv(db)
    ensures request in db.steps && db.steps[request].reservation < |db.reservations|
    ensures var hold := db.reservations[db.steps[request].reservation];
            MoneyMoves(db, Release(db, request, reason).db, hold, account, hold.amount, -hold.amount, 0)
  {
    hide Inv, ReleaseVerdict, ReleaseRows, SyncRows, MoneyMoves, Trim;
    HoldOf(db, request);
    HeldIsOutstanding(db, request);
    var synced := if SyncsOnRelease(db.steps[request]) then SyncRows(db, request, ExecCanceled) else db;
    ReleaseRowsReturn(db, synced, request, Trim(reason), account);
  }

  /** A step whose money is held has its reservation open. */
  lemma HeldIsOutstanding(db: Db, request: Id)
    requires Inv(db) && request in db.steps && db.steps[request].fin == FinHeld
    ensures db.steps[request].reservation < |db.reservations|
    ensures Outstanding(db.reservations[db.steps[request].reservation].state)
  {
    hide EventsExact, HistoryValid, EvidenceSound, TablesSound, StepsSound, StepView;
    SoundStep(db, request);
    ViewParts(db, request);
  }

  /** A receipt that settles charges its actual amount, returns the rest of the hold, and reports debt exactly when there is some. */
  lemma ReceiptChargesActual(db: Db, now: Millis, input: ReceiptInput, account: nat)
    requires ReceiptCourse(db, input).Charge?
    requires Inv(db)
    ensures var r := input.receipt.request;
            r in db.steps && db.steps[r].reservation < |db.reservations|
    ensures var tx, actual := ApplyReceipt(db, now, input), ChargeOf(input.receipt);
            var hold := db.reservations[db.steps[input.receipt.request].reservation];
            && tx.reply == Ok(SettledReply(actual, hold.amount - actual,
                                           MinAvailable(tx.db.ledger, hold.keyAccount, hold.userCap) < 0))
            && MoneyMoves(db, tx.db, hold, account, hold.amount - actual, -hold.amount, actual)
  {
    hide Inv, ReceiptCourse, HoldEntries, InsertEvidence, NewSettlement, HashOf, EvidenceFor, Available, HeldOn, SettledOn,
         MinAvailable, MoneyMoves, ReceiptFits, TaskConflict, AccountsKnown, ChargeOf, LatestRevision;
    var r := input.receipt.request;
    CourseStep(db, input);
    HoldOf(db, r);
    var id := db.steps[r].reservation;
    var hold, actual := db.reservations[id], ChargeOf(input.receipt);
    InsertShape(db, r, HashOf(input), EvidenceFor(input, ReceiptRecord, Some(actual), None, now));
    UpdateReservation(db.reservations, id, hold.(state := HoldCommitted), account);
    RoundMoves(db, SettleRows(db, now, input), hold,
               Round(db.accounts, hold, CommitEvent, actual, hold.amount - actual, LatestRevision(db, r)), account,
               -hold.amount);
  }

  /** Releasing undoes beginning: on every account the money is as it was before. */
  lemma ReleaseUndoesBegin(
    db: Db, now: Millis, parent: Id, kind: StepKind, auth: Authorization, reason: string, account: nat)
    requires Begin(db, now, parent, kind, auth).reply == Ok(Applied)
    requires Release(Begin(db, now, parent, kind, auth).db, auth.request, reason).reply == Ok(Applied)
    requires Inv(db)
    ensures var after := Release(Begin(db, now, parent, kind, auth).db, auth.request, reason).db;
            && Available(after.ledger, account) == Available(db.ledger, account)
            && HeldOn(after.reservations, account) == HeldOn(db.reservations, account)
            && SettledOn(after.ledger, account) == SettledOn(db.ledger, account)
  {
    hide Inv, Begin, Release, Available, HeldOn, SettledOn, MinAvailable;
    var begun := Begin(db, now, parent, kind, auth).db;
    BeginKeepsInv(db, now, parent, kind, auth);
    BeginTakesHold(db, now, parent, kind, auth, account);
    ReleaseReturnsHold(begun, auth.request, reason, account);
    BegunStep(db, now, parent, kind, auth);
  }

  lemma BegunStep(db: Db, now: Millis, parent: Id, kind: StepKind, auth: Authorization)
    requires Begin(db, now, parent, kind, auth).reply == Ok(Applied)
    ensures var begun := Begin(db, now, parent, kind, auth).db;
            auth.request in begun.steps && begun.steps[auth.request].reservation == |db.reservations|
  {
    hide BeginVerdict, HoldFor, HoldEntries, CheckPreparation, CheckIdentity, AdmissionCount, KeyBlockedIn, BudgetIdUsed,
         Blank, FirstRevision;
    OpenedShape(db, parent, auth.key);
  }
}
