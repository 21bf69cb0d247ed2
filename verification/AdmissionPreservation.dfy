/** Beginning an operation and adding a step to it keep the invariant. */
module AdmissionPreservation {
  import opened Wrappers
  import opened Model
  import opened Ledger
  import opened EventGroup
  import opened Billing
  import opened Settling
  import opened Invariant
  import opened Frame
  import opened Preservation
  import opened RefreshPreservation
  import opened Text

  // The view of a step that was just reserved

  function NewView(
    accounts: seq<Account>, id: nat, hold: Reservation, operation: Id, kind: StepKind, auth: Authorization,
    operationKey: Id, identity: Identity, parentIdentity: Identity, admittedChild: Option<Id>, now: Millis): GroupView
  {
    GroupView(auth.request, NewStep(operation, kind, auth, id), operationKey, identity, parentIdentity, id, hold,
              [FirstRevision(auth, now)], admittedChild,
              HoldEntries(accounts, hold, ReserveEvent, hold.amount, -hold.amount, Some(1)), None, map[])
  }

  /** What the guards of an admission establish about the step it is about to record. */
  predicate AdmissionFits(
    hold: Reservation, operation: Id, kind: StepKind, auth: Authorization, operationKey: Id, identity: Identity,
    parentIdentity: Identity, admittedChild: Option<Id>)
  {
    && auth.hold > 0 && auth.request != "" && auth.parent == operation
    && hold == NewHold(identity.user, auth.key, auth.request, auth.hold, auth.expiresAt, hold.keyAccount, hold.userCap,
                       if hold.group.HoldGroup? then hold.group.reservation else 0)
    && identity.user == parentIdentity.user
    && identity.key == parentIdentity.key == operationKey == auth.key
    && identity.endpoint == auth.endpoint && identity.model == auth.model && identity.hash == auth.fingerprint
    && (if kind == Assist then admittedChild == Some(auth.request) else operation == auth.request)
  }

  lemma NewViewSound(
    accounts: seq<Account>, id: nat, hold: Reservation, operation: Id, kind: StepKind, auth: Authorization,
    operationKey: Id, identity: Identity, parentIdentity: Identity, admittedChild: Option<Id>, now: Millis)
    requires AdmissionFits(hold, operation, kind, auth, operationKey, identity, parentIdentity, admittedChild)
    requires hold.group == HoldGroup(id)
    requires AccountIs(accounts, hold.keyAccount, KeyScope, hold.user, Some(hold.key))
    requires hold.userCap.Some? ==> AccountIs(accounts, hold.userCap.value, UserCapScope, hold.user, None)
    ensures Sound(accounts, NewView(accounts, id, hold, operation, kind, auth, operationKey, identity, parentIdentity,
                                    admittedChild, now))
  {
    var v := NewView(accounts, id, hold, operation, kind, auth, operationKey, identity, parentIdentity, admittedChild, now);
    assert CurrentAuthorization(v) == auth;
    assert EventsExact(accounts, v);
  }

  // The tables

  predicate Admissible(db: Db, operation: Id, kind: StepKind, auth: Authorization, hold: Reservation) {
    && operation in db.operations && operation in db.requests && auth.request in db.requests
    && AdmissionFits(hold, operation, kind, auth, db.operations[operation].key, db.requests[auth.request].identity,
                     db.requests[operation].identity, AdmittedChild(db, operation))
    && hold.group == HoldGroup(|db.reservations|)
    && hold.keyAccount < |db.accounts| && IsKeyAccount(db.accounts[hold.keyAccount], hold.key, hold.user)
    && (hold.userCap.Some? ==>
          hold.userCap.value < |db.accounts| && IsUserCap(db.accounts[hold.userCap.value], hold.user))
    && !HasReservation(db, auth.request)
    && !BudgetIdUsed(db, auth.budgetId)
  }

  lemma UnreservedIsNew(db: Db, request: Id)
    requires TablesSound(db) && !HasReservation(db, request)
    ensures request !in db.steps
    ensures RevisionsOf(db, request) == [] && EvidenceOf(db, request) == map[] && SettlementOf(db, request).None?
  {
    assert request in db.steps ==> StepLinked(db, request);
  }

  lemma NewStepOtherRows(
    db: Db, now: Millis, operation: Id, kind: StepKind, auth: Authorization, hold: Reservation, q: Id)
    requires ReservationsSound(db.accounts, db.reservations) && StepLinked(db, q) && q != auth.request
    requires hold.group == HoldGroup(|db.reservations|)
    ensures StepRowsKept(db, NewStepRows(db, now, operation, kind, auth, hold), q)
  {
    hide HoldEntries, EventsOf, NewStep, FirstRevision;
    AppendHoldEntries(db.ledger, db.accounts, hold, ReserveEvent, hold.amount, -hold.amount, Some(1));
    var group := db.reservations[db.steps[q].reservation].group;
    assert EventsOf(db.ledger, group) + [] == EventsOf(db.ledger, group);
  }

  lemma NewStepOthers(db: Db, now: Millis, operation: Id, kind: StepKind, auth: Authorization, hold: Reservation)
    requires TablesSound(db) && auth.request !in db.steps && hold.group == HoldGroup(|db.reservations|)
    ensures Elsewhere(db, NewStepRows(db, now, operation, kind, auth, hold), {auth.request})
  {
    hide HoldEntries, StepRowsKept, LedgerSound, ReferencesSound, BudgetIdsUnique, AccountsShaped, ReservationsSound,
         StepLinked;
    var db' := NewStepRows(db, now, operation, kind, auth, hold);
    forall q | q in db.steps && q !in {auth.request}
      ensures StepRowsKept(db, db', q)
    {
      NewStepOtherRows(db, now, operation, kind, auth, hold, q);
    }
  }

  lemma NewStepTables(db: Db, now: Millis, operation: Id, kind: StepKind, auth: Authorization, hold: Reservation)
    requires TablesSound(db) && Admissible(db, operation, kind, auth, hold)
    ensures TablesSound(NewStepRows(db, now, operation, kind, auth, hold))
  {
    hide HoldEntries, EventsOf, LedgerSound, BudgetIdsUnique, AccountsShaped, BudgetIdUsed, ReservationsSound,
         AdmissionFits, HasReservation;
    AdmissibleHold(db, operation, kind, auth, hold);
    NewHoldSound(db.accounts, db.reservations, hold);
    var db' := NewStepRows(db, now, operation, kind, auth, hold);
    AppendedEntriesSound(db.ledger, db.accounts, hold, ReserveEvent, hold.amount, -hold.amount, Some(1),
                         |db.accounts|, |db.reservations|, |db'.accounts|, |db'.reservations|);
    NewBudgetStaysUnique(db, auth.request, FirstRevision(auth, now));
    NewStepLinks(db, now, operation, kind, auth, hold);
  }

  lemma NewHoldSound(accounts: seq<Account>, reservations: seq<Reservation>, hold: Reservation)
    requires ReservationsSound(accounts, reservations) && hold.group == HoldGroup(|reservations|)
    requires AccountsKnown(accounts, AccountsOf(hold)) && ReservationFor(reservations, hold.request).None?
    ensures ReservationsSound(accounts, reservations + [hold])
  {
  }

  lemma AdmissibleHold(db: Db, operation: Id, kind: StepKind, auth: Authorization, hold: Reservation)
    requires Admissible(db, operation, kind, auth, hold)
    ensures AccountsKnown(db.accounts, AccountsOf(hold)) && ReservationFor(db.reservations, hold.request).None?
    ensures auth.request == hold.request
  {
    hide BudgetIdUsed;
  }

  lemma NewStepLinks(db: Db, now: Millis, operation: Id, kind: StepKind, auth: Authorization, hold: Reservation)
    requires forall r | r in db.steps :: StepLinked(db, r)
    requires Admissible(db, operation, kind, auth, hold)
    ensures var db' := NewStepRows(db, now, operation, kind, auth, hold);
            forall r | r in db'.steps :: StepLinked(db', r)
  {
    hide HoldEntries, BudgetIdUsed;
    var db' := NewStepRows(db, now, operation, kind, auth, hold);
    forall r | r in db'.steps
      ensures StepLinked(db', r)
    {
      assert r == auth.request || StepLinked(db, r);
    }
  }

  lemma NewStepView(db: Db, now: Millis, operation: Id, kind: StepKind, auth: Authorization, hold: Reservation)
    requires TablesSound(db) && Admissible(db, operation, kind, auth, hold)
    ensures var db' := NewStepRows(db, now, operation, kind, auth, hold);
            && StepLinked(db', auth.request)
            && StepView(db', auth.request)
               == NewView(db.accounts, |db.reservations|, hold, operation, kind, auth, db.operations[operation].key,
                          db.requests[auth.request].identity, db.requests[operation].identity,
                          AdmittedChild(db, operation), now)
  {
    hide HoldEntries, EventsOf;
    UnreservedIsNew(db, auth.request);
    AppendHoldEntries(db.ledger, db.accounts, hold, ReserveEvent, hold.amount, -hold.amount, Some(1));
    NoEventsYet(db.ledger, |db.accounts|, |db.reservations|);
  }

  lemma NewStepKeepsInv(db: Db, now: Millis, operation: Id, kind: StepKind, auth: Authorization, hold: Reservation)
    requires Inv(db) && Admissible(db, operation, kind, auth, hold)
    ensures Inv(NewStepRows(db, now, operation, kind, auth, hold))
  {
    hide HoldEntries, EventsOf, Sound, StepView, NewView, TablesSound, Elsewhere;
    var db' := NewStepRows(db, now, operation, kind, auth, hold);
    UnreservedIsNew(db, auth.request);
    NewStepOthers(db, now, operation, kind, auth, hold);
    NewStepTables(db, now, operation, kind, auth, hold);
    NewStepView(db, now, operation, kind, auth, hold);
    AdmissibleAccounts(db, operation, kind, auth, hold);
    NewViewSound(db.accounts, |db.reservations|, hold, operation, kind, auth, db.operations[operation].key,
                 db.requests[auth.request].identity, db.requests[operation].identity,
                 AdmittedChild(db, operation), now);
    InvFromParts(db, db', {auth.request});
  }

  lemma AdmissibleAccounts(db: Db, operation: Id, kind: StepKind, auth: Authorization, hold: Reservation)
    requires TablesSound(db) && Admissible(db, operation, kind, auth, hold)
    ensures AccountIs(db.accounts, hold.keyAccount, KeyScope, hold.user, Some(hold.key))
    ensures hold.userCap.Some? ==> AccountIs(db.accounts, hold.userCap.value, UserCapScope, hold.user, None)
  {
    assert AccountShaped(db.accounts[hold.keyAccount]);
    assert hold.userCap.Some? ==> AccountShaped(db.accounts[hold.userCap.value]);
  }

  // begin_budget_operation and add_budget_step

  lemma StateMoves(db: Db, request: Id, state: RequestState)
    requires request in db.requests
    ensures OnlyStatesMoved(db, SetRequestState(db, request, state))
  {
  }

  lemma AdmissionMoves(db: Db, parent: Id)
    ensures OnlyStatesMoved(db, AdmitPreparation(db, parent))
  {
    assert IdentitiesKept(db, AdmitPreparation(db, parent));
    assert OperationsKept(db, AdmitPreparation(db, parent));
  }

  lemma OpeningMoves(db: Db, parent: Id, key: Id)
    requires parent !in db.operations
    ensures OnlyStatesMoved(db, db.(operations := db.operations[parent := Operation(key, ExecReady)]))
  {
  }

  lemma OpenedKeepsInv(db: Db, parent: Id, key: Id)
    requires Inv(db) && parent in db.requests && parent !in db.operations
    ensures Inv(Opened(db, parent, key))
  {
    hide Inv, OnlyStatesMoved, SetRequestState, AdmitPreparation;
    var begun := db.(operations := db.operations[parent := Operation(key, ExecReady)]);
    var reserved := SetRequestState(begun, parent, Reserved);
    OpeningMoves(db, parent, key);
    OnlyStatesMovedKeepsInv(db, begun);
    StateMoves(begun, parent, Reserved);
    OnlyStatesMovedKeepsInv(begun, reserved);
    AdmissionMoves(reserved, parent);
    OnlyStatesMovedKeepsInv(reserved, AdmitPreparation(reserved, parent));
  }

  lemma NotBlank(s: string)
    requires !Blank(s)
    ensures s != ""
  {
  }

  lemma OpenedFits(db: Db, parent: Id, kind: StepKind, auth: Authorization, hold: Reservation)
    requires parent in db.requests && auth.request in db.requests
    requires CheckPreparation(db, parent, kind, auth.request).None? && CheckIdentity(db, parent, kind, auth).None?
    requires auth.hold > 0 && auth.request != "" && auth.parent == parent
    requires hold == NewHold(db.requests[parent].identity.user, auth.key, auth.request, auth.hold, auth.expiresAt,
                             hold.keyAccount, hold.userCap, |db.reservations|)
    ensures var opened' := Opened(db, parent, auth.key);
            AdmissionFits(hold, parent, kind, auth, opened'.operations[parent].key,
                          opened'.requests[auth.request].identity, opened'.requests[parent].identity,
                          AdmittedChild(opened', parent))
  {
  }

  lemma SameGuards(db: Db, db': Db, auth: Authorization)
    requires db'.reservations == db.reservations && db'.revisions == db.revisions
    ensures HasReservation(db', auth.request) == HasReservation(db, auth.request)
    ensures BudgetIdUsed(db', auth.budgetId) == BudgetIdUsed(db, auth.budgetId)
  {
  }

  /** What begin_budget_operation is about to reserve. */
  function BeginHold(db: Db, parent: Id, auth: Authorization): Result<Reservation, Error>
    requires parent in db.requests
  {
    HoldFor(db, db.requests[parent].identity.user, auth.key, auth.request, auth.hold, auth.expiresAt)
  }

  lemma BeginAdmissible(db: Db, now: Millis, parent: Id, kind: StepKind, auth: Authorization)
    requires BeginVerdict(db, now, parent, kind, auth).Proceed?
    ensures Admissible(Opened(db, parent, auth.key), parent, kind, auth, BeginHold(db, parent, auth).value)
  {
    hide BeginVerdict, HoldFor, BudgetIdUsed, HasReservation, CheckPreparation, CheckIdentity, AdmissionFits, Blank,
         KeyBlockedIn, AdmissionCount, MinAvailable;
    NotBlank(auth.request);
    OpenedFits(db, parent, kind, auth, BeginHold(db, parent, auth).value);
    SameGuards(db, Opened(db, parent, auth.key), auth);
  }

  lemma BeginKeepsInv(db: Db, now: Millis, parent: Id, kind: StepKind, auth: Authorization)
    requires Inv(db)
    ensures Inv(Begin(db, now, parent, kind, auth).db)
  {
    hide BeginVerdict, Inv, Opened, Admissible, NewStepRows, HoldFor, CheckPreparation, CheckIdentity, Blank,
         KeyBlockedIn, AdmissionCount, MinAvailable, BudgetIdUsed;
    if BeginVerdict(db, now, parent, kind, auth).Proceed? {
      OpenedKeepsInv(db, parent, auth.key);
      BeginAdmissible(db, now, parent, kind, auth);
      NewStepKeepsInv(Opened(db, parent, auth.key), now, parent, kind, auth, BeginHold(db, parent, auth).value);
    }
  }

  lemma AddAdmissible(db: Db, now: Millis, parent: Id, kind: StepKind, auth: Authorization)
    requires AddVerdict(db, now, parent, kind, auth).Proceed?
    ensures Admissible(db, parent, kind, auth, BeginHold(db, parent, auth).value)
  {
    hide AddVerdict, HoldFor, BudgetIdUsed, HasReservation, Blank, KeyBlockedIn, MinAvailable, Terminal;
    NotBlank(auth.request);
  }

  lemma AddKeepsInv(db: Db, now: Millis, parent: Id, kind: StepKind, auth: Authorization)
    requires Inv(db)
    ensures Inv(Add(db, now, parent, kind, auth).db)
  {
    hide AddVerdict, Inv, Admissible, NewStepRows, HoldFor, AddFits, Blank, KeyBlockedIn, MinAvailable, BudgetIdUsed;
    if AddVerdict(db, now, parent, kind, auth).Proceed? {
      AddAdmissible(db, now, parent, kind, auth);
      AddRequests(db, now, parent, kind, auth);
      NewStepKeepsInv(db, now, parent, kind, auth, BeginHold(db, parent, auth).value);
    }
  }

  lemma AddRequests(db: Db, now: Millis, parent: Id, kind: StepKind, auth: Authorization)
    requires AddVerdict(db, now, parent, kind, auth).Proceed?
    ensures parent in db.requests && parent in db.operations
  {
    hide AddVerdict;
  }
}
