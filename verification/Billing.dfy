/**
  The transactions of the V2 budget ledger as functions from one committed state to the next. An
  error leaves the state alone: the transaction rolls back. Guards are tried in the source's order.
 */
module Billing {
  import opened Wrappers
  import opened Model
  import opened RequestStates
  import opened Ledger
  import opened EventGroup
  import opened Text

  /** What the guards of a transaction decide, before it writes anything. */
  datatype Verdict = Proceed | Replay | Refusal(error: Error)

  // Guards shared by several transactions

  predicate Incomplete(a: Authorization) {
    || Blank(a.budgetId) || Blank(a.parent) || Blank(a.request) || Blank(a.key) || Blank(a.fingerprint)
    || Blank(a.endpoint) || Blank(a.model) || Blank(a.accountRef) || Blank(a.bridge) || Blank(a.profile)
    || Blank(a.policy)
  }

  predicate KeyActive(db: Db, key: Id, user: Id) {
    key in db.keys && db.keys[key].active && db.keys[key].user == user
  }

  predicate KeyBlockedIn(db: Db, key: Id) {
    key in db.blocks || exists s | s in db.steps :: db.steps[s].auth.key == key && db.steps[s].fin == FinConflict
  }

  predicate BudgetIdUsed(db: Db, budget: Id) {
    exists r | r in db.revisions ::
      exists i | 0 <= i < |db.revisions[r]| :: db.revisions[r][i].budgetId == budget
  }

  predicate HasReservation(db: Db, request: Id) {
    ReservationFor(db.reservations, request).Some?
  }

  function LatestRevision(db: Db, request: Id): Option<int> {
    var rows := RevisionsOf(db, request);
    if rows == [] then None else Some(rows[|rows| - 1].number)
  }

  // Ledger rows

  function VersionOf(accounts: seq<Account>, id: nat): int {
    if id < |accounts| then accounts[id].version else 0
  }

  function HoldEntry(
    accounts: seq<Account>, hold: Reservation, account: nat, kind: EventKind, amount: int, delta: int,
    revision: Option<int>): Entry
  {
    Entry(account, kind, amount, delta, Some(hold.request), hold.user, Some(hold.key), hold.group,
          VersionOf(accounts, account), revision)
  }

  /** One row per account of the hold, each under the account's current version. */
  function HoldEntries(
    accounts: seq<Account>, hold: Reservation, kind: EventKind, amount: int, delta: int, revision: Option<int>)
    : seq<Entry>
  {
    [HoldEntry(accounts, hold, hold.keyAccount, kind, amount, delta, revision)]
      + if hold.userCap.Some?
        then [HoldEntry(accounts, hold, hold.userCap.value, kind, amount, delta, revision)]
        else []
  }

  function AdvanceAccount(accounts: seq<Account>, id: nat): seq<Account>
    requires id < |accounts|
  {
    accounts[id := accounts[id].(version := accounts[id].version + 1)]
  }

  function AdvanceAll(accounts: seq<Account>, hold: Reservation): seq<Account>
    requires AccountsKnown(accounts, AccountsOf(hold))
  {
    var first := AdvanceAccount(accounts, AccountsOf(hold)[0]);
    if hold.userCap.Some? then AdvanceAccount(first, AccountsOf(hold)[1]) else first
  }

  // Holding credits on a Key account and, when there is one, on the owner's cap

  function NewHold(user: Id, key: Id, request: Id, amount: int, expiresAt: int, keyAccount: nat, cap: Option<nat>,
                   id: nat): Reservation
  {
    Reservation(user, key, request, amount, HoldHeld, expiresAt, keyAccount, cap, HoldGroup(id))
  }

  function HoldRows(db: Db, hold: Reservation): Db {
    db.(reservations := db.reservations + [hold],
        ledger := db.ledger + HoldEntries(db.accounts, hold, ReserveEvent, hold.amount, -hold.amount, Some(1)))
  }

  /** reserve_dual_in_transaction: the hold to insert, or why there is none. */
  function HoldFor(db: Db, user: Id, key: Id, request: Id, amount: int, expiresAt: int): (r: Result<Reservation, Error>)
    ensures r.Ok? ==>
              && r.value == NewHold(user, key, request, amount, expiresAt, r.value.keyAccount, r.value.userCap,
                                    |db.reservations|)
              && !HasReservation(db, request)
              && r.value.keyAccount < |db.accounts| && IsKeyAccount(db.accounts[r.value.keyAccount], key, user)
              && (r.value.userCap.Some? ==>
                    r.value.userCap.value < |db.accounts| && IsUserCap(db.accounts[r.value.userCap.value], user))
              && MinAvailable(db.ledger, r.value.keyAccount, r.value.userCap) >= amount
  {
    if HasReservation(db, request) then Err(ReservationConflict)
    else
      var keyAccount := FindKeyAccount(db.accounts, key, user);
      if keyAccount.None? then Err(KeyQuotaNotConfigured)
      else if !AccountReady(db.accounts[keyAccount.value]) then Err(AccountNotReady)
      else
        var cap := FindUserCap(db.accounts, user);
        if cap.Some? && !AccountReady(db.accounts[cap.value]) then Err(AccountNotReady)
        else
          var available := MinAvailable(db.ledger, keyAccount.value, cap);
          if available < amount then Err(QuotaInsufficient(available, amount))
          else Ok(NewHold(user, key, request, amount, expiresAt, keyAccount.value, cap, |db.reservations|))
  }

  function FirstRevision(auth: Authorization, now: Millis): Revision {
    Revision(1, auth.budgetId, auth, AuthorizationDigest(auth), auth.hold, None, None, None, now)
  }

  function NewStep(operation: Id, kind: StepKind, auth: Authorization, reservation: nat): Step {
    Step(operation, kind, auth, AuthorizationDigest(auth), reservation, false, ExecReady, FinHeld, None, None, None)
  }

  // Beginning an operation

  predicate ActiveRequest(state: RequestState) {
    !(state == Canceled || state == Succeeded || state == Failed || state == Settled)
  }

  /** The operations that count against a Key's concurrency when `request` asks for admission. */
  function CountedOperations(db: Db, key: Id, request: Id): set<Id> {
    set p | p in db.operations
            && db.operations[p].key == key
            && !Terminal(db.operations[p].state)
            && (request in db.relations ==> p != db.relations[request])
  }

  predicate EarlierThan(db: Db, q: Id, request: Id)
    requires q in db.requests && request in db.requests
  {
    || db.requests[q].createdAt < db.requests[request].createdAt
    || (db.requests[q].createdAt == db.requests[request].createdAt && Less(q, request))
  }

  /** The requests without an operation that count: started ones, and received ones that came first. */
  function CountedRequests(db: Db, key: Id, request: Id): set<Id>
    requires request in db.requests
  {
    set q | q in db.requests
            && db.requests[q].identity.key == key
            && ActiveRequest(db.requests[q].state)
            && q != request
            && (request in db.relations ==> q != db.relations[request])
            && (db.requests[q].state != Received || EarlierThan(db, q, request))
            && q !in db.relations
            && q !in db.operations
  }

  function AdmissionCount(db: Db, key: Id, request: Id): int
    requires request in db.requests
  {
    |CountedOperations(db, key, request)| + |CountedRequests(db, key, request)|
  }

  function ExpectedEndpoint(kind: StepKind): Option<Id> {
    match kind
    case Chat => Some("chat")
    case Video => Some("videos")
    case Assist => None
  }

  predicate SameAdmission(db: Db, parent: Id, kind: StepKind, auth: Authorization) {
    && auth.request in db.steps
    && var step := db.steps[auth.request];
       step.operation == parent && step.kind == kind && step.auth.budgetId == auth.budgetId
       && step.digest == AuthorizationDigest(auth)
  }

  function CheckPreparation(db: Db, parent: Id, kind: StepKind, request: Id): Option<Error> {
    if parent in db.preparations then
      if kind == Assist && db.preparations[parent] == Preparation(request, PrepOpen) then None
      else Some(IdempotencyConflict)
    else if kind == Assist then Some(QuoteMismatch)
    else None
  }

  /** validate_budget_request_identity */
  function CheckIdentity(db: Db, parent: Id, kind: StepKind, auth: Authorization): Option<Error>
    requires parent in db.requests
  {
    var owner := db.requests[parent].identity;
    if auth.key != owner.key then Some(InvalidIdentity)
    else if kind != Assist && auth.request != parent then Some(QuoteMismatch)
    else if auth.request !in db.requests then Some(RequestNotFound)
    else
      var request := db.requests[auth.request];
      if request.identity.user != owner.user || request.identity.key != owner.key then Some(InvalidIdentity)
      else if request.state != Received || request.identity.endpoint != auth.endpoint
              || request.identity.model != auth.model || request.identity.hash != auth.fingerprint
      then Some(QuoteMismatch)
      else if kind == Assist
              && !(auth.request in db.relations && db.relations[auth.request] == parent
                   && owner.endpoint == "videos" && request.identity.endpoint == "chat")
      then Some(QuoteMismatch)
      else if kind == Video && request.identity.endpoint != "videos" then Some(QuoteMismatch)
      else None
  }

  function SetRequestState(db: Db, request: Id, state: RequestState): Db
    requires request in db.requests
  {
    db.(requests := db.requests[request := db.requests[request].(state := state)])
  }

  function AdmitPreparation(db: Db, parent: Id): Db {
    if parent in db.preparations
    then db.(preparations := db.preparations[parent := db.preparations[parent].(state := PrepAdmitted)])
    else db
  }

  /** The rows that record a freshly reserved step. */
  function RecordStep(db: Db, now: Millis, operation: Id, kind: StepKind, auth: Authorization, id: nat): Db {
    db.(steps := db.steps[auth.request := NewStep(operation, kind, auth, id)],
        revisions := db.revisions[auth.request := RevisionsOf(db, auth.request) + [FirstRevision(auth, now)]])
  }

  /** The rows an admission adds: the hold, its entries, the step and its first revision. */
  function NewStepRows(db: Db, now: Millis, operation: Id, kind: StepKind, auth: Authorization, hold: Reservation): Db {
    RecordStep(HoldRows(db, hold), now, operation, kind, auth, |db.reservations|)
  }

  /** The operation, the parent's state and the preparation, as an admission leaves them. */
  function Opened(db: Db, parent: Id, key: Id): Db
    requires parent in db.requests
  {
    AdmitPreparation(SetRequestState(db.(operations := db.operations[parent := Operation(key, ExecReady)]),
                                     parent, Reserved), parent)
  }

  /** The guards of begin_budget_operation, up to the reservation. */
  function BeginVerdict(db: Db, now: Millis, parent: Id, kind: StepKind, auth: Authorization): (v: Verdict)
    ensures v.Proceed? ==>
              && parent in db.requests && parent !in db.operations && auth.request in db.requests
              && db.requests[parent].state == Received
              && auth.parent == parent && auth.hold > 0 && !Blank(auth.request)
              && CheckPreparation(db, parent, kind, auth.request).None?
              && CheckIdentity(db, parent, kind, auth).None?
              && !BudgetIdUsed(db, auth.budgetId)
              && auth.key in db.keys && !KeyBlockedIn(db, auth.key)
              && AdmissionCount(db, auth.key, parent) < db.keys[auth.key].maxConcurrency
              && HoldFor(db, db.requests[parent].identity.user, auth.key, auth.request, auth.hold, auth.expiresAt).Ok?
  {
    if Blank(parent) || auth.parent != parent then Refusal(QuoteMismatch)
    else if Incomplete(auth) then Refusal(QuoteMismatch)
    else if auth.hold <= 0 then Refusal(InvalidAmount)
    else if ExpectedEndpoint(kind).Some? && auth.endpoint != ExpectedEndpoint(kind).value then Refusal(QuoteMismatch)
    else if parent in db.operations then
      if SameAdmission(db, parent, kind, auth) then Replay else Refusal(IdempotencyConflict)
    else if BudgetIdUsed(db, auth.budgetId) then Refusal(IdempotencyConflict)
    else if auth.expiresAt <= now then Refusal(QuoteExpired)
    else if CheckPreparation(db, parent, kind, auth.request).Some? then
      Refusal(CheckPreparation(db, parent, kind, auth.request).value)
    else if parent !in db.requests then Refusal(RequestNotFound)
    else if db.requests[parent].state != Received then Refusal(QuoteMismatch)
    else if CheckIdentity(db, parent, kind, auth).Some? then Refusal(CheckIdentity(db, parent, kind, auth).value)
    else
      var owner := db.requests[parent].identity;
      if !KeyActive(db, owner.key, owner.user) then Refusal(InvalidIdentity)
      else if KeyBlockedIn(db, owner.key) then Refusal(KeyBlocked)
      else if HasReservation(db, parent) || HasReservation(db, auth.request) then Refusal(IdempotencyConflict)
      else if AdmissionCount(db, owner.key, parent) >= db.keys[owner.key].maxConcurrency then
        Refusal(ConcurrencyExceeded(AdmissionCount(db, owner.key, parent), db.keys[owner.key].maxConcurrency))
      else
        var held := HoldFor(db, owner.user, owner.key, auth.request, auth.hold, auth.expiresAt);
        if held.Err? then Refusal(held.error) else Proceed
  }

  /** begin_budget_operation */
  function Begin(db: Db, now: Millis, parent: Id, kind: StepKind, auth: Authorization): Tx<Mutation> {
    match BeginVerdict(db, now, parent, kind, auth)
    case Proceed =>
      var held := HoldFor(db, db.requests[parent].identity.user, auth.key, auth.request, auth.hold, auth.expiresAt);
      Tx(NewStepRows(Opened(db, parent, auth.key), now, parent, kind, auth, held.value), Ok(Applied))
    case Replay => Tx(db, Ok(Duplicate))
    case Refusal(error) => Tx(db, Err(error))
  }

  // Adding the video or chat step

  predicate HasStepOfKind(db: Db, parent: Id, kind: StepKind) {
    exists s | s in db.steps :: db.steps[s].operation == parent && db.steps[s].kind == kind
  }

  predicate AssistUnfinished(db: Db, parent: Id) {
    exists s | s in db.steps ::
      db.steps[s].operation == parent && db.steps[s].kind == Assist && !Terminal(db.steps[s].exec)
  }

  function CheckAdd(db: Db, now: Millis, parent: Id, kind: StepKind, auth: Authorization): Option<Error>
    requires parent in db.operations
  {
    var operation := db.operations[parent];
    if Terminal(operation.state) || kind == Assist then Some(IdempotencyConflict)
    else if auth.expiresAt <= now then Some(QuoteExpired)
    else if auth.key != operation.key then Some(InvalidIdentity)
    else if kind == Video && AssistUnfinished(db, parent) then Some(IdempotencyConflict)
    else if parent !in db.requests then Some(RequestNotFound)
    else
      var row := db.requests[parent];
      if row.identity.key != operation.key || row.state != Reserved then Some(QuoteMismatch)
      else if auth.request != parent || ExpectedEndpoint(kind) != Some(row.identity.endpoint)
              || auth.endpoint != row.identity.endpoint || auth.model != row.identity.model
              || row.identity.hash != auth.fingerprint
      then Some(QuoteMismatch)
      else if !KeyActive(db, operation.key, row.identity.user) then Some(InvalidIdentity)
      else if KeyBlockedIn(db, operation.key) then Some(KeyBlocked)
      else if HasReservation(db, auth.request) || auth.request in db.steps then Some(IdempotencyConflict)
      else None
  }

  /** What the admission of a further step rests on. */
  predicate AddFits(db: Db, parent: Id, kind: StepKind, auth: Authorization) {
    && parent in db.operations && parent in db.requests
    && !Terminal(db.operations[parent].state) && kind != Assist
    && auth.parent == parent && auth.request == parent && auth.hold > 0 && !Blank(auth.request)
    && var identity := db.requests[parent].identity;
       auth.key == identity.key == db.operations[parent].key
       && auth.endpoint == identity.endpoint && auth.model == identity.model && auth.fingerprint == identity.hash
  }

  /** The guards of add_budget_step; a budget id seen before violates the UNIQUE columns the new rows would enter. */
  function AddVerdict(db: Db, now: Millis, parent: Id, kind: StepKind, auth: Authorization): (v: Verdict)
    ensures v.Proceed? ==>
              && AddFits(db, parent, kind, auth)
              && !KeyBlockedIn(db, auth.key)
              && !BudgetIdUsed(db, auth.budgetId)
              && HoldFor(db, db.requests[parent].identity.user, auth.key, auth.request, auth.hold, auth.expiresAt).Ok?
  {
    if Blank(parent) || auth.parent != parent then Refusal(QuoteMismatch)
    else if Incomplete(auth) then Refusal(QuoteMismatch)
    else if auth.hold <= 0 then Refusal(InvalidAmount)
    else if parent !in db.operations then Refusal(RequestNotFound)
    else if HasStepOfKind(db, parent, kind) then
      if SameAdmission(db, parent, kind, auth) then Replay else Refusal(IdempotencyConflict)
    else if CheckAdd(db, now, parent, kind, auth).Some? then Refusal(CheckAdd(db, now, parent, kind, auth).value)
    else
      var held := HoldFor(db, db.requests[parent].identity.user, db.operations[parent].key, auth.request, auth.hold,
                          auth.expiresAt);
      if held.Err? then Refusal(held.error)
      else if BudgetIdUsed(db, auth.budgetId) then Refusal(ConstraintViolated)
      else Proceed
  }

  /** add_budget_step */
  function Add(db: Db, now: Millis, parent: Id, kind: StepKind, auth: Authorization): Tx<Mutation> {
    match AddVerdict(db, now, parent, kind, auth)
    case Proceed =>
      var held := HoldFor(db, db.requests[parent].identity.user, auth.key, auth.request, auth.hold, auth.expiresAt);
      Tx(NewStepRows(db, now, parent, kind, auth, held.value), Ok(Applied))
    case Replay => Tx(db, Ok(Duplicate))
    case Refusal(error) => Tx(db, Err(error))
  }

  // Dispatching and releasing

  /** reservation_has_v2_context */
  predicate HasV2Context(db: Db, id: nat, request: Id) {
    || (request in db.steps && db.steps[request].reservation == id)
    || request in db.operations
    || (request in db.relations && db.relations[request] in db.operations)
  }

  function CheckDispatch(db: Db, now: Millis, request: Id, id: nat): Option<Error>
    requires request in db.steps && id < |db.reservations|
  {
    var step := db.steps[request];
    var hold := db.reservations[id];
    if step.exec != ExecReady || step.fin != FinHeld then Some(IdempotencyConflict)
    else if step.auth.expiresAt <= now then Some(QuoteExpired)
    else if step.operation !in db.operations || Terminal(db.operations[step.operation].state)
            || db.operations[step.operation].state == ExecUnknown
    then Some(IdempotencyConflict)
    else if step.auth.key !in db.keys || !db.keys[step.auth.key].active then Some(InvalidIdentity)
    else if KeyBlockedIn(db, step.auth.key) then Some(KeyBlocked)
    else if !AllReady(db.accounts, AccountsOf(hold)) then Some(AccountNotReady)
    else if MinAvailable(db.ledger, hold.keyAccount, hold.userCap) < 0 then
      Some(QuotaInsufficient(MinAvailable(db.ledger, hold.keyAccount, hold.userCap), hold.amount))
    else if request !in db.requests then Some(RequestNotFound)
    else if !Dispatchable(db.requests[request].state) then Some(InvalidTransition)
    else None
  }

  function DispatchVerdict(db: Db, now: Millis, request: Id, expected: Id): (v: Verdict)
    ensures v.Proceed? ==>
              && request in db.steps && request in db.requests && db.steps[request].operation in db.operations
              && !db.steps[request].dispatched && db.steps[request].auth.budgetId == expected
              && db.steps[request].exec == ExecReady && db.steps[request].fin == FinHeld
              && !Terminal(db.operations[db.steps[request].operation].state)
              && !KeyBlockedIn(db, db.steps[request].auth.key)
  {
    if request !in db.steps then Refusal(RequestNotFound)
    else
      var step := db.steps[request];
      if step.auth.budgetId != expected then Refusal(IdempotencyConflict)
      else
        var found := ReservationFor(db.reservations, request);
        if found.None? then Refusal(ReservationNotFound)
        else if HasV2Context(db, found.value, request) && !GroupValid(db, found.value) then Refusal(IntegrityRefused)
        else if HasV2Context(db, found.value, request)
                && !AllReady(db.accounts, AccountsOf(db.reservations[found.value]))
        then Refusal(AccountNotReady)
        else if step.dispatched then
          if step.exec == ExecRunning || step.exec == ExecUnknown then Replay else Refusal(IdempotencyConflict)
        else if CheckDispatch(db, now, request, found.value).Some? then
          Refusal(CheckDispatch(db, now, request, found.value).value)
        else Proceed
  }

  function DispatchRows(db: Db, request: Id): Db
    requires request in db.steps && request in db.requests && db.steps[request].operation in db.operations
  {
    var step := db.steps[request];
    db.(requests := db.requests[request := db.requests[request].(state := Dispatched)],
        steps := db.steps[request := step.(dispatched := true, exec := ExecRunning)],
        operations := db.operations[step.operation := db.operations[step.operation].(state := ExecRunning)])
  }

  /** mark_budget_step_dispatched */
  function Dispatch(db: Db, now: Millis, request: Id, expected: Id): Tx<Mutation> {
    match DispatchVerdict(db, now, request, expected)
    case Proceed => Tx(DispatchRows(db, request), Ok(Applied))
    case Replay => Tx(db, Ok(Duplicate))
    case Refusal(error) => Tx(db, Err(error))
  }

  /** Where the assist request goes with its step; an error when its state table forbids it. */
  function SyncedState(db: Db, request: Id, terminal: ExecState): Result<RequestState, Error>
    requires Terminal(terminal)
  {
    if request !in db.requests then Err(RequestNotFound)
    else SyncAssist(db.requests[request].state, terminal)
  }

  function SyncRows(db: Db, request: Id, terminal: ExecState): (db': Db)
    requires Terminal(terminal) && SyncedState(db, request, terminal).Ok?
    ensures db' == db.(requests := db'.requests)
  {
    SetRequestState(db, request, SyncedState(db, request, terminal).value)
  }

  predicate SyncsOnRelease(step: Step) {
    step.kind == Assist && step.exec == ExecReady
  }

  /** The guards of release_unattempted_budget_step; `reason` is compared after trimming. */
  function ReleaseVerdict(db: Db, request: Id, reason: string): (v: Verdict)
    ensures v.Proceed? ==>
              && Trim(reason) != ""
              && request in db.steps && db.steps[request].reservation < |db.reservations|
              && !db.steps[request].dispatched && db.steps[request].fin == FinHeld
              && (db.steps[request].exec == ExecReady || db.steps[request].exec == ExecFailed
                  || db.steps[request].exec == ExecCanceled)
              && db.reservations[db.steps[request].reservation].state == HoldHeld
              && (SyncsOnRelease(db.steps[request]) ==> SyncedState(db, request, ExecCanceled).Ok?)
  {
    if Blank(request) || Blank(reason) then Refusal(ReasonRequired)
    else if request !in db.steps then Refusal(RequestNotFound)
    else
      var step := db.steps[request];
      if step.fin == FinReleased && !step.dispatched && (step.exec == ExecFailed || step.exec == ExecCanceled)
         && step.releaseReason == Some(Trim(reason))
      then Replay
      else if step.dispatched || !(step.exec == ExecReady || step.exec == ExecFailed || step.exec == ExecCanceled)
              || step.fin != FinHeld
      then Refusal(IdempotencyConflict)
      else if step.reservation >= |db.reservations| then Refusal(ReservationNotFound)
      else
        var hold := db.reservations[step.reservation];
        if hold.request != request || hold.state != HoldHeld then Refusal(ReservationConflict)
        else if SyncsOnRelease(step) && SyncedState(db, request, ExecCanceled).Err? then
          Refusal(SyncedState(db, request, ExecCanceled).error)
        else if !AccountsKnown(db.accounts, AccountsOf(hold)) then Refusal(InvalidConfiguration)
        else Proceed
  }

  /** The hold is given back in full, and a step that never ran is canceled. */
  function ReleaseRows(db: Db, request: Id, reason: string): Db
    requires request in db.steps && db.steps[request].reservation < |db.reservations|
  {
    var step := db.steps[request];
    var hold := db.reservations[step.reservation];
    var exec := if step.exec == ExecReady then ExecCanceled else step.exec;
    db.(reservations := db.reservations[step.reservation := hold.(state := HoldReleased)],
        ledger := db.ledger + HoldEntries(db.accounts, hold, ReleaseEvent, hold.amount, hold.amount,
                                          LatestRevision(db, request)),
        steps := db.steps[request := step.(fin := FinReleased, exec := exec, releaseReason := Some(reason))])
  }

  /** release_unattempted_budget_step */
  function Release(db: Db, request: Id, reason: string): Tx<Mutation> {
    match ReleaseVerdict(db, request, reason)
    case Proceed =>
      var synced := if SyncsOnRelease(db.steps[request]) then SyncRows(db, request, ExecCanceled) else db;
      Tx(ReleaseRows(synced, request, Trim(reason)), Ok(Applied))
    case Replay => Tx(db, Ok(Duplicate))
    case Refusal(error) => Tx(db, Err(error))
  }

  // Execution facts

  function BindVerdict(db: Db, request: Id, task: Id): (v: Verdict)
    ensures v.Proceed? ==>
              request in db.steps && db.steps[request].kind == Video && db.steps[request].dispatched
              && db.steps[request].task.None?
  {
    if Blank(task) then Refusal(QuoteMismatch)
    else if request !in db.steps then Refusal(RequestNotFound)
    else
      var step := db.steps[request];
      if step.kind != Video || !step.dispatched then Refusal(QuoteMismatch)
      else if step.task.Some? then
        if step.task.value == task then Replay else Refusal(IdempotencyConflict)
      else if step.exec == ExecFailed || step.exec == ExecCanceled then Refusal(IdempotencyConflict)
      else Proceed
  }

  function BindRows(db: Db, request: Id, task: Id): Db
    requires request in db.steps
  {
    db.(steps := db.steps[request := db.steps[request].(task := Some(task))])
  }

  /** bind_budget_video_task */
  function Bind(db: Db, request: Id, task: Id): Tx<Mutation> {
    match BindVerdict(db, request, task)
    case Proceed => Tx(BindRows(db, request, task), Ok(Applied))
    case Replay => Tx(db, Ok(Duplicate))
    case Refusal(error) => Tx(db, Err(error))
  }

  predicate ExecutionStepAllowed(step: Step, next: ExecState) {
    && !Terminal(step.exec)
    && (step.exec == ExecReady ==> !step.dispatched && (next == ExecFailed || next == ExecCanceled))
    && (step.exec == ExecRunning || step.exec == ExecUnknown ==> step.dispatched)
  }

  predicate SyncsOnMark(step: Step, next: ExecState) {
    step.kind == Assist && Terminal(next)
  }

  function MarkVerdict(db: Db, request: Id, next: ExecState): (v: Verdict)
    ensures v.Proceed? ==>
              && request in db.steps && db.steps[request].operation in db.operations
              && next != ExecReady
              && !Terminal(db.steps[request].exec) && !Terminal(db.operations[db.steps[request].operation].state)
              && (SyncsOnMark(db.steps[request], next) ==> SyncedState(db, request, next).Ok?)
  {
    if next == ExecReady then Refusal(IdempotencyConflict)
    else if request !in db.steps then Refusal(RequestNotFound)
    else
      var step := db.steps[request];
      if step.exec == next then Replay
      else if !ExecutionStepAllowed(step, next) then Refusal(IdempotencyConflict)
      else if step.kind == Video && next == ExecSucceeded && (step.task.None? || step.task.value == "") then
        Refusal(QuoteMismatch)
      else if SyncsOnMark(step, next) && SyncedState(db, request, next).Err? then
        Refusal(SyncedState(db, request, next).error)
      else if step.operation !in db.operations || Terminal(db.operations[step.operation].state) then
        Refusal(IdempotencyConflict)
      else Proceed
  }

  function MarkRows(db: Db, request: Id, next: ExecState): Db
    requires request in db.steps && db.steps[request].operation in db.operations
  {
    var step := db.steps[request];
    var state := if next == ExecUnknown then ExecUnknown else ExecRunning;
    db.(steps := db.steps[request := step.(exec := next)],
        operations := db.operations[step.operation := db.operations[step.operation].(state := state)])
  }

  /** mark_budget_step_execution */
  function MarkExecution(db: Db, request: Id, next: ExecState): Tx<Mutation> {
    match MarkVerdict(db, request, next)
    case Proceed =>
      var synced := if SyncsOnMark(db.steps[request], next) then SyncRows(db, request, next) else db;
      Tx(MarkRows(synced, request, next), Ok(Applied))
    case Replay => Tx(db, Ok(Duplicate))
    case Refusal(error) => Tx(db, Err(error))
  }

  predicate AllStepsTerminal(db: Db, parent: Id) {
    forall s | s in db.steps && db.steps[s].operation == parent :: Terminal(db.steps[s].exec)
  }

  function FinishVerdict(db: Db, parent: Id, terminal: ExecState): (v: Verdict)
    ensures v.Proceed? ==>
              && Terminal(terminal) && parent in db.operations && parent in db.requests
              && !Terminal(db.operations[parent].state)
              && AllStepsTerminal(db, parent)
              && FinishParent(db.requests[parent].state, terminal).Ok?
  {
    if !Terminal(terminal) then Refusal(IdempotencyConflict)
    else if parent !in db.operations then Refusal(RequestNotFound)
    else
      var operation := db.operations[parent];
      if operation.state == terminal then Replay
      else if Terminal(operation.state) then Refusal(IdempotencyConflict)
      else if !(exists s | s in db.steps :: db.steps[s].operation == parent) || !AllStepsTerminal(db, parent) then
        Refusal(IdempotencyConflict)
      else if parent !in db.requests then Refusal(RequestNotFound)
      else if FinishParent(db.requests[parent].state, terminal).Err? then
        Refusal(FinishParent(db.requests[parent].state, terminal).error)
      else Proceed
  }

  function FinishRows(db: Db, parent: Id, terminal: ExecState, state: RequestState): Db
    requires parent in db.operations && parent in db.requests
  {
    db.(requests := db.requests[parent := db.requests[parent].(state := state)],
        operations := db.operations[parent := db.operations[parent].(state := terminal)])
  }

  /** finish_budget_execution */
  function Finish(db: Db, parent: Id, terminal: ExecState): Tx<Mutation> {
    match FinishVerdict(db, parent, terminal)
    case Proceed =>
      Tx(FinishRows(db, parent, terminal, FinishParent(db.requests[parent].state, terminal).value), Ok(Applied))
    case Replay => Tx(db, Ok(Duplicate))
    case Refusal(error) => Tx(db, Err(error))
  }
}
