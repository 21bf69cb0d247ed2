/**
  When a budget operation or a further step of one is admitted, read off the tables: what the caller and the rows must
  say, who else is under way for the Key, and which accounts must cover the hold.
 */
module Admitted {
  import opened Sets
  import opened Wrappers
  import opened Model
  import opened Ledger
  import opened Billing
  import opened Text

  // The authorization

  predicate Complete(auth: Authorization) {
    forall column |
      column in [auth.budgetId, auth.parent, auth.request, auth.key, auth.fingerprint, auth.endpoint, auth.model,
                 auth.accountRef, auth.bridge, auth.profile, auth.policy] :: !Blank(column)
  }

  /** What every admission asks of its caller. */
  predicate WellAsked(parent: Id, kind: StepKind, auth: Authorization) {
    && !Blank(parent) && auth.parent == parent && Complete(auth) && auth.hold > 0
  }

  predicate EndpointFits(kind: StepKind, endpoint: Id) {
    match kind
    case Chat => endpoint == "chat"
    case Video => endpoint == "videos"
    case Assist => true
  }

  /** The request row that the authorization describes. */
  predicate Describes(auth: Authorization, request: Request) {
    && request.identity.key == auth.key && request.identity.endpoint == auth.endpoint
    && request.identity.model == auth.model && request.identity.hash == auth.fingerprint
  }

  /** A chat and a video are billed for the request itself, an assist for the chat request prepared for the video. */
  ghost predicate BilledFor(db: Db, parent: Id, kind: StepKind, auth: Authorization)
    requires parent in db.requests && auth.request in db.requests
  {
    && db.requests[auth.request].identity.user == db.requests[parent].identity.user
    && db.requests[auth.request].identity.key == db.requests[parent].identity.key
    && db.requests[auth.request].state == Received
    && Describes(auth, db.requests[auth.request])
    && if kind == Assist
       then
         && auth.request in db.relations && db.relations[auth.request] == parent
         && db.requests[parent].identity.endpoint == "videos" && auth.endpoint == "chat"
         && parent in db.preparations && db.preparations[parent] == Preparation(auth.request, PrepOpen)
       else auth.request == parent && parent !in db.preparations
  }

  // The Key and its accounts

  ghost predicate Unblocked(db: Db, key: Id) {
    key !in db.blocks && forall s | s in db.steps && db.steps[s].auth.key == key :: db.steps[s].fin != FinConflict
  }

  ghost predicate KeyServes(db: Db, key: Id, user: Id) {
    key in db.keys && db.keys[key].active && db.keys[key].user == user && Unblocked(db, key)
  }

  ghost predicate NewBudget(db: Db, budget: Id) {
    forall r, i | r in db.revisions && 0 <= i < |db.revisions[r]| :: db.revisions[r][i].budgetId != budget
  }

  predicate Unreserved(db: Db, request: Id) {
    forall i | 0 <= i < |db.reservations| :: db.reservations[i].request != request
  }

  /** The first account of the Key, which is its owner's. */
  predicate KeyAccountIs(accounts: seq<Account>, key: Id, user: Id, account: nat) {
    && account < |accounts|
    && accounts[account].scope == KeyScope && accounts[account].key == Some(key) && accounts[account].user == user
    && forall i | 0 <= i < account :: accounts[i].scope == KeyScope && accounts[i].key == Some(key) ==> accounts[i].user != user
  }

  predicate CapIs(accounts: seq<Account>, user: Id, cap: Option<nat>) {
    match cap
    case Some(account) =>
      && account < |accounts| && accounts[account].scope == UserCapScope && accounts[account].user == user
      && forall i | 0 <= i < account :: accounts[i].scope == UserCapScope ==> accounts[i].user != user
    case None => forall i | 0 <= i < |accounts| :: accounts[i].scope == UserCapScope ==> accounts[i].user != user
  }

  predicate InUse(accounts: seq<Account>, account: nat) {
    && account < |accounts|
    && accounts[account].version > 0 && accounts[account].enabled && accounts[account].mode == Ready
  }

  /** The account is in use and has the amount to spend. */
  predicate Covers(db: Db, account: nat, amount: int) {
    InUse(db.accounts, account) && Available(db.ledger, account) >= amount
  }

  /** The Key account and the owner's cap, where there is one, both cover the amount. */
  predicate Funds(db: Db, key: Id, user: Id, amount: int, account: nat, cap: Option<nat>) {
    && KeyAccountIs(db.accounts, key, user, account) && CapIs(db.accounts, user, cap)
    && Covers(db, account, amount) && (cap.Some? ==> Covers(db, cap.value, amount))
  }

  ghost predicate Funded(db: Db, key: Id, user: Id, amount: int) {
    exists account, cap :: Funds(db, key, user, amount, account, cap)
  }

  lemma BlockedIff(db: Db, key: Id)
    ensures KeyBlockedIn(db, key) <==> !Unblocked(db, key)
  {
  }

  lemma CompleteIff(auth: Authorization)
    ensures Incomplete(auth) <==> !Complete(auth)
  {
    hide Blank;
    var columns := [auth.budgetId, auth.parent, auth.request, auth.key, auth.fingerprint, auth.endpoint, auth.model,
                    auth.accountRef, auth.bridge, auth.profile, auth.policy];
    assert columns[0] == auth.budgetId && columns[1] == auth.parent && columns[2] == auth.request
           && columns[3] == auth.key && columns[4] == auth.fingerprint && columns[5] == auth.endpoint
           && columns[6] == auth.model && columns[7] == auth.accountRef && columns[8] == auth.bridge
           && columns[9] == auth.profile && columns[10] == auth.policy;
  }

  lemma NewBudgetIff(db: Db, budget: Id)
    ensures BudgetIdUsed(db, budget) <==> !NewBudget(db, budget)
  {
  }

  lemma UnreservedIff(db: Db, request: Id)
    ensures HasReservation(db, request) <==> !Unreserved(db, request)
  {
  }

  /** The hold that reserve_dual takes, and exactly when it takes one. */
  lemma HoldAnswers(db: Db, user: Id, key: Id, request: Id, amount: int, expiresAt: int)
    ensures var held := HoldFor(db, user, key, request, amount, expiresAt);
            && (held.Ok? <==> Unreserved(db, request) && Funded(db, key, user, amount))
            && (held.Ok? ==>
                  && Funds(db, key, user, amount, held.value.keyAccount, held.value.userCap)
                  && held.value == Reservation(user, key, request, amount, HoldHeld, expiresAt, held.value.keyAccount,
                                               held.value.userCap, HoldGroup(|db.reservations|)))
            && (held.Err? ==> !held.error.ConcurrencyExceeded?)
  {
    hide Available;
    UnreservedIff(db, request);
    var held := HoldFor(db, user, key, request, amount, expiresAt);
    if held.Ok? {
      assert Funds(db, key, user, amount, held.value.keyAccount, held.value.userCap);
    }
    if Funded(db, key, user, amount) {
      var account, cap :| Funds(db, key, user, amount, account, cap);
      FoundFirst(db.accounts, key, user, account, cap);
    }
  }

  lemma FoundFirst(accounts: seq<Account>, key: Id, user: Id, account: nat, cap: Option<nat>)
    requires KeyAccountIs(accounts, key, user, account) && CapIs(accounts, user, cap)
    ensures FindKeyAccount(accounts, key, user) == Some(account) && FindUserCap(accounts, user) == cap
  {
    assert IsKeyAccount(accounts[account], key, user);
    if cap.Some? {
      assert IsUserCap(accounts[cap.value], user);
    }
  }

  // Who else is under way

  /** The active operations of a Key; the parent of an assist child is not counted beside the child. */
  function OperationsUnderWay(db: Db, key: Id, request: Id): set<Id> {
    set p | p in db.operations && db.operations[p].key == key
            && db.operations[p].state in {ExecReady, ExecRunning, ExecUnknown}
            && (request in db.relations ==> p != db.relations[request])
  }

  /** The started requests of a Key that have no operation, and the received ones that came before `request`. */
  function RequestsUnderWay(db: Db, key: Id, request: Id): set<Id>
    requires request in db.requests
  {
    set q | q in db.requests && q !in db.operations && q !in db.relations && q != request
            && db.requests[q].identity.key == key
            && (request in db.relations ==> q != db.relations[request])
            && (db.requests[q].state in {Validating, Reserved, Queued, Dispatched, Completing, CancelRequested,
                                         UnknownOutcome}
                || (db.requests[q].state == Received
                    && (db.requests[q].createdAt < db.requests[request].createdAt
                        || (db.requests[q].createdAt == db.requests[request].createdAt && Less(q, request)))))
  }

  /** What counts against the limit of a Key when `request` asks for a slot, by the ids of the requests. */
  function UnderWay(db: Db, key: Id, request: Id): set<Id>
    requires request in db.requests
  {
    OperationsUnderWay(db, key, request) + RequestsUnderWay(db, key, request)
  }

  lemma OperationsCounted(db: Db, key: Id, request: Id)
    ensures CountedOperations(db, key, request) == OperationsUnderWay(db, key, request)
  {
  }

  lemma RequestsCounted(db: Db, key: Id, request: Id)
    requires request in db.requests
    ensures CountedRequests(db, key, request) == RequestsUnderWay(db, key, request)
  {
    hide Less;
  }

  lemma CountIsUnderWay(db: Db, key: Id, request: Id)
    requires request in db.requests
    ensures AdmissionCount(db, key, request) == |UnderWay(db, key, request)|
  {
    OperationsCounted(db, key, request);
    RequestsCounted(db, key, request);
    var operations, requests := CountedOperations(db, key, request), CountedRequests(db, key, request);
    assert operations !! requests;
    hide CountedOperations, CountedRequests, OperationsUnderWay, RequestsUnderWay;
  }

  // Beginning an operation

  /** All that a new operation needs but a slot and the credits. */
  ghost predicate MayBegin(db: Db, now: Millis, parent: Id, kind: StepKind, auth: Authorization) {
    && WellAsked(parent, kind, auth) && EndpointFits(kind, auth.endpoint) && now < auth.expiresAt
    && parent !in db.operations && NewBudget(db, auth.budgetId)
    && parent in db.requests && db.requests[parent].state == Received && auth.request in db.requests
    && BilledFor(db, parent, kind, auth)
    && KeyServes(db, auth.key, db.requests[parent].identity.user)
    && Unreserved(db, parent) && Unreserved(db, auth.request)
  }

  /** The admission on record is this very one. */
  ghost predicate OnRecord(db: Db, parent: Id, kind: StepKind, auth: Authorization) {
    && auth.request in db.steps
    && db.steps[auth.request].operation == parent && db.steps[auth.request].kind == kind
    && db.steps[auth.request].auth.budgetId == auth.budgetId
    && db.steps[auth.request].digest == AuthorizationDigest(auth)
  }

  lemma MayBeginIff(db: Db, now: Millis, parent: Id, kind: StepKind, auth: Authorization)
    requires parent in db.requests
    ensures MayBegin(db, now, parent, kind, auth)
            <==> !Blank(parent) && auth.parent == parent && !Incomplete(auth) && auth.hold > 0
                 && (ExpectedEndpoint(kind).None? || auth.endpoint == ExpectedEndpoint(kind).value)
                 && parent !in db.operations && !BudgetIdUsed(db, auth.budgetId) && auth.expiresAt > now
                 && CheckPreparation(db, parent, kind, auth.request).None?
                 && db.requests[parent].state == Received
                 && CheckIdentity(db, parent, kind, auth).None?
                 && KeyActive(db, auth.key, db.requests[parent].identity.user) && !KeyBlockedIn(db, auth.key)
                 && !HasReservation(db, parent) && !HasReservation(db, auth.request)
  {
    hide Complete, Incomplete, Blank, BudgetIdUsed, NewBudget, KeyBlockedIn, Unblocked, HasReservation, Unreserved;
    CompleteIff(auth);
    NewBudgetIff(db, auth.budgetId);
    UnreservedIff(db, parent);
    UnreservedIff(db, auth.request);
    BlockedIff(db, auth.key);
  }

  /**
    Begin is applied exactly when nothing else stands against it and a slot and the credits are there; it is refused
    for want of a slot exactly when the slots are all that is missing or the first thing missing; and the same call
    again is answered as a duplicate. Only an applied one changes anything.
   */
  lemma BeginAnswers(db: Db, now: Millis, parent: Id, kind: StepKind, auth: Authorization)
    ensures var tx := Begin(db, now, parent, kind, auth);
            && (tx.reply == Ok(Applied) <==>
                  && MayBegin(db, now, parent, kind, auth)
                  && |UnderWay(db, auth.key, parent)| < db.keys[auth.key].maxConcurrency
                  && Funded(db, auth.key, db.requests[parent].identity.user, auth.hold))
            && (tx.reply.Err? && tx.reply.error.ConcurrencyExceeded? <==>
                  && MayBegin(db, now, parent, kind, auth)
                  && |UnderWay(db, auth.key, parent)| >= db.keys[auth.key].maxConcurrency)
            && (tx.reply.Err? && tx.reply.error.ConcurrencyExceeded? ==>
                  tx.reply.error == ConcurrencyExceeded(|UnderWay(db, auth.key, parent)|, db.keys[auth.key].maxConcurrency))
            && (tx.reply == Ok(Duplicate) <==>
                  && WellAsked(parent, kind, auth) && EndpointFits(kind, auth.endpoint)
                  && parent in db.operations && OnRecord(db, parent, kind, auth))
            && (tx.reply != Ok(Applied) ==> tx.db == db)
  {
    hide Complete, Incomplete, Blank, HoldFor, BudgetIdUsed, KeyBlockedIn, KeyActive, HasReservation,
         Unreserved, AdmissionCount, UnderWay, Funds, Funded, NewStepRows, Opened, MayBegin;
    CompleteIff(auth);
    if parent in db.requests {
      MayBeginIff(db, now, parent, kind, auth);
      CountIsUnderWay(db, auth.key, parent);
      UnreservedIff(db, auth.request);
      HoldAnswers(db, db.requests[parent].identity.user, auth.key, auth.request, auth.hold, auth.expiresAt);
    } else {
      MayBeginKnown(db, now, parent, kind, auth);
    }
  }

  lemma MayBeginKnown(db: Db, now: Millis, parent: Id, kind: StepKind, auth: Authorization)
    ensures MayBegin(db, now, parent, kind, auth) ==> parent in db.requests && auth.key in db.keys
  {
  }

  /** The hold an admission takes, on the accounts that fund it. */
  ghost predicate HoldTaken(db: Db, auth: Authorization, user: Id, hold: Reservation) {
    && hold == Reservation(user, auth.key, auth.request, auth.hold, HoldHeld, auth.expiresAt, hold.keyAccount,
                           hold.userCap, HoldGroup(|db.reservations|))
    && Funds(db, auth.key, user, auth.hold, hold.keyAccount, hold.userCap)
  }

  /** The rows of a step that was just admitted: ready, held, not yet dispatched, under its first authorization. */
  ghost predicate StepAdmitted(db: Db, db': Db, now: Millis, operation: Id, kind: StepKind, auth: Authorization, user: Id) {
    && |db'.reservations| == |db.reservations| + 1
    && var hold := db'.reservations[|db.reservations|];
       && HoldTaken(db, auth, user, hold)
       && db'.reservations == db.reservations + [hold]
       && db'.ledger == db.ledger + HoldEntries(db.accounts, hold, ReserveEvent, auth.hold, -auth.hold, Some(1))
       && db'.steps
          == db.steps[auth.request := Step(operation, kind, auth, AuthorizationDigest(auth), |db.reservations|, false,
                                           ExecReady, FinHeld, None, None, None)]
       && db'.revisions
          == db.revisions[auth.request := RevisionsOf(db, auth.request)
                                          + [Revision(1, auth.budgetId, auth, AuthorizationDigest(auth), auth.hold, None,
                                                      None, None, now)]]
       && db'.accounts == db.accounts && db'.keys == db.keys && db'.relations == db.relations
       && db'.evidence == db.evidence && db'.settlements == db.settlements && db'.blocks == db.blocks
  }

  lemma NewStepLeaves(db: Db, now: Millis, operation: Id, kind: StepKind, auth: Authorization, user: Id, hold: Reservation)
    requires HoldTaken(db, auth, user, hold)
    ensures StepAdmitted(db, NewStepRows(db, now, operation, kind, auth, hold), now, operation, kind, auth, user)
    ensures var db' := NewStepRows(db, now, operation, kind, auth, hold);
            db'.requests == db.requests && db'.operations == db.operations && db'.preparations == db.preparations
  {
    hide Funds, HoldEntries;
    assert (db.reservations + [hold])[|db.reservations|] == hold;
  }

  lemma AdmittedSame(
    db: Db, begun: Db, db': Db, now: Millis, operation: Id, kind: StepKind, auth: Authorization, user: Id)
    requires StepAdmitted(begun, db', now, operation, kind, auth, user)
    requires begun.accounts == db.accounts && begun.ledger == db.ledger && begun.reservations == db.reservations
    requires begun.steps == db.steps && begun.revisions == db.revisions && begun.keys == db.keys
    requires begun.relations == db.relations && begun.evidence == db.evidence && begun.settlements == db.settlements
    requires begun.blocks == db.blocks
    ensures StepAdmitted(db, db', now, operation, kind, auth, user)
  {
    hide KeyAccountIs, CapIs, Available;
  }

  /** What a new operation leaves: its row, the parent reserved, the assist's preparation admitted, and its first step. */
  lemma BeginLeaves(db: Db, now: Millis, parent: Id, kind: StepKind, auth: Authorization)
    requires Begin(db, now, parent, kind, auth).reply == Ok(Applied)
    ensures var db' := Begin(db, now, parent, kind, auth).db;
            && parent in db.requests
            && StepAdmitted(db, db', now, parent, kind, auth, db.requests[parent].identity.user)
            && db'.operations == db.operations[parent := Operation(auth.key, ExecReady)]
            && db'.requests == db.requests[parent := db.requests[parent].(state := Reserved)]
            && (kind != Assist ==> db'.preparations == db.preparations)
            && (kind == Assist ==>
                  db'.preparations == db.preparations[parent := Preparation(auth.request, PrepAdmitted)])
  {
    hide BeginVerdict, HoldFor, NewStepRows, Incomplete, BudgetIdUsed, NewBudget, KeyBlockedIn, Unblocked, Unreserved,
         AdmissionCount, UnderWay, Funded, Funds, KeyActive, CheckIdentity, StepAdmitted;
    BeginAnswers(db, now, parent, kind, auth);
    var user := db.requests[parent].identity.user;
    HoldAnswers(db, user, auth.key, auth.request, auth.hold, auth.expiresAt);
    var hold := HoldFor(db, user, auth.key, auth.request, auth.hold, auth.expiresAt).value;
    var begun := Opened(db, parent, auth.key);
    SameFunds(db, begun, auth, user, hold);
    NewStepLeaves(begun, now, parent, kind, auth, user, hold);
    AdmittedSame(db, begun, Begin(db, now, parent, kind, auth).db, now, parent, kind, auth, user);
  }

  lemma SameFunds(db: Db, db': Db, auth: Authorization, user: Id, hold: Reservation)
    requires HoldTaken(db, auth, user, hold)
    requires db'.accounts == db.accounts && db'.ledger == db.ledger && db'.reservations == db.reservations
    ensures HoldTaken(db', auth, user, hold)
  {
    hide KeyAccountIs, CapIs;
  }

  /** With the operation it admits, the Key has no more under way than its limit. */
  lemma BegunWithinLimit(db: Db, now: Millis, parent: Id, kind: StepKind, auth: Authorization)
    requires Begin(db, now, parent, kind, auth).reply == Ok(Applied)
    ensures var db' := Begin(db, now, parent, kind, auth).db;
            && parent in db'.requests && auth.key in db'.keys
            && |UnderWay(db', auth.key, parent) + {parent}| <= db'.keys[auth.key].maxConcurrency
  {
    var db' := Begin(db, now, parent, kind, auth).db;
    hide Begin, StepAdmitted, MayBegin, Funded, UnderWay;
    BeginAnswers(db, now, parent, kind, auth);
    BeginLeaves(db, now, parent, kind, auth);
    MayBeginKnown(db, now, parent, kind, auth);
    AdmittedKeys(db, db', now, parent, kind, auth);
    OneMore(db, db', auth.key, parent);
  }

  lemma AdmittedKeys(db: Db, db': Db, now: Millis, operation: Id, kind: StepKind, auth: Authorization)
    requires operation in db.requests
    requires StepAdmitted(db, db', now, operation, kind, auth, db.requests[operation].identity.user)
    ensures db'.keys == db.keys && db'.relations == db.relations
  {
  }

  predicate BegunOver(db: Db, db': Db, key: Id, parent: Id) {
    && parent in db.requests && db'.relations == db.relations
    && db'.operations == db.operations[parent := Operation(key, ExecReady)]
    && db'.requests == db.requests[parent := db.requests[parent].(state := Reserved)]
  }

  lemma OneOperationMore(db: Db, db': Db, key: Id, parent: Id)
    requires BegunOver(db, db', key, parent)
    ensures OperationsUnderWay(db', key, parent) <= OperationsUnderWay(db, key, parent) + {parent}
  {
  }

  lemma NoRequestMore(db: Db, db': Db, key: Id, parent: Id)
    requires BegunOver(db, db', key, parent)
    ensures parent in db'.requests && RequestsUnderWay(db', key, parent) <= RequestsUnderWay(db, key, parent)
  {
    hide Less;
    forall q | q in RequestsUnderWay(db', key, parent)
      ensures q in RequestsUnderWay(db, key, parent)
    {
      assert q in db.requests && db'.requests[q] == db.requests[q];
    }
  }

  lemma OneMore(db: Db, db': Db, key: Id, parent: Id)
    requires BegunOver(db, db', key, parent)
    ensures parent in db'.requests
    ensures |UnderWay(db', key, parent) + {parent}| <= |UnderWay(db, key, parent)| + 1
  {
    hide OperationsUnderWay, RequestsUnderWay;
    OneOperationMore(db, db', key, parent);
    NoRequestMore(db, db', key, parent);
    SubsetSize(UnderWay(db', key, parent) + {parent}, UnderWay(db, key, parent) + {parent});
  }

  // Adding the video or chat step

  /** All that a further step needs but the credits. */
  ghost predicate MayAdd(db: Db, now: Millis, parent: Id, kind: StepKind, auth: Authorization) {
    && WellAsked(parent, kind, auth) && EndpointFits(kind, auth.endpoint) && kind != Assist && now < auth.expiresAt
    && parent in db.operations && db.operations[parent].key == auth.key
    && db.operations[parent].state in {ExecReady, ExecRunning, ExecUnknown}
    && parent in db.requests && db.requests[parent].state == Reserved
    && auth.request == parent && Describes(auth, db.requests[parent])
    && KeyServes(db, auth.key, db.requests[parent].identity.user)
    && NewBudget(db, auth.budgetId) && Unreserved(db, parent) && parent !in db.steps
    && forall s | s in db.steps && db.steps[s].operation == parent ::
         && db.steps[s].kind != kind
         && (kind == Video && db.steps[s].kind == Assist ==>
               db.steps[s].exec in {ExecSucceeded, ExecFailed, ExecCanceled})
  }

  /** A further step is added exactly when nothing stands against it and the accounts cover it, and once. */
  lemma AddAnswers(db: Db, now: Millis, parent: Id, kind: StepKind, auth: Authorization)
    ensures var tx := Add(db, now, parent, kind, auth);
            && (tx.reply == Ok(Applied) <==>
                  && MayAdd(db, now, parent, kind, auth)
                  && Funded(db, auth.key, db.requests[parent].identity.user, auth.hold))
            && (tx.reply == Ok(Duplicate) <==>
                  && WellAsked(parent, kind, auth) && parent in db.operations && OnRecord(db, parent, kind, auth))
            && (tx.reply != Ok(Applied) ==> tx.db == db)
  {
    hide Complete, Incomplete, Blank, HoldFor, BudgetIdUsed, NewBudget, KeyBlockedIn, Unblocked, HasReservation,
         Unreserved, Funds, Funded, NewStepRows;
    CompleteIff(auth);
    NewBudgetIff(db, auth.budgetId);
    UnreservedIff(db, auth.request);
    BlockedIff(db, auth.key);
    if parent in db.requests {
      HoldAnswers(db, db.requests[parent].identity.user, auth.key, auth.request, auth.hold, auth.expiresAt);
    }
  }

  lemma AddLeaves(db: Db, now: Millis, parent: Id, kind: StepKind, auth: Authorization)
    requires Add(db, now, parent, kind, auth).reply == Ok(Applied)
    ensures var db' := Add(db, now, parent, kind, auth).db;
            && parent in db.requests
            && StepAdmitted(db, db', now, parent, kind, auth, db.requests[parent].identity.user)
            && db'.operations == db.operations && db'.requests == db.requests && db'.preparations == db.preparations
  {
    hide AddVerdict, HoldFor, NewStepRows, BudgetIdUsed, KeyBlockedIn, Funds, StepAdmitted;
    var user := db.requests[parent].identity.user;
    HoldAnswers(db, user, auth.key, auth.request, auth.hold, auth.expiresAt);
    NewStepLeaves(db, now, parent, kind, auth, user,
                  HoldFor(db, user, auth.key, auth.request, auth.hold, auth.expiresAt).value);
  }
}
