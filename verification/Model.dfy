/**
  The tables of the V2 budget ledger. A value of type Db is one committed database state. Accounts,
  reservations and ledger entries are rows in insertion order, and the id of such a row is its
  number, so a new row's id is always fresh. The other tables are maps over their primary keys.
  A hash is an injective function, here a constructor around the value that was hashed.
 */
module Model {
  import opened Wrappers

  type Id = string

  type Millis = t: int | 0 < t witness 1

  const MAX_I64: int := 0x7FFF_FFFF_FFFF_FFFF
  const MIN_I64: int := -0x8000_0000_0000_0000

  datatype StepKind = Assist | Video | Chat

  datatype ExecState = ExecReady | ExecRunning | ExecUnknown | ExecSucceeded | ExecFailed | ExecCanceled

  datatype FinState = FinHeld | FinUnknown | FinSettled | FinReleased | FinConflict

  datatype HoldState = HoldHeld | HoldUnknown | HoldReleased | HoldCommitted

  datatype RequestState =
    | Received | Validating | Reserved | Queued | Dispatched | Completing
    | CancelRequested | Canceled | Succeeded | Failed | UnknownOutcome | Settled

  datatype Mutation = Applied | Duplicate

  datatype Error =
    | RequestNotFound
    | IdempotencyConflict
    | QuoteMismatch
    | QuoteExpired
    | InvalidAmount
    | InvalidIdentity
    | KeyNotFound
    | KeyOwnershipMismatch
    | KeyBlocked
    | ConcurrencyExceeded(active: int, limit: int)
    | QuotaInsufficient(available: int, required: int)
    | KeyQuotaNotConfigured
    | AccountNotReady
    | ReservationNotFound
    | ReservationConflict
    | OwnerMismatch
    | ActualExceedsReservation
    | ReceiptInvalid
    | IntegrityRefused
    | InvalidTransition
    | InvalidConfiguration
    | ReasonRequired
    | SnapshotUnavailable
    | CommitmentsExceedBalance
    | UpstreamLimitExceeded(allocatable: int, needed: int)
    | ConstraintViolated
    | QuoteConflict
    | SettlementConflict
    | PoolNotConfigured
    | PoolInsufficient(allocatable: int, needed: int)
    | DeletionBlocked

  // Identity and requests

  datatype ApiKey = ApiKey(user: Id, active: bool, maxConcurrency: int)

  /** The columns of a request row that no statement updates. */
  datatype Identity = Identity(user: Id, key: Id, endpoint: Id, model: Id, hash: Id)

  datatype Request = Request(identity: Identity, state: RequestState, createdAt: int)

  datatype PreparationState = PrepOpen | PrepAdmitted | PrepAborted

  datatype Preparation = Preparation(child: Id, state: PreparationState)

  // Accounts, ledger and reservations

  datatype Scope = KeyScope | UserCapScope

  datatype AccountMode = Ready | LegacyUnassigned | ReconcileRequired

  datatype Account = Account(scope: Scope, user: Id, key: Option<Id>, version: int, enabled: bool, mode: AccountMode)

  /** An event group is created by one reservation or by one administrative entry. */
  datatype EventGroup = HoldGroup(reservation: nat) | AdminGroup(entry: nat)

  datatype EventKind = ReserveEvent | AdjustHoldEvent | ReleaseEvent | CommitEvent | GrantEvent

  datatype Entry = Entry(
    account: nat,
    kind: EventKind,
    amount: int,
    delta: int,
    request: Option<Id>,
    user: Id,
    key: Option<Id>,
    group: EventGroup,
    version: int,
    revision: Option<int>)

  datatype Reservation = Reservation(
    user: Id,
    key: Id,
    request: Id,
    amount: int,
    state: HoldState,
    expiresAt: int,
    keyAccount: nat,
    userCap: Option<nat>,
    group: EventGroup)

  // Budget operations, steps and authorizations

  datatype Authorization = Authorization(
    budgetId: Id,
    parent: Id,
    request: Id,
    key: Id,
    fingerprint: Id,
    endpoint: Id,
    model: Id,
    accountRef: Id,
    bridge: Id,
    profile: Id,
    policy: Id,
    hold: int,
    expiresAt: int)

  datatype AuthorizationDigest = AuthorizationDigest(of: Authorization)

  datatype Proof = Proof(
    budgetId: Id, request: Id, bridge: Id, cancelRef: Id, revision: int, canceledAt: int)

  datatype ProofDigest = ProofDigest(of: Proof)

  datatype Revision = Revision(
    number: int,
    budgetId: Id,
    auth: Authorization,
    digest: AuthorizationDigest,
    hold: int,
    previous: Option<Id>,
    proof: Option<Proof>,
    proofDigest: Option<ProofDigest>,
    adoptedAt: int)

  datatype Operation = Operation(key: Id, state: ExecState)

  datatype Step = Step(
    operation: Id,
    kind: StepKind,
    auth: Authorization,
    digest: AuthorizationDigest,
    reservation: nat,
    dispatched: bool,
    exec: ExecState,
    fin: FinState,
    actual: Option<int>,
    task: Option<Id>,
    releaseReason: Option<string>)

  // Receipts

  datatype ReceiptStatus = Final | FailedNoCharge | Pending | Unknown | Unverified

  datatype Receipt = Receipt(
    request: Id,
    status: ReceiptStatus,
    actual: Option<int>,
    unit: Id,
    source: Id,
    task: Option<Id>,
    observedAt: int)

  datatype ReceiptInput = ReceiptInput(budgetId: Id, accountRef: Id, bridge: Id, receipt: Receipt)

  /** The fields hashed into a receipt's evidence hash; the observation time is not one of them. */
  datatype ReceiptFacts = ReceiptFacts(
    request: Id,
    budgetId: Id,
    accountRef: Id,
    bridge: Id,
    status: ReceiptStatus,
    actual: Option<int>,
    unit: Option<Id>,
    source: Id,
    task: Option<Id>)

  /** A caller of mark_budget_receipt_conflict supplies the hash text, which may equal a computed one. */
  datatype EvidenceHash = Computed(facts: ReceiptFacts) | Supplied(text: string)

  datatype RecordKind = ReceiptRecord | ConflictRecord

  datatype Evidence = Evidence(
    budgetId: Id,
    accountRef: Id,
    bridge: Id,
    kind: RecordKind,
    status: Option<ReceiptStatus>,
    actual: Option<int>,
    unit: Option<Id>,
    source: Id,
    task: Option<Id>,
    observedAt: int,
    reason: Option<string>,
    recordedAt: int)

  datatype Settlement = Settlement(
    reservation: nat,
    budgetId: Id,
    accountRef: Id,
    bridge: Id,
    source: Id,
    hash: EvidenceHash,
    task: Option<Id>,
    hold: int,
    actual: int,
    released: int,
    debt: bool,
    settledAt: int)

  datatype ConflictInput = ConflictInput(
    request: Id, budgetId: Id, accountRef: Id, bridge: Id, source: Id, hash: EvidenceHash, observedAt: int)

  datatype Db = Db(
    keys: map<Id, ApiKey>,
    requests: map<Id, Request>,
    relations: map<Id, Id>,             // assist child -> parent
    preparations: map<Id, Preparation>, // by parent
    accounts: seq<Account>,
    reservations: seq<Reservation>,
    ledger: seq<Entry>,
    operations: map<Id, Operation>,     // by parent request
    steps: map<Id, Step>,               // by request
    revisions: map<Id, seq<Revision>>,  // by request, in revision order
    evidence: map<Id, map<EvidenceHash, Evidence>>,
    settlements: map<Id, Settlement>,
    blocks: set<Id>)

  /** The outcome of one IMMEDIATE transaction: the state it leaves and what it answers. */
  datatype Tx<+T> = Tx(db: Db, reply: Result<T, Error>)

  predicate Terminal(state: ExecState) {
    state.ExecSucceeded? || state.ExecFailed? || state.ExecCanceled?
  }

  predicate IsFinal(status: ReceiptStatus) {
    status.Final? || status.FailedNoCharge?
  }

  function RevisionsOf(db: Db, request: Id): seq<Revision> {
    if request in db.revisions then db.revisions[request] else []
  }

  function EvidenceOf(db: Db, request: Id): map<EvidenceHash, Evidence> {
    if request in db.evidence then db.evidence[request] else map[]
  }

  function SettlementOf(db: Db, request: Id): Option<Settlement> {
    if request in db.settlements then Some(db.settlements[request]) else None
  }
}
