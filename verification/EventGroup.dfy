/**
  The integrity check of one V2 event group (validate_v2_quota_event_group): everything the database
  says about one reservation, and when those rows agree with one another.
 */
module EventGroup {
  import opened Wrappers
  import opened Model
  import opened Ledger
  import opened Text

  datatype GroupView = GroupView(
    request: Id,
    step: Step,
    operationKey: Id,
    identity: Identity,
    parentIdentity: Identity,
    reservationId: nat,
    reservation: Reservation,
    history: seq<Revision>,
    admittedChild: Option<Id>,
    events: seq<Entry>,
    settlement: Option<Settlement>,
    evidence: map<EvidenceHash, Evidence>)

  function AdmittedChild(db: Db, parent: Id): Option<Id> {
    if parent in db.preparations && db.preparations[parent].state == PrepAdmitted
    then Some(db.preparations[parent].child) else None
  }

  /** The step join of the check; None when the join has no row. */
  function ViewOf(db: Db, id: nat): Option<GroupView>
    requires id < |db.reservations|
  {
    var reservation := db.reservations[id];
    var r := reservation.request;
    if r in db.steps && db.steps[r].reservation == id && db.steps[r].operation in db.operations
       && r in db.requests && db.steps[r].operation in db.requests
    then
      var step := db.steps[r];
      Some(GroupView(
             r, step, db.operations[step.operation].key, db.requests[r].identity,
             db.requests[step.operation].identity, id, reservation, RevisionsOf(db, r),
             AdmittedChild(db, step.operation), EventsOf(db.ledger, reservation.group),
             SettlementOf(db, r), EvidenceOf(db, r)))
    else None
  }

  /** Whether a step holds this reservation; V1 billing and plain requests hold reservations too. */
  predicate OwnedByStep(db: Db, id: nat) {
    && id < |db.reservations|
    && db.reservations[id].request in db.steps
    && db.steps[db.reservations[id].request].reservation == id
  }

  // Ownership and authorization history

  predicate OwnersAgree(v: GroupView) {
    var auth := v.step.auth;
    && v.step.reservation == v.reservationId
    && auth.hold == v.reservation.amount
    && v.request != ""
    && v.reservation.user == v.identity.user == v.parentIdentity.user
    && v.reservation.key == v.operationKey == v.identity.key == v.parentIdentity.key == auth.key
    && auth.endpoint == v.identity.endpoint
    && auth.model == v.identity.model
    && v.identity.hash == auth.fingerprint
  }

  function CurrentAuthorization(v: GroupView): Authorization {
    v.step.auth.(parent := v.step.operation, request := v.request)
  }

  predicate RevisionRowValid(v: GroupView, i: nat)
    requires i < |v.history|
  {
    var row := v.history[i];
    && row.number == i + 1
    && row.budgetId == row.auth.budgetId
    && row.digest == AuthorizationDigest(row.auth)
    && row.hold == row.auth.hold
    && row.auth.request == v.request
    && row.auth.parent == v.step.operation
    && row.auth.key == v.step.auth.key
    && row.auth.fingerprint == v.step.auth.fingerprint
    && row.auth.endpoint == v.step.auth.endpoint
    && row.auth.model == v.step.auth.model
    && row.adoptedAt >= 0
  }

  /** A refresh is recorded with the proof that the budget it replaces was canceled upstream. */
  predicate ProofValid(request: Id, previous: Authorization, row: Revision) {
    && row.proof.Some?
    && var p := row.proof.value;
       && row.previous == Some(previous.budgetId)
       && p.budgetId == previous.budgetId
       && p.request == request
       && p.bridge == previous.bridge == row.auth.bridge
       && p.cancelRef != ""
       && p.revision > 0
       && p.canceledAt > 0
       && row.proofDigest
          == Some(ProofDigest(Proof(previous.budgetId, request, previous.bridge, p.cancelRef, p.revision, p.canceledAt)))
  }

  predicate HistoryValid(v: GroupView) {
    && |v.history| > 0
    && (forall i | 0 <= i < |v.history| :: RevisionRowValid(v, i))
    && v.history[0].previous.None? && v.history[0].proof.None? && v.history[0].proofDigest.None?
    && (forall i | 0 < i < |v.history| :: ProofValid(v.request, v.history[i - 1].auth, v.history[i]))
    && v.history[|v.history| - 1].auth == CurrentAuthorization(v)
    && v.history[|v.history| - 1].hold == v.reservation.amount
  }

  predicate KindValid(v: GroupView) {
    if v.step.kind == Assist then v.admittedChild == Some(v.request) else v.step.operation == v.request
  }

  // Accounts, as the reserve entries name them

  predicate HoldCandidate(accounts: seq<Account>, e: Entry, scope: Scope, user: Id, key: Option<Id>) {
    && e.kind == ReserveEvent
    && e.account < |accounts|
    && var row := accounts[e.account];
       row.scope == scope && row.user == user && row.key == key && row.version > 0
  }

  function FirstHold(accounts: seq<Account>, events: seq<Entry>, scope: Scope, user: Id, key: Option<Id>): seq<nat> {
    if events == [] then []
    else if HoldCandidate(accounts, events[0], scope, user, key) then [events[0].account]
    else FirstHold(accounts, events[1..], scope, user, key)
  }

  function HoldAccounts(accounts: seq<Account>, v: GroupView): seq<nat> {
    FirstHold(accounts, v.events, KeyScope, v.identity.user, Some(v.step.auth.key))
      + FirstHold(accounts, v.events, UserCapScope, v.identity.user, None)
  }

  /** The reservation points at exactly the accounts its reserve entries name. */
  predicate AccountsAgree(accounts: seq<Account>, v: GroupView) {
    var holds := HoldAccounts(accounts, v);
    && |holds| > 0
    && holds[0] == v.reservation.keyAccount
    && (if |holds| > 1 then Some(holds[1]) else None) == v.reservation.userCap
  }

  // Lifecycle

  /** How a reservation state pairs with the step's financial state: which closing entry it needs, if any. */
  function ClosingKind(state: HoldState, fin: FinState): Option<Option<EventKind>> {
    match state
    case HoldHeld => if fin == FinHeld || fin == FinConflict then Some(None) else None
    case HoldUnknown => if fin == FinUnknown || fin == FinConflict then Some(None) else None
    case HoldReleased => if fin == FinReleased then Some(Some(ReleaseEvent)) else None
    case HoldCommitted => if fin == FinSettled || fin == FinConflict then Some(Some(CommitEvent)) else None
  }

  function Closing(v: GroupView): Option<EventKind> {
    match ClosingKind(v.reservation.state, v.step.fin)
    case Some(kind) => kind
    case None => None
  }

  predicate LifecycleValid(v: GroupView) {
    && ClosingKind(v.reservation.state, v.step.fin).Some?
    && (Outstanding(v.reservation.state) ==> v.step.actual.None?)
    && (v.reservation.state == HoldReleased ==>
          !v.step.dispatched && v.step.actual.None?
          && v.step.releaseReason.Some? && v.step.releaseReason.value != "")
    && (v.reservation.state == HoldCommitted ==>
          v.step.dispatched && v.step.actual.Some? && v.step.actual.value >= 0)
  }

  // Ledger events: every account of the group has one entry per slot

  /** Slot 0 is the reserve, slot k the adoption of revision k + 1, slot |history| the closing entry. */
  function Slot(v: GroupView, e: Entry): Option<nat> {
    match e.kind
    case ReserveEvent => if e.revision == Some(1) then Some(0) else None
    case AdjustHoldEvent =>
      if e.revision.Some? && 2 <= e.revision.value <= |v.history| then Some(e.revision.value - 1) else None
    case ReleaseEvent | CommitEvent =>
      if Closing(v) == Some(e.kind) && e.revision == Some(|v.history|) then Some(|v.history|) else None
    case GrantEvent => None
  }

  function SlotCount(v: GroupView): nat {
    |v.history| + if Closing(v).Some? then 1 else 0
  }

  /** The amount committed by the closing entry, 0 when the hold was released. */
  function Charge(v: GroupView): int {
    if Closing(v) == Some(CommitEvent) && v.step.actual.Some? then v.step.actual.value else 0
  }

  function SlotDelta(v: GroupView, slot: nat): int
    requires |v.history| > 0 && slot < SlotCount(v)
  {
    if slot == 0 then -v.history[0].hold
    else if slot < |v.history| then v.history[slot - 1].hold - v.history[slot].hold
    else v.step.auth.hold - Charge(v)
  }

  function Abs(n: int): int {
    if n < 0 then -n else n
  }

  function SlotAmount(v: GroupView, slot: nat): int
    requires |v.history| > 0 && slot < SlotCount(v)
  {
    if slot == 0 then v.history[0].hold
    else if slot < |v.history| then Abs(SlotDelta(v, slot))
    else if Closing(v) == Some(CommitEvent) then Charge(v)
    else v.step.auth.hold
  }

  predicate EventFits(accounts: seq<Account>, v: GroupView, e: Entry)
    requires |v.history| > 0
  {
    && e.account in AccountsOf(v.reservation)
    && e.account < |accounts|
    && e.request == Some(v.request)
    && e.user == v.reservation.user
    && e.key == Some(v.reservation.key)
    && 0 < e.version <= accounts[e.account].version
    && Slot(v, e).Some?
    && Slot(v, e).value < SlotCount(v)
    && e.amount == SlotAmount(v, Slot(v, e).value)
    && e.delta == SlotDelta(v, Slot(v, e).value)
  }

  predicate SameSlot(v: GroupView, e: Entry, account: nat, slot: nat) {
    e.account == account && Slot(v, e) == Some(slot)
  }

  predicate SlotFilled(v: GroupView, es: seq<Entry>, account: nat, slot: nat) {
    exists x | 0 <= x < |es| :: SameSlot(v, es[x], account, slot)
  }

  /** Adoptions strictly follow one another in account version; the closing entry may share the last version. */
  predicate VersionsFollow(v: GroupView, x: nat, y: nat)
    requires x < |v.events| && y < |v.events|
  {
    var before, after := Slot(v, v.events[x]), Slot(v, v.events[y]);
    v.events[x].account == v.events[y].account && before.Some? && after == Some(before.value + 1) ==>
      if after.value < |v.history| then v.events[x].version < v.events[y].version
      else v.events[x].version <= v.events[y].version
  }

  predicate EventsValid(accounts: seq<Account>, v: GroupView)
    requires |v.history| > 0
  {
    && |v.events| == |AccountsOf(v.reservation)| * SlotCount(v)
    && (forall x | 0 <= x < |v.events| :: EventFits(accounts, v, v.events[x]))
    && (forall x, y | 0 <= x < y < |v.events| ::
          v.events[x].account != v.events[y].account || Slot(v, v.events[x]) != Slot(v, v.events[y]))
    && (forall i, slot: nat | 0 <= i < |AccountsOf(v.reservation)| && slot < SlotCount(v) ::
          SlotFilled(v, v.events, AccountsOf(v.reservation)[i], slot))
    && (forall x, y | 0 <= x < |v.events| && 0 <= y < |v.events| :: VersionsFollow(v, x, y))
  }

  // Settlement and evidence

  predicate SettlementValid(v: GroupView) {
    if v.reservation.state != HoldCommitted then v.settlement.None?
    else
      && v.settlement.Some?
      && var s := v.settlement.value;
         && s.reservation == v.reservationId
         && s.budgetId == v.step.auth.budgetId
         && s.accountRef == v.step.auth.accountRef
         && s.bridge == v.step.auth.bridge
         && !Blank(s.source)
         && !BlankHash(s.hash)
         && s.hold == v.step.auth.hold
         && Some(s.actual) == v.step.actual
         && s.released == v.step.auth.hold - s.actual
         && s.settledAt > 0
  }

  predicate BlankHash(hash: EvidenceHash) {
    hash.Supplied? && Blank(hash.text)
  }

  function FactsOf(request: Id, e: Evidence, status: ReceiptStatus, actual: Option<int>): ReceiptFacts {
    ReceiptFacts(request, e.budgetId, e.accountRef, e.bridge, status, actual, e.unit, e.source, e.task)
  }

  /** A stored receipt reproduces its hash; a no-charge receipt may have been reported with or without its zero. */
  predicate HashReproduced(request: Id, hash: EvidenceHash, e: Evidence, status: ReceiptStatus) {
    if status == FailedNoCharge
    then
      || hash == Computed(FactsOf(request, e, status, None))
      || hash == Computed(FactsOf(request, e, status, Some(0)))
    else hash == Computed(FactsOf(request, e, status, e.actual))
  }

  predicate ReceiptRowValid(request: Id, hash: EvidenceHash, e: Evidence) {
    && e.status.Some?
    && e.unit == Some("credits")
    && e.reason.None?
    && HashReproduced(request, hash, e, e.status.value)
    && (e.status.value == Final ==> e.actual.Some? && e.actual.value >= 0)
    && (e.status.value == FailedNoCharge ==> e.actual == Some(0))
    && (!IsFinal(e.status.value) && e.actual.Some? ==> e.actual.value >= 0)
  }

  predicate ConflictRowValid(request: Id, hash: EvidenceHash, e: Evidence) {
    && e.reason.Some? && e.reason.value != ""
    && if e.status.None? then e.actual.None? && e.unit.None? && e.task.None?
       else
         && IsFinal(e.status.value)
         && e.unit == Some("credits")
         && (e.status.value == Final ==> e.actual.Some? && e.actual.value >= 0)
         && (e.status.value == FailedNoCharge && e.actual.Some? ==> e.actual.value == 0)
         && HashReproduced(request, hash, e, e.status.value)
  }

  /** The receipt a settlement names is a final one and says what was settled; a final video is about its bound task. */
  predicate SettlesWith(v: GroupView, e: Evidence)
    requires v.settlement.Some?
  {
    var s := v.settlement.value;
    && s.source == e.source
    && s.task == e.task
    && s.actual == (if e.actual.Some? then e.actual.value else 0)
    && e.status.Some?
    && IsFinal(e.status.value)
    && (v.step.kind == Video && e.status.value == Final ==> v.step.task.Some? && e.task == v.step.task)
    && (v.step.kind == Video && e.status.value == FailedNoCharge ==> e.task.None?)
  }

  predicate EvidenceRowValid(v: GroupView, hash: EvidenceHash)
    requires hash in v.evidence
  {
    var e := v.evidence[hash];
    && e.budgetId == v.step.auth.budgetId
    && e.accountRef == v.step.auth.accountRef
    && e.bridge == v.step.auth.bridge
    && !Blank(e.source)
    && !BlankHash(hash)
    && e.observedAt > 0
    && e.recordedAt > 0
    && match e.kind
       case ReceiptRecord =>
         && ReceiptRowValid(v.request, hash, e)
         && (v.settlement.Some? && v.settlement.value.hash == hash ==> SettlesWith(v, e))
       case ConflictRecord => ConflictRowValid(v.request, hash, e)
  }

  /** A video that a no-charge receipt settled has no task. */
  predicate TaskAgrees(v: GroupView, hash: EvidenceHash)
    requires hash in v.evidence
  {
    v.settlement.Some? && v.settlement.value.hash == hash && v.step.kind == Video
    && v.evidence[hash].kind == ReceiptRecord && v.evidence[hash].status == Some(FailedNoCharge) ==>
      v.step.task.None?
  }

  predicate TasksAgree(v: GroupView) {
    forall hash | hash in v.evidence :: TaskAgrees(v, hash)
  }

  predicate HasConflictRow(v: GroupView) {
    exists hash | hash in v.evidence :: v.evidence[hash].kind == ConflictRecord
  }

  /** What the evidence says when the video task of a settled step is left out of account. */
  predicate EvidenceSound(v: GroupView) {
    && (forall hash | hash in v.evidence :: EvidenceRowValid(v, hash))
    && (HasConflictRow(v) ==> v.step.fin == FinConflict)
    && (v.step.fin == FinConflict && TasksAgree(v) ==> HasConflictRow(v))
    && (v.reservation.state == HoldCommitted ==>
          v.settlement.Some? && v.settlement.value.hash in v.evidence
          && v.evidence[v.settlement.value.hash].kind == ReceiptRecord)
  }

  predicate EvidenceValid(v: GroupView) {
    && (forall hash | hash in v.evidence :: EvidenceRowValid(v, hash) && TaskAgrees(v, hash))
    && (v.step.fin == FinConflict <==> HasConflictRow(v))
    && (v.reservation.state == HoldCommitted ==>
          v.settlement.Some? && v.settlement.value.hash in v.evidence
          && v.evidence[v.settlement.value.hash].kind == ReceiptRecord)
  }

  predicate ViewValid(accounts: seq<Account>, v: GroupView) {
    && OwnersAgree(v)
    && v.step.auth.hold >= 0
    && v.step.digest == AuthorizationDigest(CurrentAuthorization(v))
    && HistoryValid(v)
    && KindValid(v)
    && AccountsAgree(accounts, v)
    && LifecycleValid(v)
    && EventsValid(accounts, v)
    && SettlementValid(v)
    && EvidenceValid(v)
  }

  /** The check itself: does this reservation's event group agree with every row that belongs to it? */
  predicate GroupValid(db: Db, id: nat)
    requires id < |db.reservations|
  {
    var view := ViewOf(db, id);
    view.Some? && ViewValid(db.accounts, view.value)
  }
}
