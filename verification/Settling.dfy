/** Refreshing an authorization before dispatch, and settling a step from receipts after it. */
module Settling {
  import opened Wrappers
  import opened Model
  import opened Ledger
  import opened EventGroup
  import opened Billing
  import opened Text

  // Refresh

  /** An accepted refresh is recognised by its budget id, whatever has changed since. */
  predicate RefreshReplays(rows: seq<Revision>, expectedOld: Id, replacement: Authorization, proof: Proof) {
    exists i | 0 <= i < |rows| ::
      && rows[i].budgetId == replacement.budgetId
      && rows[i].number > 1
      && rows[i].previous == Some(expectedOld)
      && rows[i].auth == replacement
      && rows[i].digest == AuthorizationDigest(replacement)
      && rows[i].proof == Some(proof)
      && rows[i].proofDigest == Some(ProofDigest(proof))
  }

  function CheckRefreshInput(
    now: Millis, request: Id, expectedOld: Id, replacement: Authorization, proof: Proof): Option<Error>
  {
    if Incomplete(replacement) then Some(QuoteMismatch)
    else if replacement.hold <= 0 then Some(InvalidAmount)
    else if replacement.expiresAt <= now then Some(QuoteExpired)
    else if proof.budgetId != expectedOld || proof.request != request || Blank(proof.bridge)
            || Blank(proof.cancelRef) || proof.revision <= 0 || proof.canceledAt <= 0 || proof.canceledAt > now
            || replacement.request != request
    then Some(QuoteMismatch)
    else None
  }

  predicate StepJoined(db: Db, request: Id) {
    && request in db.steps && request in db.requests
    && db.steps[request].operation in db.operations && db.steps[request].operation in db.requests
  }

  function CheckRefreshOwners(db: Db, request: Id, expectedOld: Id, replacement: Authorization, proof: Proof)
    : Option<Error>
    requires StepJoined(db, request)
  {
    var step := db.steps[request];
    var auth := step.auth;
    var operation := db.operations[step.operation];
    var row, parent := db.requests[request], db.requests[step.operation];
    if auth.budgetId != expectedOld || step.dispatched || step.exec != ExecReady || step.fin != FinHeld
       || Terminal(operation.state) || !ActiveRequest(parent.state)
    then Some(IdempotencyConflict)
    else if step.digest != AuthorizationDigest(auth.(parent := step.operation, request := request))
            || operation.key != auth.key || parent.identity.key != auth.key || row.identity.key != auth.key
            || parent.identity.user != row.identity.user
            || row.identity.endpoint != auth.endpoint || row.identity.model != auth.model
            || row.identity.hash != auth.fingerprint
            || replacement.parent != step.operation || replacement.key != auth.key
            || replacement.fingerprint != auth.fingerprint || replacement.endpoint != auth.endpoint
            || replacement.model != auth.model || replacement.bridge != auth.bridge || proof.bridge != auth.bridge
            || replacement.budgetId == auth.budgetId
    then Some(QuoteMismatch)
    else
      var rows := RevisionsOf(db, request);
      if rows == [] || |rows| != rows[|rows| - 1].number || rows[|rows| - 1].budgetId != auth.budgetId
         || rows[|rows| - 1].digest != step.digest || rows[|rows| - 1].hold != auth.hold
      then Some(IdempotencyConflict)
      else if !KeyActive(db, auth.key, row.identity.user) then Some(InvalidIdentity)
      else if KeyBlockedIn(db, auth.key) then Some(KeyBlocked)
      else None
  }

  function CheckRefreshAccount(db: Db, id: nat, scope: Scope, user: Id, key: Option<Id>): Option<Error> {
    if id >= |db.accounts| || !AccountReady(db.accounts[id]) then Some(AccountNotReady)
    else
      var account := db.accounts[id];
      if account.scope != scope || account.user != user || account.key != key then Some(IdempotencyConflict) else None
  }

  function CheckRefreshHold(db: Db, request: Id, replacement: Authorization): Option<Error>
    requires StepJoined(db, request)
  {
    var step := db.steps[request];
    var user := db.requests[request].identity.user;
    if step.reservation >= |db.reservations| then Some(ReservationNotFound)
    else
      var hold := db.reservations[step.reservation];
      if hold.request != request || hold.state != HoldHeld || hold.amount != step.auth.hold || hold.user != user
         || hold.key != step.auth.key
      then Some(ReservationConflict)
      else if hold.userCap == Some(hold.keyAccount) then Some(IdempotencyConflict)
      else
        var key := CheckRefreshAccount(db, hold.keyAccount, KeyScope, user, Some(step.auth.key));
        if key.Some? then key
        else if hold.userCap.Some? && CheckRefreshAccount(db, hold.userCap.value, UserCapScope, user, None).Some? then
          CheckRefreshAccount(db, hold.userCap.value, UserCapScope, user, None)
        else
          var available := MinAvailable(db.ledger, hold.keyAccount, hold.userCap);
          var extra := if replacement.hold > step.auth.hold then replacement.hold - step.auth.hold else 0;
          if available < extra then Some(QuotaInsufficient(available, extra))
          else if exists i | 0 <= i < |AccountsOf(hold)| :: db.accounts[AccountsOf(hold)[i]].version >= MAX_I64 then
            Some(InvalidConfiguration)
          else None
  }

  function NextRevision(rows: seq<Revision>, now: Millis, expectedOld: Id, replacement: Authorization, proof: Proof)
    : Revision
  {
    Revision(|rows| + 1, replacement.budgetId, replacement, AuthorizationDigest(replacement), replacement.hold,
             Some(expectedOld), Some(proof), Some(ProofDigest(proof)), now)
  }

  /** The replacement becomes the step's authorization, the hold moves to its amount, both under new versions. */
  function RefreshRows(db: Db, now: Millis, request: Id, expectedOld: Id, replacement: Authorization, proof: Proof): Db
    requires request in db.steps && db.steps[request].reservation < |db.reservations|
    requires AccountsKnown(db.accounts, AccountsOf(db.reservations[db.steps[request].reservation]))
  {
    var step := db.steps[request];
    var rows := RevisionsOf(db, request);
    var hold := db.reservations[step.reservation];
    var delta := step.auth.hold - replacement.hold;
    var accounts := AdvanceAll(db.accounts, hold);
    db.(steps := db.steps[request := step.(auth := replacement, digest := AuthorizationDigest(replacement))],
        reservations := db.reservations[step.reservation :=
                                        hold.(amount := replacement.hold, expiresAt := replacement.expiresAt)],
        accounts := accounts,
        ledger := db.ledger + HoldEntries(accounts, hold, AdjustHoldEvent, Abs(delta), delta, Some(|rows| + 1)),
        revisions := db.revisions[request := rows + [NextRevision(rows, now, expectedOld, replacement, proof)]])
  }

  /** What an adoption rests on: an undispatched step under the expected authorization, and proof of its cancellation. */
  predicate RefreshFits(db: Db, request: Id, expectedOld: Id, replacement: Authorization, proof: Proof) {
    && request in db.steps && db.steps[request].reservation < |db.reservations|
    && var step := db.steps[request];
       var hold := db.reservations[step.reservation];
       var auth := step.auth;
       && auth.budgetId == expectedOld
       && !step.dispatched && step.fin == FinHeld && step.exec == ExecReady
       && hold.state == HoldHeld
       && hold.userCap != Some(hold.keyAccount) && AccountsKnown(db.accounts, AccountsOf(hold))
       && (replacement.hold > auth.hold ==>
             MinAvailable(db.ledger, hold.keyAccount, hold.userCap) >= replacement.hold - auth.hold)
       && replacement.hold > 0
       && replacement.parent == step.operation && replacement.request == request
       && replacement.key == auth.key && replacement.fingerprint == auth.fingerprint
       && replacement.endpoint == auth.endpoint && replacement.model == auth.model
       && replacement.bridge == auth.bridge == proof.bridge
       && proof.budgetId == expectedOld && proof.request == request
       && !Blank(proof.cancelRef) && proof.revision > 0 && proof.canceledAt > 0
  }

  /** The guards of refresh_budget_authorization; an accepted replacement replays whatever has changed since. */
  function RefreshVerdict(
    db: Db, now: Millis, request: Id, expectedOld: Id, replacement: Authorization, proof: Proof): (v: Verdict)
    ensures v.Proceed? ==>
              && RefreshFits(db, request, expectedOld, replacement, proof)
              && !BudgetIdUsed(db, replacement.budgetId)
              && !KeyBlockedIn(db, replacement.key)
  {
    if Blank(request) || Blank(expectedOld) then Refusal(IdempotencyConflict)
    else if BudgetIdUsed(db, replacement.budgetId) then
      if RefreshReplays(RevisionsOf(db, request), expectedOld, replacement, proof) then Replay
      else Refusal(IdempotencyConflict)
    else if CheckRefreshInput(now, request, expectedOld, replacement, proof).Some? then
      Refusal(CheckRefreshInput(now, request, expectedOld, replacement, proof).value)
    else if !StepJoined(db, request) then Refusal(RequestNotFound)
    else if CheckRefreshOwners(db, request, expectedOld, replacement, proof).Some? then
      Refusal(CheckRefreshOwners(db, request, expectedOld, replacement, proof).value)
    else if CheckRefreshHold(db, request, replacement).Some? then
      Refusal(CheckRefreshHold(db, request, replacement).value)
    else Proceed
  }

  /** refresh_budget_authorization */
  function Refresh(db: Db, now: Millis, request: Id, expectedOld: Id, replacement: Authorization, proof: Proof)
    : Tx<Mutation>
  {
    match RefreshVerdict(db, now, request, expectedOld, replacement, proof)
    case Proceed => Tx(RefreshRows(db, now, request, expectedOld, replacement, proof), Ok(Applied))
    case Replay => Tx(db, Ok(Duplicate))
    case Refusal(error) => Tx(db, Err(error))
  }

  // Receipts

  datatype ReceiptReply =
    | SettledReply(actual: int, released: int, debt: bool)
    | PendingReply
    | DuplicateReply
    | ConflictReply

  function FactsOfInput(input: ReceiptInput): ReceiptFacts {
    var receipt := input.receipt;
    ReceiptFacts(receipt.request, input.budgetId, input.accountRef, input.bridge, receipt.status, receipt.actual,
                 Some(receipt.unit), receipt.source, receipt.task)
  }

  function HashOf(input: ReceiptInput): EvidenceHash {
    Computed(FactsOfInput(input))
  }

  predicate ReceiptMalformed(receipt: Receipt) {
    || Blank(receipt.request) || Blank(receipt.source) || receipt.observedAt <= 0 || receipt.unit != "credits"
    || (receipt.actual.Some? && receipt.actual.value < 0)
    || (receipt.status == Final && receipt.actual.None?)
    || (receipt.status == FailedNoCharge && receipt.actual.Some? && receipt.actual.value != 0)
  }

  /** What a final receipt charges. */
  function ChargeOf(receipt: Receipt): int {
    if receipt.status == FailedNoCharge || receipt.actual.None? then 0 else receipt.actual.value
  }

  function EvidenceFor(input: ReceiptInput, kind: RecordKind, actual: Option<int>, reason: Option<string>, now: Millis)
    : Evidence
  {
    var receipt := input.receipt;
    Evidence(input.budgetId, input.accountRef, input.bridge, kind, Some(receipt.status), actual, Some(receipt.unit),
             receipt.source, receipt.task, receipt.observedAt, reason, now)
  }

  /** INSERT OR IGNORE under UNIQUE(request_id, evidence_hash) */
  function InsertEvidence(db: Db, request: Id, hash: EvidenceHash, row: Evidence): Db {
    var rows := EvidenceOf(db, request);
    if hash in rows then db else db.(evidence := db.evidence[request := rows[hash := row]])
  }

  /** The step's financial state becomes `conflict` unless it was released, and the Key is blocked. */
  function FreezeStep(db: Db, request: Id): Db
    requires request in db.steps
  {
    var step := db.steps[request];
    db.(steps := db.steps[request := if step.fin == FinReleased then step else step.(fin := FinConflict)],
        blocks := db.blocks + {step.auth.key})
  }

  /** A conflict row and the freeze it causes. */
  function ConflictRows(db: Db, request: Id, hash: EvidenceHash, row: Evidence): Db
    requires request in db.steps
  {
    FreezeStep(InsertEvidence(db, request, hash, row), request)
  }

  function CheckReceiptOwner(db: Db, input: ReceiptInput): Option<Error> {
    var r := input.receipt.request;
    if r !in db.steps || r !in db.requests || db.steps[r].operation !in db.operations then Some(QuoteMismatch)
    else
      var step := db.steps[r];
      var auth := step.auth;
      var identity := db.requests[r].identity;
      if input.budgetId != auth.budgetId || input.accountRef != auth.accountRef || input.bridge != auth.bridge
         || auth.key != db.operations[step.operation].key || identity.key != auth.key
         || identity.endpoint != auth.endpoint || identity.model != auth.model || identity.hash != auth.fingerprint
      then Some(ReceiptInvalid)
      else if step.reservation >= |db.reservations| then Some(ReservationNotFound)
      else
        var hold := db.reservations[step.reservation];
        if hold.request != r || hold.user != identity.user || hold.key != auth.key || hold.amount != auth.hold then
          Some(ReceiptInvalid)
        else if !step.dispatched then Some(ReceiptInvalid)
        else if step.kind == Video && input.receipt.status == Final && step.task.None? then Some(ReceiptInvalid)
        else None
  }

  /** The stored row says what this receipt says, as a receipt or as the conflict it once was. */
  predicate AlreadyRecorded(rows: map<EvidenceHash, Evidence>, input: ReceiptInput) {
    && HashOf(input) in rows
    && var row := rows[HashOf(input)];
       && row.status == Some(input.receipt.status)
       && row.actual == input.receipt.actual
       && row.unit == Some(input.receipt.unit)
       && row.source == input.receipt.source
       && row.task == input.receipt.task
       && match row.kind
          case ReceiptRecord => row.reason.None?
          case ConflictRecord => row.unit == Some("credits") && row.reason.Some? && !Blank(row.reason.value)
  }

  predicate TaskConflict(step: Step, receipt: Receipt) {
    && step.kind == Video
    && match receipt.status
       case Final => receipt.task != step.task
       case FailedNoCharge => step.task.Some? || receipt.task.Some?
       case Pending | Unknown | Unverified => false
  }

  predicate SameSettlement(s: Settlement, rows: map<EvidenceHash, Evidence>, input: ReceiptInput) {
    && ChargeOf(input.receipt) == s.actual
    && input.receipt.source == s.source
    && input.receipt.task == s.task
    && HashOf(input) == s.hash
    && s.hash in rows && rows[s.hash].kind == ReceiptRecord && rows[s.hash].status == Some(input.receipt.status)
  }

  predicate Unsettled(step: Step, hold: Reservation) {
    (step.fin == FinHeld || step.fin == FinUnknown) && Outstanding(hold.state)
  }

  /** The hold stays open, but its outcome is now unknown. */
  function MarkUnknown(db: Db, request: Id): Db
    requires request in db.steps && db.steps[request].reservation < |db.reservations|
  {
    var step := db.steps[request];
    var hold := db.reservations[step.reservation];
    db.(reservations := db.reservations[step.reservation := hold.(state := HoldUnknown)],
        steps := db.steps[request := step.(fin := FinUnknown)])
  }

  /** A pending receipt on record, and the hold it leaves in doubt. */
  function SuspendRows(db: Db, request: Id, hash: EvidenceHash, row: Evidence): Db
    requires request in db.steps && db.steps[request].reservation < |db.reservations|
  {
    MarkUnknown(InsertEvidence(db, request, hash, row), request)
  }

  /** The ledger once the hold of `request` has been closed by a charge of `actual`. */
  function CommitLedger(db: Db, request: Id, actual: int): seq<Entry>
    requires request in db.steps && db.steps[request].reservation < |db.reservations|
  {
    var step := db.steps[request];
    db.ledger + HoldEntries(db.accounts, db.reservations[step.reservation], CommitEvent, actual,
                            step.auth.hold - actual, LatestRevision(db, request))
  }

  /** Has an account of the hold been charged past its balance? */
  predicate InDebt(ledger: seq<Entry>, hold: Reservation) {
    MinAvailable(ledger, hold.keyAccount, hold.userCap) < 0
  }

  function NewSettlement(step: Step, input: ReceiptInput, debt: bool, now: Millis): Settlement {
    var actual := ChargeOf(input.receipt);
    Settlement(step.reservation, input.budgetId, input.accountRef, input.bridge, input.receipt.source, HashOf(input),
               input.receipt.task, step.auth.hold, actual, step.auth.hold - actual, debt, now)
  }

  function SettleRows(db: Db, now: Millis, input: ReceiptInput): Db
    requires input.receipt.request in db.steps
    requires db.steps[input.receipt.request].reservation < |db.reservations|
  {
    var r := input.receipt.request;
    var step := db.steps[r];
    var hold := db.reservations[step.reservation];
    var actual := ChargeOf(input.receipt);
    var ledger := CommitLedger(db, r, actual);
    var noted := InsertEvidence(db, r, HashOf(input), EvidenceFor(input, ReceiptRecord, Some(actual), None, now));
    noted.(reservations := db.reservations[step.reservation := hold.(state := HoldCommitted)],
           ledger := ledger,
           steps := db.steps[r := step.(fin := FinSettled, actual := Some(actual))],
           settlements := db.settlements[r := NewSettlement(step, input, InDebt(ledger, hold), now)])
  }

  /** What the guards of a receipt decide: refuse it, answer without writing, or write one of four kinds of rows. */
  datatype Course =
    | Reject(error: Error)
    | Answer(reply: ReceiptReply)
    | Contradict(reason: string)
    | Note(reply: ReceiptReply)
    | Suspend
    | Charge

  predicate ReceiptFits(db: Db, input: ReceiptInput) {
    && input.receipt.request in db.steps
    && db.steps[input.receipt.request].reservation < |db.reservations|
    && !ReceiptMalformed(input.receipt)
    && CheckReceiptOwner(db, input).None?
    && !AlreadyRecorded(EvidenceOf(db, input.receipt.request), input)
  }

  function TaskReason(receipt: Receipt): string {
    if receipt.status == FailedNoCharge then "failed_no_charge conflicts with a video task reference"
    else "video final receipt is not bound to the stored task"
  }

  /** The guards of apply_budget_receipt, in order. */
  function ReceiptCourse(db: Db, input: ReceiptInput): (c: Course)
    ensures !c.Reject? && !c.Answer? ==> ReceiptFits(db, input)
    ensures c.Contradict? ==>
              && c.reason != "" && IsFinal(input.receipt.status)
              && (TaskConflict(db.steps[input.receipt.request], input.receipt)
                  || input.receipt.request !in db.settlements
                  || !SameSettlement(db.settlements[input.receipt.request], EvidenceOf(db, input.receipt.request), input))
    ensures c.Note? ==>
              || !IsFinal(input.receipt.status)
              || (input.receipt.request in db.settlements
                  && SameSettlement(db.settlements[input.receipt.request], EvidenceOf(db, input.receipt.request), input))
    ensures c.Suspend? || c.Charge? ==>
              && input.receipt.request !in db.settlements
              && IsFinal(input.receipt.status) == c.Charge?
              && var step := db.steps[input.receipt.request]; Unsettled(step, db.reservations[step.reservation])
    ensures c.Charge? ==>
              && !TaskConflict(db.steps[input.receipt.request], input.receipt)
              && AccountsKnown(db.accounts, AccountsOf(db.reservations[db.steps[input.receipt.request].reservation]))
  {
    var r := input.receipt.request;
    if ReceiptMalformed(input.receipt) then Reject(ReceiptInvalid)
    else if CheckReceiptOwner(db, input).Some? then Reject(CheckReceiptOwner(db, input).value)
    else if AlreadyRecorded(EvidenceOf(db, r), input) then Answer(DuplicateReply)
    else
      var step := db.steps[r];
      var hold := db.reservations[step.reservation];
      if TaskConflict(step, input.receipt) then Contradict(TaskReason(input.receipt))
      else if r in db.settlements then
        if IsFinal(input.receipt.status) && !SameSettlement(db.settlements[r], EvidenceOf(db, r), input) then
          Contradict("conflicting final receipt after settlement")
        else Note(DuplicateReply)
      else if step.fin == FinConflict then Answer(ConflictReply)
      else if !IsFinal(input.receipt.status) then
        if Unsettled(step, hold) then Suspend
        else Note(if step.fin == FinReleased || step.fin == FinSettled then DuplicateReply else PendingReply)
      else if !Unsettled(step, hold) then Reject(ReservationConflict)
      else if !AccountsKnown(db.accounts, AccountsOf(hold)) then Reject(InvalidConfiguration)
      else Charge
  }

  /** The receipt as evidence, with the amount it reports. */
  function NoteRow(input: ReceiptInput, now: Millis): Evidence {
    EvidenceFor(input, ReceiptRecord, input.receipt.actual, None, now)
  }

  function ContradictionRow(input: ReceiptInput, reason: string, now: Millis): Evidence {
    EvidenceFor(input, ConflictRecord, input.receipt.actual, Some(reason), now)
  }

  function SettledReplyFor(db: Db, input: ReceiptInput): ReceiptReply
    requires input.receipt.request in db.steps
    requires db.steps[input.receipt.request].reservation < |db.reservations|
  {
    var r := input.receipt.request;
    var step := db.steps[r];
    var actual := ChargeOf(input.receipt);
    SettledReply(actual, step.auth.hold - actual,
                 InDebt(CommitLedger(db, r, actual), db.reservations[step.reservation]))
  }

  /** apply_budget_receipt */
  function ApplyReceipt(db: Db, now: Millis, input: ReceiptInput): Tx<ReceiptReply> {
    var r := input.receipt.request;
    match ReceiptCourse(db, input)
    case Reject(error) => Tx(db, Err(error))
    case Answer(reply) => Tx(db, Ok(reply))
    case Contradict(reason) =>
      Tx(ConflictRows(db, r, HashOf(input), ContradictionRow(input, reason, now)), Ok(ConflictReply))
    case Note(reply) => Tx(InsertEvidence(db, r, HashOf(input), NoteRow(input, now)), Ok(reply))
    case Suspend =>
      Tx(SuspendRows(db, r, HashOf(input), NoteRow(input, now)), Ok(PendingReply))
    case Charge => Tx(SettleRows(db, now, input), Ok(SettledReplyFor(db, input)))
  }

  // Conflicts reported by the bridge

  function CheckConflictOwner(db: Db, input: ConflictInput): Option<Error> {
    var r := input.request;
    if r !in db.steps || r !in db.requests || db.steps[r].operation !in db.operations then Some(QuoteMismatch)
    else
      var step := db.steps[r];
      var auth := step.auth;
      var identity := db.requests[r].identity;
      if input.budgetId != auth.budgetId || input.accountRef != auth.accountRef || input.bridge != auth.bridge
         || auth.key != db.operations[step.operation].key || auth.key != identity.key
         || identity.hash != auth.fingerprint || !step.dispatched
      then Some(ReceiptInvalid)
      else if step.reservation >= |db.reservations| then Some(ReservationNotFound)
      else
        var hold := db.reservations[step.reservation];
        if hold.request != r || hold.user != identity.user || hold.key != auth.key || hold.amount != auth.hold
        then Some(ReceiptInvalid) else None
  }

  function ConflictVerdict(db: Db, input: ConflictInput): (v: Verdict)
    ensures v.Proceed? ==>
              && input.request in db.steps && db.steps[input.request].dispatched
              && !Blank(input.source) && !BlankHash(input.hash) && input.observedAt > 0
              && input.budgetId == db.steps[input.request].auth.budgetId
              && input.accountRef == db.steps[input.request].auth.accountRef
              && input.bridge == db.steps[input.request].auth.bridge
              && input.hash !in EvidenceOf(db, input.request)
  {
    if Blank(input.request) || Blank(input.budgetId) || Blank(input.accountRef) || Blank(input.bridge)
       || Blank(input.source) || BlankHash(input.hash) || input.observedAt <= 0
    then Refusal(ReceiptInvalid)
    else if CheckConflictOwner(db, input).Some? then Refusal(CheckConflictOwner(db, input).value)
    else
      var rows := EvidenceOf(db, input.request);
      if input.hash in rows then
        if rows[input.hash].kind == ConflictRecord then Replay else Refusal(IdempotencyConflict)
      else Proceed
  }

  function ReportedRow(input: ConflictInput, now: Millis): Evidence {
    Evidence(input.budgetId, input.accountRef, input.bridge, ConflictRecord, None, None, None, input.source, None,
             input.observedAt, Some("upstream_receipt_conflict"), now)
  }

  /** mark_budget_receipt_conflict */
  function MarkConflict(db: Db, now: Millis, input: ConflictInput): Tx<Mutation> {
    match ConflictVerdict(db, input)
    case Proceed => Tx(ConflictRows(db, input.request, input.hash, ReportedRow(input, now)), Ok(Applied))
    case Replay => Tx(db, Ok(Duplicate))
    case Refusal(error) => Tx(db, Err(error))
  }
}
