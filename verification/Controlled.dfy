/**
  V1 controlled billing on the shared accounts: one operation holds a Key's whole balance, its steps collect
  receipts, and the operation is charged the sum of them once every step is verified.
 */
module Controlled {
  import opened Wrappers
  import opened Model
  import opened RequestStates
  import opened Ledger
  import opened Billing
  import opened Grants
  import opened Text

  datatype OperationState = OpHeld | OpSubmitted | OpUnknown | OpSettled | OpReleased

  datatype ControlledOperation = ControlledOperation(
    key: Id, hold: nat, held: int, actual: Option<int>, state: OperationState)

  datatype StepState = StepPending | StepVerified | StepUnknown | StepConflict

  /** The whole receipt is hashed, its observation time included. */
  datatype ReceiptDigest = ReceiptDigest(of: Receipt)

  datatype ControlledStep = ControlledStep(
    request: Id, parent: Id, kind: StepKind, hash: Option<ReceiptDigest>, actual: Option<int>, task: Option<Id>,
    state: StepState)

  /** The status column of a stored receipt; `conflict` is not one a receipt can report. */
  datatype StoredStatus = Reported(status: ReceiptStatus) | Contradicting

  datatype StoredReceipt = StoredReceipt(status: StoredStatus, actual: Option<int>)

  datatype Quote = Quote(
    id: Id, request: Id, fingerprint: Id, endpoint: Id, model: Id, max: int, unit: Id, source: Id, expiresAt: int)

  datatype QuoteSettlement = QuoteSettlement(
    quote: Id, receipt: ReceiptDigest, actual: int, overQuote: bool, reconcileRequired: bool)

  /**
    The V1 tables beside the shared ones: operations by parent request, steps in insertion order, quotes and their
    settlements by request, and the receipts of both by request and hash.
   */
  datatype ControlledBooks = ControlledBooks(
    core: Db,
    operations: map<Id, ControlledOperation>,
    steps: seq<ControlledStep>,
    receipts: map<ReceiptDigest, StoredReceipt>,
    quotes: map<Id, Quote>,
    settlements: map<Id, QuoteSettlement>)

  datatype BooksTx<+T> = BooksTx(books: ControlledBooks, reply: Result<T, Error>)

  datatype StepResult = VerifiedStep | HeldStep | DuplicateStep | ConflictStep

  datatype OperationSettlement = OperationSettlement(key: Id, actual: int, overHold: bool)

  predicate Active(state: OperationState) {
    state.OpHeld? || state.OpSubmitted? || state.OpUnknown?
  }

  predicate KeyBusy(b: ControlledBooks, key: Id) {
    exists p | p in b.operations :: b.operations[p].key == key && Active(b.operations[p].state)
  }

  function FindStep(steps: seq<ControlledStep>, request: Id): (r: Option<nat>)
    ensures r.Some? ==> r.value < |steps| && steps[r.value].request == request
    ensures r.None? ==> forall i | 0 <= i < |steps| :: steps[i].request != request
  {
    if steps == [] then None
    else if steps[|steps| - 1].request == request then Some(|steps| - 1)
    else
      var r := FindStep(steps[..|steps| - 1], request);
      assert forall i | 0 <= i < |steps| - 1 :: steps[..|steps| - 1][i] == steps[i];
      r
  }

  /** UNIQUE(operation_id, kind) */
  predicate KindTaken(steps: seq<ControlledStep>, parent: Id, kind: StepKind) {
    exists i | 0 <= i < |steps| :: steps[i].parent == parent && steps[i].kind == kind
  }

  // Beginning: the whole balance of the Key is held

  /** The guards of begin_controlled_operation; `active` is the Key's count of active executions. */
  function BeginHold(b: ControlledBooks, now: Millis, parent: Id, snapshot: Snapshot, active: int)
    : (r: Result<Reservation, Error>)
    ensures r.Ok? ==>
              && parent in b.core.requests && parent !in b.operations && !HasReservation(b.core, parent)
              && var who := b.core.requests[parent].identity;
                 && who.key !in b.core.blocks && !KeyBusy(b, who.key)
                 && r.value.amount > 0
                 && r.value == NewHold(who.user, who.key, parent, r.value.amount, MAX_I64, r.value.keyAccount,
                                       r.value.userCap, |b.core.reservations|)
                 && r.value.amount == Available(b.core.ledger, r.value.keyAccount)
                 && r.value.amount <= MinAvailable(b.core.ledger, r.value.keyAccount, r.value.userCap)
                 && ScopesRight(b.core.accounts, r.value)
                 && AccountsKnown(b.core.accounts, AccountsOf(r.value))
  {
    var core := b.core;
    if parent !in core.requests then Err(RequestNotFound)
    else if parent in b.operations then Err(ReservationConflict)
    else if !SnapshotFresh(snapshot, now) then Err(SnapshotUnavailable)
    else if CommitmentOverflows(core) then Err(InvalidConfiguration)
    else if Committed(core) > snapshot.total then Err(CommitmentsExceedBalance)
    else if core.requests[parent].state != Received then Err(QuoteMismatch)
    else
      var who := core.requests[parent].identity;
      if !KeyActive(core, who.key, who.user) then Err(InvalidIdentity)
      else if who.key in core.blocks || KeyBusy(b, who.key) then Err(KeyBlocked)
      else if active >= core.keys[who.key].maxConcurrency then
        Err(ConcurrencyExceeded(active, core.keys[who.key].maxConcurrency))
      else
        var account := FindKeyAccount(core.accounts, who.key, who.user);
        if account.None? then Err(KeyQuotaNotConfigured)
        else
          var available := Available(core.ledger, account.value);
          if available <= 0 then Err(QuotaInsufficient(available, 1))
          else HoldFor(core, who.user, who.key, parent, available, MAX_I64)
  }

  function BeginRows(b: ControlledBooks, parent: Id, hold: Reservation): ControlledBooks
    requires parent in b.core.requests
  {
    var core := b.core;
    b.(core := core.(
       requests := core.requests[parent := core.requests[parent].(state := Reserved)],
       reservations := core.reservations + [hold],
       ledger := core.ledger + HoldEntries(core.accounts, hold, ReserveEvent, hold.amount, -hold.amount, None)),
       operations := b.operations[
         parent := ControlledOperation(hold.key, |core.reservations|, hold.amount, None, OpHeld)])
  }

  /** begin_controlled_operation */
  function Begin(b: ControlledBooks, now: Millis, parent: Id, snapshot: Snapshot, active: int)
    : BooksTx<ControlledOperation>
  {
    if parent in b.core.requests && parent in b.operations then BooksTx(b, Ok(b.operations[parent]))
    else
      var hold := BeginHold(b, now, parent, snapshot, active);
      if hold.Err? then BooksTx(b, Err(hold.error))
      else
        var rows := BeginRows(b, parent, hold.value);
        BooksTx(rows, Ok(rows.operations[parent]))
  }

  // Steps

  predicate StepOwned(b: ControlledBooks, parent: Id, request: Id, kind: StepKind)
    requires parent in b.operations
  {
    && request in b.core.requests
    && b.core.requests[request].identity.key == b.operations[parent].key
    && match kind
       case Assist => request in b.core.relations && b.core.relations[request] == parent
       case Video => request == parent
       case Chat => request == parent
  }

  function DispatchError(b: ControlledBooks, parent: Id, request: Id, kind: StepKind): (e: Option<Error>)
    ensures e.None? ==> parent in b.operations && Active(b.operations[parent].state)
  {
    if parent !in b.operations then Some(ReceiptInvalid)
    else if !(b.operations[parent].state.OpHeld? || b.operations[parent].state.OpSubmitted?) then Some(ReceiptInvalid)
    else if request !in b.core.requests then Some(RequestNotFound)
    else if !StepOwned(b, parent, request, kind) then Some(ReceiptInvalid)
    else if FindStep(b.steps, request).Some? || KindTaken(b.steps, parent, kind) then Some(ConstraintViolated)
    else None
  }

  /** mark_controlled_step_dispatched */
  function Dispatch(b: ControlledBooks, parent: Id, request: Id, kind: StepKind): BooksTx<()> {
    var error := DispatchError(b, parent, request, kind);
    if error.Some? then BooksTx(b, Err(error.value))
    else
      BooksTx(b.(steps := b.steps + [ControlledStep(request, parent, kind, None, None, None, StepPending)],
                 operations := b.operations[parent := b.operations[parent].(state := OpSubmitted)]),
              Ok(()))
  }

  /** What a receipt says was charged; None while nothing is settled upstream. */
  function ActualOf(receipt: Receipt): Option<int> {
    match receipt.status
    case Final => receipt.actual
    case FailedNoCharge => Some(0)
    case Pending => None
    case Unknown => None
    case Unverified => None
  }

  predicate ReceiptRefused(receipt: Receipt, request: Id, kind: StepKind) {
    || receipt.request != request || receipt.unit != "credits" || Blank(receipt.source) || receipt.observedAt <= 0
    || (kind == Video && receipt.status == Final && (receipt.task.None? || Blank(receipt.task.value)))
    || (receipt.status == Final && receipt.actual.None?)
    || (receipt.status == FailedNoCharge && receipt.actual.Some? && receipt.actual.value != 0)
  }

  /** What recording a receipt does: refuse it, answer for one seen last, raise a conflict, or store it. */
  datatype Course = Refuse(error: Error) | Repeat(result: StepResult) | Dispute | Keep

  /** The columns' checks and unique indexes. */
  predicate RowRefused(b: ControlledBooks, parent: Id, request: Id, kind: StepKind, receipt: Receipt) {
    || ReceiptDigest(receipt) in b.receipts
    || (ActualOf(receipt).Some? && ActualOf(receipt).value < 0)
  }

  function RecordCourse(b: ControlledBooks, parent: Id, request: Id, kind: StepKind, receipt: Receipt): (c: Course)
    ensures c.Dispute? || c.Keep? ==>
              && parent in b.operations && b.operations[parent].state != OpReleased
              && StepOwned(b, parent, request, kind)
              && !ReceiptRefused(receipt, request, kind)
              && !RowRefused(b, parent, request, kind, receipt)
    ensures c.Keep? ==> b.operations[parent].state != OpSettled
  {
    if ReceiptRefused(receipt, request, kind) then Refuse(ReceiptInvalid)
    else if parent !in b.operations then Refuse(ReceiptInvalid)
    else if request !in b.core.requests then Refuse(RequestNotFound)
    else if !StepOwned(b, parent, request, kind) then Refuse(ReceiptInvalid)
    else
      var found := FindStep(b.steps, request);
      if found.Some? && b.steps[found.value].hash == Some(ReceiptDigest(receipt)) then
        Repeat(match b.steps[found.value].state
               case StepVerified => DuplicateStep
               case StepConflict => ConflictStep
               case StepPending => HeldStep
               case StepUnknown => HeldStep)
      else if b.operations[parent].state == OpReleased then Refuse(ReceiptInvalid)
      else if RowRefused(b, parent, request, kind, receipt) then Refuse(ConstraintViolated)
      else if (found.Some? && b.steps[found.value].state == StepVerified) || b.operations[parent].state == OpSettled
      then Dispute
      else if found.None? && KindTaken(b.steps, parent, kind) then Refuse(ConstraintViolated)
      else Keep
  }

  /** The operation and its hold wait for a clear outcome. */
  function Suspended(b: ControlledBooks, parent: Id): ControlledBooks
    requires parent in b.operations
  {
    var op := b.operations[parent];
    if op.hold >= |b.core.reservations| then b.(operations := b.operations[parent := op.(state := OpUnknown)])
    else
      b.(core := b.core.(reservations :=
           b.core.reservations[op.hold := b.core.reservations[op.hold].(state := HoldUnknown)]),
         operations := b.operations[parent := op.(state := OpUnknown)])
  }

  function DisputeRows(b: ControlledBooks, parent: Id, request: Id, receipt: Receipt): ControlledBooks
    requires parent in b.operations
  {
    var found := FindStep(b.steps, request);
    var noted := b.(
    receipts := b.receipts[ReceiptDigest(receipt) := StoredReceipt(Contradicting, ActualOf(receipt))],
    core := b.core.(blocks := b.core.blocks + {b.operations[parent].key}),
    steps := if found.Some? then b.steps[found.value := b.steps[found.value].(state := StepConflict)] else b.steps);
    if b.operations[parent].state == OpSettled then noted else Suspended(noted, parent)
  }

  function StoredStep(b: ControlledBooks, parent: Id, request: Id, kind: StepKind, receipt: Receipt): ControlledStep {
    var found := FindStep(b.steps, request);
    var row := if found.Some? then b.steps[found.value]
               else ControlledStep(request, parent, kind, None, None, None, StepPending);
    row.(hash := Some(ReceiptDigest(receipt)), actual := ActualOf(receipt), task := receipt.task,
         state := if ActualOf(receipt).Some? then StepVerified else StepUnknown)
  }

  function KeepRows(b: ControlledBooks, parent: Id, request: Id, kind: StepKind, receipt: Receipt): ControlledBooks
    requires parent in b.operations
  {
    var found := FindStep(b.steps, request);
    var row := StoredStep(b, parent, request, kind, receipt);
    var noted := b.(
    receipts := b.receipts[ReceiptDigest(receipt) := StoredReceipt(Reported(receipt.status), ActualOf(receipt))],
    steps := if found.Some? then b.steps[found.value := row] else b.steps + [row]);
    if ActualOf(receipt).Some? then noted else Suspended(noted, parent)
  }

  /** record_controlled_step */
  function Record(b: ControlledBooks, parent: Id, request: Id, kind: StepKind, receipt: Receipt): BooksTx<StepResult> {
    match RecordCourse(b, parent, request, kind, receipt)
    case Refuse(error) => BooksTx(b, Err(error))
    case Repeat(result) => BooksTx(b, Ok(result))
    case Dispute => BooksTx(DisputeRows(b, parent, request, receipt), Ok(ConflictStep))
    case Keep =>
      BooksTx(KeepRows(b, parent, request, kind, receipt),
              Ok(if ActualOf(receipt).Some? then VerifiedStep else HeldStep))
  }

  // Finishing

  datatype Tally = Tally(
    total: int, assist: bool, video: bool, chat: bool, videoFree: bool, chatFree: bool)

  /** The join with the receipt the step stores, whose status column must be a final one. */
  predicate TerminalReceipt(b: ControlledBooks, step: ControlledStep) {
    && step.hash.Some? && step.hash.value in b.receipts
    && var status := b.receipts[step.hash.value].status; status.Reported? && IsFinal(status.status)
  }

  predicate Countable(b: ControlledBooks, step: ControlledStep) {
    step.state == StepVerified && TerminalReceipt(b, step) && step.actual.Some?
  }

  function Counted(b: ControlledBooks, t: Tally, step: ControlledStep): Tally
    requires step.actual.Some? && step.hash.Some? && step.hash.value in b.receipts
  {
    var more := t.(total := t.total + step.actual.value);
    var free := b.receipts[step.hash.value].status == Reported(FailedNoCharge);
    match step.kind
    case Assist => more.(assist := true)
    case Video => more.(video := true, videoFree := free)
    case Chat => more.(chat := true, chatFree := free)
  }

  const NO_STEPS := Tally(0, false, false, false, false, false)

  /** One pass over the operation's steps; a step that is not verified stops it. */
  function TallyOf(b: ControlledBooks, steps: seq<ControlledStep>, parent: Id): Result<Tally, Error> {
    if steps == [] then Ok(NO_STEPS)
    else
      var last := steps[|steps| - 1];
      var before := TallyOf(b, steps[..|steps| - 1], parent);
      if before.Err? || last.parent != parent then before
      else if !Countable(b, last) then Err(ReceiptInvalid)
      else if before.value.total + last.actual.value > MAX_I64 then Err(InvalidAmount)
      else Ok(Counted(b, before.value, last))
  }

  predicate StepsMismatch(t: Tally, videoSubmitted: bool) {
    videoSubmitted != t.video || (t.chat && (t.assist || t.video))
  }

  function FinalState(t: Tally, videoOutcome: Option<bool>): RequestState {
    if videoOutcome.Some? then (if videoOutcome.value && !t.videoFree then Succeeded else Failed)
    else if t.chat && !t.chatFree then Succeeded
    else Failed
  }

  predicate HoldMatches(b: ControlledBooks, parent: Id)
    requires parent in b.operations
  {
    var op := b.operations[parent];
    && op.hold < |b.core.reservations|
    && var hold := b.core.reservations[op.hold];
       hold.request == parent && hold.key == op.key && hold.amount == op.held && Outstanding(hold.state)
  }

  /** The guards of finish_controlled_operation, and what it will charge. */
  function FinishCharge(b: ControlledBooks, parent: Id, videoOutcome: Option<bool>): (r: Result<Tally, Error>)
    ensures r.Ok? ==>
              && parent in b.operations && Active(b.operations[parent].state)
              && r == TallyOf(b, b.steps, parent)
              && !StepsMismatch(r.value, videoOutcome.Some?)
              && HoldMatches(b, parent)
              && parent in b.core.requests
              && CanSettle(b.core.requests[parent].state, FinalState(r.value, videoOutcome))
  {
    if parent !in b.operations || !Active(b.operations[parent].state) then Err(ReceiptInvalid)
    else
      var tally := TallyOf(b, b.steps, parent);
      if tally.Err? then Err(tally.error)
      else if StepsMismatch(tally.value, videoOutcome.Some?) then Err(ReceiptInvalid)
      else if b.operations[parent].hold >= |b.core.reservations| then Err(ReservationNotFound)
      else if !HoldMatches(b, parent) then Err(ReceiptInvalid)
      else if parent !in b.core.requests
              || !CanSettle(b.core.requests[parent].state, FinalState(tally.value, videoOutcome))
      then Err(InvalidTransition)
      else tally
  }

  function FinishRows(b: ControlledBooks, parent: Id, total: int): ControlledBooks
    requires parent in b.operations && b.operations[parent].hold < |b.core.reservations|
    requires parent in b.core.requests
  {
    var op, core := b.operations[parent], b.core;
    var hold := core.reservations[op.hold];
    b.(core := core.(
       reservations := core.reservations[op.hold := hold.(state := HoldCommitted)],
       ledger := core.ledger + HoldEntries(core.accounts, hold, CommitEvent, total, op.held - total, None),
       blocks := if total > op.held then core.blocks + {op.key} else core.blocks,
       requests := core.requests[parent := core.requests[parent].(state := RequestState.Settled)]),
       operations := b.operations[parent := op.(state := OpSettled, actual := Some(total))])
  }

  /** finish_controlled_operation; `videoOutcome` is None when no video was submitted. */
  function Finish(b: ControlledBooks, parent: Id, videoOutcome: Option<bool>): BooksTx<OperationSettlement> {
    if parent in b.operations && b.operations[parent].state == OpSettled && b.operations[parent].actual.Some? then
      var op := b.operations[parent];
      BooksTx(b, Ok(OperationSettlement(op.key, op.actual.value, op.actual.value > op.held)))
    else
      var charge := FinishCharge(b, parent, videoOutcome);
      if charge.Err? then BooksTx(b, Err(charge.error))
      else
        var op, total := b.operations[parent], charge.value.total;
        BooksTx(FinishRows(b, parent, total), Ok(OperationSettlement(op.key, total, total > op.held)))
  }

  // Binding a task to a dispatched video step

  predicate TaskIllFormed(task: Id) {
    Blank(task) || Utf8Length(task) > 256 || exists i | 0 <= i < |task| :: IsControl(task[i])
  }

  function BindTarget(b: ControlledBooks, parent: Id, task: Id): Option<nat> {
    var found := FindStep(b.steps, parent);
    if && found.Some? && parent in b.operations
       && (b.operations[parent].state.OpSubmitted? || b.operations[parent].state.OpUnknown?)
       && var step := b.steps[found.value];
          && step.kind == Video && step.parent == parent
          && (step.state == StepPending || step.state == StepUnknown)
          && (step.task.None? || step.task == Some(task))
    then found else None
  }

  /** bind_controlled_video_task */
  function Bind(b: ControlledBooks, parent: Id, task: Id): BooksTx<()> {
    if TaskIllFormed(task) then BooksTx(b, Err(ReceiptInvalid))
    else
      var target := BindTarget(b, parent, task);
      if target.None? || target.value >= |b.steps| then BooksTx(b, Err(ReceiptInvalid))
      else BooksTx(b.(steps := b.steps[target.value := b.steps[target.value].(task := Some(task))]), Ok(()))
  }
}
