/**
  V1 quoted billing on the shared accounts: a request's quoted maximum is held on its Key, and a final receipt
  charges the actual amount, once.
 */
module Quotes {
  import opened Wrappers
  import opened Model
  import opened RequestStates
  import opened Ledger
  import opened Billing
  import opened Grants
  import opened Text
  import opened Controlled

  datatype QuoteReply = QuoteCreated(reservation: Reservation) | QuoteExisting(reservation: Reservation)

  datatype CreditReply = CreditSettled(key: Id, actual: int, overQuote: bool) | CreditPending | CreditDuplicate | CreditConflict

  // Holding the quoted maximum

  predicate QuoteIllFormed(quote: Quote) {
    quote.unit != "credits" || quote.max <= 0 || Blank(quote.id) || Blank(quote.source)
  }

  predicate QuoteIdTaken(b: ControlledBooks, id: Id) {
    exists r | r in b.quotes :: b.quotes[r].id == id
  }

  predicate QuoteMatches(who: Identity, quote: Quote) {
    who.endpoint == quote.endpoint && who.model == quote.model && who.hash == quote.fingerprint
  }

  function SnapshotError(core: Db, now: Millis, snapshot: Option<Snapshot>): Option<Error> {
    if snapshot.None? then None
    else if !SnapshotFresh(snapshot.value, now) then Some(SnapshotUnavailable)
    else if CommitmentOverflows(core) then Some(InvalidConfiguration)
    else if Committed(core) > snapshot.value.total then Some(CommitmentsExceedBalance)
    else None
  }

  /** The guards of reserve_credit_quote for a request that has no quote yet. */
  function QuoteHold(b: ControlledBooks, now: Millis, quote: Quote, snapshot: Option<Snapshot>, active: int)
    : (r: Result<Reservation, Error>)
    requires quote.request in b.core.requests
    ensures r.Ok? ==>
              && r.value == NewHold(r.value.user, r.value.key, quote.request, quote.max, quote.expiresAt,
                                    r.value.keyAccount, r.value.userCap, |b.core.reservations|)
              && r.value.key == b.core.requests[quote.request].identity.key
              && r.value.key !in b.core.blocks
              && !HasReservation(b.core, quote.request)
              && ScopesRight(b.core.accounts, r.value)
              && AccountsKnown(b.core.accounts, AccountsOf(r.value))
              && quote.max <= MinAvailable(b.core.ledger, r.value.keyAccount, r.value.userCap)
  {
    var core, who := b.core, b.core.requests[quote.request].identity;
    var unfunded := SnapshotError(core, now, snapshot);
    if unfunded.Some? then Err(unfunded.value)
    else if core.requests[quote.request].state != Received then Err(InvalidTransition)
    else if !KeyActive(core, who.key, who.user) then Err(InvalidIdentity)
    else if who.key in core.blocks then Err(KeyBlocked)
    else if active >= core.keys[who.key].maxConcurrency then
      Err(ConcurrencyExceeded(active, core.keys[who.key].maxConcurrency))
    else
      var hold := HoldFor(core, who.user, who.key, quote.request, quote.max, quote.expiresAt);
      if hold.Ok? && QuoteIdTaken(b, quote.id) then Err(ConstraintViolated) else hold
  }

  function QuoteRows(b: ControlledBooks, quote: Quote, hold: Reservation): ControlledBooks
    requires quote.request in b.core.requests
  {
    var core, r := b.core, quote.request;
    b.(core := core.(
       requests := core.requests[r := core.requests[r].(state := Reserved)],
       reservations := core.reservations + [hold],
       ledger := core.ledger + HoldEntries(core.accounts, hold, ReserveEvent, hold.amount, -hold.amount, None)),
       quotes := b.quotes[r := quote])
  }

  /** reserve_credit_quote, with or without an upstream snapshot */
  function ReserveQuote(b: ControlledBooks, now: Millis, quote: Quote, snapshot: Option<Snapshot>, active: int)
    : BooksTx<QuoteReply>
  {
    var core, r := b.core, quote.request;
    if QuoteIllFormed(quote) then BooksTx(b, Err(QuoteMismatch))
    else if r !in core.requests then BooksTx(b, Err(RequestNotFound))
    else if quote.expiresAt <= now then BooksTx(b, Err(QuoteExpired))
    else if !QuoteMatches(core.requests[r].identity, quote) then BooksTx(b, Err(QuoteMismatch))
    else if r in b.quotes then
      var found := ReservationFor(core.reservations, r);
      if b.quotes[r] != quote || found.None? then BooksTx(b, Err(QuoteConflict))
      else BooksTx(b, Ok(QuoteExisting(core.reservations[found.value])))
    else
      var hold := QuoteHold(b, now, quote, snapshot, active);
      if hold.Err? then BooksTx(b, Err(hold.error))
      else BooksTx(QuoteRows(b, quote, hold.value), Ok(QuoteCreated(hold.value)))
  }

  // Receipts

  predicate ValidFinal(receipt: Receipt) {
    && receipt.unit == "credits"
    && match receipt.status
       case Final => receipt.actual.Some?
       case FailedNoCharge => receipt.actual.None? || receipt.actual.value == 0
       case Pending => false
       case Unknown => false
       case Unverified => false
  }

  /** What is stored of a receipt: a final one that does not add up is only an unverified one. */
  function Normalized(receipt: Receipt): StoredReceipt {
    if receipt.unit != "credits" || (IsFinal(receipt.status) && !ValidFinal(receipt))
    then StoredReceipt(Reported(Unverified), None)
    else StoredReceipt(Reported(receipt.status), if receipt.status == FailedNoCharge then Some(0) else receipt.actual)
  }

  function FinalAmount(receipt: Receipt): int {
    if receipt.status == FailedNoCharge || receipt.actual.None? then 0 else receipt.actual.value
  }

  predicate QuoteHoldMatches(core: Db, request: Id, max: int, hold: Reservation)
    requires request in core.requests
  {
    var who := core.requests[request].identity;
    && hold.user == who.user && hold.key == who.key && hold.amount == max
    && hold.keyAccount < |core.accounts| && IsKeyAccount(core.accounts[hold.keyAccount], who.key, who.user)
  }

  datatype CreditCourse =
    | RefuseCredit(error: Error)
    | AnswerCredit(reply: CreditReply)
    | NoteAgain(amount: int)
    | NoteConflict(amount: int)
    | NotePending
    | ChargeQuote

  /** The guards of apply_credit_receipt, in order. */
  function CreditCourseOf(b: ControlledBooks, receipt: Receipt): (c: CreditCourse)
    ensures !c.RefuseCredit? && !c.AnswerCredit? ==>
              && receipt.request in b.core.requests && receipt.request in b.quotes
              && ReservationFor(b.core.reservations, receipt.request).Some?
              && ReceiptDigest(receipt) !in b.receipts
    ensures c.NoteAgain? || c.NoteConflict? ==> receipt.request in b.settlements && ValidFinal(receipt)
    ensures c.NotePending? || c.ChargeQuote? ==> receipt.request !in b.settlements
    ensures c.ChargeQuote? ==>
              && ValidFinal(receipt) && FinalAmount(receipt) >= 0
              && var hold := b.core.reservations[ReservationFor(b.core.reservations, receipt.request).value];
                 hold.amount == b.quotes[receipt.request].max && Outstanding(hold.state)
                 && hold.key == b.core.requests[receipt.request].identity.key
                 && CanSettle(b.core.requests[receipt.request].state,
                              if receipt.status == FailedNoCharge then Failed else Succeeded)
  {
    var r, core := receipt.request, b.core;
    if Blank(r) || Blank(receipt.source) || receipt.observedAt <= 0 then RefuseCredit(ReceiptInvalid)
    else if r !in core.requests then RefuseCredit(RequestNotFound)
    else if ReceiptDigest(receipt) in b.receipts then
      var status := b.receipts[ReceiptDigest(receipt)].status;
      AnswerCredit(if status.Contradicting? || IsFinal(status.status) then CreditDuplicate else CreditPending)
    else if r !in b.quotes then RefuseCredit(QuoteMismatch)
    else
      var found := ReservationFor(core.reservations, r);
      if found.None? then RefuseCredit(ReservationNotFound)
      else
        var hold := core.reservations[found.value];
        var stored := Normalized(receipt);
        if !QuoteHoldMatches(core, r, b.quotes[r].max, hold) then RefuseCredit(ReceiptInvalid)
        else if r in b.settlements then
          if !ValidFinal(receipt) then AnswerCredit(CreditDuplicate)
          else if FinalAmount(receipt) < 0 then RefuseCredit(ConstraintViolated)
          else if FinalAmount(receipt) == b.settlements[r].actual then NoteAgain(FinalAmount(receipt))
          else NoteConflict(FinalAmount(receipt))
        else if stored.actual.Some? && stored.actual.value < 0 then RefuseCredit(ConstraintViolated)
        else if !ValidFinal(receipt) then
          if core.requests[r].state != UnknownOutcome && !CanTransition(core.requests[r].state, UnknownOutcome)
          then RefuseCredit(InvalidTransition) else NotePending
        else if !Outstanding(hold.state) then RefuseCredit(SettlementConflict)
        else if !CanSettle(core.requests[r].state, if receipt.status == FailedNoCharge then Failed else Succeeded)
        then RefuseCredit(InvalidTransition)
        else ChargeQuote
  }

  function Noted(b: ControlledBooks, receipt: Receipt, row: StoredReceipt): ControlledBooks {
    b.(receipts := b.receipts[ReceiptDigest(receipt) := row])
  }

  function ConflictNoted(b: ControlledBooks, receipt: Receipt, amount: int): ControlledBooks
    requires receipt.request in b.core.requests && receipt.request in b.settlements
  {
    var r := receipt.request;
    Noted(b, receipt, StoredReceipt(Contradicting, Some(amount))).(
    core := b.core.(blocks := b.core.blocks + {b.core.requests[r].identity.key}),
    settlements := b.settlements[r := b.settlements[r].(reconcileRequired := true)])
  }

  function PendingNoted(b: ControlledBooks, receipt: Receipt, id: nat): ControlledBooks
    requires receipt.request in b.core.requests && id < |b.core.reservations|
  {
    var r, hold := receipt.request, b.core.reservations[id];
    Noted(b, receipt, Normalized(receipt)).(
    core := b.core.(
    reservations := if hold.state == HoldHeld then b.core.reservations[id := hold.(state := HoldUnknown)]
                    else b.core.reservations,
    requests := b.core.requests[r := b.core.requests[r].(state := UnknownOutcome)]))
  }

  function QuoteCharged(b: ControlledBooks, receipt: Receipt, id: nat): ControlledBooks
    requires receipt.request in b.core.requests && receipt.request in b.quotes && id < |b.core.reservations|
  {
    var r, core, hold, actual := receipt.request, b.core, b.core.reservations[id], FinalAmount(receipt);
    var over := actual > b.quotes[r].max;
    Noted(b, receipt, Normalized(receipt)).(
    core := core.(
    reservations := core.reservations[id := hold.(state := HoldCommitted)],
    ledger := core.ledger + HoldEntries(core.accounts, hold, CommitEvent, actual, hold.amount - actual, None),
    blocks := if over then core.blocks + {core.requests[r].identity.key} else core.blocks,
    requests := core.requests[r := core.requests[r].(state := RequestState.Settled)]),
    settlements := b.settlements[
      r := QuoteSettlement(b.quotes[r].id, ReceiptDigest(receipt), actual, over, over)])
  }

  /** apply_credit_receipt */
  function ApplyCredit(b: ControlledBooks, receipt: Receipt): BooksTx<CreditReply> {
    var r, course := receipt.request, CreditCourseOf(b, receipt);
    match course
    case RefuseCredit(error) => BooksTx(b, Err(error))
    case AnswerCredit(reply) => BooksTx(b, Ok(reply))
    case NoteAgain(amount) =>
      BooksTx(Noted(b, receipt, StoredReceipt(Reported(receipt.status), Some(amount))), Ok(CreditDuplicate))
    case NoteConflict(amount) => BooksTx(ConflictNoted(b, receipt, amount), Ok(CreditConflict))
    case NotePending =>
      BooksTx(PendingNoted(b, receipt, ReservationFor(b.core.reservations, r).value), Ok(CreditPending))
    case ChargeQuote =>
      var actual := FinalAmount(receipt);
      BooksTx(QuoteCharged(b, receipt, ReservationFor(b.core.reservations, r).value),
              Ok(CreditSettled(b.core.requests[r].identity.key, actual, actual > b.quotes[r].max)))
  }
}
