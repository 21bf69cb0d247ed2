/** V1 controlled billing as the core store carries it out, one transaction per method. */
module ControlledStore {
  import opened Wrappers
  import opened Model
  import opened RequestStates
  import opened Ledger
  import opened Billing
  import opened Grants
  import opened Text
  import opened Controlled
  import opened Quotes

  class Store {
    var core: Db
    var operations: map<Id, ControlledOperation>
    var steps: seq<ControlledStep>
    var receipts: map<ReceiptDigest, StoredReceipt>
    var quotes: map<Id, Quote>
    var settlements: map<Id, QuoteSettlement>

    constructor (core: Db)
      ensures Contents() == ControlledBooks(core, map[], [], map[], map[], map[])
    {
      this.core, operations, steps, receipts, quotes, settlements := core, map[], [], map[], map[], map[];
    }

    function Contents(): ControlledBooks
      reads this
    {
      ControlledBooks(core, operations, steps, receipts, quotes, settlements)
    }

    method SetRequest(request: Id, state: RequestState)
      requires request in core.requests
      modifies this`core
      ensures core == old(core).(requests :=
                old(core).requests[request := old(core).requests[request].(state := state)])
    {
      core := core.(requests := core.requests[request := core.requests[request].(state := state)]);
    }

    /** One transition of the state table. */
    method Step(ghost origin: Db, request: Id, expected: RequestState, next: RequestState) returns (state: RequestState)
      requires WalkedTo(origin, core, request, expected) && CanTransition(expected, next)
      modifies this`core
      ensures state == next && WalkedTo(origin, core, request, next)
    {
      SetRequest(request, next);
      state := next;
    }

    method BeginOperation(now: Millis, parent: Id, snapshot: Snapshot, active: int)
      returns (reply: Result<ControlledOperation, Error>)
      modifies this
      ensures BooksTx(Contents(), reply) == Controlled.Begin(old(Contents()), now, parent, snapshot, active)
    {
      hide HoldFor, CommitmentOverflows, Committed, Available, HoldEntries, SnapshotFresh;
      if parent in core.requests && parent in operations {
        return Ok(operations[parent]);
      }
      var hold := BeginHold(Contents(), now, parent, snapshot, active);
      if hold.Err? {
        return Err(hold.error);
      }
      ghost var before := core;
      SetRequest(parent, Validating);
      core := core.(
        reservations := core.reservations + [hold.value],
        ledger := core.ledger
                  + HoldEntries(core.accounts, hold.value, ReserveEvent, hold.value.amount, -hold.value.amount, None));
      operations := operations[
        parent := ControlledOperation(hold.value.key, |core.reservations| - 1, hold.value.amount, None, OpHeld)];
      SetRequest(parent, Reserved);
      assert core.requests == before.requests[parent := before.requests[parent].(state := Reserved)];
      reply := Ok(operations[parent]);
    }

    method MarkDispatched(parent: Id, request: Id, kind: StepKind) returns (reply: Result<(), Error>)
      modifies this
      ensures BooksTx(Contents(), reply) == Controlled.Dispatch(old(Contents()), parent, request, kind)
    {
      var error := DispatchError(Contents(), parent, request, kind);
      if error.Some? {
        return Err(error.value);
      }
      steps := steps + [ControlledStep(request, parent, kind, None, None, None, StepPending)];
      operations := operations[parent := operations[parent].(state := OpSubmitted)];
      reply := Ok(());
    }

    method Suspend(parent: Id)
      requires parent in operations
      modifies this
      ensures Contents() == Suspended(old(Contents()), parent)
    {
      var op := operations[parent];
      operations := operations[parent := op.(state := OpUnknown)];
      if op.hold < |core.reservations| {
        core := core.(reservations := core.reservations[op.hold := core.reservations[op.hold].(state := HoldUnknown)]);
      }
    }

    method RecordStep(parent: Id, request: Id, kind: StepKind, receipt: Receipt) returns (reply: Result<StepResult, Error>)
      modifies this
      ensures BooksTx(Contents(), reply) == Record(old(Contents()), parent, request, kind, receipt)
    {
      hide RecordCourse, Suspended;
      var course := RecordCourse(Contents(), parent, request, kind, receipt);
      match course {
        case Refuse(error) => reply := Err(error);
        case Repeat(result) => reply := Ok(result);
        case Dispute =>
          var found := FindStep(steps, request);
          receipts := receipts[ReceiptDigest(receipt) := StoredReceipt(Contradicting, ActualOf(receipt))];
          core := core.(blocks := core.blocks + {operations[parent].key});
          if found.Some? {
            steps := steps[found.value := steps[found.value].(state := StepConflict)];
          }
          if operations[parent].state != OpSettled {
            Suspend(parent);
          }
          reply := Ok(ConflictStep);
        case Keep =>
          var found := FindStep(steps, request);
          var row := StoredStep(Contents(), parent, request, kind, receipt);
          receipts := receipts[ReceiptDigest(receipt) := StoredReceipt(Reported(receipt.status), ActualOf(receipt))];
          steps := if found.Some? then steps[found.value := row] else steps + [row];
          if ActualOf(receipt).None? {
            Suspend(parent);
            reply := Ok(HeldStep);
          } else {
            reply := Ok(VerifiedStep);
          }
      }
    }

    /** The loop over the operation's steps. */
    method TallySteps(parent: Id) returns (tally: Result<Tally, Error>)
      ensures tally == TallyOf(Contents(), steps, parent)
    {
      hide Countable, Counted;
      var b := Contents();
      var t := NO_STEPS;
      for i := 0 to |steps|
        invariant TallyOf(b, steps[..i], parent) == Ok(t)
      {
        var step := steps[i];
        assert steps[..i + 1][..i] == steps[..i];
        if step.parent == parent {
          if !Countable(Contents(), step) {
            TallyStops(b, steps, i + 1, parent);
            return Err(ReceiptInvalid);
          }
          CountableHas(b, step);
          if t.total + step.actual.value > MAX_I64 {
            TallyStops(b, steps, i + 1, parent);
            return Err(InvalidAmount);
          }
          t := Counted(b, t, step);
        }
      }
      assert steps[..|steps|] == steps;
      tally := Ok(t);
    }

    /** settle_request_state: forward through the states to the outcome, and then to `settled`. */
    method SettleRequest(parent: Id, final: RequestState) returns (ok: bool)
      requires parent in core.requests && (final == Succeeded || final == Failed)
      modifies this`core
      ensures ok == CanSettle(old(core).requests[parent].state, final)
      ensures ok ==> WalkedTo(old(core), core, parent, RequestState.Settled)
    {
      hide WalkedTo;
      ghost var origin := core;
      var state := core.requests[parent].state;
      WalkStarts(core, parent);
      if final == Succeeded {
        if state != UnknownOutcome && state != Reserved && state != Queued && state != Dispatched && state != Completing
           && state != Succeeded {
          return false;
        }
        state := Forward(origin, parent, state);
      } else {
        if !CanTransition(state, Failed) {
          return false;
        }
        state := Step(origin, parent, state, Failed);
      }
      state := Step(origin, parent, state, RequestState.Settled);
      ok := true;
    }

    method Forward(ghost origin: Db, parent: Id, from: RequestState) returns (state: RequestState)
      requires WalkedTo(origin, core, parent, from)
      requires from == UnknownOutcome || from == Reserved || from == Queued || from == Dispatched || from == Completing
               || from == Succeeded
      modifies this`core
      ensures state == Succeeded && WalkedTo(origin, core, parent, state)
    {
      hide WalkedTo;
      state := from;
      if state == Reserved {
        state := Step(origin, parent, state, Queued);
      }
      if state == Queued {
        state := Step(origin, parent, state, Dispatched);
      }
      if state == Dispatched {
        state := Step(origin, parent, state, Completing);
      }
      if state != Succeeded {
        state := Step(origin, parent, state, Succeeded);
      }
    }

    method FinishOperation(parent: Id, videoOutcome: Option<bool>) returns (reply: Result<OperationSettlement, Error>)
      modifies this
      ensures BooksTx(Contents(), reply) == Controlled.Finish(old(Contents()), parent, videoOutcome)
    {
      hide TallyOf, HoldEntries, CanSettle, CanTransition;
      if parent !in operations {
        return Err(ReceiptInvalid);
      }
      var op := operations[parent];
      if op.state == OpSettled {
        if op.actual.None? {
          return Err(ReceiptInvalid);
        }
        return Ok(OperationSettlement(op.key, op.actual.value, op.actual.value > op.held));
      }
      if op.state == OpReleased {
        return Err(ReceiptInvalid);
      }
      var tally := TallySteps(parent);
      if tally.Err? {
        return Err(tally.error);
      }
      if StepsMismatch(tally.value, videoOutcome.Some?) {
        return Err(ReceiptInvalid);
      }
      if op.hold >= |core.reservations| {
        return Err(ReservationNotFound);
      }
      if !HoldMatches(Contents(), parent) {
        return Err(ReceiptInvalid);
      }
      if parent !in core.requests {
        return Err(InvalidTransition);
      }
      var committed, total := core, tally.value.total;
      var hold := core.reservations[op.hold];
      core := core.(
        reservations := core.reservations[op.hold := hold.(state := HoldCommitted)],
        ledger := core.ledger + HoldEntries(core.accounts, hold, CommitEvent, total, op.held - total, None));
      if total > op.held {
        core := core.(blocks := core.blocks + {op.key});
      }
      var settled := SettleRequest(parent, FinalState(tally.value, videoOutcome));
      if !settled {
        core := committed; // the transaction is dropped
        return Err(InvalidTransition);
      }
      operations := operations[parent := op.(state := OpSettled, actual := Some(total))];
      reply := Ok(OperationSettlement(op.key, total, total > op.held));
    }

    method ReserveCreditQuote(now: Millis, quote: Quote, snapshot: Option<Snapshot>, active: int)
      returns (reply: Result<QuoteReply, Error>)
      modifies this
      ensures BooksTx(Contents(), reply) == ReserveQuote(old(Contents()), now, quote, snapshot, active)
    {
      hide HoldFor, CommitmentOverflows, Committed, HoldEntries, SnapshotFresh, ReservationFor, QuoteIdTaken;
      var r := quote.request;
      if quote.unit != "credits" || quote.max <= 0 || Blank(quote.id) || Blank(quote.source) {
        return Err(QuoteMismatch);
      }
      if r !in core.requests {
        return Err(RequestNotFound);
      }
      if quote.expiresAt <= now {
        return Err(QuoteExpired);
      }
      if !QuoteMatches(core.requests[r].identity, quote) {
        return Err(QuoteMismatch);
      }
      if r in quotes {
        var found := ReservationFor(core.reservations, r);
        if quotes[r] != quote || found.None? {
          return Err(QuoteConflict);
        }
        return Ok(QuoteExisting(core.reservations[found.value]));
      }
      var hold := QuoteHold(Contents(), now, quote, snapshot, active);
      if hold.Err? {
        return Err(hold.error);
      }
      ghost var before := core;
      SetRequest(r, Validating);
      core := core.(
        reservations := core.reservations + [hold.value],
        ledger := core.ledger
                  + HoldEntries(core.accounts, hold.value, ReserveEvent, hold.value.amount, -hold.value.amount, None));
      quotes := quotes[r := quote];
      SetRequest(r, Reserved);
      assert core.requests == before.requests[r := before.requests[r].(state := Reserved)];
      reply := Ok(QuoteCreated(hold.value));
    }

    /** The writes of apply_credit_receipt for a receipt that settles the quote. */
    method ChargeQuoted(receipt: Receipt, id: nat) returns (reply: CreditReply)
      requires receipt.request in core.requests && receipt.request in quotes && id < |core.reservations|
      requires CanSettle(core.requests[receipt.request].state,
                         if receipt.status == FailedNoCharge then Failed else Succeeded)
      modifies this
      ensures Contents() == QuoteCharged(old(Contents()), receipt, id)
      ensures reply == CreditSettled(old(core).requests[receipt.request].identity.key, FinalAmount(receipt),
                                     FinalAmount(receipt) > old(quotes)[receipt.request].max)
    {
      hide HoldEntries, Normalized, FinalAmount, CanSettle;
      var r, hold, actual := receipt.request, core.reservations[id], FinalAmount(receipt);
      var key, over := core.requests[r].identity.key, actual > quotes[r].max;
      receipts := receipts[ReceiptDigest(receipt) := Normalized(receipt)];
      core := core.(
        reservations := core.reservations[id := hold.(state := HoldCommitted)],
        ledger := core.ledger + HoldEntries(core.accounts, hold, CommitEvent, actual, hold.amount - actual, None));
      settlements := settlements[r := QuoteSettlement(quotes[r].id, ReceiptDigest(receipt), actual, over, over)];
      var settled := SettleRequest(r, if receipt.status == FailedNoCharge then Failed else Succeeded);
      if over {
        core := core.(blocks := core.blocks + {key});
      }
      reply := CreditSettled(key, actual, over);
    }

    method ApplyCreditReceipt(receipt: Receipt) returns (reply: Result<CreditReply, Error>)
      modifies this
      ensures BooksTx(Contents(), reply) == ApplyCredit(old(Contents()), receipt)
    {
      hide CreditCourseOf, ReservationFor, Normalized, FinalAmount, CanSettle, QuoteCharged;
      var r := receipt.request;
      var course := CreditCourseOf(Contents(), receipt);
      match course {
        case RefuseCredit(error) => reply := Err(error);
        case AnswerCredit(answer) => reply := Ok(answer);
        case NoteAgain(amount) =>
          receipts := receipts[ReceiptDigest(receipt) := StoredReceipt(Reported(receipt.status), Some(amount))];
          reply := Ok(CreditDuplicate);
        case NoteConflict(amount) =>
          receipts := receipts[ReceiptDigest(receipt) := StoredReceipt(Contradicting, Some(amount))];
          core := core.(blocks := core.blocks + {core.requests[r].identity.key});
          settlements := settlements[r := settlements[r].(reconcileRequired := true)];
          reply := Ok(CreditConflict);
        case NotePending =>
          var id := ReservationFor(core.reservations, r).value;
          var hold := core.reservations[id];
          receipts := receipts[ReceiptDigest(receipt) := Normalized(receipt)];
          if hold.state == HoldHeld {
            core := core.(reservations := core.reservations[id := hold.(state := HoldUnknown)]);
          }
          SetRequest(r, UnknownOutcome);
          reply := Ok(CreditPending);
        case ChargeQuote =>
          var id := ReservationFor(core.reservations, r).value;
          var settled := ChargeQuoted(receipt, id);
          reply := Ok(settled);
      }
    }

    method BindTask(parent: Id, task: Id) returns (reply: Result<(), Error>)
      modifies this
      ensures BooksTx(Contents(), reply) == Controlled.Bind(old(Contents()), parent, task)
    {
      hide BindTarget, TaskIllFormed;
      if TaskIllFormed(task) {
        return Err(ReceiptInvalid);
      }
      var target := BindTarget(Contents(), parent, task);
      if target.None? || target.value >= |steps| {
        return Err(ReceiptInvalid);
      }
      steps := steps[target.value := steps[target.value].(task := Some(task))];
      reply := Ok(());
    }
  }

  /** The request is in the given state, and nothing else differs. */
  ghost predicate WalkedTo(origin: Db, db: Db, request: Id, state: RequestState) {
    && request in origin.requests
    && db == origin.(requests := origin.requests[request := origin.requests[request].(state := state)])
  }

  lemma WalkStarts(db: Db, request: Id)
    requires request in db.requests
    ensures WalkedTo(db, db, request, db.requests[request].state)
  {
    assert db.requests[request := db.requests[request].(state := db.requests[request].state)] == db.requests;
  }

  lemma CountableHas(b: ControlledBooks, step: ControlledStep)
    requires Countable(b, step)
    ensures step.actual.Some? && step.hash.Some? && step.hash.value in b.receipts
  {
  }

  /** An error found at one step is the answer, whatever follows. */
  lemma {:induction false} TallyStops(b: ControlledBooks, steps: seq<ControlledStep>, n: nat, parent: Id)
    requires n <= |steps| && TallyOf(b, steps[..n], parent).Err?
    ensures TallyOf(b, steps, parent) == TallyOf(b, steps[..n], parent)
    decreases |steps|
  {
    hide Countable, Counted;
    if n == |steps| {
      assert steps[..n] == steps;
    } else {
      var front := steps[..|steps| - 1];
      assert front[..n] == steps[..n];
      TallyStops(b, front, n, parent);
    }
  }
}
