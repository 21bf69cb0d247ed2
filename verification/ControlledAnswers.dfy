/** When the V1 transactions take effect, read off their tables: beginning, submitting, recording, finishing, quoting. */
module ControlledAnswers {
  import opened Wrappers
  import opened Model
  import opened Ledger
  import opened RequestStates
  import opened Billing
  import opened Grants
  import opened Controlled
  import opened Quotes
  import opened Admitted
  import opened Text
  import ControlledRuns

  /** The upstream balance is known as of the last five minutes, and what the Keys hold is within it. */
  predicate Backed(core: Db, now: Millis, snapshot: Snapshot) {
    && 0 < snapshot.updatedAt && snapshot.updatedAt <= now && now - snapshot.updatedAt <= 300_000
    && !CommitmentOverflows(core) && Committed(core) <= snapshot.total
  }

  /** The Key is active and its owner's, and no V1 dispute blocks it. */
  predicate KeyOpen(core: Db, key: Id, user: Id) {
    key in core.keys && core.keys[key].active && core.keys[key].user == user && key !in core.blocks
  }

  // Beginning

  /** A Key has one operation under way at a time, which holds all that its account has to spend. */
  ghost predicate MayHoldAll(b: ControlledBooks, now: Millis, parent: Id, snapshot: Snapshot, active: int) {
    && parent in b.core.requests && b.core.requests[parent].state == Received
    && Backed(b.core, now, snapshot)
    && var who := b.core.requests[parent].identity;
       && KeyOpen(b.core, who.key, who.user) && active < b.core.keys[who.key].maxConcurrency
       && (forall p | p in b.operations && b.operations[p].key == who.key :: b.operations[p].state in {OpSettled, OpReleased})
       && Unreserved(b.core, parent)
       && exists account: nat, cap ::
            && Available(b.core.ledger, account) > 0
            && Funds(b.core, who.key, who.user, Available(b.core.ledger, account), account, cap)
  }

  lemma BeginAnswers(b: ControlledBooks, now: Millis, parent: Id, snapshot: Snapshot, active: int)
    requires parent !in b.operations
    ensures var tx := Controlled.Begin(b, now, parent, snapshot, active);
            && (tx.reply.Ok? <==> MayHoldAll(b, now, parent, snapshot, active))
            && (tx.reply.Err? ==> tx.books == b)
  {
    hide HoldFor, CommitmentOverflows, Committed, Available, HasReservation, Unreserved, MinAvailable, BeginRows;
    if parent in b.core.requests {
      var who := b.core.requests[parent].identity;
      var account := FindKeyAccount(b.core.accounts, who.key, who.user);
      UnreservedIff(b.core, parent);
      if account.Some? {
        var available := Available(b.core.ledger, account.value);
        HoldAnswers(b.core, who.user, who.key, parent, available, MAX_I64);
      }
      WholeFunded(b.core, who.key, who.user);
    }
  }

  /** The account found for the Key is the one whose whole balance can fund a hold. */
  lemma WholeFunded(core: Db, key: Id, user: Id)
    ensures var found := FindKeyAccount(core.accounts, key, user);
            (exists account: nat, cap ::
               && Available(core.ledger, account) > 0
               && Funds(core, key, user, Available(core.ledger, account), account, cap))
            <==> && found.Some? && Available(core.ledger, found.value) > 0
                 && Funded(core, key, user, Available(core.ledger, found.value))
  {
    hide Available, Covers;
    var found := FindKeyAccount(core.accounts, key, user);
    if account: nat, cap :| Available(core.ledger, account) > 0
                            && Funds(core, key, user, Available(core.ledger, account), account, cap) {
      FoundFirst(core.accounts, key, user, account, cap);
    }
    if found.Some? && Funded(core, key, user, Available(core.ledger, found.value)) {
      var amount := Available(core.ledger, found.value);
      var account, cap :| Funds(core, key, user, amount, account, cap);
      FoundFirst(core.accounts, key, user, account, cap);
    }
  }

  // Submitting a step

  /** The request is of the operation's Key: the parent itself for a video or a chat, an assist child of it otherwise. */
  predicate OfOperation(b: ControlledBooks, parent: Id, request: Id, kind: StepKind) {
    && parent in b.operations && request in b.core.requests
    && b.core.requests[request].identity.key == b.operations[parent].key
    && if kind == Assist then request in b.core.relations && b.core.relations[request] == parent else request == parent
  }

  lemma DispatchAnswers(b: ControlledBooks, parent: Id, request: Id, kind: StepKind)
    ensures var tx := Controlled.Dispatch(b, parent, request, kind);
            && (tx.reply.Ok? <==>
                  && OfOperation(b, parent, request, kind) && b.operations[parent].state in {OpHeld, OpSubmitted}
                  && forall i | 0 <= i < |b.steps| ::
                       b.steps[i].request != request && !(b.steps[i].parent == parent && b.steps[i].kind == kind))
            && (tx.reply.Err? ==> tx.books == b)
            && (tx.reply.Ok? ==>
                  tx.books == b.(
                  steps := b.steps + [ControlledStep(request, parent, kind, None, None, None, StepPending)],
                  operations := b.operations[parent := b.operations[parent].(state := OpSubmitted)]))
  {
    var found := FindStep(b.steps, request);
    if found.Some? {
      assert b.steps[found.value].request == request;
    }
  }

  // Recording a receipt

  /** Who reports what, and when: a final receipt says an amount and a video's its task; one without charge none, or zero. */
  predicate Reportable(receipt: Receipt, request: Id, kind: StepKind) {
    && receipt.request == request && receipt.unit == "credits" && !Blank(receipt.source) && receipt.observedAt > 0
    && (receipt.status == Final ==>
          receipt.actual.Some? && (kind == Video ==> receipt.task.Some? && !Blank(receipt.task.value)))
    && (receipt.status == FailedNoCharge ==> receipt.actual == None || receipt.actual == Some(0))
  }

  lemma ReportableIff(receipt: Receipt, request: Id, kind: StepKind)
    ensures ReceiptRefused(receipt, request, kind) <==> !Reportable(receipt, request, kind)
  {
    hide Blank;
  }

  /** The row of the step among those submitted. */
  predicate StepRowIs(b: ControlledBooks, request: Id, i: nat) {
    i < |b.steps| && b.steps[i].request == request && forall j | i < j < |b.steps| :: b.steps[j].request != request
  }

  lemma {:induction false} RowFound(steps: seq<ControlledStep>, request: Id)
    ensures var found := FindStep(steps, request);
            found.Some? ==> forall j | found.value < j < |steps| :: steps[j].request != request
  {
    if steps != [] && steps[|steps| - 1].request != request {
      var front := steps[..|steps| - 1];
      RowFound(front, request);
      assert forall j | 0 <= j < |front| :: front[j] == steps[j];
    }
  }

  /** The step was given this very receipt last. */
  ghost predicate SaidLast(b: ControlledBooks, request: Id, receipt: Receipt) {
    exists i: nat :: StepRowIs(b, request, i) && b.steps[i].hash == Some(ReceiptDigest(receipt))
  }

  /** A receipt is refused unless it is reportable, of the operation, and new or the last one; and for a step it may start. */
  lemma RecordAnswers(b: ControlledBooks, parent: Id, request: Id, kind: StepKind, receipt: Receipt)
    ensures var tx := Record(b, parent, request, kind, receipt);
            && (tx.reply.Ok? <==>
                  && Reportable(receipt, request, kind) && OfOperation(b, parent, request, kind)
                  && (SaidLast(b, request, receipt)
                      || (&& b.operations[parent].state != OpReleased
                          && ReceiptDigest(receipt) !in b.receipts
                          && (receipt.status == Final ==> receipt.actual.value >= 0)
                          && (b.operations[parent].state == OpSettled
                              || (exists i :: 0 <= i < |b.steps| && b.steps[i].request == request)
                              || forall i | 0 <= i < |b.steps| :: !(b.steps[i].parent == parent && b.steps[i].kind == kind)))))
            && (tx.reply.Err? || SaidLast(b, request, receipt) ==> tx.books == b)
  {
    hide Reportable, ReceiptRefused, KeepRows, DisputeRows;
    ReportableIff(receipt, request, kind);
    RowFound(b.steps, request);
    var found := FindStep(b.steps, request);
    if found.Some? {
      assert StepRowIs(b, request, found.value);
    }
    ActualSaid(receipt, request, kind);
  }

  lemma ActualSaid(receipt: Receipt, request: Id, kind: StepKind)
    ensures Reportable(receipt, request, kind) && receipt.status == Final ==> receipt.actual.Some?
    ensures Reportable(receipt, request, kind) ==>
              (ActualOf(receipt).Some? && ActualOf(receipt).value < 0
               <==> receipt.status == Final && receipt.actual.value < 0)
  {
    hide Blank;
  }

  // Finishing

  /** The step is verified by a stored final receipt and says an amount. */
  predicate Charged(b: ControlledBooks, step: ControlledStep) {
    && step.state == StepVerified && step.actual.Some? && step.hash.Some? && step.hash.value in b.receipts
    && b.receipts[step.hash.value].status in {Reported(Final), Reported(FailedNoCharge)}
  }

  predicate AllCharged(b: ControlledBooks, steps: seq<ControlledStep>, parent: Id) {
    forall i | 0 <= i < |steps| && steps[i].parent == parent :: Charged(b, steps[i])
  }

  predicate TotalsFit(steps: seq<ControlledStep>, parent: Id) {
    forall n: nat | n <= |steps| :: ControlledRuns.StepTotal(steps[..n], parent) <= MAX_I64
  }

  /** The last step of the kind that the operation has was not charged. */
  ghost predicate LastFree(b: ControlledBooks, steps: seq<ControlledStep>, parent: Id, kind: StepKind) {
    exists i: nat :: i < |steps| && LastOfKind(steps, parent, kind, i) && Free(b, steps[i])
  }

  lemma KindOfLast(steps: seq<ControlledStep>, parent: Id, kind: StepKind)
    requires steps != []
    ensures var last, front := steps[|steps| - 1], steps[..|steps| - 1];
            KindTaken(steps, parent, kind)
            <==> KindTaken(front, parent, kind) || (last.parent == parent && last.kind == kind)
  {
    var front := steps[..|steps| - 1];
    assert forall i | 0 <= i < |front| :: front[i] == steps[i];
    if KindTaken(front, parent, kind) {
      var i :| 0 <= i < |front| && front[i].parent == parent && front[i].kind == kind;
      assert steps[i].parent == parent;
    }
  }

  /** A stored receipt says that the step was not charged. */
  predicate Free(b: ControlledBooks, step: ControlledStep) {
    && step.hash.Some? && step.hash.value in b.receipts
    && b.receipts[step.hash.value].status == Reported(FailedNoCharge)
  }

  predicate LastOfKind(steps: seq<ControlledStep>, parent: Id, kind: StepKind, i: nat) {
    && i < |steps| && steps[i].parent == parent && steps[i].kind == kind
    && forall j | i < j < |steps| :: steps[j].parent == parent ==> steps[j].kind != kind
  }

  lemma LastOfFront(steps: seq<ControlledStep>, parent: Id, kind: StepKind, i: nat)
    requires steps != [] && i < |steps|
    ensures var last := steps[|steps| - 1];
            LastOfKind(steps, parent, kind, i)
            <==> if last.parent == parent && last.kind == kind then i == |steps| - 1
                 else i < |steps| - 1 && LastOfKind(steps[..|steps| - 1], parent, kind, i)
  {
    var front := steps[..|steps| - 1];
    assert forall k | 0 <= k < |front| :: front[k] == steps[k];
  }

  lemma FreeOfLast(b: ControlledBooks, steps: seq<ControlledStep>, parent: Id, kind: StepKind)
    requires steps != []
    ensures var last, front := steps[|steps| - 1], steps[..|steps| - 1];
            LastFree(b, steps, parent, kind)
            <==> if last.parent == parent && last.kind == kind then Free(b, last) else LastFree(b, front, parent, kind)
  {
    hide LastOfKind, Free;
    var front := steps[..|steps| - 1];
    forall i: nat | i < |steps|
      ensures var last := steps[|steps| - 1];
              LastOfKind(steps, parent, kind, i)
              <==> if last.parent == parent && last.kind == kind then i == |steps| - 1
                   else i < |front| && LastOfKind(front, parent, kind, i)
    {
      LastOfFront(steps, parent, kind, i);
    }
    assert forall i: nat | i < |front| :: front[i] == steps[i];
    if LastFree(b, front, parent, kind) {
      var i: nat :| i < |front| && LastOfKind(front, parent, kind, i) && Free(b, front[i]);
      assert Free(b, steps[i]);
      assert LastOfKind(steps, parent, kind, i) || LastOfKind(steps, parent, kind, |steps| - 1);
    } else if steps[|steps| - 1].parent == parent && steps[|steps| - 1].kind == kind {
      assert LastOfKind(steps, parent, kind, |steps| - 1);
    }
  }

  /** The tally, where there is one, says which kinds of steps there are, which were free, and the sum. */
  lemma {:induction false} TallySays(b: ControlledBooks, steps: seq<ControlledStep>, parent: Id)
    ensures var tally := TallyOf(b, steps, parent);
            && (tally.Ok? <==> AllCharged(b, steps, parent) && TotalsFit(steps, parent))
            && (tally.Ok? ==>
                  && tally.value.total == ControlledRuns.StepTotal(steps, parent)
                  && tally.value.assist == KindTaken(steps, parent, Assist)
                  && tally.value.video == KindTaken(steps, parent, Video)
                  && tally.value.chat == KindTaken(steps, parent, Chat)
                  && tally.value.videoFree == LastFree(b, steps, parent, Video)
                  && tally.value.chatFree == LastFree(b, steps, parent, Chat))
  {
    hide KindTaken, LastFree, ControlledRuns.StepTotal;
    if steps == [] {
      NothingTallied(b, parent);
    } else {
      var last, front := steps[|steps| - 1], steps[..|steps| - 1];
      TallySays(b, front, parent);
      KindOfLast(steps, parent, Assist);
      KindOfLast(steps, parent, Video);
      KindOfLast(steps, parent, Chat);
      FreeOfLast(b, steps, parent, Video);
      FreeOfLast(b, steps, parent, Chat);
      ChargedOfLast(b, steps, parent);
      TotalsOfLast(steps, parent);
      hide AllCharged, TotalsFit;
    }
  }

  lemma NothingTallied(b: ControlledBooks, parent: Id)
    ensures AllCharged(b, [], parent) && TotalsFit([], parent) && ControlledRuns.StepTotal([], parent) == 0
    ensures forall kind :: !KindTaken([], parent, kind) && !LastFree(b, [], parent, kind)
  {
  }

  lemma ChargedOfLast(b: ControlledBooks, steps: seq<ControlledStep>, parent: Id)
    requires steps != []
    ensures var last, front := steps[|steps| - 1], steps[..|steps| - 1];
            AllCharged(b, steps, parent) <==> AllCharged(b, front, parent) && (last.parent == parent ==> Charged(b, last))
  {
    hide Charged;
    var front := steps[..|steps| - 1];
    assert forall i | 0 <= i < |front| :: front[i] == steps[i];
  }

  lemma TotalsOfLast(steps: seq<ControlledStep>, parent: Id)
    requires steps != []
    ensures var last, front := steps[|steps| - 1], steps[..|steps| - 1];
            var total := ControlledRuns.StepTotal(front, parent)
                         + if last.parent == parent && last.actual.Some? then last.actual.value else 0;
            && ControlledRuns.StepTotal(steps, parent) == total
            && (TotalsFit(steps, parent) <==> TotalsFit(front, parent) && total <= MAX_I64)
            && (TotalsFit(front, parent) ==> ControlledRuns.StepTotal(front, parent) <= MAX_I64)
  {
    var front := steps[..|steps| - 1];
    forall n: nat | n < |steps|
      ensures steps[..n] == front[..n]
    {
    }
    assert steps[..|steps|] == steps && front[..|front|] == front;
    if TotalsFit(steps, parent) {
      assert ControlledRuns.StepTotal(steps[..|steps|], parent) <= MAX_I64;
    }
  }

  /** The outcome is a success: of the video, if one was submitted, and else of the chat, and it was not free. */
  ghost predicate Succeeds(b: ControlledBooks, parent: Id, videoOutcome: Option<bool>) {
    if videoOutcome.Some? then videoOutcome.value && !LastFree(b, b.steps, parent, Video)
    else KindTaken(b.steps, parent, Chat) && !LastFree(b, b.steps, parent, Chat)
  }

  /**
    An open operation settles exactly when every step of it is verified by a final receipt, a video was submitted where
    its outcome is given, no chat stands beside an assist or a video, its hold is open, and its request can end so.
   */
  lemma FinishAnswers(b: ControlledBooks, parent: Id, videoOutcome: Option<bool>)
    requires !(parent in b.operations && b.operations[parent].state == OpSettled)
    ensures var tx := Controlled.Finish(b, parent, videoOutcome);
            && (tx.reply.Ok? <==>
                  && parent in b.operations && b.operations[parent].state in {OpHeld, OpSubmitted, OpUnknown}
                  && AllCharged(b, b.steps, parent) && TotalsFit(b.steps, parent)
                  && videoOutcome.Some? == KindTaken(b.steps, parent, Video)
                  && !(KindTaken(b.steps, parent, Chat)
                       && (KindTaken(b.steps, parent, Assist) || KindTaken(b.steps, parent, Video)))
                  && HoldMatches(b, parent) && parent in b.core.requests
                  && if Succeeds(b, parent, videoOutcome)
                     then b.core.requests[parent].state
                          in {Reserved, Queued, Dispatched, Completing, UnknownOutcome, Succeeded}
                     else b.core.requests[parent].state
                          in {Validating, Reserved, Queued, Dispatched, Completing, UnknownOutcome})
            && (tx.reply.Err? ==> tx.books == b)
            && (tx.reply.Ok? ==> tx.reply.value.actual == ControlledRuns.StepTotal(b.steps, parent))
  {
    hide TallyOf, AllCharged, TotalsFit, KindTaken, LastFree, Controlled.FinishRows, CanSettle, ControlledRuns.StepTotal;
    TallySays(b, b.steps, parent);
    if parent in b.core.requests {
      SucceedsIff(b.core.requests[parent].state);
    }
  }

  lemma SucceedsIff(state: RequestState)
    ensures CanSettle(state, Succeeded) <==>
              state in {Reserved, Queued, Dispatched, Completing, UnknownOutcome, Succeeded}
    ensures CanSettle(state, Failed) <==>
              state in {Validating, Reserved, Queued, Dispatched, Completing, UnknownOutcome}
  {
  }

  // Quotes

  /** The quote is whole, still good, and for the request as it is. */
  predicate Quotable(core: Db, now: Millis, quote: Quote) {
    && quote.unit == "credits" && quote.max > 0 && !Blank(quote.id) && !Blank(quote.source) && now < quote.expiresAt
    && quote.request in core.requests
    && var who := core.requests[quote.request].identity;
       who.endpoint == quote.endpoint && who.model == quote.model && who.hash == quote.fingerprint
  }

  /** A quote is reserved once, for a received request of an open Key with a slot, on accounts that cover its maximum. */
  ghost predicate MayReserve(b: ControlledBooks, now: Millis, quote: Quote, snapshot: Option<Snapshot>, active: int) {
    && Quotable(b.core, now, quote) && quote.request !in b.quotes
    && (snapshot.Some? ==> Backed(b.core, now, snapshot.value))
    && b.core.requests[quote.request].state == Received
    && var who := b.core.requests[quote.request].identity;
       && KeyOpen(b.core, who.key, who.user) && active < b.core.keys[who.key].maxConcurrency
       && Unreserved(b.core, quote.request) && Funded(b.core, who.key, who.user, quote.max)
       && forall r | r in b.quotes :: b.quotes[r].id != quote.id
  }

  lemma ReserveQuoteAnswers(b: ControlledBooks, now: Millis, quote: Quote, snapshot: Option<Snapshot>, active: int)
    ensures var tx := ReserveQuote(b, now, quote, snapshot, active);
            && (tx.reply.Ok? && tx.reply.value.QuoteCreated? <==> MayReserve(b, now, quote, snapshot, active))
            && (tx.reply.Ok? && tx.reply.value.QuoteExisting? <==>
                  && Quotable(b.core, now, quote) && quote.request in b.quotes && b.quotes[quote.request] == quote
                  && exists i :: 0 <= i < |b.core.reservations| && b.core.reservations[i].request == quote.request)
            && (tx.reply.Err? || tx.reply.value.QuoteExisting? ==> tx.books == b)
  {
    hide HoldFor, CommitmentOverflows, Committed, Blank, HasReservation, Unreserved, Funded, QuoteRows;
    if quote.request in b.core.requests {
      var who := b.core.requests[quote.request].identity;
      UnreservedIff(b.core, quote.request);
      HoldAnswers(b.core, who.user, who.key, quote.request, quote.max, quote.expiresAt);
      var found := ReservationFor(b.core.reservations, quote.request);
      if found.Some? {
        assert b.core.reservations[found.value].request == quote.request;
      }
    }
  }

  /** The receipt settles: it is final in credits for an amount, or says that nothing was charged. */
  predicate Settles(receipt: Receipt) {
    && receipt.unit == "credits"
    && ((receipt.status == Final && receipt.actual.Some? && receipt.actual.value >= 0)
        || (receipt.status == FailedNoCharge && (receipt.actual == None || receipt.actual == Some(0))))
  }

  /** The request can go through the outcome of the receipt to `settled`. */
  predicate CanEnd(state: RequestState, receipt: Receipt) {
    if receipt.status == FailedNoCharge
    then state in {Validating, Reserved, Queued, Dispatched, Completing, UnknownOutcome}
    else state in {Reserved, Queued, Dispatched, Completing, UnknownOutcome, Succeeded}
  }

  lemma EndsIff(state: RequestState, receipt: Receipt)
    ensures CanEnd(state, receipt) <==> CanSettle(state, if receipt.status == FailedNoCharge then Failed else Succeeded)
  {
  }

  /** The hold of the quoted request, as the quote took it. */
  predicate QuotedHold(b: ControlledBooks, request: Id, id: nat) {
    && request in b.core.requests && request in b.quotes
    && ReservationFor(b.core.reservations, request) == Some(id)
    && var hold, who := b.core.reservations[id], b.core.requests[request].identity;
       && hold.user == who.user && hold.key == who.key && hold.amount == b.quotes[request].max
       && hold.keyAccount < |b.core.accounts| && IsKeyAccount(b.core.accounts[hold.keyAccount], who.key, who.user)
  }

  /** A new receipt charges a quote exactly when it settles, the hold is open, and the request can end so. */
  lemma ChargeAnswers(b: ControlledBooks, receipt: Receipt)
    ensures var tx, r := ApplyCredit(b, receipt), receipt.request;
            && (tx.reply.Ok? && tx.reply.value.CreditSettled? <==>
                  && !Blank(r) && !Blank(receipt.source) && receipt.observedAt > 0
                  && ReceiptDigest(receipt) !in b.receipts && r !in b.settlements && Settles(receipt)
                  && exists id: nat ::
                       && QuotedHold(b, r, id) && b.core.reservations[id].state in {HoldHeld, HoldUnknown}
                       && CanEnd(b.core.requests[r].state, receipt))
            && (tx.reply.Ok? && tx.reply.value.CreditSettled? ==>
                  && Some(tx.reply.value.actual) == (if receipt.status == Final then receipt.actual else Some(0))
                  && r in b.quotes && tx.reply.value.overQuote == (tx.reply.value.actual > b.quotes[r].max))
            && (tx.reply.Err? ==> tx.books == b)
  {
    hide Blank, CanSettle, CanEnd, QuoteCharged, ConflictNoted, PendingNoted, IsKeyAccount, CanTransition;
    var r := receipt.request;
    if r in b.core.requests {
      EndsIff(b.core.requests[r].state, receipt);
    }
    var found := ReservationFor(b.core.reservations, r);
    if found.Some? && r in b.core.requests && r in b.quotes
       && QuoteHoldMatches(b.core, r, b.quotes[r].max, b.core.reservations[found.value]) {
      assert QuotedHold(b, r, found.value);
    }
  }
}
