/**
  V1 billing, controlled operations and quotes together: what each transaction does to the holds it shares
  accounts with, and what it keeps of its own tables. An operation is charged exactly its verified receipts and a
  quote exactly its final one, each only once, and a contradicting receipt settles nothing.
 */
module ControlledRuns {
  import opened Wrappers
  import opened Model
  import opened RequestStates
  import opened Ledger
  import opened EventGroup
  import Billing
  import AdmissionPreservation
  import opened Grants
  import opened Invariant
  import opened Money
  import opened Solvency
  import opened Holds
  import opened ForeignMoves
  import opened Text
  import opened Controlled
  import opened Quotes

  datatype Action =
    | BeginOperation(now: Millis, parent: Id, snapshot: Snapshot, active: int)
    | DispatchStep(parent: Id, request: Id, kind: StepKind)
    | RecordReceipt(parent: Id, request: Id, kind: StepKind, receipt: Receipt)
    | FinishOperation(parent: Id, videoOutcome: Option<bool>)
    | BindTask(parent: Id, task: Id)
    | QuoteRequest(now: Millis, quote: Quote, shown: Option<Snapshot>, active: int)
    | CreditReceipt(receipt: Receipt)

  function Acted(b: ControlledBooks, action: Action): ControlledBooks {
    match action
    case BeginOperation(now, parent, snapshot, active) => Begin(b, now, parent, snapshot, active).books
    case DispatchStep(parent, request, kind) => Dispatch(b, parent, request, kind).books
    case RecordReceipt(parent, request, kind, receipt) => Record(b, parent, request, kind, receipt).books
    case FinishOperation(parent, outcome) => Finish(b, parent, outcome).books
    case BindTask(parent, task) => Bind(b, parent, task).books
    case QuoteRequest(now, quote, snapshot, active) => ReserveQuote(b, now, quote, snapshot, active).books
    case CreditReceipt(receipt) => ApplyCredit(b, receipt).books
  }

  // The invariant of the V1 tables

  /** An operation has a hold of its own, on a request no V2 step is about. */
  predicate HoldSound(b: ControlledBooks, parent: Id)
    requires parent in b.operations
  {
    var op := b.operations[parent];
    && parent !in b.core.steps
    && op.hold < |b.core.reservations|
    && var hold := b.core.reservations[op.hold];
       && hold.request == parent && hold.key == op.key && hold.amount == op.held && op.held > 0
       && hold.userCap != Some(hold.keyAccount)
       && (Active(op.state) ==> op.actual.None?)
       && (op.state == OpSettled ==> op.actual.Some? && op.actual.value >= 0)
  }

  predicate HoldsSound(b: ControlledBooks) {
    forall p | p in b.operations :: HoldSound(b, p)
  }

  predicate OneActive(b: ControlledBooks) {
    forall p, q | p in b.operations && q in b.operations && Active(b.operations[p].state) && Active(b.operations[q].state) ::
      b.operations[p].key == b.operations[q].key ==> p == q
  }

  /** A verified step carries the amount of a stored, uncontradicted, final receipt about it. */
  predicate StepSound(receipts: map<ReceiptDigest, StoredReceipt>, step: ControlledStep) {
    && (step.hash.Some? ==>
          && step.hash.value in receipts
          && receipts[step.hash.value].status == Reported(step.hash.value.of.status))
    && (step.state == StepVerified ==>
          && step.hash.Some?
          && var receipt := step.hash.value.of;
             && receipt.request == step.request && receipt.unit == "credits" && IsFinal(receipt.status)
             && step.actual == ActualOf(receipt) && step.actual.Some? && step.actual.value >= 0)
  }

  predicate StepsSound(b: ControlledBooks) {
    && (forall i | 0 <= i < |b.steps| :: StepSound(b.receipts, b.steps[i]))
    && (forall i, j | 0 <= i < j < |b.steps| :: b.steps[i].request != b.steps[j].request)
  }

  /** So has a quoted request. */
  predicate QuoteSound(b: ControlledBooks, r: Id) {
    && r !in b.operations && r !in b.core.steps
    && var found := ReservationFor(b.core.reservations, r);
       && found.Some?
       && b.core.reservations[found.value].userCap != Some(b.core.reservations[found.value].keyAccount)
       && (r in b.settlements ==> b.settlements[r].actual >= 0)
  }

  predicate QuotesSound(b: ControlledBooks) {
    && (forall r | r in b.quotes :: QuoteSound(b, r))
    && (forall r | r in b.settlements :: r in b.quotes)
  }

  predicate Sound(b: ControlledBooks) {
    HoldsSound(b) && OneActive(b) && StepsSound(b) && QuotesSound(b)
  }

  lemma HoldIs(b: ControlledBooks, parent: Id)
    requires HoldsSound(b) && parent in b.operations
    ensures HoldSound(b, parent)
  {
  }

  lemma QuoteIs(b: ControlledBooks, r: Id)
    requires QuotesSound(b) && r in b.quotes
    ensures QuoteSound(b, r)
  {
  }

  // The shared tables may move under the V1 tables

  /** A hold that no step owns is no step's afterwards either, and is the same but for its state. */
  ghost predicate ForeignStay(core: Db, core': Db) {
    forall id: nat | id < |core.reservations| && !OwnedByStep(core, id) :: HoldStays(core, core', id)
  }

  ghost predicate HoldStays(core: Db, core': Db, id: nat)
    requires id < |core.reservations|
  {
    && id < |core'.reservations|
    && !OwnedByStep(core', id)
    && core'.reservations[id] == core.reservations[id].(state := core'.reservations[id].state)
  }

  lemma EffectStays(core: Db, core': Db, e: Effect)
    requires Effected(core, core', e)
    ensures ForeignStay(core, core')
  {
    hide OwnedByStep, Effected;
    forall id: nat | id < |core.reservations| && !OwnedByStep(core, id)
      ensures HoldStays(core, core', id)
    {
      EffectOwners(core, core', e, id);
    }
  }

  /** The request of a hold that is not a step's has no step, before and after. */
  lemma StillNoStep(core': Db, id: nat, r: Id)
    requires TablesSound(core') && id < |core'.reservations| && !OwnedByStep(core', id)
    requires core'.reservations[id].request == r
    ensures r !in core'.steps
    ensures ReservationFor(core'.reservations, r) == Some(id)
  {
    hide LedgerSound, BudgetIdsUnique, ReferencesSound, AccountsShaped;
    assert r in core'.steps ==> StepLinked(core', r);
  }

  lemma CoreKeepsHolds(b: ControlledBooks, core': Db)
    requires HoldsSound(b) && OneActive(b) && ForeignStay(b.core, core')
    requires TablesSound(core')
    ensures HoldsSound(b.(core := core')) && OneActive(b.(core := core'))
  {
    hide TablesSound, ReservationFor;
    var b' := b.(core := core');
    forall p | p in b'.operations
      ensures HoldSound(b', p)
    {
      assert HoldSound(b, p);
      var id := b.operations[p].hold;
      assert HoldStays(b.core, core', id);
      StillNoStep(core', id, p);
    }
  }

  lemma CoreKeepsQuotes(b: ControlledBooks, core': Db)
    requires QuotesSound(b) && ForeignStay(b.core, core')
    requires TablesSound(core')
    ensures QuotesSound(b.(core := core'))
  {
    hide TablesSound, ReservationFor;
    var b' := b.(core := core');
    forall r | r in b'.quotes
      ensures QuoteSound(b', r)
    {
      assert QuoteSound(b, r);
      var id := ReservationFor(b.core.reservations, r).value;
      assert HoldStays(b.core, core', id);
      StillNoStep(core', id, r);
    }
  }

  lemma CoreKeepsSound(b: ControlledBooks, core': Db)
    requires Sound(b) && ForeignStay(b.core, core')
    requires TablesSound(core')
    ensures Sound(b.(core := core'))
  {
    hide TablesSound, HoldsSound, OneActive, QuotesSound, StepsSound, ForeignStay;
    CoreKeepsHolds(b, core');
    CoreKeepsQuotes(b, core');
    SameSteps(b, b.(core := core'));
  }

  // Operations and quotes on top of them

  lemma OperationMoves(b: ControlledBooks, parent: Id, op': ControlledOperation)
    requires HoldsSound(b) && OneActive(b) && QuotesSound(b) && parent in b.operations
    requires op' == b.operations[parent].(state := op'.state, actual := op'.actual)
    requires Active(op'.state) ==> Active(b.operations[parent].state) && op'.actual.None?
    requires op'.state == OpSettled ==> op'.actual.Some? && op'.actual.value >= 0
    ensures var b' := b.(operations := b.operations[parent := op']); HoldsSound(b') && OneActive(b') && QuotesSound(b')
  {
    hide ReservationFor;
    var b' := b.(operations := b.operations[parent := op']);
    forall p | p in b'.operations
      ensures HoldSound(b', p)
    {
      assert HoldSound(b, p);
    }
    forall r | r in b'.quotes
      ensures QuoteSound(b', r)
    {
      assert QuoteSound(b, r);
    }
  }

  /** The V1 tables as far as holds are concerned are the same. */
  lemma SameBooks(b: ControlledBooks, b': ControlledBooks)
    requires HoldsSound(b) && OneActive(b) && QuotesSound(b)
    requires b' == b.(steps := b'.steps, receipts := b'.receipts)
    ensures HoldsSound(b') && OneActive(b') && QuotesSound(b')
  {
    hide ReservationFor;
    forall p | p in b'.operations
      ensures HoldSound(b', p)
    {
      assert HoldSound(b, p);
    }
    forall r | r in b'.quotes
      ensures QuoteSound(b', r)
    {
      assert QuoteSound(b, r);
    }
  }

  // Steps and their receipts

  lemma AppendKeepsSteps(b: ControlledBooks, step: ControlledStep, receipts: map<ReceiptDigest, StoredReceipt>)
    requires StepsSound(b) && FindStep(b.steps, step.request).None?
    requires StepSound(receipts, step)
    requires forall d | d in b.receipts :: d in receipts && receipts[d] == b.receipts[d]
    ensures StepsSound(b.(steps := b.steps + [step], receipts := receipts))
  {
  }

  lemma UpdateKeepsSteps(b: ControlledBooks, i: nat, step: ControlledStep, receipts: map<ReceiptDigest, StoredReceipt>)
    requires StepsSound(b) && i < |b.steps| && step.request == b.steps[i].request
    requires StepSound(receipts, step)
    requires forall d | d in b.receipts :: d in receipts && receipts[d] == b.receipts[d]
    ensures StepsSound(b.(steps := b.steps[i := step], receipts := receipts))
  {
  }

  lemma DisputeKeepsSteps(b: ControlledBooks, parent: Id, request: Id, kind: StepKind, receipt: Receipt)
    requires StepsSound(b) && RecordCourse(b, parent, request, kind, receipt) == Dispute
    ensures StepsSound(DisputeRows(b, parent, request, receipt))
  {
    hide RecordCourse, StepsSound;
    var found := FindStep(b.steps, request);
    var receipts := b.receipts[ReceiptDigest(receipt) := StoredReceipt(Contradicting, ActualOf(receipt))];
    if found.Some? {
      StepIs(b, found.value);
      UpdateKeepsSteps(b, found.value, b.steps[found.value].(state := StepConflict), receipts);
    } else {
      MoreReceipts(b, receipts);
    }
    SameSteps(b.(steps := DisputeRows(b, parent, request, receipt).steps, receipts := receipts),
              DisputeRows(b, parent, request, receipt));
  }

  lemma KeepKeepsSteps(b: ControlledBooks, parent: Id, request: Id, kind: StepKind, receipt: Receipt)
    requires StepsSound(b) && RecordCourse(b, parent, request, kind, receipt) == Keep
    ensures StepsSound(KeepRows(b, parent, request, kind, receipt))
  {
    hide RecordCourse, StepsSound;
    var found := FindStep(b.steps, request);
    var row := StoredStep(b, parent, request, kind, receipt);
    var receipts := b.receipts[ReceiptDigest(receipt) := StoredReceipt(Reported(receipt.status), ActualOf(receipt))];
    if found.Some? {
      UpdateKeepsSteps(b, found.value, row, receipts);
    } else {
      AppendKeepsSteps(b, row, receipts);
    }
    SameSteps(b.(steps := KeepRows(b, parent, request, kind, receipt).steps, receipts := receipts),
              KeepRows(b, parent, request, kind, receipt));
  }

  lemma StepIs(b: ControlledBooks, i: nat)
    requires StepsSound(b) && i < |b.steps|
    ensures StepSound(b.receipts, b.steps[i])
  {
  }

  lemma MoreReceipts(b: ControlledBooks, receipts: map<ReceiptDigest, StoredReceipt>)
    requires StepsSound(b) && forall d | d in b.receipts :: d in receipts && receipts[d] == b.receipts[d]
    ensures StepsSound(b.(receipts := receipts))
  {
  }

  lemma SameSteps(b: ControlledBooks, b': ControlledBooks)
    requires StepsSound(b) && b'.steps == b.steps && b'.receipts == b.receipts
    ensures StepsSound(b')
  {
  }

  lemma {:induction false} TallyNonNegative(b: ControlledBooks, steps: seq<ControlledStep>, parent: Id)
    requires forall i | 0 <= i < |steps| :: StepSound(b.receipts, steps[i])
    requires TallyOf(b, steps, parent).Ok?
    ensures TallyOf(b, steps, parent).value.total >= 0
  {
    if steps != [] {
      TallyNonNegative(b, steps[..|steps| - 1], parent);
    }
  }

  // Each transaction: its effect on the shared tables, and what it keeps of its own

  lemma NothingEffected(core: Db, core': Db)
    requires core' == core.(requests := core'.requests, blocks := core'.blocks)
    requires RequestsKept(core, core') && core.blocks <= core'.blocks
    ensures Effected(core, core', Nothing)
  {
  }

  lemma SameRequests(core: Db)
    ensures RequestsKept(core, core)
  {
  }

  lemma BeginEffect(b: ControlledBooks, now: Millis, parent: Id, snapshot: Snapshot, active: int) returns (e: Effect)
    ensures Effected(b.core, Begin(b, now, parent, snapshot, active).books.core, e) && !ReopensHold(b.core, e)
  {
    hide BeginHold, Available, MinAvailable, Billing.HoldEntries, Billing.HasReservation;
    SameRequests(b.core);
    e := Nothing;
    var hold := BeginHold(b, now, parent, snapshot, active);
    if !(parent in b.core.requests && parent in b.operations) && hold.Ok? {
      e := Take(hold.value);
    }
  }

  lemma BeginKeeps(b: ControlledBooks, now: Millis, parent: Id, snapshot: Snapshot, active: int)
    requires Sound(b) && BeginHold(b, now, parent, snapshot, active).Ok?
    requires ForeignStay(b.core, BeginRows(b, parent, BeginHold(b, now, parent, snapshot, active).value).core)
    requires TablesSound(b.core)
    requires TablesSound(BeginRows(b, parent, BeginHold(b, now, parent, snapshot, active).value).core)
    ensures Sound(BeginRows(b, parent, BeginHold(b, now, parent, snapshot, active).value))
  {
    hide BeginHold, StepsSound, HoldsSound, OneActive, QuotesSound, BeginRows, TablesSound, ForeignStay;
    var hold := BeginHold(b, now, parent, snapshot, active).value;
    var b' := BeginRows(b, parent, hold);
    CoreKeepsSound(b, b'.core);
    BeginAddsOperation(b, parent, hold);
    NewHoldUnowned(b.core, b'.core, hold);
    StillNoStep(b'.core, |b.core.reservations|, parent);
    NotQuoted(b, parent);
    assert HoldSound(b.(core := b'.core, operations := b'.operations), parent);
    OperationAdded(b.(core := b'.core), parent, b'.operations[parent]);
    SameSteps(b, b');
  }

  lemma BeginAddsOperation(b: ControlledBooks, parent: Id, hold: Reservation)
    requires parent in b.core.requests
    ensures var b' := BeginRows(b, parent, hold);
            && parent in b'.operations
            && b' == b.(core := b'.core, operations := b.operations[parent := b'.operations[parent]])
            && b'.operations[parent] == ControlledOperation(hold.key, |b.core.reservations|, hold.amount, None, OpHeld)
            && b'.core.reservations == b.core.reservations + [hold] && b'.core.steps == b.core.steps
  {
    hide Billing.HoldEntries;
  }

  lemma NotQuoted(b: ControlledBooks, r: Id)
    requires QuotesSound(b) && !Billing.HasReservation(b.core, r)
    ensures r !in b.quotes
  {
    hide ReservationFor;
    assert r in b.quotes ==> QuoteSound(b, r);
  }

  lemma NotOperated(b: ControlledBooks, r: Id)
    requires HoldsSound(b) && !Billing.HasReservation(b.core, r)
    ensures r !in b.operations
  {
    assert r in b.operations ==> HoldSound(b, r);
  }

  /** A hold for a request that had none is not a step's. */
  lemma NewHoldUnowned(core: Db, core': Db, hold: Reservation)
    requires TablesSound(core) && !Billing.HasReservation(core, hold.request)
    requires core'.reservations == core.reservations + [hold] && core'.steps == core.steps
    ensures !OwnedByStep(core', |core.reservations|)
  {
    hide TablesSound;
    AdmissionPreservation.UnreservedIsNew(core, hold.request);
  }

  lemma OperationAdded(b: ControlledBooks, parent: Id, op: ControlledOperation)
    requires HoldsSound(b) && OneActive(b) && QuotesSound(b) && parent !in b.operations && !KeyBusy(b, op.key)
    requires HoldSound(b.(operations := b.operations[parent := op]), parent)
    requires parent !in b.quotes
    ensures var b' := b.(operations := b.operations[parent := op]); HoldsSound(b') && OneActive(b') && QuotesSound(b')
  {
    hide ReservationFor;
    var b' := b.(operations := b.operations[parent := op]);
    forall p | p in b'.operations
      ensures HoldSound(b', p)
    {
      assert p != parent ==> HoldSound(b, p);
    }
    forall r | r in b'.quotes
      ensures QuoteSound(b', r)
    {
      assert QuoteSound(b, r);
    }
  }

  lemma DispatchEffect(b: ControlledBooks, parent: Id, request: Id, kind: StepKind)
    ensures Effected(b.core, Dispatch(b, parent, request, kind).books.core, Nothing)
  {
    hide DispatchError;
    SameRequests(b.core);
    NothingEffected(b.core, b.core);
  }

  lemma DispatchKeeps(b: ControlledBooks, parent: Id, request: Id, kind: StepKind)
    requires Sound(b)
    ensures Sound(Dispatch(b, parent, request, kind).books)
  {
    hide HoldsSound, OneActive, QuotesSound, StepsSound;
    var b' := Dispatch(b, parent, request, kind).books;
    if b' != b {
      HoldIs(b, parent);
      var moved := b.(operations := b'.operations);
      OperationMoves(b, parent, b'.operations[parent]);
      SameBooks(moved, b');
      var step := ControlledStep(request, parent, kind, None, None, None, StepPending);
      AppendKeepsSteps(b, step, b.receipts);
      SameSteps(b.(steps := b.steps + [step]), b');
    }
  }

  lemma BindEffect(b: ControlledBooks, parent: Id, task: Id)
    ensures Effected(b.core, Bind(b, parent, task).books.core, Nothing)
  {
    hide BindTarget, TaskIllFormed;
    SameRequests(b.core);
    NothingEffected(b.core, b.core);
  }

  lemma BindKeeps(b: ControlledBooks, parent: Id, task: Id)
    requires Sound(b)
    ensures Sound(Bind(b, parent, task).books)
  {
    hide HoldsSound, OneActive, QuotesSound, StepsSound, BindTarget, TaskIllFormed;
    var b' := Bind(b, parent, task).books;
    SameBooks(b, b');
    if b' != b {
      var target := BindTarget(b, parent, task).value;
      StepIs(b, target);
      UpdateKeepsSteps(b, target, b.steps[target].(task := Some(task)), b.receipts);
    }
  }

  // Recording a receipt

  /** The receipt puts the operation in doubt, and its hold with it. */
  predicate SuspendsOn(b: ControlledBooks, parent: Id, request: Id, kind: StepKind, receipt: Receipt) {
    && parent in b.operations
    && var course := RecordCourse(b, parent, request, kind, receipt);
       || (course.Dispute? && b.operations[parent].state != OpSettled)
       || (course.Keep? && ActualOf(receipt).None?)
  }

  /** The notes of a recorded receipt, before the operation and its hold are suspended. */
  function Recorded(b: ControlledBooks, parent: Id, request: Id, kind: StepKind, receipt: Receipt): ControlledBooks
    requires parent in b.operations
  {
    var b' := Record(b, parent, request, kind, receipt).books;
    b'.(core := b.core.(blocks := b'.core.blocks), operations := b.operations)
  }

  lemma RecordIsSuspended(b: ControlledBooks, parent: Id, request: Id, kind: StepKind, receipt: Receipt)
    requires parent in b.operations
    ensures var noted := Recorded(b, parent, request, kind, receipt);
            && Record(b, parent, request, kind, receipt).books
               == (if SuspendsOn(b, parent, request, kind, receipt) then Suspended(noted, parent) else noted)
            && b.core.blocks <= noted.core.blocks
            && noted == b.(core := b.core.(blocks := noted.core.blocks), steps := noted.steps, receipts := noted.receipts)
  {
    hide RecordCourse, StoredStep, ReceiptRefused, RowRefused, StepOwned;
  }

  lemma UnownedHold(b: ControlledBooks, parent: Id)
    requires HoldsSound(b) && parent in b.operations
    ensures b.operations[parent].hold < |b.core.reservations| && !OwnedByStep(b.core, b.operations[parent].hold)
  {
    HoldIs(b, parent);
  }

  lemma RecordEffect(b: ControlledBooks, parent: Id, request: Id, kind: StepKind, receipt: Receipt) returns (e: Effect)
    requires HoldsSound(b)
    ensures Effected(b.core, Record(b, parent, request, kind, receipt).books.core, e)
    ensures e == if SuspendsOn(b, parent, request, kind, receipt) then Doubt(b.operations[parent].hold) else Nothing
  {
    hide RecordCourse, HoldsSound, SuspendsOn, StepSound, OwnedByStep;
    SameRequests(b.core);
    if parent in b.operations {
      hide Record, Recorded;
      RecordIsSuspended(b, parent, request, kind, receipt);
      UnownedHold(b, parent);
      e := if SuspendsOn(b, parent, request, kind, receipt) then Doubt(b.operations[parent].hold) else Nothing;
    } else {
      NothingRecorded(b, parent, request, kind, receipt);
      NothingEffected(b.core, b.core);
      e := Nothing;
    }
  }

  lemma NothingRecorded(b: ControlledBooks, parent: Id, request: Id, kind: StepKind, receipt: Receipt)
    requires parent !in b.operations
    ensures Record(b, parent, request, kind, receipt).books == b
    ensures !SuspendsOn(b, parent, request, kind, receipt)
  {
    hide RecordCourse;
  }

  lemma RecordKeepsSteps(b: ControlledBooks, parent: Id, request: Id, kind: StepKind, receipt: Receipt)
    requires StepsSound(b)
    ensures StepsSound(Record(b, parent, request, kind, receipt).books)
  {
    hide RecordCourse, StepsSound, DisputeRows, KeepRows;
    var course := RecordCourse(b, parent, request, kind, receipt);
    if course.Dispute? {
      DisputeKeepsSteps(b, parent, request, kind, receipt);
    } else if course.Keep? {
      KeepKeepsSteps(b, parent, request, kind, receipt);
    }
  }

  lemma SuspendedParts(b: ControlledBooks, parent: Id)
    requires parent in b.operations
    ensures var b' := Suspended(b, parent);
            && parent in b'.operations
            && b' == b.(core := b'.core, operations := b.operations[parent := b'.operations[parent]])
            && b'.operations[parent] == b.operations[parent].(state := OpUnknown)
  {
  }

  /** An operation that a receipt can put in doubt is an active one. */
  lemma SuspendsActive(b: ControlledBooks, parent: Id, request: Id, kind: StepKind, receipt: Receipt)
    requires SuspendsOn(b, parent, request, kind, receipt)
    ensures parent in b.operations && Active(b.operations[parent].state)
  {
    hide RecordCourse;
  }

  lemma RecordKeeps(b: ControlledBooks, parent: Id, request: Id, kind: StepKind, receipt: Receipt)
    requires Sound(b) && ForeignStay(b.core, Record(b, parent, request, kind, receipt).books.core)
    requires TablesSound(Record(b, parent, request, kind, receipt).books.core)
    ensures Sound(Record(b, parent, request, kind, receipt).books)
  {
    hide StepsSound, HoldsSound, OneActive, QuotesSound, Record, Suspended, SuspendsOn, ForeignStay, TablesSound, Recorded;
    var b' := Record(b, parent, request, kind, receipt).books;
    RecordKeepsSteps(b, parent, request, kind, receipt);
    if parent in b.operations {
      var noted := Recorded(b, parent, request, kind, receipt);
      RecordIsSuspended(b, parent, request, kind, receipt);
      var moved := b.(core := b'.core);
      CoreKeepsSound(b, b'.core);
      if SuspendsOn(b, parent, request, kind, receipt) {
        SuspendsActive(b, parent, request, kind, receipt);
        HoldIs(moved, parent);
        SuspendedParts(noted, parent);
        OperationMoves(moved, parent, b'.operations[parent]);
        SameBooks(moved.(operations := b'.operations), b');
      } else {
        SameBooks(moved, b');
      }
    } else {
      NothingRecorded(b, parent, request, kind, receipt);
    }
  }

  // Finishing

  lemma FinishEffect(b: ControlledBooks, parent: Id, outcome: Option<bool>) returns (e: Effect)
    requires HoldsSound(b) && StepsSound(b)
    ensures Effected(b.core, Finish(b, parent, outcome).books.core, e) && !ReopensHold(b.core, e)
    ensures Finish(b, parent, outcome).books != b ==>
              var b' := Finish(b, parent, outcome).books;
              && parent in b.operations && parent in b'.operations
              && e == Close(b.operations[parent].hold, b'.operations[parent].actual)
              && b'.operations == b.operations[parent := b'.operations[parent]]
              && b'.operations[parent].actual.Some? && b'.operations[parent].hold == b.operations[parent].hold
  {
    hide FinishCharge, HoldsSound, TallyOf, StepSound, OwnedByStep, Billing.HoldEntries;
    SameRequests(b.core);
    e := Nothing;
    var charge := FinishCharge(b, parent, outcome);
    if Finish(b, parent, outcome).books != b {
      TallyNonNegative(b, b.steps, parent);
      UnownedHold(b, parent);
      HoldIs(b, parent);
      e := Close(b.operations[parent].hold, Some(charge.value.total));
    }
  }

  lemma FinishParts(b: ControlledBooks, parent: Id, total: int)
    requires parent in b.core.requests && parent in b.operations
    requires b.operations[parent].hold < |b.core.reservations|
    ensures var b' := FinishRows(b, parent, total);
            && parent in b'.operations
            && b' == b.(core := b'.core, operations := b.operations[parent := b'.operations[parent]])
            && b'.operations[parent] == b.operations[parent].(state := OpSettled, actual := Some(total))
  {
    hide Billing.HoldEntries;
  }

  lemma FinishKeeps(b: ControlledBooks, parent: Id, outcome: Option<bool>)
    requires Sound(b) && ForeignStay(b.core, Finish(b, parent, outcome).books.core)
    requires TablesSound(Finish(b, parent, outcome).books.core)
    ensures Sound(Finish(b, parent, outcome).books)
  {
    hide FinishCharge, HoldsSound, OneActive, QuotesSound, FinishRows, TallyOf, StepSound, ForeignStay, TablesSound,
         StepsSound;
    var b' := Finish(b, parent, outcome).books;
    if b' != b {
      var total := FinishCharge(b, parent, outcome).value.total;
      FinishTotal(b, parent, outcome);
      HoldIs(b, parent);
      FinishParts(b, parent, total);
      CoreKeepsSound(b, b'.core);
      OperationMoves(b.(core := b'.core), parent, b'.operations[parent]);
      SameSteps(b, b');
    }
  }

  lemma FinishTotal(b: ControlledBooks, parent: Id, outcome: Option<bool>)
    requires StepsSound(b) && FinishCharge(b, parent, outcome).Ok?
    ensures FinishCharge(b, parent, outcome).value.total >= 0
  {
    hide FinishCharge, TallyOf, StepSound;
    TallyNonNegative(b, b.steps, parent);
  }

  // Quoting a request

  lemma QuotePositive(quote: Quote)
    ensures !QuoteIllFormed(quote) ==> quote.max > 0
  {
  }

  lemma QuoteEffect(b: ControlledBooks, now: Millis, quote: Quote, snapshot: Option<Snapshot>, active: int)
    returns (e: Effect)
    ensures Effected(b.core, ReserveQuote(b, now, quote, snapshot, active).books.core, e) && !ReopensHold(b.core, e)
  {
    hide QuoteHold, QuoteMatches, QuoteIllFormed, MinAvailable, ReservationFor, Billing.HoldEntries,
         Billing.HasReservation;
    SameRequests(b.core);
    e := Nothing;
    if ReserveQuote(b, now, quote, snapshot, active).books != b {
      QuotePositive(quote);
      e := Take(QuoteHold(b, now, quote, snapshot, active).value);
    }
  }

  lemma QuoteParts(b: ControlledBooks, quote: Quote, hold: Reservation)
    requires quote.request in b.core.requests
    ensures var b' := QuoteRows(b, quote, hold);
            && b' == b.(core := b'.core, quotes := b.quotes[quote.request := quote])
            && b'.core.reservations == b.core.reservations + [hold] && b'.core.steps == b.core.steps
  {
    hide Billing.HoldEntries;
  }

  lemma QuoteAdded(b: ControlledBooks, quote: Quote)
    requires HoldsSound(b) && OneActive(b) && QuotesSound(b) && quote.request !in b.quotes
    requires QuoteSound(b, quote.request)
    ensures var b' := b.(quotes := b.quotes[quote.request := quote]); HoldsSound(b') && OneActive(b') && QuotesSound(b')
  {
    hide ReservationFor;
    var b' := b.(quotes := b.quotes[quote.request := quote]);
    forall p | p in b'.operations
      ensures HoldSound(b', p)
    {
      assert HoldSound(b, p);
    }
    forall r | r in b'.quotes
      ensures QuoteSound(b', r)
    {
      assert QuoteSound(b, r);
    }
  }

  lemma QuoteKeeps(b: ControlledBooks, now: Millis, quote: Quote, snapshot: Option<Snapshot>, active: int)
    requires Sound(b) && ForeignStay(b.core, ReserveQuote(b, now, quote, snapshot, active).books.core)
    requires TablesSound(b.core)
    requires TablesSound(ReserveQuote(b, now, quote, snapshot, active).books.core)
    ensures Sound(ReserveQuote(b, now, quote, snapshot, active).books)
  {
    hide QuoteHold, HoldsSound, OneActive, StepsSound, QuoteSound, QuoteRows, QuoteMatches, QuoteIllFormed, MinAvailable,
         ForeignStay, TablesSound, Billing.HasReservation, ReservationFor;
    var b' := ReserveQuote(b, now, quote, snapshot, active).books;
    if b' != b {
      var hold := QuoteHold(b, now, quote, snapshot, active).value;
      CoreKeepsSound(b, b'.core);
      QuoteParts(b, quote, hold);
      NotQuoted(b, quote.request);
      NotOperated(b, quote.request);
      NewHoldUnowned(b.core, b'.core, hold);
      StillNoStep(b'.core, |b.core.reservations|, quote.request);
      NewQuoteSound(b.(core := b'.core), hold, quote.request);
      QuoteAdded(b.(core := b'.core), quote);
      SameSteps(b, b');
    }
  }

  lemma NewQuoteSound(b: ControlledBooks, hold: Reservation, r: Id)
    requires r !in b.operations && r !in b.core.steps && r !in b.settlements
    requires |b.core.reservations| > 0 && b.core.reservations[|b.core.reservations| - 1] == hold
    requires hold.userCap != Some(hold.keyAccount)
    requires ReservationFor(b.core.reservations, r) == Some(|b.core.reservations| - 1)
    ensures QuoteSound(b, r)
  {
    hide ReservationFor;
  }

  // Receipts for a quote

  /** What a receipt does to the hold of a quoted request. */
  function CreditEffect(b: ControlledBooks, receipt: Receipt): Effect {
    var found := ReservationFor(b.core.reservations, receipt.request);
    match CreditCourseOf(b, receipt)
    case NotePending => if b.core.reservations[found.value].state == HoldHeld then Doubt(found.value) else Nothing
    case ChargeQuote => Close(found.value, Some(FinalAmount(receipt)))
    case _ => Nothing
  }

  lemma UnownedQuote(b: ControlledBooks, r: Id)
    requires QuotesSound(b) && r in b.quotes
    ensures ReservationFor(b.core.reservations, r).Some?
    ensures var id := ReservationFor(b.core.reservations, r).value;
            && !OwnedByStep(b.core, id)
            && b.core.reservations[id].userCap != Some(b.core.reservations[id].keyAccount)
  {
    QuoteIs(b, r);
  }

  lemma CreditEffected(b: ControlledBooks, receipt: Receipt)
    requires QuotesSound(b)
    ensures Effected(b.core, ApplyCredit(b, receipt).books.core, CreditEffect(b, receipt))
    ensures !ReopensHold(b.core, CreditEffect(b, receipt))
  {
    hide CreditCourseOf, QuotesSound, ReservationFor, OwnedByStep, Billing.HoldEntries, FinalAmount, Normalized;
    SameRequests(b.core);
    var course := CreditCourseOf(b, receipt);
    if course.NotePending? || course.ChargeQuote? {
      UnownedQuote(b, receipt.request);
    }
  }

  lemma CreditParts(b: ControlledBooks, receipt: Receipt)
    ensures var b' := ApplyCredit(b, receipt).books;
            && b' == b.(core := b'.core, receipts := b'.receipts, settlements := b'.settlements)
            && (forall d | d in b.receipts :: d in b'.receipts && b'.receipts[d] == b.receipts[d])
            && (forall q | q in b'.settlements ::
                  (q in b.settlements && b'.settlements[q].actual == b.settlements[q].actual)
                  || (q == receipt.request && q in b.quotes && b'.settlements[q].actual >= 0))
  {
    hide CreditCourseOf, ReservationFor, Billing.HoldEntries, FinalAmount, Normalized;
  }

  lemma SettlementsMove(b: ControlledBooks, b': ControlledBooks)
    requires HoldsSound(b) && OneActive(b) && QuotesSound(b)
    requires b' == b.(receipts := b'.receipts, settlements := b'.settlements)
    requires forall q | q in b'.settlements :: q in b.quotes
                                               && (b'.settlements[q].actual >= 0
                                                   || (q in b.settlements && b'.settlements[q].actual == b.settlements[q].actual))
    ensures HoldsSound(b') && OneActive(b') && QuotesSound(b')
  {
    hide ReservationFor;
    forall p | p in b'.operations
      ensures HoldSound(b', p)
    {
      assert HoldSound(b, p);
    }
    forall r | r in b'.quotes
      ensures QuoteSound(b', r)
    {
      assert QuoteSound(b, r);
    }
  }

  lemma ApplyKeeps(b: ControlledBooks, receipt: Receipt)
    requires Sound(b) && ForeignStay(b.core, ApplyCredit(b, receipt).books.core)
    requires TablesSound(ApplyCredit(b, receipt).books.core)
    ensures Sound(ApplyCredit(b, receipt).books)
  {
    hide HoldsSound, OneActive, StepsSound, QuoteSound, ApplyCredit, ForeignStay, TablesSound;
    var b' := ApplyCredit(b, receipt).books;
    CreditParts(b, receipt);
    CoreKeepsSound(b, b'.core);
    SettlementsMove(b.(core := b'.core), b');
    MoreReceipts(b, b'.receipts);
    SameSteps(b.(receipts := b'.receipts), b');
  }

  // Every transaction

  /** The effect of a V1 transaction; only a receipt that suspends an operation may find its hold closed. */
  lemma ActionEffect(b: ControlledBooks, action: Action) returns (e: Effect)
    requires Sound(b)
    ensures Effected(b.core, Acted(b, action).core, e)
    ensures ReopenedHold(b.core, e) == Reached(b, action)
  {
    hide Sound, HoldsSound, OneActive, QuotesSound, StepsSound, Effected, Begin, Dispatch, Record, Finish, Bind,
         ReserveQuote, ApplyCredit, SuspendsOn, CreditEffect;
    SoundParts(b);
    match action
    case BeginOperation(now, parent, snapshot, active) => e := BeginEffect(b, now, parent, snapshot, active);
    case DispatchStep(parent, request, kind) =>
      DispatchEffect(b, parent, request, kind);
      e := Nothing;
    case RecordReceipt(parent, request, kind, receipt) =>
      e := RecordEffect(b, parent, request, kind, receipt);
      SuspendsThere(b, parent, request, kind, receipt);
    case FinishOperation(parent, outcome) => e := FinishEffect(b, parent, outcome);
    case BindTask(parent, task) =>
      BindEffect(b, parent, task);
      e := Nothing;
    case QuoteRequest(now, quote, snapshot, active) => e := QuoteEffect(b, now, quote, snapshot, active);
    case CreditReceipt(receipt) =>
      CreditEffected(b, receipt);
      e := CreditEffect(b, receipt);
  }

  lemma SoundParts(b: ControlledBooks)
    requires Sound(b)
    ensures HoldsSound(b) && OneActive(b) && StepsSound(b) && QuotesSound(b)
  {
  }

  lemma SuspendsThere(b: ControlledBooks, parent: Id, request: Id, kind: StepKind, receipt: Receipt)
    ensures SuspendsOn(b, parent, request, kind, receipt) ==> parent in b.operations
  {
    hide RecordCourse;
  }

  /** A receipt is about to put a closed hold in doubt: the plain settlement has closed it under its operation. */
  predicate Reopens(b: ControlledBooks, action: Action) {
    && action.RecordReceipt?
    && SuspendsOn(b, action.parent, action.request, action.kind, action.receipt)
    && action.parent in b.operations
    && var id := b.operations[action.parent].hold;
       id < |b.core.reservations| && Closed(b.core.reservations[id].state)
  }

  /** The closed hold that a transaction reaches for. */
  function Reached(b: ControlledBooks, action: Action): Option<nat> {
    if Reopens(b, action) then Some(b.operations[action.parent].hold) else None
  }

  lemma ActionKeeps(b: ControlledBooks, action: Action)
    requires Sound(b) && ForeignStay(b.core, Acted(b, action).core)
    requires TablesSound(b.core)
    requires TablesSound(Acted(b, action).core)
    ensures Sound(Acted(b, action))
  {
    hide Sound, BeginHold, Dispatch, Record, Finish, Bind, ReserveQuote, ApplyCredit, TablesSound, ForeignStay, BeginRows;
    match action
    case BeginOperation(now, parent, snapshot, active) =>
      if Begin(b, now, parent, snapshot, active).books != b {
        BeginKeeps(b, now, parent, snapshot, active);
      }
    case DispatchStep(parent, request, kind) => DispatchKeeps(b, parent, request, kind);
    case RecordReceipt(parent, request, kind, receipt) => RecordKeeps(b, parent, request, kind, receipt);
    case FinishOperation(parent, outcome) => FinishKeeps(b, parent, outcome);
    case BindTask(parent, task) => BindKeeps(b, parent, task);
    case QuoteRequest(now, quote, snapshot, active) => QuoteKeeps(b, now, quote, snapshot, active);
    case CreditReceipt(receipt) => ApplyKeeps(b, receipt);
  }

  // What an operation holds and is charged

  /** Beginning an operation leaves nothing to spend on the Key, so no second one can be paid beside it. */
  lemma BeginTakesAll(b: ControlledBooks, now: Millis, parent: Id, snapshot: Snapshot, active: int)
    requires BeginHold(b, now, parent, snapshot, active).Ok?
    ensures var hold := BeginHold(b, now, parent, snapshot, active).value;
            var core' := Begin(b, now, parent, snapshot, active).books.core;
            && Available(core'.ledger, hold.keyAccount) == 0
            && (hold.userCap.Some? ==> Available(core'.ledger, hold.userCap.value) >= 0)
            && HeldOn(core'.reservations, hold.keyAccount)
               == HeldOn(b.core.reservations, hold.keyAccount) + hold.amount
  {
    hide BeginHold, Available, SettledOn, GrantedOn, HeldOn, OverrunOf, SumOf, Billing.HoldEntries;
    var hold := BeginHold(b, now, parent, snapshot, active).value;
    var round := Round(b.core.accounts, hold, ReserveEvent, hold.amount, -hold.amount, None);
    RoundOnAccount(b.core.ledger, round, hold.keyAccount);
    AppendReservation(b.core.reservations, hold, hold.keyAccount);
    if hold.userCap.Some? {
      RoundOnAccount(b.core.ledger, round, hold.userCap.value);
    }
    assert BeginRows(b, parent, hold).core.ledger == b.core.ledger + RoundEntries(round);
  }

  /** The sum of the amounts of an operation's steps. */
  function StepTotal(steps: seq<ControlledStep>, parent: Id): int {
    if steps == [] then 0
    else
      var last := steps[|steps| - 1];
      StepTotal(steps[..|steps| - 1], parent)
        + if last.parent == parent && last.actual.Some? then last.actual.value else 0
  }

  lemma {:induction false} TallyIsTotal(b: ControlledBooks, steps: seq<ControlledStep>, parent: Id)
    requires TallyOf(b, steps, parent).Ok?
    ensures TallyOf(b, steps, parent).value.total == StepTotal(steps, parent)
    ensures forall i | 0 <= i < |steps| && steps[i].parent == parent :: Countable(b, steps[i])
  {
    hide Countable, Counted;
    if steps != [] {
      var last, front := steps[|steps| - 1], steps[..|steps| - 1];
      TallyIsTotal(b, front, parent);
      if last.parent == parent {
        CountedTotal(b, TallyOf(b, front, parent).value, last);
      }
      forall i | 0 <= i < |steps| && steps[i].parent == parent
        ensures Countable(b, steps[i])
      {
        assert i < |front| ==> front[i] == steps[i];
      }
    }
  }

  lemma CountedTotal(b: ControlledBooks, t: Tally, step: ControlledStep)
    requires Countable(b, step)
    ensures step.actual.Some? && step.hash.Some? && step.hash.value in b.receipts
    ensures Counted(b, t, step).total == t.total + step.actual.value
  {
  }

  predicate Finished(b: ControlledBooks, parent: Id, outcome: Option<bool>) {
    parent in b.operations && Active(b.operations[parent].state) && Finish(b, parent, outcome).reply.Ok?
  }

  /**
    An operation that settles is charged the sum of its steps' receipts, to the credit, on both accounts; each
    step is verified by a stored final receipt of its own, and going over the hold blocks the Key.
   */
  lemma FinishChargesReceipts(b: ControlledBooks, parent: Id, outcome: Option<bool>, account: nat)
    requires Sound(b) && Finished(b, parent, outcome)
    ensures var op, total := b.operations[parent], StepTotal(b.steps, parent);
            var b' := Finish(b, parent, outcome).books;
            && Finish(b, parent, outcome).reply == Ok(OperationSettlement(op.key, total, total > op.held))
            && (forall i | 0 <= i < |b.steps| && b.steps[i].parent == parent ::
                  b.steps[i].state == StepVerified && TerminalReceipt(b, b.steps[i])
                  && b.steps[i].actual == ActualOf(b.steps[i].hash.value.of)
                  && b.steps[i].hash.value.of.request == b.steps[i].request)
            && op.hold < |b.core.reservations|
            && var hold := b.core.reservations[op.hold];
               && Available(b'.core.ledger, account) - Available(b.core.ledger, account)
                  == (if ChargedTo(hold, account) then op.held - total else 0)
               && SettledOn(b'.core.ledger, account) - SettledOn(b.core.ledger, account)
                  == (if ChargedTo(hold, account) then total else 0)
               && (total > op.held ==> op.key in b'.core.blocks)
  {
    hide HoldsSound, OneActive, FinishCharge, TallyOf, Available, SettledOn, GrantedOn, HeldOn, OverrunOf, SumOf,
         Billing.HoldEntries, StepTotal, Countable;
    TallyIsTotal(b, b.steps, parent);
    HoldIs(b, parent);
    var op, total := b.operations[parent], StepTotal(b.steps, parent);
    var hold := b.core.reservations[op.hold];
    var round := Round(b.core.accounts, hold, CommitEvent, total, op.held - total, None);
    RoundOnAccount(b.core.ledger, round, account);
    assert FinishRows(b, parent, total).core.ledger == b.core.ledger + RoundEntries(round);
    forall i | 0 <= i < |b.steps| && b.steps[i].parent == parent
      ensures b.steps[i].state == StepVerified && TerminalReceipt(b, b.steps[i])
      ensures b.steps[i].actual == ActualOf(b.steps[i].hash.value.of)
      ensures b.steps[i].hash.value.of.request == b.steps[i].request
    {
      assert StepSound(b.receipts, b.steps[i]);
      CountableIs(b, b.steps[i]);
    }
  }

  lemma CountableIs(b: ControlledBooks, step: ControlledStep)
    requires Countable(b, step)
    ensures step.state == StepVerified && TerminalReceipt(b, step)
  {
  }

  /** A step that is missing its receipt, in doubt or in conflict is never counted as zero: nothing is settled. */
  lemma UnverifiedStopsFinish(b: ControlledBooks, parent: Id, outcome: Option<bool>, i: nat)
    requires i < |b.steps| && b.steps[i].parent == parent && b.steps[i].state != StepVerified
    requires parent in b.operations && Active(b.operations[parent].state)
    ensures Finish(b, parent, outcome).reply.Err? && Finish(b, parent, outcome).books == b
  {
    hide TallyOf, FinishCharge;
    if FinishCharge(b, parent, outcome).Ok? {
      TallyIsTotal(b, b.steps, parent);
    }
  }

  // Settled and blocked for good

  predicate OperationsKept(b: ControlledBooks, b': ControlledBooks) {
    && b.core.blocks <= b'.core.blocks
    && (forall p | p in b.operations ::
         && p in b'.operations
         && b'.operations[p].key == b.operations[p].key && b'.operations[p].held == b.operations[p].held
         && (!Active(b.operations[p].state) ==> b'.operations[p] == b.operations[p]))
    && forall r | r in b.settlements ::
         && r in b'.settlements
         && b'.settlements[r] == b.settlements[r].(reconcileRequired := b'.settlements[r].reconcileRequired)
         && (b.settlements[r].reconcileRequired ==> b'.settlements[r].reconcileRequired)
  }

  lemma BeginKeepsOperations(b: ControlledBooks, now: Millis, parent: Id, snapshot: Snapshot, active: int)
    ensures OperationsKept(b, Begin(b, now, parent, snapshot, active).books)
  {
    hide BeginHold, Billing.HoldEntries;
  }

  lemma DispatchKeepsOperations(b: ControlledBooks, parent: Id, request: Id, kind: StepKind)
    ensures OperationsKept(b, Dispatch(b, parent, request, kind).books)
  {
    hide DispatchError;
  }

  lemma RecordKeepsOperations(b: ControlledBooks, parent: Id, request: Id, kind: StepKind, receipt: Receipt)
    ensures OperationsKept(b, Record(b, parent, request, kind, receipt).books)
  {
    hide RecordCourse, DisputeRows, KeepRows, OperationsKept;
    var course := RecordCourse(b, parent, request, kind, receipt);
    if course.Dispute? {
      DisputeKeepsOperations(b, parent, request, receipt);
    } else if course.Keep? {
      KeepKeepsOperations(b, parent, request, kind, receipt);
    } else {
      NothingKeepsOperations(b);
    }
  }

  lemma DisputeKeepsOperations(b: ControlledBooks, parent: Id, request: Id, receipt: Receipt)
    requires parent in b.operations && b.operations[parent].state != OpReleased
    ensures OperationsKept(b, DisputeRows(b, parent, request, receipt))
  {
  }

  lemma KeepKeepsOperations(b: ControlledBooks, parent: Id, request: Id, kind: StepKind, receipt: Receipt)
    requires parent in b.operations && Active(b.operations[parent].state)
    ensures OperationsKept(b, KeepRows(b, parent, request, kind, receipt))
  {
    hide StoredStep;
  }

  lemma NothingKeepsOperations(b: ControlledBooks)
    ensures OperationsKept(b, b)
  {
  }

  lemma FinishKeepsOperations(b: ControlledBooks, parent: Id, outcome: Option<bool>)
    ensures OperationsKept(b, Finish(b, parent, outcome).books)
  {
    hide FinishCharge, Billing.HoldEntries;
  }

  lemma QuoteKeepsOperations(b: ControlledBooks, now: Millis, quote: Quote, snapshot: Option<Snapshot>, active: int)
    ensures OperationsKept(b, ReserveQuote(b, now, quote, snapshot, active).books)
  {
    hide QuoteHold, QuoteIllFormed, QuoteMatches, ReservationFor, Billing.HoldEntries;
  }

  lemma ApplyKeepsOperations(b: ControlledBooks, receipt: Receipt)
    ensures OperationsKept(b, ApplyCredit(b, receipt).books)
  {
    hide CreditCourseOf, ReservationFor, Billing.HoldEntries, Normalized, FinalAmount;
    match CreditCourseOf(b, receipt)
    case RefuseCredit(_) =>
    case AnswerCredit(_) =>
    case NoteAgain(_) =>
    case NoteConflict(_) =>
    case NotePending =>
    case ChargeQuote =>
  }

  /** A settled operation or quote stays as it was settled, and a blocked Key stays blocked. */
  lemma ActionKeepsOperations(b: ControlledBooks, action: Action)
    ensures OperationsKept(b, Acted(b, action))
  {
    hide Begin, Dispatch, Record, Finish, BindTarget, TaskIllFormed, ReserveQuote, ApplyCredit;
    match action
    case BeginOperation(now, parent, snapshot, active) => BeginKeepsOperations(b, now, parent, snapshot, active);
    case DispatchStep(parent, request, kind) => DispatchKeepsOperations(b, parent, request, kind);
    case RecordReceipt(parent, request, kind, receipt) => RecordKeepsOperations(b, parent, request, kind, receipt);
    case FinishOperation(parent, outcome) => FinishKeepsOperations(b, parent, outcome);
    case BindTask(_, _) =>
    case QuoteRequest(now, quote, snapshot, active) => QuoteKeepsOperations(b, now, quote, snapshot, active);
    case CreditReceipt(receipt) => ApplyKeepsOperations(b, receipt);
  }

  /** On a blocked Key no operation can begin. */
  lemma BlockedBeginsNothing(b: ControlledBooks, now: Millis, parent: Id, snapshot: Snapshot, active: int)
    requires parent in b.core.requests && b.core.requests[parent].identity.key in b.core.blocks
    ensures Begin(b, now, parent, snapshot, active).books == b
  {
    hide BeginHold;
  }

  // A contradicting receipt

  /** A conflict is left when the operation is open and one more receipt, seen by nobody yet, is recorded. */
  predicate LeavesConflict(b: ControlledBooks, parent: Id, request: Id, kind: StepKind, receipt: Receipt) {
    && parent in b.operations && Active(b.operations[parent].state)
    && StepOwned(b, parent, request, kind)
    && !ReceiptRefused(receipt, request, kind)
    && !RowRefused(b, parent, request, kind, receipt)
  }

  /** Recording moves a step out of `conflict` exactly then; V1 does not keep a conflict for good. */
  lemma ConflictLeftIff(b: ControlledBooks, parent: Id, request: Id, kind: StepKind, receipt: Receipt, i: nat)
    requires StepsSound(b) && i < |b.steps| && b.steps[i].request == request && b.steps[i].state == StepConflict
    ensures i < |Record(b, parent, request, kind, receipt).books.steps|
    ensures Record(b, parent, request, kind, receipt).books.steps[i].state != StepConflict
            <==> LeavesConflict(b, parent, request, kind, receipt)
  {
    hide ReceiptRefused;
    assert FindStep(b.steps, request) == Some(i);
    assert StepSound(b.receipts, b.steps[i]);
  }

  /** The operation waits, and so does its hold: it can be neither spent nor released. */
  predicate InDoubt(b: ControlledBooks, parent: Id) {
    && parent in b.operations && b.operations[parent].state == OpUnknown
    && (b.operations[parent].hold < |b.core.reservations| ==>
          b.core.reservations[b.operations[parent].hold].state == HoldUnknown)
  }

  /** A receipt that settles nothing upstream puts the operation and its hold in doubt, and moves no money. */
  lemma DoubtSuspends(b: ControlledBooks, parent: Id, request: Id, kind: StepKind, receipt: Receipt)
    requires RecordCourse(b, parent, request, kind, receipt).Keep? && ActualOf(receipt).None?
    ensures var tx := Record(b, parent, request, kind, receipt);
            && tx.reply == Ok(HeldStep)
            && InDoubt(tx.books, parent)
            && tx.books.core.ledger == b.core.ledger
  {
    hide RecordCourse, StoredStep;
  }

  /** But whoever caused the conflict is blocked, and while it lasts the operation cannot settle. */
  lemma DisputeBlocks(b: ControlledBooks, parent: Id, request: Id, kind: StepKind, receipt: Receipt)
    requires StepsSound(b) && Record(b, parent, request, kind, receipt).reply == Ok(ConflictStep)
    requires Record(b, parent, request, kind, receipt).books != b
    ensures parent in b.operations
    ensures var b' := Record(b, parent, request, kind, receipt).books;
            && b.operations[parent].key in b'.core.blocks
            && b'.core.ledger == b.core.ledger
            && (if b.operations[parent].state == OpSettled then b'.operations == b.operations
                else InDoubt(b', parent))
            && forall j | 0 <= j < |b'.steps| && b'.steps[j].request == request :: b'.steps[j].state == StepConflict
  {
    hide RecordCourse, StepSound;
    assert RecordCourse(b, parent, request, kind, receipt).Dispute?;
  }

  // A quote's receipts

  predicate CreditCharges(b: ControlledBooks, receipt: Receipt) {
    ApplyCredit(b, receipt).reply.Ok? && ApplyCredit(b, receipt).reply.value.CreditSettled?
  }

  /** A receipt that settles a quote is a final one, the first, and charges its own amount on both accounts. */
  lemma CreditChargesReceipt(b: ControlledBooks, receipt: Receipt, account: nat)
    requires Sound(b) && CreditCharges(b, receipt)
    ensures ValidFinal(receipt) && receipt.request in b.quotes && receipt.request !in b.settlements
    ensures ReservationFor(b.core.reservations, receipt.request).Some?
    ensures var r, actual, b' := receipt.request, FinalAmount(receipt), ApplyCredit(b, receipt).books;
            var hold := b.core.reservations[ReservationFor(b.core.reservations, r).value];
            && r in b'.settlements && b'.settlements[r].actual == actual
            && b'.settlements[r].receipt == ReceiptDigest(receipt)
            && Available(b'.core.ledger, account) - Available(b.core.ledger, account)
               == (if ChargedTo(hold, account) then hold.amount - actual else 0)
            && SettledOn(b'.core.ledger, account) - SettledOn(b.core.ledger, account)
               == (if ChargedTo(hold, account) then actual else 0)
            && (actual > b.quotes[r].max ==> hold.key in b'.core.blocks)
  {
    hide CreditCourseOf, HoldsSound, OneActive, StepsSound, QuoteSound, ReservationFor, Available, SettledOn,
         GrantedOn, OverrunOf, SumOf, Billing.HoldEntries, FinalAmount, Normalized;
    AnswersDoNotSettle(b, receipt);
    UnownedQuote(b, receipt.request);
    var r, actual := receipt.request, FinalAmount(receipt);
    var id := ReservationFor(b.core.reservations, r).value;
    var hold := b.core.reservations[id];
    var round := Round(b.core.accounts, hold, CommitEvent, actual, hold.amount - actual, None);
    RoundOnAccount(b.core.ledger, round, account);
    assert QuoteCharged(b, receipt, id).core.ledger == b.core.ledger + RoundEntries(round);
  }

  lemma AnswersDoNotSettle(b: ControlledBooks, receipt: Receipt)
    ensures CreditCourseOf(b, receipt).AnswerCredit? ==> !CreditCourseOf(b, receipt).reply.CreditSettled?
  {
  }

  lemma LateCourse(b: ControlledBooks, receipt: Receipt)
    requires receipt.request in b.settlements
    ensures var course, actual := CreditCourseOf(b, receipt), b.settlements[receipt.request].actual;
            && !course.NotePending? && !course.ChargeQuote?
            && (course.AnswerCredit? ==>
                  course.reply != CreditConflict && (ReceiptDigest(receipt) in b.receipts || !ValidFinal(receipt)))
            && (course.NoteAgain? ==> ValidFinal(receipt) && FinalAmount(receipt) == actual)
            && (course.NoteConflict? ==> ValidFinal(receipt) && FinalAmount(receipt) != actual)
  {
    hide ReservationFor, FinalAmount, ValidFinal, Normalized, QuoteHoldMatches, CanSettle, CanTransition, Blank;
  }

  /** After that no receipt moves money; one is a conflict exactly when it is final, new, and says another amount. */
  lemma LateCredit(b: ControlledBooks, receipt: Receipt)
    requires receipt.request in b.settlements
    ensures var b' := ApplyCredit(b, receipt).books;
            b'.core.ledger == b.core.ledger && b'.core.reservations == b.core.reservations
    ensures ApplyCredit(b, receipt).reply.Ok? ==>
              (ApplyCredit(b, receipt).reply == Ok(CreditConflict)
               <==> ReceiptDigest(receipt) !in b.receipts && ValidFinal(receipt)
                    && FinalAmount(receipt) != b.settlements[receipt.request].actual)
    ensures ApplyCredit(b, receipt).reply == Ok(CreditConflict) ==>
              && receipt.request in b.core.requests
              && b.core.requests[receipt.request].identity.key in ApplyCredit(b, receipt).books.core.blocks
  {
    hide CreditCourseOf, ReservationFor, FinalAmount, ValidFinal;
    LateCourse(b, receipt);
  }

  /** Delivering a receipt again changes nothing. */
  lemma CreditReplay(b: ControlledBooks, receipt: Receipt)
    requires ReceiptDigest(receipt) in b.receipts
    ensures ApplyCredit(b, receipt).books == b
  {
    hide ReservationFor, FinalAmount, ValidFinal, Normalized, QuoteHoldMatches, CanSettle, CanTransition, Blank;
  }

  /** A receipt that settles nothing leaves the hold open and in doubt, the request unknown, and moves no money. */
  lemma PendingSuspends(b: ControlledBooks, receipt: Receipt)
    requires CreditCourseOf(b, receipt).NotePending?
    ensures var tx, r := ApplyCredit(b, receipt), receipt.request;
            && tx.reply == Ok(CreditPending)
            && tx.books.core.ledger == b.core.ledger
            && r in tx.books.core.requests && tx.books.core.requests[r].state == UnknownOutcome
            && var id := ReservationFor(b.core.reservations, r).value;
               && |tx.books.core.reservations| == |b.core.reservations|
               && tx.books.core.reservations[id].state
                  == if b.core.reservations[id].state == HoldHeld then HoldUnknown else b.core.reservations[id].state
  {
    hide CreditCourseOf, ReservationFor, Normalized;
  }

  lemma StoredOnApply(b: ControlledBooks, receipt: Receipt)
    requires ApplyCredit(b, receipt).books != b
    ensures ReceiptDigest(receipt) in ApplyCredit(b, receipt).books.receipts
  {
    hide CreditCourseOf, ReservationFor, FinalAmount, Normalized, Billing.HoldEntries;
  }

  /** So applying a receipt twice is applying it once. */
  lemma ApplyIdempotent(b: ControlledBooks, receipt: Receipt)
    ensures ApplyCredit(ApplyCredit(b, receipt).books, receipt).books == ApplyCredit(b, receipt).books
  {
    hide ApplyCredit;
    if ApplyCredit(b, receipt).books != b {
      StoredOnApply(b, receipt);
      CreditReplay(ApplyCredit(b, receipt).books, receipt);
    }
  }
}
