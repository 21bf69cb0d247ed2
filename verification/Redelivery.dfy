/**
  A receipt that comes again, whatever the ledger has done since it came first: exactly when it changes anything.
 */
module Redelivery {
  import opened Wrappers
  import opened Model
  import opened Ledger
  import opened EventGroup
  import opened Billing
  import opened Settling
  import opened Invariant
  import opened Frame
  import opened Preservation
  import opened ReceiptPreservation
  import opened Runs
  import opened Tables
  import opened Finality
  import opened Receipts
  import opened Text
  import Integrity

  /** The step is frozen, or was released, and its Key is blocked. */
  predicate Stopped(db: Db, r: Id)
    requires r in db.steps
  {
    && (db.steps[r].fin == FinConflict || db.steps[r].fin == FinReleased)
    && db.steps[r].auth.key in db.blocks
  }

  /** Two receipts of a step settled otherwise, or at odds with its task, have the same effect as one. */
  predicate Contradicts(db: Db, input: ReceiptInput)
    requires input.receipt.request in db.steps
  {
    var r := input.receipt.request;
    || TaskConflict(db.steps[r], input.receipt)
    || (r in db.settlements && IsFinal(input.receipt.status)
        && !SameSettlement(db.settlements[r], EvidenceOf(db, r), input))
  }

  /** The receipt is well formed and about this step as it is. */
  predicate Received(db: Db, input: ReceiptInput) {
    && input.receipt.request in db.steps
    && !ReceiptMalformed(input.receipt)
    && CheckReceiptOwner(db, input).None?
  }

  /** What a delivered receipt leaves behind, in one of five forms. */
  predicate Absorbed(db: Db, input: ReceiptInput)
    requires input.receipt.request in db.steps
  {
    var r := input.receipt.request;
    var rows := EvidenceOf(db, r);
    || AlreadyRecorded(rows, input)
    || (HashOf(input) in rows && Stopped(db, r) && Contradicts(db, input))
    || (HashOf(input) in rows && r in db.settlements
        && (!IsFinal(input.receipt.status) || SameSettlement(db.settlements[r], rows, input)))
    || (r !in db.settlements && db.steps[r].fin == FinConflict)
    || (HashOf(input) in rows && !IsFinal(input.receipt.status) && db.steps[r].fin == FinReleased)
  }

  /** The receipt is at odds with the step's task, and what that does has not been done. */
  predicate Unwelcome(db: Db, input: ReceiptInput)
    requires input.receipt.request in db.steps
  {
    var r := input.receipt.request;
    && TaskConflict(db.steps[r], input.receipt)
    && !AlreadyRecorded(EvidenceOf(db, r), input)
    && !(HashOf(input) in EvidenceOf(db, r) && Stopped(db, r))
  }

  // A redelivery in a state that has absorbed the receipt

  lemma ConflictRowsAgain(db: Db, r: Id, hash: EvidenceHash, row: Evidence)
    requires r in db.steps
    ensures ConflictRows(db, r, hash, row) == db <==> hash in EvidenceOf(db, r) && Stopped(db, r)
  {
    var db' := ConflictRows(db, r, hash, row);
    if hash in EvidenceOf(db, r) && Stopped(db, r) {
      assert db.steps[r := db.steps[r]] == db.steps;
      assert db.blocks + {db.steps[r].auth.key} == db.blocks;
    } else if hash !in EvidenceOf(db, r) {
      assert hash in EvidenceOf(db', r);
    } else if db.steps[r].auth.key !in db.blocks {
      assert db.steps[r].auth.key in db'.blocks;
    } else {
      assert db'.steps[r].fin == FinConflict;
    }
  }

  lemma ContradictsAlone(db: Db, now: Millis, input: ReceiptInput)
    requires Received(db, input) && Contradicts(db, input) && !AlreadyRecorded(EvidenceOf(db, input.receipt.request), input)
    ensures ApplyReceipt(db, now, input).db == db
            <==> HashOf(input) in EvidenceOf(db, input.receipt.request) && Stopped(db, input.receipt.request)
  {
    hide ReceiptMalformed, CheckReceiptOwner, AlreadyRecorded, EvidenceOf, TaskConflict, SameSettlement, Unsettled,
         SettleRows, SuspendRows, ConflictRows, InsertEvidence, SettledReplyFor, HashOf, Stopped, IsFinal;
    var r := input.receipt.request;
    forall row
      ensures ConflictRows(db, r, HashOf(input), row) == db <==> HashOf(input) in EvidenceOf(db, r) && Stopped(db, r)
    {
      ConflictRowsAgain(db, r, HashOf(input), row);
    }
  }

  /** Where it is at odds with nothing, it is answered, or noted where it is noted already. */
  lemma AgreesAgain(db: Db, now: Millis, input: ReceiptInput)
    requires Received(db, input) && Absorbed(db, input) && !Contradicts(db, input)
    ensures ApplyReceipt(db, now, input).db == db
  {
    hide ReceiptMalformed, CheckReceiptOwner, AlreadyRecorded, EvidenceOf, TaskConflict, SameSettlement,
         SettleRows, SuspendRows, ConflictRows, InsertEvidence, SettledReplyFor, HashOf, NoteRow;
    var r := input.receipt.request;
    if HashOf(input) in EvidenceOf(db, r) {
      InsertKnown(db, r, HashOf(input), NoteRow(input, now));
    }
  }

  lemma AbsorbedAgain(db: Db, now: Millis, input: ReceiptInput)
    requires Received(db, input) && Absorbed(db, input)
    ensures ApplyReceipt(db, now, input).db == db <==> !Unwelcome(db, input)
  {
    hide ApplyReceipt, AlreadyRecorded, EvidenceOf, SameSettlement, HashOf, Stopped, ReceiptMalformed, CheckReceiptOwner,
         TaskConflict, IsFinal;
    if AlreadyRecorded(EvidenceOf(db, input.receipt.request), input) {
      RecordedAnswers(db, input);
    } else if Contradicts(db, input) {
      ContradictsAlone(db, now, input);
    } else {
      AgreesAgain(db, now, input);
    }
  }

  /** And whatever it does, it moves no money. */
  lemma AbsorbedMovesNothing(db: Db, now: Millis, input: ReceiptInput)
    requires Received(db, input) && Absorbed(db, input)
    ensures var db' := ApplyReceipt(db, now, input).db;
            db'.ledger == db.ledger && db'.reservations == db.reservations && db'.settlements == db.settlements
  {
    hide ApplyReceipt, AlreadyRecorded, EvidenceOf, SameSettlement, HashOf, Stopped, ReceiptMalformed, CheckReceiptOwner,
         TaskConflict, IsFinal;
    AbsorbedAgain(db, now, input);
    if Unwelcome(db, input) {
      ContradictionOnly(db, now, input);
    }
  }

  lemma ContradictionOnly(db: Db, now: Millis, input: ReceiptInput)
    requires Received(db, input) && Unwelcome(db, input)
    ensures var db' := ApplyReceipt(db, now, input).db;
            db'.ledger == db.ledger && db'.reservations == db.reservations && db'.settlements == db.settlements
  {
    hide ReceiptMalformed, CheckReceiptOwner, AlreadyRecorded, EvidenceOf, TaskConflict, SameSettlement, Unsettled,
         SettleRows, SuspendRows, ConflictRows, InsertEvidence, SettledReplyFor, HashOf, Stopped, IsFinal;
    var r := input.receipt.request;
    forall row
      ensures var db' := ConflictRows(db, r, HashOf(input), row);
              db' == db.(evidence := db'.evidence, steps := db'.steps, blocks := db'.blocks)
    {
      ConflictRowsShape(db, r, HashOf(input), row);
    }
  }

  // Every delivery that is answered is absorbed

  lemma AnsweredAbsorbs(db: Db, input: ReceiptInput)
    requires ReceiptCourse(db, input).Answer?
    ensures Received(db, input) && Absorbed(db, input)
  {
    hide ReceiptMalformed, CheckReceiptOwner, AlreadyRecorded, EvidenceOf, TaskConflict, SameSettlement, Unsettled;
    OwnerStep(db, input);
  }

  lemma ContradictAbsorbs(db: Db, now: Millis, input: ReceiptInput)
    requires ReceiptCourse(db, input).Contradict?
    requires Inv(db)
    ensures input.receipt.request in ApplyReceipt(db, now, input).db.steps
    ensures Absorbed(ApplyReceipt(db, now, input).db, input)
  {
    hide Inv, ReceiptCourse, ReceiptMalformed, CheckReceiptOwner, AlreadyRecorded, EvidenceOf, TaskConflict,
         SameSettlement, HashOf, ContradictionRow, ConflictRows, ReceiptFits, Blank, SettleRows, SuspendRows, IsFinal;
    var r, reason := input.receipt.request, ReceiptCourse(db, input).reason;
    FitsParts(db, input);
    var row := ContradictionRow(input, reason, now);
    var db' := ConflictRows(db, r, HashOf(input), row);
    ConflictRowsParts(db, r, HashOf(input), row);
    if HashOf(input) in EvidenceOf(db, r) {
      ContradictStops(db, r, HashOf(input), row);
      ContradictsStill(db, db', input);
    } else {
      ReasonGiven(db, input);
      ContradictionRecorded(EvidenceOf(db', r), input, reason, now);
    }
  }

  lemma ContradictStops(db: Db, r: Id, hash: EvidenceHash, row: Evidence)
    requires r in db.steps
    ensures r in ConflictRows(db, r, hash, row).steps && Stopped(ConflictRows(db, r, hash, row), r)
  {
    hide InsertEvidence;
    InsertShape(db, r, hash, row);
  }

  lemma ContradictsStill(db: Db, db': Db, input: ReceiptInput)
    requires ReceiptCourse(db, input).Contradict? && SameOwner(db, db', input.receipt.request)
    requires EvidenceOf(db', input.receipt.request) == EvidenceOf(db, input.receipt.request)
    requires db'.settlements == db.settlements
    ensures Contradicts(db', input)
  {
    hide ReceiptMalformed, CheckReceiptOwner, AlreadyRecorded, EvidenceOf, TaskConflict, SameSettlement, Unsettled,
         IsFinal;
    OwnerStays(db, db', input);
    FitsParts(db, input);
  }

  lemma SuspendAbsorbs(db: Db, now: Millis, input: ReceiptInput)
    requires ReceiptCourse(db, input).Suspend?
    requires Inv(db)
    ensures input.receipt.request in ApplyReceipt(db, now, input).db.steps
    ensures Absorbed(ApplyReceipt(db, now, input).db, input)
  {
    hide Inv, ReceiptCourse, ReceiptMalformed, CheckReceiptOwner, AlreadyRecorded, EvidenceOf, TaskConflict,
         SameSettlement, HashOf, NoteRow, InsertEvidence, ReceiptFits, SettleRows, ConflictRows, IsFinal;
    var r := input.receipt.request;
    SuspendIsNews(db, input);
    FitsParts(db, input);
    InsertTouches(db, r, HashOf(input), NoteRow(input, now));
    var db' := SuspendRows(db, r, HashOf(input), NoteRow(input, now));
    SameRows(InsertEvidence(db, r, HashOf(input), NoteRow(input, now)), db', r);
    NoteRecorded(EvidenceOf(db', r), input, now);
  }

  lemma ChargeAbsorbs(db: Db, now: Millis, input: ReceiptInput)
    requires ReceiptCourse(db, input).Charge?
    requires Inv(db)
    ensures input.receipt.request in ApplyReceipt(db, now, input).db.steps
    ensures Absorbed(ApplyReceipt(db, now, input).db, input)
  {
    hide Inv, ReceiptCourse, ReceiptMalformed, CheckReceiptOwner, AlreadyRecorded, EvidenceOf, TaskConflict, SameSettlement,
         HashOf, ReceiptFits, SettleRows, SuspendRows, ConflictRows, SettledReplyFor, SameOwner, Stopped, IsFinal;
    FitsParts(db, input);
    ChargeFacts(db, input);
    Integrity.ChargeNotStored(db, input);
    SettleRowsParts(db, now, input);
    OwnerThere(db, SettleRows(db, now, input), input.receipt.request);
  }

  /** A pending receipt is only noted of a step that is settled or released. */
  lemma NoteCause(db: Db, input: ReceiptInput)
    requires ReceiptCourse(db, input).Note?
    requires Inv(db)
    ensures var r := input.receipt.request;
            && r in db.steps
            && if r in db.settlements then
                 !IsFinal(input.receipt.status) || SameSettlement(db.settlements[r], EvidenceOf(db, r), input)
               else !IsFinal(input.receipt.status) && db.steps[r].fin == FinReleased
  {
    hide ReceiptMalformed, CheckReceiptOwner, AlreadyRecorded, EvidenceOf, TaskConflict, SameSettlement, Inv, IsFinal,
         StepLinked, Sound, StepView;
    FitsParts(db, input);
    SoundStep(db, input.receipt.request);
    ViewParts(db, input.receipt.request);
    if input.receipt.request !in db.settlements {
      OpenOrClosed(db.accounts, StepView(db, input.receipt.request));
    }
  }

  /** An unsettled step is open, released or in conflict. */
  lemma OpenOrClosed(accounts: seq<Account>, v: GroupView)
    requires Sound(accounts, v) && v.settlement.None?
    ensures v.step.fin == FinReleased || v.step.fin == FinConflict || Unsettled(v.step, v.reservation)
  {
    hide EventsExact, EvidenceSound, HistoryValid, AccountsSound;
  }

  lemma NoteAbsorbs(db: Db, now: Millis, input: ReceiptInput)
    requires ReceiptCourse(db, input).Note?
    requires Inv(db)
    ensures input.receipt.request in ApplyReceipt(db, now, input).db.steps
    ensures Absorbed(ApplyReceipt(db, now, input).db, input)
  {
    hide Inv, ReceiptCourse, ReceiptMalformed, CheckReceiptOwner, AlreadyRecorded, EvidenceOf, TaskConflict,
         SameSettlement, HashOf, NoteRow, InsertEvidence, ReceiptFits, SettleRows, SuspendRows, ConflictRows, IsFinal;
    var r := input.receipt.request;
    NoteCause(db, input);
    InsertTouches(db, r, HashOf(input), NoteRow(input, now));
    InsertShape(db, r, HashOf(input), NoteRow(input, now));
    var db' := InsertEvidence(db, r, HashOf(input), NoteRow(input, now));
    if r in db.settlements && IsFinal(input.receipt.status) {
      SameStill(db, db', input);
    }
  }

  /** The settlement is still the same one when rows are added. */
  lemma SameStill(db: Db, db': Db, input: ReceiptInput)
    requires input.receipt.request in db.settlements && db'.settlements == db.settlements
    requires EvidenceAdvances(EvidenceOf(db, input.receipt.request), EvidenceOf(db', input.receipt.request))
    requires SameSettlement(db.settlements[input.receipt.request], EvidenceOf(db, input.receipt.request), input)
    ensures SameSettlement(db'.settlements[input.receipt.request], EvidenceOf(db', input.receipt.request), input)
  {
    hide EvidenceOf, HashOf;
  }

  lemma DeliveredAbsorbs(db: Db, now: Millis, input: ReceiptInput)
    requires ApplyReceipt(db, now, input).reply.Ok?
    requires Inv(db)
    ensures input.receipt.request in ApplyReceipt(db, now, input).db.steps
    ensures Absorbed(ApplyReceipt(db, now, input).db, input)
  {
    hide Inv, ReceiptCourse, Absorbed, ConflictRows, InsertEvidence, SuspendRows, SettleRows, SettledReplyFor;
    var course := ReceiptCourse(db, input);
    if course.Answer? {
      AnsweredAbsorbs(db, input);
    } else if course.Contradict? {
      ContradictAbsorbs(db, now, input);
    } else if course.Note? {
      NoteAbsorbs(db, now, input);
    } else if course.Suspend? {
      SuspendAbsorbs(db, now, input);
    } else if course.Charge? {
      ChargeAbsorbs(db, now, input);
    }
  }

  // It stays absorbed

  /** A receipt that was about the step once is about it for good. */
  lemma OwnerRemains(db: Db, db': Db, input: ReceiptInput)
    requires Inv(db) && Inv(db') && Advances(db, db') && CheckReceiptOwner(db, input).None?
    ensures input.receipt.request in db'.steps && CheckReceiptOwner(db', input).None?
  {
    hide Inv, Sound, StepView, StepHoldsAdvance, OperationsAdvance, RevisionsOf, EvidenceOf, SettlementOf, AboutStep,
         Terminal;
    var r := input.receipt.request;
    OwnerChecked(db, input);
    StepThere(db, db', r);
    SoundStep(db', r);
    ViewParts(db', r);
    OwnerAgain(db', StepView(db', r), input);
  }

  lemma StepThere(db: Db, db': Db, r: Id)
    requires Advances(db, db') && r in db.steps
    ensures StepRowsAdvance(db, db', r)
  {
    hide StepRowsAdvance, StepHoldsAdvance, OperationsAdvance;
  }

  lemma OwnerAgain(db: Db, v: GroupView, input: ReceiptInput)
    requires Inv(db) && input.receipt.request in db.steps && StepLinked(db, input.receipt.request)
    requires v == StepView(db, input.receipt.request) && Sound(db.accounts, v)
    requires var step := db.steps[input.receipt.request];
             && input.budgetId == step.auth.budgetId && input.accountRef == step.auth.accountRef
             && input.bridge == step.auth.bridge && step.dispatched
             && (step.kind == Video && input.receipt.status == Final ==> step.task.Some?)
    ensures CheckReceiptOwner(db, input).None?
  {
    hide Inv, HistoryValid, AccountsSound, EventsExact, EvidenceSound, KindValid, LifecycleValid, SettlementValid;
  }

  lemma RecordedRemains(rows: map<EvidenceHash, Evidence>, rows': map<EvidenceHash, Evidence>, input: ReceiptInput)
    requires EvidenceAdvances(rows, rows') && AlreadyRecorded(rows, input)
    ensures AlreadyRecorded(rows', input)
  {
    hide HashOf, Blank;
  }

  lemma ConflictRemains(s: Step, s': Step, input: ReceiptInput)
    requires StepAdvances(s, s') && TaskConflict(s, input.receipt)
    requires s.kind == Video && input.receipt.status == Final ==> s.task.Some?
    ensures TaskConflict(s', input.receipt)
  {
    hide Terminal;
  }

  lemma SettlementRemains(db: Db, db': Db, r: Id)
    requires StepRowsAdvance(db, db', r)
    ensures r in db.settlements ==> r in db'.settlements && db'.settlements[r] == db.settlements[r]
    ensures r !in db.settlements && db.steps[r].fin == FinConflict ==> r !in db'.settlements
    ensures EvidenceAdvances(EvidenceOf(db, r), EvidenceOf(db', r)) && StepAdvances(db.steps[r], db'.steps[r])
  {
    hide StepAdvances, RevisionsOf, EvidenceOf;
  }

  lemma SameOrNot(db: Db, db': Db, input: ReceiptInput)
    requires input.receipt.request in db.settlements && input.receipt.request in db'.settlements
    requires db'.settlements[input.receipt.request] == db.settlements[input.receipt.request]
    requires EvidenceAdvances(EvidenceOf(db, input.receipt.request), EvidenceOf(db', input.receipt.request))
    requires db.settlements[input.receipt.request].hash in EvidenceOf(db, input.receipt.request)
    ensures SameSettlement(db'.settlements[input.receipt.request], EvidenceOf(db', input.receipt.request), input)
            <==> SameSettlement(db.settlements[input.receipt.request], EvidenceOf(db, input.receipt.request), input)
  {
    hide EvidenceOf, HashOf;
  }

  lemma AbsorbedRemains(db: Db, db': Db, input: ReceiptInput)
    requires Inv(db) && Inv(db') && Advances(db, db') && Received(db, input) && Absorbed(db, input)
    ensures Received(db', input) && Absorbed(db', input)
  {
    hide Inv, Advances, StepRowsAdvance, CheckReceiptOwner, ReceiptMalformed, AlreadyRecorded, EvidenceOf, HashOf,
         SameSettlement, TaskConflict, IsFinal, Terminal;
    var r := input.receipt.request;
    OwnerRemains(db, db', input);
    StepThere(db, db', r);
    SettlementRemains(db, db', r);
    BlocksRemain(db, db');
    if r in db.settlements {
      Integrity.SettledStored(db, r);
      SameOrNot(db, db', input);
    }
    if AlreadyRecorded(EvidenceOf(db, r), input) {
      RecordedRemains(EvidenceOf(db, r), EvidenceOf(db', r), input);
    } else if TaskConflict(db.steps[r], input.receipt) {
      TaskKnown(db, input);
      ConflictRemains(db.steps[r], db'.steps[r], input);
    }
  }

  lemma BlocksRemain(db: Db, db': Db)
    requires Advances(db, db')
    ensures db.blocks <= db'.blocks
  {
    hide StepHoldsAdvance, StepsAdvance, OperationsAdvance;
  }

  lemma TaskKnown(db: Db, input: ReceiptInput)
    requires CheckReceiptOwner(db, input).None?
    ensures input.receipt.request in db.steps
    ensures db.steps[input.receipt.request].kind == Video && input.receipt.status == Final ==>
              db.steps[input.receipt.request].task.Some?
  {
  }

  // The results

  lemma FirstReceived(db: Db, now: Millis, input: ReceiptInput)
    requires ApplyReceipt(db, now, input).reply.Ok?
    requires Inv(db)
    ensures Received(db, input)
  {
    hide Inv, ReceiptMalformed, CheckReceiptOwner, AlreadyRecorded, EvidenceOf, TaskConflict, SameSettlement, Unsettled,
         SettleRows, SuspendRows, ConflictRows, InsertEvidence, SettledReplyFor, HashOf;
    if !CheckReceiptOwner(db, input).None? {
      assert false;
    }
    OwnerStep(db, input);
  }

  lemma OwnerStep(db: Db, input: ReceiptInput)
    requires CheckReceiptOwner(db, input).None?
    ensures input.receipt.request in db.steps
  {
  }

  /** The receipt says no charge for a video that has been given a task since it came first. */
  predicate TaskCame(first: Db, later: Db, input: ReceiptInput) {
    var r := input.receipt.request;
    && r in first.steps && r in later.steps
    && later.steps[r].kind == Video && input.receipt.status == FailedNoCharge && input.receipt.task.None?
    && first.steps[r].task.None? && later.steps[r].task.Some?
  }

  lemma NewConflictIsTask(first: Db, later: Db, input: ReceiptInput)
    requires input.receipt.request in first.steps && input.receipt.request in later.steps
    requires StepAdvances(first.steps[input.receipt.request], later.steps[input.receipt.request])
    requires !TaskConflict(first.steps[input.receipt.request], input.receipt)
    requires TaskConflict(later.steps[input.receipt.request], input.receipt)
    requires first.steps[input.receipt.request].kind == Video && input.receipt.status == Final ==>
               first.steps[input.receipt.request].task.Some?
    ensures TaskCame(first, later, input)
  {
    hide Terminal;
  }

  /** A receipt that was at odds with the step's task from the start has done what that does. */
  lemma OldConflictIsKnown(first: Db, later: Db, input: ReceiptInput)
    requires Inv(first) && Inv(later) && Advances(first, later) && Received(first, input)
    requires !Unwelcome(first, input) && TaskConflict(first.steps[input.receipt.request], input.receipt)
    ensures input.receipt.request in later.steps && !Unwelcome(later, input)
  {
    hide Inv, Advances, StepRowsAdvance, CheckReceiptOwner, ReceiptMalformed, AlreadyRecorded, EvidenceOf, HashOf,
         TaskConflict, Terminal;
    var r := input.receipt.request;
    StepThere(first, later, r);
    OwnerRemains(first, later, input);
    SettlementRemains(first, later, r);
    BlocksRemain(first, later);
    if AlreadyRecorded(EvidenceOf(first, r), input) {
      RecordedRemains(EvidenceOf(first, r), EvidenceOf(later, r), input);
    }
  }

  /**
    Whatever the ledger does between a delivery that was answered and the next delivery of the same receipt, the
    second one changes nothing unless it is unwelcome, which it can only become where a video that it says was not
    charged has been given a task in between; and in no case does it move money.
   */
  lemma RedeliveryIff(db: Db, now: Millis, input: ReceiptInput, later: Db, then': Millis)
    requires ApplyReceipt(db, now, input).reply.Ok?
    requires Inv(db) && Inv(later) && Advances(ApplyReceipt(db, now, input).db, later)
    ensures input.receipt.request in later.steps
    ensures ApplyReceipt(later, then', input).db == later <==> !Unwelcome(later, input)
    ensures Unwelcome(later, input) ==> TaskCame(ApplyReceipt(db, now, input).db, later, input)
    ensures var again := ApplyReceipt(later, then', input).db;
            && again.ledger == later.ledger && again.reservations == later.reservations
            && again.settlements == later.settlements
  {
    hide Inv, ApplyReceipt, Advances, Absorbed, Unwelcome, TaskCame, CheckReceiptOwner, ReceiptMalformed, TaskConflict;
    var first, r := ApplyReceipt(db, now, input).db, input.receipt.request;
    FirstReceived(db, now, input);
    DeliveredAbsorbs(db, now, input);
    ApplyReceiptKeepsInv(db, now, input);
    ReceiptAdvances(db, now, input);
    OwnerRemains(db, first, input);
    AbsorbedRemains(first, later, input);
    AbsorbedAgain(later, then', input);
    AbsorbedMovesNothing(later, then', input);
    AbsorbedAgain(first, then', input);
    ApplyTwice(db, now, then', input);
    if TaskConflict(first.steps[r], input.receipt) {
      OldConflictIsKnown(first, later, input);
    } else if Unwelcome(later, input) {
      UnwelcomeConflicts(later, input);
      StepThere(first, later, r);
      TaskKnown(first, input);
      AdvancedSteps(first, later, r);
      NewConflictIsTask(first, later, input);
    }
  }

  lemma UnwelcomeConflicts(db: Db, input: ReceiptInput)
    requires input.receipt.request in db.steps && Unwelcome(db, input)
    ensures TaskConflict(db.steps[input.receipt.request], input.receipt)
  {
  }

  lemma AdvancedSteps(a: Db, b: Db, r: Id)
    requires StepRowsAdvance(a, b, r)
    ensures StepAdvances(a.steps[r], b.steps[r])
  {
    hide StepAdvances;
  }

  /** So in every run: a feed that is read again from any point is replayed without effect, but for that one case. */
  lemma ReplayedIff(states: seq<Db>, actions: seq<Action>, i: nat, j: nat, now: Millis, input: ReceiptInput, then': Millis)
    requires |states| == |actions| + 1 && i < j < |states|
    requires actions[i] == DeliverReceipt(now, input) && ApplyReceipt(states[i], now, input).reply.Ok?
    requires Run(states, actions)
    ensures input.receipt.request in states[j].steps
    ensures ApplyReceipt(states[j], then', input).db == states[j] <==> !Unwelcome(states[j], input)
    ensures Unwelcome(states[j], input) ==> TaskCame(states[i + 1], states[j], input)
    ensures var again := ApplyReceipt(states[j], then', input).db;
            && again.ledger == states[j].ledger && again.reservations == states[j].reservations
            && again.settlements == states[j].settlements
  {
    hide Run, Inv, ApplyReceipt, Advances, Unwelcome, TaskCame;
    ReachableInv(states, actions, i);
    ReachableInv(states, actions, j);
    RunAdvances(states, actions, i + 1, j);
    Delivered(states, actions, i, now, input);
    RedeliveryIff(states[i], now, input, states[j], then');
  }

  lemma Delivered(states: seq<Db>, actions: seq<Action>, i: nat, now: Millis, input: ReceiptInput)
    requires |states| == |actions| + 1 && i < |actions| && actions[i] == DeliverReceipt(now, input)
    requires Run(states, actions)
    ensures states[i + 1] == ApplyReceipt(states[i], now, input).db
  {
    hide ApplyReceipt, Begin, Add, Refresh, Dispatch, Release, Bind, MarkExecution, Finish, MarkConflict;
    assert Next(states[i], actions[i], states[i + 1]);
  }
}
