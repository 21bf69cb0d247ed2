/**
  Which receipts a step takes, and what each leaves and answers, in any state of the invariant: read off the receipt's
  columns and the step's rows.
 */
module Accepting {
  import opened Wrappers
  import opened Model
  import opened Ledger
  import opened EventGroup
  import opened Billing
  import opened Settling
  import opened Invariant
  import opened ReceiptPreservation
  import opened Receipts
  import opened Redelivery
  import opened Text
  import Dispatching

  // Which receipts are taken

  /** Who reports what, and when: a final receipt says an amount, one that charges nothing says none or zero. */
  predicate Presentable(receipt: Receipt) {
    && !Blank(receipt.request) && !Blank(receipt.source) && receipt.observedAt > 0 && receipt.unit == "credits"
    && match receipt.status
       case Final => receipt.actual.Some? && receipt.actual.value >= 0
       case FailedNoCharge => receipt.actual == None || receipt.actual == Some(0)
       case Pending | Unknown | Unverified => receipt.actual.Some? ==> receipt.actual.value >= 0
  }

  /** It is about a dispatched step under its budget, account and bridge, and a video's final one about a task that is bound. */
  predicate About(db: Db, input: ReceiptInput) {
    && input.receipt.request in db.steps
    && var step := db.steps[input.receipt.request];
       && step.dispatched
       && input.budgetId == step.auth.budgetId && input.accountRef == step.auth.accountRef
       && input.bridge == step.auth.bridge
       && (step.kind == Video && input.receipt.status == Final ==> step.task.Some?)
  }

  lemma MalformedIff(receipt: Receipt)
    ensures ReceiptMalformed(receipt) <==> !Presentable(receipt)
  {
    hide Blank;
  }

  lemma OwnerIff(db: Db, input: ReceiptInput)
    requires Inv(db)
    ensures CheckReceiptOwner(db, input).None? <==> About(db, input)
  {
    hide Inv, StepView, Sound;
    var r := input.receipt.request;
    if r in db.steps {
      SoundStep(db, r);
      if About(db, input) {
        OwnerAgain(db, StepView(db, r), input);
      }
    }
  }

  lemma OwnerError(db: Db, input: ReceiptInput)
    requires Inv(db) && CheckReceiptOwner(db, input).Some?
    ensures CheckReceiptOwner(db, input).value
            == if input.receipt.request in db.steps then ReceiptInvalid else QuoteMismatch
  {
    hide StepsSound, LedgerSound, AccountsShaped, ReferencesSound, BudgetIdsUnique, ReservationsSound;
    if input.receipt.request in db.steps {
      assert StepLinked(db, input.receipt.request);
    }
  }

  /** The course of a receipt that is taken never is a refusal. */
  lemma TakenCourse(db: Db, input: ReceiptInput)
    requires Inv(db) && Presentable(input.receipt) && About(db, input)
    ensures !ReceiptCourse(db, input).Reject?
  {
    hide Inv, StepView, Sound, Presentable, About, ReceiptMalformed, CheckReceiptOwner, AlreadyRecorded, TaskConflict,
         SameSettlement, EvidenceOf, AboutStep, IsFinal, StepLinked, Unsettled, AccountsKnown, AccountsOf;
    var r := input.receipt.request;
    MalformedIff(input.receipt);
    OwnerIff(db, input);
    OwnerChecked(db, input);
    SoundStep(db, r);
    ViewParts(db, r);
    HoldKnown(db, r);
    NotReleased(db.accounts, StepView(db, r));
    if r !in db.settlements {
      OpenOrClosed(db.accounts, StepView(db, r));
    }
  }

  /** A receipt is refused exactly when it is not presentable or not about the step as it is, and then changes nothing. */
  lemma ReceiptRefusedIff(db: Db, now: Millis, input: ReceiptInput)
    requires Inv(db)
    ensures var tx := ApplyReceipt(db, now, input);
            && (tx.reply.Err? <==> !Presentable(input.receipt) || !About(db, input))
            && (tx.reply.Err? ==>
                  && tx.db == db
                  && tx.reply.error == if Presentable(input.receipt) && input.receipt.request !in db.steps
                                       then QuoteMismatch else ReceiptInvalid)
  {
    hide Inv, Presentable, About, ReceiptMalformed, CheckReceiptOwner, AlreadyRecorded, TaskConflict, SameSettlement,
         EvidenceOf, IsFinal, Unsettled, SettleRows, SuspendRows, ConflictRows, InsertEvidence, SettledReplyFor;
    MalformedIff(input.receipt);
    OwnerIff(db, input);
    if Presentable(input.receipt) {
      if About(db, input) {
        TakenCourse(db, input);
      } else {
        OwnerError(db, input);
      }
    }
  }

  // What the evidence is told by

  /** Two receipts have the same hash exactly when they differ in the time of observation at most. */
  lemma HashSays(a: ReceiptInput, b: ReceiptInput)
    ensures HashOf(a) == HashOf(b) <==> a.(receipt := a.receipt.(observedAt := b.receipt.observedAt)) == b
  {
  }

  /** The step waits for its outcome. */
  predicate AwaitsReceipt(db: Db, r: Id) {
    r in db.steps && db.steps[r].dispatched && db.steps[r].fin in {FinHeld, FinUnknown}
  }

  /** A video's final receipt must name the bound task, and one that charges nothing is for a video without any task. */
  predicate AtOdds(step: Step, receipt: Receipt) {
    && step.kind == Video
    && (receipt.status == Final ==> receipt.task != step.task)
    && (receipt.status == FailedNoCharge ==> step.task.Some? || receipt.task.Some?)
    && receipt.status in {Final, FailedNoCharge}
  }

  /** The course of a receipt for a step that awaits one. */
  lemma AwaitedCourse(db: Db, input: ReceiptInput)
    requires Inv(db) && Presentable(input.receipt) && About(db, input) && AwaitsReceipt(db, input.receipt.request)
    ensures var r := input.receipt.request;
            var course, known := ReceiptCourse(db, input), HashOf(input) in EvidenceOf(db, r);
            && r !in db.settlements && StepLinked(db, r)
            && if input.receipt.status in {Pending, Unknown, Unverified} then
                 if known then course == Answer(DuplicateReply) else course.Suspend?
               else
                 && !known
                 && if AtOdds(db.steps[r], input.receipt) then course.Contradict? else course.Charge?
  {
    hide Inv, StepView, Sound, Presentable, About, ReceiptMalformed, CheckReceiptOwner, AlreadyRecorded, HashOf,
         SameSettlement, EvidenceOf, AboutStep, StepLinked, AccountsKnown, AccountsOf;
    var r := input.receipt.request;
    MalformedIff(input.receipt);
    OwnerIff(db, input);
    OwnerChecked(db, input);
    SoundStep(db, r);
    ViewParts(db, r);
    HoldKnown(db, r);
    var v := StepView(db, r);
    AwaitedOpen(db.accounts, v);
    if IsFinal(input.receipt.status) {
      if HashOf(input) in v.evidence {
        StoredFinalSettled(db.accounts, v, input);
      }
    } else if HashOf(input) in v.evidence {
      StoredPendingKnown(db.accounts, v, input);
    }
    if AlreadyRecorded(v.evidence, input) {
      RecordedIsStored(v.evidence, input);
    }
  }

  lemma AwaitedOpen(accounts: seq<Account>, v: GroupView)
    requires Sound(accounts, v) && (v.step.fin == FinHeld || v.step.fin == FinUnknown)
    ensures v.settlement.None? && Unsettled(v.step, v.reservation)
  {
    hide EventsExact, EvidenceSound, HistoryValid, AccountsSound;
  }

  // What a receipt leaves

  /** The receipt's own row among the evidence, with the amount and reason it is stored under. */
  predicate Stored(
    db: Db, evidence: map<Id, map<EvidenceHash, Evidence>>, now: Millis, input: ReceiptInput, kind: RecordKind,
    actual: Option<int>, reason: Option<string>)
  {
    var r, receipt := input.receipt.request, input.receipt;
    evidence
    == db.evidence[r := EvidenceOf(db, r)[HashOf(input) :=
         Evidence(input.budgetId, input.accountRef, input.bridge, kind, Some(receipt.status), actual, Some("credits"),
                  receipt.source, receipt.task, receipt.observedAt, reason, now)]]
  }

  lemma StoredByInsert(db: Db, now: Millis, input: ReceiptInput, kind: RecordKind, actual: Option<int>, reason: Option<string>)
    requires HashOf(input) !in EvidenceOf(db, input.receipt.request) && input.receipt.unit == "credits"
    ensures var db' := InsertEvidence(db, input.receipt.request, HashOf(input),
                                      EvidenceFor(input, kind, actual, reason, now));
            Stored(db, db'.evidence, now, input, kind, actual, reason) && db' == db.(evidence := db'.evidence)
  {
  }

  /** The hold and the step are in doubt, the receipt is on record, and nothing else moved. */
  predicate InDoubt(db: Db, db': Db, now: Millis, input: ReceiptInput)
    requires input.receipt.request in db.steps
  {
    var r := input.receipt.request;
    var step := db.steps[r];
    && step.reservation < |db.reservations|
    && Stored(db, db'.evidence, now, input, ReceiptRecord, input.receipt.actual, None)
    && db' == db.(evidence := db'.evidence,
                  reservations := db.reservations[step.reservation :=
                                                  db.reservations[step.reservation].(state := HoldUnknown)],
                  steps := db.steps[r := step.(fin := FinUnknown)])
  }

  /** A pending, unknown or unverified receipt puts hold and step in doubt, is kept as evidence, and once only. */
  lemma PendingLeaves(db: Db, now: Millis, input: ReceiptInput)
    requires Presentable(input.receipt) && About(db, input) && AwaitsReceipt(db, input.receipt.request)
    requires input.receipt.status in {Pending, Unknown, Unverified}
    requires Inv(db)
    ensures var tx := ApplyReceipt(db, now, input);
            if HashOf(input) in EvidenceOf(db, input.receipt.request) then tx == Tx(db, Ok(DuplicateReply))
            else tx.reply == Ok(PendingReply) && InDoubt(db, tx.db, now, input)
  {
    hide Inv, Presentable, About, ReceiptCourse, StepLinked, HashOf, EvidenceOf, Stored, SettleRows, ConflictRows,
         SettledReplyFor, InsertEvidence;
    AwaitedCourse(db, input);
    Dispatching.StepThere(db, input.receipt.request);
    UnitIs(input.receipt);
    if HashOf(input) !in EvidenceOf(db, input.receipt.request) {
      StoredByInsert(db, now, input, ReceiptRecord, input.receipt.actual, None);
    }
  }

  lemma UnitIs(receipt: Receipt)
    requires Presentable(receipt)
    ensures receipt.unit == "credits"
  {
  }

  /** The step is frozen and its Key blocked, the receipt is on record as a conflict, and nothing else moved. */
  ghost predicate FrozenBy(db: Db, db': Db, now: Millis, input: ReceiptInput)
    requires input.receipt.request in db.steps
  {
    var step := db.steps[input.receipt.request];
    && (exists reason ::
          reason != "" && Stored(db, db'.evidence, now, input, ConflictRecord, input.receipt.actual, Some(reason)))
    && db' == db.(evidence := db'.evidence, steps := db.steps[input.receipt.request := step.(fin := FinConflict)],
                  blocks := db.blocks + {step.auth.key})
  }

  /** A final receipt at odds with the task freezes the step and blocks its Key, and moves no money. */
  lemma AtOddsLeaves(db: Db, now: Millis, input: ReceiptInput)
    requires Presentable(input.receipt) && About(db, input) && AwaitsReceipt(db, input.receipt.request)
    requires AtOdds(db.steps[input.receipt.request], input.receipt)
    requires Inv(db)
    ensures var tx := ApplyReceipt(db, now, input); tx.reply == Ok(ConflictReply) && FrozenBy(db, tx.db, now, input)
  {
    hide Inv, Presentable, About, ReceiptCourse, StepLinked, HashOf, EvidenceOf, Stored, SettleRows, SuspendRows,
         SettledReplyFor, InsertEvidence;
    AwaitedCourse(db, input);
    UnitIs(input.receipt);
    var reason := ReceiptCourse(db, input).reason;
    StoredByInsert(db, now, input, ConflictRecord, input.receipt.actual, Some(reason));
  }

  /** What a final receipt charges: its amount, or nothing. */
  predicate Charges(receipt: Receipt, amount: int) {
    if receipt.status == Final then receipt.actual == Some(amount) else amount == 0
  }

  /** An account that the hold is on has been charged beyond its balance. */
  predicate Overdrawn(ledger: seq<Entry>, hold: Reservation) {
    Available(ledger, hold.keyAccount) < 0 || (hold.userCap.Some? && Available(ledger, hold.userCap.value) < 0)
  }

  /**
    The step is settled for the amount: the hold is committed, each of its accounts has one entry that charges the amount
    and returns the rest under the last revision, the receipt is on record with the amount, and the settlement says it all.
   */
  predicate SettledFor(db: Db, db': Db, now: Millis, input: ReceiptInput, amount: int, debt: bool)
    requires input.receipt.request in db.steps
  {
    var r := input.receipt.request;
    var step := db.steps[r];
    && step.reservation < |db.reservations|
    && var hold := db.reservations[step.reservation];
       && debt == Overdrawn(db'.ledger, hold)
       && Stored(db, db'.evidence, now, input, ReceiptRecord, Some(amount), None)
       && db' == db.(evidence := db'.evidence,
                     reservations := db.reservations[step.reservation := hold.(state := HoldCommitted)],
                     steps := db.steps[r := step.(fin := FinSettled, actual := Some(amount))],
                     ledger := db.ledger + HoldEntries(db.accounts, hold, CommitEvent, amount, step.auth.hold - amount,
                                                       Some(|RevisionsOf(db, r)|)),
                     settlements := db.settlements[r :=
                       Settlement(step.reservation, input.budgetId, input.accountRef, input.bridge, input.receipt.source,
                                  HashOf(input), input.receipt.task, step.auth.hold, amount, step.auth.hold - amount,
                                  debt, now)])
  }

  /** A final or no-charge receipt that is not at odds with the task settles the step for its amount. */
  lemma FinalLeaves(db: Db, now: Millis, input: ReceiptInput)
    requires Presentable(input.receipt) && About(db, input) && AwaitsReceipt(db, input.receipt.request)
    requires input.receipt.status in {Final, FailedNoCharge}
    requires !AtOdds(db.steps[input.receipt.request], input.receipt)
    requires Inv(db)
    ensures var tx := ApplyReceipt(db, now, input);
            && tx.reply.Ok? && tx.reply.value.SettledReply? && Charges(input.receipt, tx.reply.value.actual)
            && tx.reply.value.released == db.steps[input.receipt.request].auth.hold - tx.reply.value.actual
            && SettledFor(db, tx.db, now, input, tx.reply.value.actual, tx.reply.value.debt)
  {
    hide Inv, About, ReceiptCourse, StepLinked, HashOf, EvidenceOf, Stored, SuspendRows, ConflictRows, RevisionsOf,
         InsertEvidence, HoldEntries, Available;
    AwaitedCourse(db, input);
    Dispatching.StepThere(db, input.receipt.request);
    UnitIs(input.receipt);
    Dispatching.RevisionIsLast(db, input.receipt.request);
    StoredByInsert(db, now, input, ReceiptRecord, Some(ChargeOf(input.receipt)), None);
  }

  // Receipts that come late

  /** After settlement a receipt that says nothing final is kept as evidence, once, and answered as a duplicate. */
  lemma LatePendingLeaves(db: Db, now: Millis, input: ReceiptInput)
    requires Presentable(input.receipt) && About(db, input) && input.receipt.request in db.settlements
    requires input.receipt.status in {Pending, Unknown, Unverified}
    requires Inv(db)
    ensures var tx := ApplyReceipt(db, now, input);
            && tx.reply == Ok(DuplicateReply)
            && if HashOf(input) in EvidenceOf(db, input.receipt.request) then tx.db == db
               else
                 && Stored(db, tx.db.evidence, now, input, ReceiptRecord, input.receipt.actual, None)
                 && tx.db == db.(evidence := tx.db.evidence)
  {
    hide Inv, Presentable, About, ReceiptMalformed, CheckReceiptOwner, AlreadyRecorded, HashOf, EvidenceOf, Stored, SettleRows,
         SuspendRows, ConflictRows, SettledReplyFor, InsertEvidence, Unsettled, SameSettlement;
    MalformedIff(input.receipt);
    OwnerIff(db, input);
    UnitIs(input.receipt);
    if HashOf(input) in EvidenceOf(db, input.receipt.request) {
      InsertKnown(db, input.receipt.request, HashOf(input), NoteRow(input, now));
    } else {
      StoredByInsert(db, now, input, ReceiptRecord, input.receipt.actual, None);
      if AlreadyRecorded(EvidenceOf(db, input.receipt.request), input) {
        RecordedIsStored(EvidenceOf(db, input.receipt.request), input);
      }
    }
  }

  /** A step that was frozen before it was settled takes no receipt any more, but one at odds with its task. */
  lemma FrozenTakesNothing(db: Db, now: Millis, input: ReceiptInput)
    requires Presentable(input.receipt) && About(db, input) && input.receipt.request !in db.settlements
    requires db.steps[input.receipt.request].fin == FinConflict && !AtOdds(db.steps[input.receipt.request], input.receipt)
    requires Inv(db)
    ensures ApplyReceipt(db, now, input).db == db
    ensures ApplyReceipt(db, now, input).reply in {Ok(DuplicateReply), Ok(ConflictReply)}
  {
    hide Inv, Presentable, About, ReceiptMalformed, CheckReceiptOwner, AlreadyRecorded, HashOf, EvidenceOf, SettleRows,
         SuspendRows, ConflictRows, SettledReplyFor, Unsettled, SameSettlement;
    MalformedIff(input.receipt);
    OwnerIff(db, input);
  }

  // Conflicts that the bridge reports

  /** The report is complete and about a dispatched step under its budget, account and bridge. */
  predicate Reportable(db: Db, input: ConflictInput) {
    && !Blank(input.request) && !Blank(input.source) && input.observedAt > 0
    && !Blank(input.budgetId) && !Blank(input.accountRef) && !Blank(input.bridge)
    && (input.hash.Supplied? ==> !Blank(input.hash.text))
    && input.request in db.steps
    && var step := db.steps[input.request];
       && step.dispatched
       && input.budgetId == step.auth.budgetId && input.accountRef == step.auth.accountRef
       && input.bridge == step.auth.bridge
  }

  lemma ReportedOwner(db: Db, input: ConflictInput)
    requires Inv(db) && input.request in db.steps
    ensures CheckConflictOwner(db, input).None?
            <==> var step := db.steps[input.request];
                 && step.dispatched && input.budgetId == step.auth.budgetId && input.accountRef == step.auth.accountRef
                 && input.bridge == step.auth.bridge
    ensures db.steps[input.request].dispatched ==> db.steps[input.request].fin != FinReleased
  {
    hide Inv, StepView, HistoryValid, AccountsSound, EventsExact, EvidenceSound, KindValid, SettlementValid, EvidenceOf,
         RevisionsOf, SettlementOf;
    SoundStep(db, input.request);
    ViewParts(db, input.request);
  }

  /** The step is frozen and its Key blocked on the report alone, which is kept under the hash it gave. */
  predicate FrozenOnReport(db: Db, db': Db, now: Millis, input: ConflictInput)
    requires input.request in db.steps
  {
    var r := input.request;
    db' == db.(steps := db.steps[r := db.steps[r].(fin := FinConflict)],
               blocks := db.blocks + {db.steps[r].auth.key},
               evidence := db.evidence[r := EvidenceOf(db, r)[input.hash :=
                 Evidence(input.budgetId, input.accountRef, input.bridge, ConflictRecord, None, None, None, input.source,
                          None, input.observedAt, Some("upstream_receipt_conflict"), now)]])
  }

  /** A report is taken once, unless a receipt is on record under its hash; others change nothing. */
  lemma ReportAnswers(db: Db, now: Millis, input: ConflictInput)
    requires Inv(db)
    ensures var tx := MarkConflict(db, now, input);
            var rows := EvidenceOf(db, input.request);
            && (tx.reply == Ok(Applied) <==> Reportable(db, input) && input.hash !in rows)
            && (tx.reply == Ok(Duplicate) <==>
                  Reportable(db, input) && input.hash in rows && rows[input.hash].kind == ConflictRecord)
            && (tx.reply != Ok(Applied) ==> tx.db == db)
            && (tx.reply == Ok(Applied) ==> FrozenOnReport(db, tx.db, now, input))
  {
    hide Inv, Blank, CheckConflictOwner, EvidenceOf;
    if input.request in db.steps {
      ReportedOwner(db, input);
    } else {
      NoOwner(db, input);
    }
  }

  lemma NoOwner(db: Db, input: ConflictInput)
    requires input.request !in db.steps
    ensures CheckConflictOwner(db, input).Some?
  {
  }
}
