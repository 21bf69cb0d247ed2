/**
  The receipts of one dispatched step. Where at most one final receipt exists, what a delivery sequence leaves
  behind depends only on which receipts it contains, not on their order or on how often each one comes, but
  for the times at which things were recorded.
 */
module Receipts {
  import opened Wrappers
  import opened Model
  import opened Ledger
  import opened EventGroup
  import opened Billing
  import opened Settling
  import opened Invariant
  import opened Frame
  import opened Preservation
  import opened ReceiptPreservation
  import opened Tables
  import opened Text
  import Integrity

  datatype Delivery = Delivery(now: Millis, input: ReceiptInput)

  function Deliver(db: Db, batch: seq<Delivery>): Db {
    if batch == [] then db
    else
      var last := batch[|batch| - 1];
      ApplyReceipt(Deliver(db, batch[..|batch| - 1]), last.now, last.input).db
  }

  // What the receipts of a batch have in common

  /** An admissible receipt of step r: well formed, about the step, and not at odds with its task. */
  predicate Admissible(db: Db, r: Id, input: ReceiptInput) {
    && input.receipt.request == r
    && !ReceiptMalformed(input.receipt)
    && CheckReceiptOwner(db, input).None?
    && r in db.steps && !TaskConflict(db.steps[r], input.receipt)
  }

  /** All final receipts say the same; `final` is what they say. */
  predicate OneFinal(final: Option<ReceiptFacts>, input: ReceiptInput) {
    IsFinal(input.receipt.status) ==> final == Some(FactsOfInput(input))
  }

  predicate BatchFits(db: Db, r: Id, final: Option<ReceiptFacts>, batch: seq<Delivery>) {
    forall i | 0 <= i < |batch| :: Admissible(db, r, batch[i].input) && OneFinal(final, batch[i].input)
  }

  function FactsIn(batch: seq<Delivery>): set<ReceiptFacts> {
    set i | 0 <= i < |batch| :: FactsOfInput(batch[i].input)
  }

  // What they leave behind

  function ChargeOfFacts(facts: ReceiptFacts): int {
    if facts.status == FailedNoCharge || facts.actual.None? then 0 else facts.actual.value
  }

  /** The stored row of a receipt, but for the two times in it. */
  predicate RowSays(row: Evidence, facts: ReceiptFacts) {
    && row.budgetId == facts.budgetId && row.accountRef == facts.accountRef && row.bridge == facts.bridge
    && row.kind == ReceiptRecord
    && row.status == Some(facts.status)
    && row.actual == (if IsFinal(facts.status) then Some(ChargeOfFacts(facts)) else facts.actual)
    && row.unit == facts.unit && row.source == facts.source && row.task == facts.task
    && row.reason.None?
  }

  predicate RowsSay(
    before: map<EvidenceHash, Evidence>, after: map<EvidenceHash, Evidence>, told: set<ReceiptFacts>)
  {
    && (forall h | h in before :: h in after && after[h] == before[h])
    && (forall f | f in told :: Computed(f) in after && (Computed(f) !in before ==> RowSays(after[Computed(f)], f)))
    && (forall h | h in after && h !in before :: h.Computed? && h.facts in told)
  }

  predicate News(before: map<EvidenceHash, Evidence>, told: set<ReceiptFacts>) {
    exists f | f in told :: Computed(f) !in before
  }

  function StepAfter(db: Db, r: Id, told: set<ReceiptFacts>, final: Option<ReceiptFacts>): Step
    requires r in db.steps
  {
    if final.Some? && final.value in told then
      db.steps[r].(fin := FinSettled, actual := Some(ChargeOfFacts(final.value)))
    else if News(EvidenceOf(db, r), told) then db.steps[r].(fin := FinUnknown)
    else db.steps[r]
  }

  function HoldAfter(db: Db, r: Id, told: set<ReceiptFacts>, final: Option<ReceiptFacts>): Reservation
    requires r in db.steps && db.steps[r].reservation < |db.reservations|
  {
    var hold := db.reservations[db.steps[r].reservation];
    if final.Some? && final.value in told then hold.(state := HoldCommitted)
    else if News(EvidenceOf(db, r), told) then hold.(state := HoldUnknown)
    else hold
  }

  function LedgerAfter(db: Db, r: Id, told: set<ReceiptFacts>, final: Option<ReceiptFacts>): seq<Entry>
    requires r in db.steps && db.steps[r].reservation < |db.reservations|
  {
    if final.Some? && final.value in told then CommitLedger(db, r, ChargeOfFacts(final.value)) else db.ledger
  }

  /** The settlement says what the final receipt says, whatever the time it was made. */
  predicate SettlementSays(db: Db, r: Id, s: Settlement, facts: ReceiptFacts)
    requires r in db.steps && db.steps[r].reservation < |db.reservations|
  {
    var step := db.steps[r];
    var actual := ChargeOfFacts(facts);
    s == Settlement(step.reservation, facts.budgetId, facts.accountRef, facts.bridge, facts.source, Computed(facts),
                    facts.task, step.auth.hold, actual, step.auth.hold - actual,
                    InDebt(CommitLedger(db, r, actual), db.reservations[step.reservation]), s.settledAt)
  }

  predicate SettlementAfter(
    db: Db, r: Id, settlements: map<Id, Settlement>, told: set<ReceiptFacts>, final: Option<ReceiptFacts>)
    requires r in db.steps && db.steps[r].reservation < |db.reservations|
  {
    if final.Some? && final.value in told
    then r in settlements && settlements == db.settlements[r := settlements[r]]
         && SettlementSays(db, r, settlements[r], final.value)
    else settlements == db.settlements
  }

  /** `after` is `db` once exactly the receipts in `told` have been delivered. */
  ghost predicate Delivered(db: Db, after: Db, r: Id, told: set<ReceiptFacts>, final: Option<ReceiptFacts>)
    requires r in db.steps && db.steps[r].reservation < |db.reservations|
  {
    && after == db.(steps := after.steps, reservations := after.reservations, ledger := after.ledger,
                    evidence := after.evidence, settlements := after.settlements)
    && after.steps == db.steps[r := StepAfter(db, r, told, final)]
    && after.reservations == db.reservations[db.steps[r].reservation := HoldAfter(db, r, told, final)]
    && after.ledger == LedgerAfter(db, r, told, final)
    && SettlementAfter(db, r, after.settlements, told, final)
    && KeptBut(db.evidence, after.evidence, r)
    && RowsSay(EvidenceOf(db, r), EvidenceOf(after, r), told)
  }

  /** A dispatched step that no final receipt has reached yet. */
  predicate Open(db: Db, r: Id) {
    && r in db.steps && db.steps[r].reservation < |db.reservations|
    && db.steps[r].dispatched
    && Unsettled(db.steps[r], db.reservations[db.steps[r].reservation])
    && r !in db.settlements
  }

  lemma NothingDelivered(db: Db, r: Id, final: Option<ReceiptFacts>)
    requires Open(db, r)
    ensures Delivered(db, db, r, {}, final)
  {
    assert db.steps[r := db.steps[r]] == db.steps;
    var id := db.steps[r].reservation;
    assert db.reservations[id := db.reservations[id]] == db.reservations;
  }

  // One more delivery

  predicate SettledBy(told: set<ReceiptFacts>, final: Option<ReceiptFacts>) {
    final.Some? && final.value in told
  }

  predicate FinalIsFinal(final: Option<ReceiptFacts>) {
    final.Some? ==> IsFinal(final.value.status)
  }

  /** The columns that make a receipt admissible are none of those a delivery writes. */
  lemma StillAdmissible(db: Db, after: Db, r: Id, told: set<ReceiptFacts>, final: Option<ReceiptFacts>, input: ReceiptInput)
    requires Open(db, r) && Delivered(db, after, r, told, final) && Admissible(db, r, input)
    ensures Admissible(after, r, input)
    ensures r in after.steps && after.steps[r].dispatched && after.steps[r].fin != FinConflict
    ensures after.steps[r].reservation == db.steps[r].reservation < |after.reservations|
    ensures after.steps[r].auth == db.steps[r].auth
    ensures r in after.settlements <==> SettledBy(told, final)
    ensures !SettledBy(told, final) ==> Unsettled(after.steps[r], after.reservations[after.steps[r].reservation])
  {
    hide RowsSay, SettlementSays, CommitLedger, ReceiptMalformed, News, EvidenceOf;
  }

  /** A final receipt on record has settled its step. */
  lemma StoredFinalSettled(accounts: seq<Account>, v: GroupView, input: ReceiptInput)
    requires Sound(accounts, v) && AboutStep(input, v) && IsFinal(input.receipt.status)
    requires HashOf(input) in v.evidence && v.step.fin != FinConflict
    ensures v.settlement.Some? && v.evidence[HashOf(input)].kind == ReceiptRecord
  {
    hide EventsExact, HistoryValid, AccountsSound, EvidenceRowValid, AboutStep, HashOf;
    StoredUnderHash(accounts, v, input);
  }

  lemma StoredPendingKnown(accounts: seq<Account>, v: GroupView, input: ReceiptInput)
    requires Sound(accounts, v) && AboutStep(input, v) && !IsFinal(input.receipt.status)
    requires HashOf(input) in v.evidence && v.step.fin != FinConflict
    ensures AlreadyRecorded(v.evidence, input)
  {
    hide EventsExact, HistoryValid, AccountsSound, EvidenceRowValid, AboutStep, HashOf;
    StoredUnderHash(accounts, v, input);
  }

  lemma SettledFinalSame(accounts: seq<Account>, v: GroupView, input: ReceiptInput)
    requires Sound(accounts, v) && AboutStep(input, v) && !ReceiptMalformed(input.receipt)
    requires v.settlement.Some? && v.settlement.value.hash == HashOf(input) && !AlreadyRecorded(v.evidence, input)
    ensures HashOf(input) in v.evidence && SameSettlement(v.settlement.value, v.evidence, input)
  {
    hide EventsExact, HistoryValid, AccountsSound, EvidenceRowValid, AboutStep, HashOf, SameSettlement, AlreadyRecorded,
         ReceiptMalformed;
    CollisionIsSettlement(accounts, v, input);
  }

  /** The receipt is on record already, or it is news; news is noted, or it suspends or settles the step. */
  lemma CourseOf(db: Db, after: Db, r: Id, told: set<ReceiptFacts>, final: Option<ReceiptFacts>, input: ReceiptInput)
    requires Open(db, r) && Inv(after) && Delivered(db, after, r, told, final) && FinalIsFinal(final)
    requires Admissible(db, r, input) && OneFinal(final, input)
    ensures var course := ReceiptCourse(after, input);
            if HashOf(input) in EvidenceOf(after, r) then
              (course.Answer? || course.Note?) && (IsFinal(input.receipt.status) ==> SettledBy(told, final))
            else if IsFinal(input.receipt.status) then course.Charge? && !SettledBy(told, final)
            else if SettledBy(told, final) then course.Note?
            else course.Suspend?
  {
    hide Inv, StepView, Sound, Open, RowsSay, ReceiptMalformed, CheckReceiptOwner, AlreadyRecorded, TaskConflict,
         SameSettlement, HashOf, AboutStep, EvidenceOf, SettlementSays, Unsettled, StepAfter, HoldAfter, LedgerAfter,
         KeptBut, IsFinal, StepLinked, News;
    StillAdmissible(db, after, r, told, final, input);
    OwnerChecked(after, input);
    SoundStep(after, r);
    ViewParts(after, r);
    HoldKnown(after, r);
    SettledHash(db, after, r, told, final);
    var v := StepView(after, r);
    if HashOf(input) in EvidenceOf(after, r) {
      if IsFinal(input.receipt.status) {
        StoredFinalSettled(after.accounts, v, input);
        if !AlreadyRecorded(v.evidence, input) {
          FinalHash(input, final);
          SettledFinalSame(after.accounts, v, input);
        }
      } else {
        StoredPendingKnown(after.accounts, v, input);
      }
    } else {
      if AlreadyRecorded(v.evidence, input) {
        RecordedIsStored(v.evidence, input);
      }
      if SettledBy(told, final) && IsFinal(input.receipt.status) {
        FinalHash(input, final);
        SettledHashStored(after.accounts, v);
      }
    }
  }

  lemma RecordedIsStored(rows: map<EvidenceHash, Evidence>, input: ReceiptInput)
    requires AlreadyRecorded(rows, input)
    ensures HashOf(input) in rows
  {
  }

  lemma FinalHash(input: ReceiptInput, final: Option<ReceiptFacts>)
    requires OneFinal(final, input) && IsFinal(input.receipt.status)
    ensures final.Some? && HashOf(input) == Computed(final.value)
  {
  }

  lemma SettledHash(db: Db, after: Db, r: Id, told: set<ReceiptFacts>, final: Option<ReceiptFacts>)
    requires Open(db, r) && Delivered(db, after, r, told, final)
    ensures SettledBy(told, final) ==> r in after.settlements && after.settlements[r].hash == Computed(final.value)
  {
    hide RowsSay, InDebt, CommitLedger;
  }

  lemma HoldKnown(db: Db, r: Id)
    requires Inv(db) && r in db.steps && StepLinked(db, r)
    ensures AccountsKnown(db.accounts, AccountsOf(db.reservations[db.steps[r].reservation]))
  {
    hide StepsSound, LedgerSound, BudgetIdsUnique, ReferencesSound, AccountsOf;
  }

  // The effect of one more delivery

  lemma RowsKnow(
    before: map<EvidenceHash, Evidence>, rows: map<EvidenceHash, Evidence>, told: set<ReceiptFacts>, f: ReceiptFacts)
    requires RowsSay(before, rows, told) && Computed(f) in rows
    ensures RowsSay(before, rows, told + {f})
    ensures Computed(f) !in before ==> f in told
    ensures News(before, told + {f}) == News(before, told)
  {
    hide RowSays;
  }

  lemma RowsLearn(
    before: map<EvidenceHash, Evidence>, rows: map<EvidenceHash, Evidence>, told: set<ReceiptFacts>, f: ReceiptFacts,
    row: Evidence)
    requires RowsSay(before, rows, told) && Computed(f) !in rows && RowSays(row, f)
    ensures RowsSay(before, rows[Computed(f) := row], told + {f})
    ensures News(before, told + {f})
  {
    hide RowSays;
    assert f in told + {f};
  }

  lemma KnownDelivery(db: Db, after: Db, r: Id, told: set<ReceiptFacts>, final: Option<ReceiptFacts>, f: ReceiptFacts)
    requires Open(db, r) && Delivered(db, after, r, told, final)
    requires Computed(f) in EvidenceOf(after, r) && (final == Some(f) ==> SettledBy(told, final))
    ensures Delivered(db, after, r, told + {f}, final)
  {
    hide RowsSay, SettlementSays, CommitLedger, News, EvidenceOf, KeptBut;
    RowsKnow(EvidenceOf(db, r), EvidenceOf(after, r), told, f);
  }

  lemma NotedRow(input: ReceiptInput, now: Millis)
    requires !IsFinal(input.receipt.status)
    ensures RowSays(NoteRow(input, now), FactsOfInput(input))
  {
  }

  lemma SettlingRow(input: ReceiptInput, now: Millis)
    requires IsFinal(input.receipt.status)
    ensures RowSays(EvidenceFor(input, ReceiptRecord, Some(ChargeOf(input.receipt)), None, now), FactsOfInput(input))
    ensures ChargeOf(input.receipt) == ChargeOfFacts(FactsOfInput(input))
  {
  }

  lemma KeptButTwice<T>(a: map<Id, T>, b: map<Id, T>, c: map<Id, T>, r: Id)
    requires KeptBut(a, b, r) && KeptBut(b, c, r)
    ensures KeptBut(a, c, r)
  {
  }

  lemma NotedDelivery(
    db: Db, after: Db, r: Id, told: set<ReceiptFacts>, final: Option<ReceiptFacts>, f: ReceiptFacts, row: Evidence)
    requires Open(db, r) && Delivered(db, after, r, told, final) && SettledBy(told, final)
    requires Computed(f) !in EvidenceOf(after, r) && RowSays(row, f)
    ensures Delivered(db, InsertEvidence(after, r, Computed(f), row), r, told + {f}, final)
  {
    hide RowsSay, RowSays, SettlementSays, CommitLedger, News, EvidenceOf, KeptBut, InsertEvidence;
    InsertTouches(after, r, Computed(f), row);
    RowsLearn(EvidenceOf(db, r), EvidenceOf(after, r), told, f, row);
    KeptButTwice(db.evidence, after.evidence, InsertEvidence(after, r, Computed(f), row).evidence, r);
  }

  lemma SuspendedDelivery(
    db: Db, after: Db, r: Id, told: set<ReceiptFacts>, final: Option<ReceiptFacts>, f: ReceiptFacts, row: Evidence)
    requires Open(db, r) && Delivered(db, after, r, told, final) && !SettledBy(told, final) && final != Some(f)
    requires Computed(f) !in EvidenceOf(after, r) && RowSays(row, f)
    requires r in after.steps && after.steps[r].reservation < |after.reservations|
    ensures Delivered(db, SuspendRows(after, r, Computed(f), row), r, told + {f}, final)
  {
    hide RowsSay, RowSays, SettlementSays, CommitLedger, News, EvidenceOf, KeptBut, InsertEvidence;
    var noted := InsertEvidence(after, r, Computed(f), row);
    var db' := SuspendRows(after, r, Computed(f), row);
    InsertTouches(after, r, Computed(f), row);
    RowsLearn(EvidenceOf(db, r), EvidenceOf(after, r), told, f, row);
    KeptButTwice(db.evidence, after.evidence, noted.evidence, r);
    SameRows(noted, db', r);
    assert db'.steps == db.steps[r := StepAfter(db, r, told + {f}, final)];
    assert db'.reservations == db.reservations[db.steps[r].reservation := HoldAfter(db, r, told + {f}, final)];
  }

  lemma SameRows(a: Db, b: Db, r: Id)
    requires b.evidence == a.evidence
    ensures EvidenceOf(b, r) == EvidenceOf(a, r)
  {
  }

  /** The closing round is the same whether or not a pending receipt has come first. */
  lemma CommitLedgerFollows(db: Db, after: Db, r: Id, told: set<ReceiptFacts>, final: Option<ReceiptFacts>, actual: int)
    requires Open(db, r) && Delivered(db, after, r, told, final) && !SettledBy(told, final)
    requires r in after.steps && after.steps[r].reservation < |after.reservations|
    ensures CommitLedger(after, r, actual) == CommitLedger(db, r, actual)
    ensures forall ledger :: InDebt(ledger, after.reservations[after.steps[r].reservation])
                             == InDebt(ledger, db.reservations[db.steps[r].reservation])
  {
    hide RowsSay, SettlementSays, News, EvidenceOf, KeptBut, MinAvailable;
  }

  lemma ChargedDelivery(
    db: Db, after: Db, r: Id, told: set<ReceiptFacts>, final: Option<ReceiptFacts>, now: Millis, input: ReceiptInput)
    requires Open(db, r) && Delivered(db, after, r, told, final) && !SettledBy(told, final)
    requires input.receipt.request == r && final == Some(FactsOfInput(input)) && IsFinal(input.receipt.status)
    requires HashOf(input) !in EvidenceOf(after, r)
    requires r in after.steps && after.steps[r].reservation < |after.reservations|
    ensures Delivered(db, SettleRows(after, now, input), r, told + {FactsOfInput(input)}, final)
  {
    hide RowsSay, RowSays, CommitLedger, News, EvidenceOf, KeptBut, InsertEvidence, InDebt, ChargeOf, ChargeOfFacts,
         EvidenceFor;
    var f := FactsOfInput(input);
    var row := EvidenceFor(input, ReceiptRecord, Some(ChargeOf(input.receipt)), None, now);
    var noted := InsertEvidence(after, r, HashOf(input), row);
    var db' := SettleRows(after, now, input);
    SettlingRow(input, now);
    InsertTouches(after, r, HashOf(input), row);
    RowsLearn(EvidenceOf(db, r), EvidenceOf(after, r), told, f, row);
    KeptButTwice(db.evidence, after.evidence, noted.evidence, r);
    SameRows(noted, db', r);
    CommitLedgerFollows(db, after, r, told, final, ChargeOf(input.receipt));
    assert db'.steps == db.steps[r := StepAfter(db, r, told + {f}, final)];
    assert db'.reservations == db.reservations[db.steps[r].reservation := HoldAfter(db, r, told + {f}, final)];
  }

  lemma DeliverOne(
    db: Db, after: Db, r: Id, told: set<ReceiptFacts>, final: Option<ReceiptFacts>, now: Millis, input: ReceiptInput)
    requires Open(db, r) && Inv(after) && Delivered(db, after, r, told, final) && FinalIsFinal(final)
    requires Admissible(db, r, input) && OneFinal(final, input)
    ensures Delivered(db, ApplyReceipt(after, now, input).db, r, told + {FactsOfInput(input)}, final)
  {
    hide Inv, Open, Delivered, ReceiptCourse, ReceiptFits, TaskConflict, SameSettlement, Unsettled, InsertEvidence, NoteRow,
         ContradictionRow, ConflictRows, SettleRows, SuspendRows, SettledReplyFor, AccountsOf, AccountsKnown, EvidenceOf,
         IsFinal, ReceiptMalformed, CheckReceiptOwner, StepAfter, HoldAfter, LedgerAfter, FactsOfInput;
    var f := FactsOfInput(input);
    var course := ReceiptCourse(after, input);
    OpenStep(db, r);
    StillAdmissible(db, after, r, told, final, input);
    CourseOf(db, after, r, told, final, input);
    FinalOnly(input, final);
    if HashOf(input) in EvidenceOf(after, r) {
      KnownDelivery(db, after, r, told, final, f);
      InsertKnown(after, r, HashOf(input), NoteRow(input, now));
    } else if course.Charge? {
      ChargedDelivery(db, after, r, told, final, now, input);
    } else if course.Note? {
      NotedRow(input, now);
      NotedDelivery(db, after, r, told, final, f, NoteRow(input, now));
    } else {
      NotedRow(input, now);
      SuspendedDelivery(db, after, r, told, final, f, NoteRow(input, now));
    }
  }

  lemma OpenStep(db: Db, r: Id)
    requires Open(db, r)
    ensures r in db.steps && db.steps[r].reservation < |db.reservations|
  {
  }

  lemma FinalOnly(input: ReceiptInput, final: Option<ReceiptFacts>)
    requires FinalIsFinal(final) && OneFinal(final, input)
    ensures final == Some(FactsOfInput(input)) <==> IsFinal(input.receipt.status)
  {
  }

  lemma InsertKnown(db: Db, r: Id, hash: EvidenceHash, row: Evidence)
    requires hash in EvidenceOf(db, r)
    ensures InsertEvidence(db, r, hash, row) == db
  {
  }

  lemma FactsOfLast(front: seq<Delivery>, last: Delivery)
    ensures FactsIn(front + [last]) == FactsIn(front) + {FactsOfInput(last.input)}
  {
    hide FactsOfInput;
    var batch := front + [last];
    forall f | f in FactsIn(front) + {FactsOfInput(last.input)}
      ensures f in FactsIn(batch)
    {
      if f in FactsIn(front) {
        var i :| 0 <= i < |front| && f == FactsOfInput(front[i].input);
        assert batch[i] == front[i];
      } else {
        assert batch[|front|] == last;
      }
    }
  }

  /** What a batch leaves behind is a function of the set of its receipts. */
  lemma {:induction false} DeliverAll(db: Db, r: Id, final: Option<ReceiptFacts>, batch: seq<Delivery>)
    requires Inv(db) && Open(db, r) && FinalIsFinal(final) && BatchFits(db, r, final, batch)
    ensures Inv(Deliver(db, batch)) && Delivered(db, Deliver(db, batch), r, FactsIn(batch), final)
  {
    hide Inv, Open, Delivered, Admissible, OneFinal, FinalIsFinal, ApplyReceipt;
    OpenStep(db, r);
    if batch == [] {
      assert FactsIn(batch) == {};
      NothingDelivered(db, r, final);
    } else {
      var front, last := batch[..|batch| - 1], batch[|batch| - 1];
      DeliverAll(db, r, final, front);
      ApplyReceiptKeepsInv(Deliver(db, front), last.now, last.input);
      DeliverOne(db, Deliver(db, front), r, FactsIn(front), final, last.now, last.input);
      FactsOfLast(front, last);
      assert batch == front + [last];
    }
  }

  // Order and repetition

  predicate SameRow(a: Evidence, b: Evidence) {
    a == b.(observedAt := a.observedAt, recordedAt := a.recordedAt)
  }

  predicate SameRowsBut(a: map<EvidenceHash, Evidence>, b: map<EvidenceHash, Evidence>) {
    a.Keys == b.Keys && forall h | h in a :: SameRow(a[h], b[h])
  }

  /** Equal, but for the times at which receipts were observed and recorded and the settlement was made. */
  ghost predicate SameButForTimes(a: Db, b: Db) {
    && a.(evidence := b.evidence, settlements := b.settlements) == b
    && a.settlements.Keys == b.settlements.Keys
    && (forall q | q in a.settlements :: a.settlements[q] == b.settlements[q].(settledAt := a.settlements[q].settledAt))
    && forall q :: SameRowsBut(EvidenceOf(a, q), EvidenceOf(b, q))
  }

  lemma SameTold(
    before: map<EvidenceHash, Evidence>, a: map<EvidenceHash, Evidence>, b: map<EvidenceHash, Evidence>,
    told: set<ReceiptFacts>)
    requires RowsSay(before, a, told) && RowsSay(before, b, told)
    ensures SameRowsBut(a, b)
  {
    forall h | h in a
      ensures h in b && SameRow(a[h], b[h])
    {
      assert h in before || (h.Computed? && h.facts in told && h == Computed(h.facts));
    }
    forall h | h in b
      ensures h in a
    {
      assert h in before || (h.Computed? && h.facts in told && h == Computed(h.facts));
    }
  }

  lemma SameTables(db: Db, a: Db, b: Db, r: Id, told: set<ReceiptFacts>, final: Option<ReceiptFacts>)
    requires Open(db, r) && Delivered(db, a, r, told, final) && Delivered(db, b, r, told, final)
    ensures a.(evidence := b.evidence, settlements := b.settlements) == b
  {
    hide RowsSay, News, InDebt, CommitLedger, StepAfter, HoldAfter, SettlementSays, KeptBut, EvidenceOf;
  }

  lemma SameSettlements(db: Db, a: Db, b: Db, r: Id, told: set<ReceiptFacts>, final: Option<ReceiptFacts>)
    requires Open(db, r) && Delivered(db, a, r, told, final) && Delivered(db, b, r, told, final)
    ensures a.settlements.Keys == b.settlements.Keys
    ensures forall q | q in a.settlements ::
              a.settlements[q] == b.settlements[q].(settledAt := a.settlements[q].settledAt)
  {
    hide RowsSay, News, InDebt, CommitLedger, StepAfter, HoldAfter, KeptBut, EvidenceOf;
  }

  lemma SameEvidence(db: Db, a: Db, b: Db, r: Id, told: set<ReceiptFacts>, final: Option<ReceiptFacts>, q: Id)
    requires Open(db, r) && Delivered(db, a, r, told, final) && Delivered(db, b, r, told, final)
    ensures SameRowsBut(EvidenceOf(a, q), EvidenceOf(b, q))
  {
    hide RowsSay, News, InDebt, CommitLedger, StepAfter, HoldAfter, SettlementSays, SameRowsBut;
    if q == r {
      SameTold(EvidenceOf(db, r), EvidenceOf(a, r), EvidenceOf(b, r), told);
    } else {
      SameAlready(EvidenceOf(a, q));
      assert EvidenceOf(a, q) == EvidenceOf(db, q) == EvidenceOf(b, q);
    }
  }

  lemma SameDelivered(db: Db, a: Db, b: Db, r: Id, told: set<ReceiptFacts>, final: Option<ReceiptFacts>)
    requires Open(db, r) && Delivered(db, a, r, told, final) && Delivered(db, b, r, told, final)
    ensures SameButForTimes(a, b)
  {
    hide Open, Delivered, SameRowsBut, EvidenceOf;
    OpenStep(db, r);
    SameTables(db, a, b, r, told, final);
    SameSettlements(db, a, b, r, told, final);
    forall q
      ensures SameRowsBut(EvidenceOf(a, q), EvidenceOf(b, q))
    {
      SameEvidence(db, a, b, r, told, final, q);
    }
  }

  lemma SameAlready(rows: map<EvidenceHash, Evidence>)
    ensures SameRowsBut(rows, rows)
  {
  }

  /**
    Two delivery sequences that contain the same receipts, in whatever order and however often each, leave the
    same ledger, reservation, step, evidence and settlement, up to recording times.
   */
  lemma OrderInsensitive(db: Db, r: Id, final: Option<ReceiptFacts>, a: seq<Delivery>, b: seq<Delivery>)
    requires Inv(db) && Open(db, r) && FinalIsFinal(final)
    requires BatchFits(db, r, final, a) && BatchFits(db, r, final, b) && FactsIn(a) == FactsIn(b)
    ensures SameButForTimes(Deliver(db, a), Deliver(db, b))
  {
    hide Inv, BatchFits, Delivered, SameButForTimes, FinalIsFinal;
    DeliverAll(db, r, final, a);
    DeliverAll(db, r, final, b);
    SameDelivered(db, Deliver(db, a), Deliver(db, b), r, FactsIn(a), final);
  }

  /** The final receipt of a batch charges its amount once, whatever else the batch contains. */
  lemma ChargedOnce(db: Db, r: Id, final: Option<ReceiptFacts>, batch: seq<Delivery>)
    requires Inv(db) && Open(db, r) && FinalIsFinal(final) && BatchFits(db, r, final, batch)
    ensures r in db.steps && db.steps[r].reservation < |db.reservations|
    ensures Deliver(db, batch).ledger
            == if final.Some? && final.value in FactsIn(batch) then CommitLedger(db, r, ChargeOfFacts(final.value))
               else db.ledger
  {
    hide Inv, BatchFits, FinalIsFinal, CommitLedger;
    DeliverAll(db, r, final, batch);
  }

  // The receipt cursor

  /** A poller applies the receipt after its cursor, then moves the cursor past it; a crash comes in between. */
  datatype Poll = Apply(now: Millis) | Advance | Crash

  datatype Poller = Poller(db: Db, cursor: nat, applied: bool)

  predicate CanPoll(p: Poller, poll: Poll, feed: seq<ReceiptInput>) {
    match poll
    case Apply(_) => p.cursor < |feed|
    case Advance => p.applied && p.cursor < |feed|
    case Crash => true
  }

  function Polled(p: Poller, poll: Poll, feed: seq<ReceiptInput>): Poller
    requires CanPoll(p, poll, feed)
  {
    match poll
    case Apply(now) => Poller(ApplyReceipt(p.db, now, feed[p.cursor]).db, p.cursor, true)
    case Advance => Poller(p.db, p.cursor + 1, false)
    case Crash => Poller(p.db, p.cursor, false)
  }

  ghost predicate Polling(feed: seq<ReceiptInput>, pollers: seq<Poller>, polls: seq<Poll>) {
    && |pollers| == |polls| + 1
    && forall i | 0 <= i < |polls| :: CanPoll(pollers[i], polls[i], feed) && pollers[i + 1] == Polled(pollers[i], polls[i], feed)
  }

  // Applying a receipt again at once changes nothing, whatever it is about and whatever the first time did

  /** What decides whether a receipt is about a step is none of what a receipt writes. */
  predicate SameOwner(db: Db, db': Db, r: Id) {
    && r in db.steps && r in db'.steps
    && db'.steps[r] == db.steps[r].(fin := db'.steps[r].fin, actual := db'.steps[r].actual)
    && db'.requests == db.requests && db'.operations == db.operations
    && |db'.reservations| == |db.reservations|
    && (db.steps[r].reservation < |db.reservations| ==>
          var id := db.steps[r].reservation;
          db'.reservations[id] == db.reservations[id].(state := db'.reservations[id].state))
  }

  lemma OwnerStays(db: Db, db': Db, input: ReceiptInput)
    requires SameOwner(db, db', input.receipt.request)
    ensures CheckReceiptOwner(db', input) == CheckReceiptOwner(db, input)
    ensures TaskConflict(db'.steps[input.receipt.request], input.receipt)
            == TaskConflict(db.steps[input.receipt.request], input.receipt)
  {
  }

  /** A receipt that is on record is answered. */
  lemma RecordedAnswers(db: Db, input: ReceiptInput)
    requires AlreadyRecorded(EvidenceOf(db, input.receipt.request), input)
    ensures forall now :: ApplyReceipt(db, now, input).db == db
  {
    hide ReceiptMalformed, CheckReceiptOwner, AlreadyRecorded, EvidenceOf, TaskConflict, SameSettlement, Unsettled,
         SettleRows, SuspendRows, ConflictRows, InsertEvidence, SettledReplyFor;
  }

  lemma FitsParts(db: Db, input: ReceiptInput)
    requires !ReceiptCourse(db, input).Reject? && !ReceiptCourse(db, input).Answer?
    ensures !ReceiptMalformed(input.receipt) && CheckReceiptOwner(db, input).None?
    ensures !AlreadyRecorded(EvidenceOf(db, input.receipt.request), input)
    ensures input.receipt.request in db.steps && db.steps[input.receipt.request].reservation < |db.reservations|
  {
    hide ReceiptCourse, ReceiptMalformed, CheckReceiptOwner, AlreadyRecorded, EvidenceOf;
  }

  lemma ConflictRowsParts(db: Db, r: Id, hash: EvidenceHash, row: Evidence)
    requires r in db.steps
    ensures var db' := ConflictRows(db, r, hash, row);
            && SameOwner(db, db', r) && db'.settlements == db.settlements
            && EvidenceOf(db', r) == (if hash in EvidenceOf(db, r) then EvidenceOf(db, r) else EvidenceOf(db, r)[hash := row])
  {
    hide InsertEvidence, EvidenceOf;
    InsertTouches(db, r, hash, row);
    SameRows(InsertEvidence(db, r, hash, row), ConflictRows(db, r, hash, row), r);
  }

  lemma FreezeTwice(db: Db, r: Id, hash: EvidenceHash, row: Evidence, row': Evidence)
    requires r in db.steps && hash in EvidenceOf(db, r)
    ensures var db' := ConflictRows(db, r, hash, row); r in db'.steps && ConflictRows(db', r, hash, row') == db'
  {
    hide EvidenceOf;
    var db' := ConflictRows(db, r, hash, row);
    SameRows(db, db', r);
    assert db'.steps[r := db'.steps[r]] == db'.steps;
    assert db'.blocks + {db'.steps[r].auth.key} == db'.blocks;
  }

  lemma EndsSolid(s: string)
    requires s != "" && !IsWhitespace(s[|s| - 1])
    ensures !Blank(s)
  {
  }

  lemma ReasonGiven(db: Db, input: ReceiptInput)
    requires ReceiptCourse(db, input).Contradict?
    ensures !Blank(ReceiptCourse(db, input).reason)
  {
    hide ReceiptMalformed, CheckReceiptOwner, AlreadyRecorded, EvidenceOf, TaskConflict, SameSettlement, Unsettled,
         Blank;
    EndsSolid("failed_no_charge conflicts with a video task reference");
    EndsSolid("video final receipt is not bound to the stored task");
    EndsSolid("conflicting final receipt after settlement");
  }

  /** The guards of a contradiction find the same contradiction again. */
  lemma ContradictsAgain(db: Db, db': Db, input: ReceiptInput)
    requires ReceiptCourse(db, input).Contradict? && SameOwner(db, db', input.receipt.request)
    requires EvidenceOf(db', input.receipt.request) == EvidenceOf(db, input.receipt.request)
    requires db'.settlements == db.settlements
    requires input.receipt.request in db.settlements || TaskConflict(db.steps[input.receipt.request], input.receipt)
    ensures ReceiptCourse(db', input) == ReceiptCourse(db, input)
  {
    hide ReceiptMalformed, CheckReceiptOwner, AlreadyRecorded, EvidenceOf, TaskConflict, SameSettlement, Unsettled;
    OwnerStays(db, db', input);
  }

  lemma ContradictionCause(db: Db, input: ReceiptInput)
    requires ReceiptCourse(db, input).Contradict?
    ensures input.receipt.request in db.steps
    ensures input.receipt.request in db.settlements || TaskConflict(db.steps[input.receipt.request], input.receipt)
  {
    hide ReceiptMalformed, CheckReceiptOwner, AlreadyRecorded, EvidenceOf, TaskConflict, SameSettlement, Unsettled;
    FitsParts(db, input);
  }

  lemma ContradictionRecorded(rows: map<EvidenceHash, Evidence>, input: ReceiptInput, reason: string, now: Millis)
    requires rows == rows[HashOf(input) := ContradictionRow(input, reason, now)]
    requires !ReceiptMalformed(input.receipt) && !Blank(reason)
    ensures AlreadyRecorded(rows, input)
  {
    hide HashOf, Blank;
    assert rows[HashOf(input)] == ContradictionRow(input, reason, now);
  }

  lemma ContradictTwice(db: Db, now: Millis, now': Millis, input: ReceiptInput)
    requires ReceiptCourse(db, input).Contradict?
    ensures var db' := ApplyReceipt(db, now, input).db; ApplyReceipt(db', now', input).db == db'
  {
    hide ReceiptCourse, ReceiptMalformed, CheckReceiptOwner, AlreadyRecorded, EvidenceOf, TaskConflict, SameSettlement,
         HashOf, ContradictionRow, ConflictRows, SameOwner, ReceiptFits, Blank, SettleRows, SuspendRows;
    var r, reason := input.receipt.request, ReceiptCourse(db, input).reason;
    FitsParts(db, input);
    var row := ContradictionRow(input, reason, now);
    var db' := ConflictRows(db, r, HashOf(input), row);
    ConflictRowsParts(db, r, HashOf(input), row);
    if HashOf(input) in EvidenceOf(db, r) {
      ContradictionCause(db, input);
      ContradictsAgain(db, db', input);
      FreezeTwice(db, r, HashOf(input), row, ContradictionRow(input, reason, now'));
    } else {
      ReasonGiven(db, input);
      ContradictionRecorded(EvidenceOf(db', r), input, reason, now);
      RecordedAnswers(db', input);
    }
  }

  lemma NoteRecorded(rows: map<EvidenceHash, Evidence>, input: ReceiptInput, now: Millis)
    requires rows == rows[HashOf(input) := NoteRow(input, now)]
    ensures AlreadyRecorded(rows, input)
  {
    hide HashOf;
    assert rows[HashOf(input)] == NoteRow(input, now);
  }

  lemma NoteTwice(db: Db, now: Millis, now': Millis, input: ReceiptInput)
    requires ReceiptCourse(db, input).Note?
    ensures var db' := ApplyReceipt(db, now, input).db; ApplyReceipt(db', now', input).db == db'
  {
    hide ReceiptCourse, ReceiptMalformed, CheckReceiptOwner, AlreadyRecorded, EvidenceOf, TaskConflict, SameSettlement,
         HashOf, NoteRow, InsertEvidence, ReceiptFits, SettleRows, SuspendRows, ConflictRows;
    var r := input.receipt.request;
    InsertTouches(db, r, HashOf(input), NoteRow(input, now));
    if HashOf(input) in EvidenceOf(db, r) {
      InsertKnown(db, r, HashOf(input), NoteRow(input, now));
      InsertKnown(db, r, HashOf(input), NoteRow(input, now'));
    } else {
      var db' := InsertEvidence(db, r, HashOf(input), NoteRow(input, now));
      NoteRecorded(EvidenceOf(db', r), input, now);
      RecordedAnswers(db', input);
    }
  }

  /** A receipt in doubt under whose hash something else is stored already does not exist. */
  lemma SuspendIsNews(db: Db, input: ReceiptInput)
    requires ReceiptCourse(db, input).Suspend?
    requires Inv(db)
    ensures HashOf(input) !in EvidenceOf(db, input.receipt.request)
  {
    hide Inv, StepView, Sound, ReceiptMalformed, HashOf, CheckReceiptOwner, EvidenceOf, AlreadyRecorded, TaskConflict,
         AboutStep, ReceiptCourse, AccountsKnown, StepLinked;
    FitsParts(db, input);
    SuspendFacts(db, input);
    OwnerChecked(db, input);
    SoundStep(db, input.receipt.request);
    ViewParts(db, input.receipt.request);
    if HashOf(input) in EvidenceOf(db, input.receipt.request) {
      StoredPendingKnown(db.accounts, StepView(db, input.receipt.request), input);
    }
  }

  lemma SuspendFacts(db: Db, input: ReceiptInput)
    requires ReceiptCourse(db, input).Suspend?
    ensures input.receipt.request in db.steps
    ensures !IsFinal(input.receipt.status) && db.steps[input.receipt.request].fin != FinConflict
  {
    hide ReceiptMalformed, CheckReceiptOwner, AlreadyRecorded, EvidenceOf, TaskConflict, SameSettlement, Unsettled;
    FitsParts(db, input);
  }

  lemma SuspendTwice(db: Db, now: Millis, now': Millis, input: ReceiptInput)
    requires ReceiptCourse(db, input).Suspend?
    requires Inv(db)
    ensures var db' := ApplyReceipt(db, now, input).db; ApplyReceipt(db', now', input).db == db'
  {
    hide Inv, ReceiptCourse, ReceiptMalformed, CheckReceiptOwner, AlreadyRecorded, EvidenceOf, TaskConflict, SameSettlement,
         HashOf, NoteRow, InsertEvidence, ReceiptFits, SettleRows, ConflictRows;
    var r := input.receipt.request;
    SuspendIsNews(db, input);
    FitsParts(db, input);
    InsertTouches(db, r, HashOf(input), NoteRow(input, now));
    var db' := SuspendRows(db, r, HashOf(input), NoteRow(input, now));
    SameRows(InsertEvidence(db, r, HashOf(input), NoteRow(input, now)), db', r);
    NoteRecorded(EvidenceOf(db', r), input, now);
    RecordedAnswers(db', input);
  }

  /** The receipt a step was settled with has nothing more to say. */
  lemma SettlementNotes(db: Db, now: Millis, input: ReceiptInput)
    requires !ReceiptMalformed(input.receipt) && CheckReceiptOwner(db, input).None?
    requires input.receipt.request in db.steps && !TaskConflict(db.steps[input.receipt.request], input.receipt)
    requires input.receipt.request in db.settlements
    requires SameSettlement(db.settlements[input.receipt.request], EvidenceOf(db, input.receipt.request), input)
    requires HashOf(input) in EvidenceOf(db, input.receipt.request)
    ensures ApplyReceipt(db, now, input).db == db
  {
    hide ReceiptMalformed, CheckReceiptOwner, AlreadyRecorded, EvidenceOf, TaskConflict, SameSettlement, Unsettled,
         SettleRows, SuspendRows, ConflictRows, InsertEvidence, SettledReplyFor, HashOf, NoteRow;
    InsertKnown(db, input.receipt.request, HashOf(input), NoteRow(input, now));
  }

  lemma ChargeFacts(db: Db, input: ReceiptInput)
    requires ReceiptCourse(db, input).Charge?
    ensures input.receipt.request in db.steps && !TaskConflict(db.steps[input.receipt.request], input.receipt)
  {
    hide ReceiptCourse, TaskConflict, AccountsKnown, ReceiptMalformed, CheckReceiptOwner, AlreadyRecorded, EvidenceOf;
    FitsParts(db, input);
  }

  lemma SettleRowsParts(db: Db, now: Millis, input: ReceiptInput)
    requires input.receipt.request in db.steps
    requires db.steps[input.receipt.request].reservation < |db.reservations|
    requires HashOf(input) !in EvidenceOf(db, input.receipt.request)
    ensures var db', r := SettleRows(db, now, input), input.receipt.request;
            && SameOwner(db, db', r)
            && HashOf(input) in EvidenceOf(db', r) && r in db'.settlements
            && SameSettlement(db'.settlements[r], EvidenceOf(db', r), input)
  {
    hide HoldEntries, InDebt, ChargeOf, LatestRevision, HashOf, InsertEvidence, EvidenceOf;
    var r, db' := input.receipt.request, SettleRows(db, now, input);
    var row := EvidenceFor(input, ReceiptRecord, Some(ChargeOf(input.receipt)), None, now);
    InsertTouches(db, r, HashOf(input), row);
    SameRows(InsertEvidence(db, r, HashOf(input), row), db', r);
    assert EvidenceOf(db', r)[HashOf(input)] == row;
  }

  lemma ChargeTwice(db: Db, now: Millis, now': Millis, input: ReceiptInput)
    requires ReceiptCourse(db, input).Charge?
    requires Inv(db)
    ensures var db' := ApplyReceipt(db, now, input).db; ApplyReceipt(db', now', input).db == db'
  {
    hide Inv, ReceiptCourse, ReceiptMalformed, CheckReceiptOwner, AlreadyRecorded, EvidenceOf, TaskConflict, SameSettlement,
         HashOf, ReceiptFits, SettleRows, SuspendRows, ConflictRows, SettledReplyFor, SameOwner;
    FitsParts(db, input);
    ChargeFacts(db, input);
    Integrity.ChargeNotStored(db, input);
    var r, db' := input.receipt.request, SettleRows(db, now, input);
    SettleRowsParts(db, now, input);
    OwnerStays(db, db', input);
    OwnerThere(db, db', r);
    SettlementNotes(db', now', input);
  }

  lemma OwnerThere(db: Db, db': Db, r: Id)
    requires SameOwner(db, db', r)
    ensures r in db'.steps
  {
  }

  /** Whatever the receipt and whatever the state: applied twice in a row it leaves what it leaves once. */
  lemma ApplyTwice(db: Db, now: Millis, now': Millis, input: ReceiptInput)
    requires Inv(db)
    ensures var db' := ApplyReceipt(db, now, input).db; ApplyReceipt(db', now', input).db == db'
  {
    hide Inv, ReceiptCourse, ApplyReceipt;
    var course := ReceiptCourse(db, input);
    if course.Contradict? {
      ContradictTwice(db, now, now', input);
    } else if course.Note? {
      NoteTwice(db, now, now', input);
    } else if course.Suspend? {
      SuspendTwice(db, now, now', input);
    } else if course.Charge? {
      ChargeTwice(db, now, now', input);
    } else {
      AnswersTwice(db, now, now', input);
    }
  }

  lemma AnswersTwice(db: Db, now: Millis, now': Millis, input: ReceiptInput)
    requires ReceiptCourse(db, input).Reject? || ReceiptCourse(db, input).Answer?
    ensures ApplyReceipt(db, now, input).db == db && ApplyReceipt(db, now', input).db == db
  {
    hide ReceiptCourse, SettleRows, SuspendRows, ConflictRows, InsertEvidence, SettledReplyFor;
  }

  lemma {:induction false} DeliverKeepsInv(db: Db, batch: seq<Delivery>)
    requires Inv(db)
    ensures Inv(Deliver(db, batch))
  {
    hide Inv, ApplyReceipt;
    if batch != [] {
      var front, last := batch[..|batch| - 1], batch[|batch| - 1];
      DeliverKeepsInv(db, front);
      ApplyReceiptKeepsInv(Deliver(db, front), last.now, last.input);
    }
  }

  /** The receipts of the feed, in order, up to some point. */
  predicate FeedUpTo(feed: seq<ReceiptInput>, batch: seq<Delivery>) {
    |batch| <= |feed| && forall i | 0 <= i < |batch| :: batch[i].input == feed[i]
  }

  /** Every receipt before the cursor has been delivered once, and perhaps the one after it. */
  ghost predicate PolledTo(db: Db, feed: seq<ReceiptInput>, p: Poller, batch: seq<Delivery>) {
    && FeedUpTo(feed, batch)
    && p.db == Deliver(db, batch)
    && (|batch| == p.cursor || |batch| == p.cursor + 1)
    && (p.applied ==> |batch| == p.cursor + 1)
  }

  lemma Repeated(db: Db, feed: seq<ReceiptInput>, p: Poller, batch: seq<Delivery>, now: Millis)
    requires PolledTo(db, feed, p, batch) && |batch| == p.cursor + 1
    requires Inv(db)
    ensures ApplyReceipt(p.db, now, feed[p.cursor]).db == p.db
  {
    hide Inv, ApplyReceipt;
    var front, last := batch[..|batch| - 1], batch[|batch| - 1];
    DeliverKeepsInv(db, front);
    ApplyTwice(Deliver(db, front), last.now, now, last.input);
  }

  lemma {:induction false} PolledDelivers(
    db: Db, feed: seq<ReceiptInput>, pollers: seq<Poller>, polls: seq<Poll>, i: nat) returns (batch: seq<Delivery>)
    requires |pollers| == |polls| + 1 && pollers[0] == Poller(db, 0, false) && i < |pollers|
    requires Polling(feed, pollers, polls)
    requires Inv(db)
    ensures PolledTo(db, feed, pollers[i], batch)
  {
    hide Inv, ApplyReceipt;
    if i == 0 {
      batch := [];
    } else {
      batch := PolledDelivers(db, feed, pollers, polls, i - 1);
      var p, poll := pollers[i - 1], polls[i - 1];
      assert CanPoll(p, poll, feed) && pollers[i] == Polled(p, poll, feed);
      if poll.Apply? {
        if |batch| == p.cursor + 1 {
          Repeated(db, feed, p, batch, poll.now);
        } else {
          var next := Delivery(poll.now, feed[p.cursor]);
          assert (batch + [next])[..|batch|] == batch;
          batch := batch + [next];
        }
      }
    }
  }

  /**
    Crash and replay, for a feed of any receipts of any steps: whatever crashes happen between a receipt's commit
    and its cursor's, a poller that has reached the end of the feed has left exactly what delivering every receipt
    of the feed once, in order, leaves.
   */
  lemma ReplayIsExactlyOnce(db: Db, feed: seq<ReceiptInput>, pollers: seq<Poller>, polls: seq<Poll>)
    returns (once: seq<Delivery>)
    requires |pollers| == |polls| + 1 && pollers[0] == Poller(db, 0, false)
    requires pollers[|polls|].cursor == |feed|
    requires Polling(feed, pollers, polls)
    requires Inv(db)
    ensures |once| == |feed| && forall i | 0 <= i < |feed| :: once[i].input == feed[i]
    ensures pollers[|polls|].db == Deliver(db, once)
  {
    hide Inv, Polling;
    once := PolledDelivers(db, feed, pollers, polls, |polls|);
  }

  /** For the receipts of one open step it does not even matter when each of them was delivered. */
  lemma ReplayAtAnyTime(
    db: Db, r: Id, final: Option<ReceiptFacts>, feed: seq<ReceiptInput>, pollers: seq<Poller>, polls: seq<Poll>,
    once: seq<Delivery>)
    requires |pollers| == |polls| + 1 && pollers[0] == Poller(db, 0, false)
    requires pollers[|polls|].cursor == |feed|
    requires Polling(feed, pollers, polls)
    requires Open(db, r) && FinalIsFinal(final)
    requires forall i | 0 <= i < |feed| :: Admissible(db, r, feed[i]) && OneFinal(final, feed[i])
    requires |once| == |feed| && forall i | 0 <= i < |feed| :: once[i].input == feed[i]
    requires Inv(db)
    ensures SameButForTimes(pollers[|polls|].db, Deliver(db, once))
  {
    hide Inv, Admissible, OneFinal, FinalIsFinal, SameButForTimes, FactsOfInput, Polling, Open;
    var batch := ReplayIsExactlyOnce(db, feed, pollers, polls);
    assert BatchFits(db, r, final, once) && BatchFits(db, r, final, batch);
    assert FactsIn(once) == FactsIn(batch);
    OrderInsensitive(db, r, final, batch, once);
  }
}
