/** Receipts and conflict reports keep the invariant. */
module ReceiptPreservation {
  import opened Wrappers
  import opened Model
  import opened Ledger
  import opened EventGroup
  import opened Billing
  import opened Settling
  import opened Invariant
  import opened Frame
  import opened Preservation
  import opened Text

  // One step's rows

  /** The stored rows stay valid when one is added, as long as they are about the same money. */
  lemma RowsFollow(v: GroupView, v': GroupView, hash: EvidenceHash, row: Evidence)
    requires forall h | h in v.evidence :: EvidenceRowValid(v, h)
    requires v'.evidence == (if hash in v.evidence then v.evidence else v.evidence[hash := row])
    requires EvidenceRowValid(v', hash)
    requires v'.request == v.request && v'.step.auth == v.step.auth
    requires v'.step.kind == v.step.kind && v'.step.task == v.step.task
    requires v'.settlement == v.settlement
             || (v.settlement.None? && v'.settlement.Some? && v'.settlement.value.hash !in v.evidence)
    ensures forall h | h in v'.evidence :: EvidenceRowValid(v', h)
  {
    hide ReceiptRowValid, ConflictRowValid, SettlesWith, Blank, BlankHash;
    forall h | h in v'.evidence
      ensures EvidenceRowValid(v', h)
    {
      assert h != hash ==> EvidenceRowValid(v, h);
      if v'.settlement == v.settlement && v.settlement.Some? && h in v.evidence {
        SettlesFollows(v, v', v.evidence[h]);
      }
    }
  }

  lemma RowsUnchanged(v: GroupView, v': GroupView)
    requires forall h | h in v.evidence :: EvidenceRowValid(v, h)
    requires v'.evidence == v.evidence && v'.settlement == v.settlement && v'.request == v.request
    requires v'.step.auth == v.step.auth && v'.step.kind == v.step.kind && v'.step.task == v.step.task
    ensures forall h | h in v'.evidence :: EvidenceRowValid(v', h)
  {
    forall h | h in v'.evidence
      ensures EvidenceRowValid(v', h)
    {
      assert EvidenceRowValid(v, h);
    }
  }

  lemma HasHistory(v: GroupView)
    requires HistoryValid(v)
    ensures |v.history| > 0
  {
  }

  lemma SettlesFollows(v: GroupView, v': GroupView, e: Evidence)
    requires v.settlement.Some? && v'.settlement == v.settlement
    requires v'.step.kind == v.step.kind && v'.step.task == v.step.task
    ensures SettlesWith(v', e) == SettlesWith(v, e)
  {
  }

  lemma NoteSound(accounts: seq<Account>, v: GroupView, v': GroupView, hash: EvidenceHash, row: Evidence)
    requires Sound(accounts, v) && v.step.dispatched && hash !in v.evidence
    requires row.kind == ReceiptRecord && row.status.Some? && !IsFinal(row.status.value)
    requires v' == v.(evidence := v.evidence[hash := row]) && EvidenceRowValid(v', hash)
    ensures Sound(accounts, v')
  {
    hide EventsExact, HistoryValid, EvidenceRowValid, Blank, BlankHash;
    HasHistory(v);
    HistoryFollowsAuthorization(v, v');
    EventsFollowHold(accounts, v, v');
    RowsFollow(v, v', hash, row);
    ReceiptsAdded(v, v', hash, row);
  }

  /** A row that is no conflict makes none, and settles no question of a task. */
  lemma ReceiptsAdded(v: GroupView, v': GroupView, hash: EvidenceHash, row: Evidence)
    requires hash !in v.evidence && row.kind == ReceiptRecord
    requires v' == v.(evidence := v.evidence[hash := row])
    ensures HasConflictRow(v') <==> HasConflictRow(v)
    ensures TasksAgree(v') ==> TasksAgree(v)
  {
    forall h | h in v.evidence
      ensures v'.evidence[h] == v.evidence[h] && TaskAgrees(v', h) == TaskAgrees(v, h)
    {
    }
  }

  lemma UnknownSound(accounts: seq<Account>, v: GroupView, v': GroupView)
    requires Sound(accounts, v) && v.step.dispatched && Unsettled(v.step, v.reservation)
    requires v' == v.(step := v.step.(fin := FinUnknown), reservation := v.reservation.(state := HoldUnknown))
    ensures Sound(accounts, v')
  {
    hide EventsExact, HistoryValid, EvidenceRowValid, Blank, BlankHash;
    HasHistory(v);
    HistoryFollowsAuthorization(v, v');
    EventsFollowHold(accounts, v, v');
    RowsUnchanged(v, v');
  }

  lemma ConflictSound(accounts: seq<Account>, v: GroupView, v': GroupView, hash: EvidenceHash, row: Evidence)
    requires Sound(accounts, v) && v.step.dispatched && v.step.fin != FinReleased
    requires row.kind == ConflictRecord
    requires hash in v.evidence && TasksAgree(v) ==> v.evidence[hash].kind == ConflictRecord
    requires v' == v.(step := v.step.(fin := FinConflict),
                      evidence := if hash in v.evidence then v.evidence else v.evidence[hash := row])
    requires EvidenceRowValid(v', hash)
    ensures Sound(accounts, v')
  {
    hide EventsExact, HistoryValid, EvidenceRowValid, Blank, BlankHash;
    HasHistory(v);
    HistoryFollowsAuthorization(v, v');
    EventsFollowHold(accounts, v, v');
    RowsFollow(v, v', hash, row);
    ConflictAdded(v, v', hash, row);
  }

  /** The frozen step has a conflict row, unless the row is the settled one and its task disagrees. */
  lemma ConflictAdded(v: GroupView, v': GroupView, hash: EvidenceHash, row: Evidence)
    requires row.kind == ConflictRecord
    requires hash in v.evidence && TasksAgree(v) ==> v.evidence[hash].kind == ConflictRecord
    requires v' == v.(step := v.step.(fin := FinConflict),
                      evidence := if hash in v.evidence then v.evidence else v.evidence[hash := row])
    ensures TasksAgree(v') ==> HasConflictRow(v')
  {
    if TasksAgree(v') {
      forall h | h in v.evidence
        ensures TaskAgrees(v, h)
      {
        assert TaskAgrees(v', h);
      }
      assert v'.evidence[hash].kind == ConflictRecord;
    }
  }

  lemma SettledSound(
    accounts: seq<Account>, v: GroupView, v': GroupView, hash: EvidenceHash, row: Evidence, s: Settlement)
    requires Sound(accounts, v) && v.step.dispatched && Unsettled(v.step, v.reservation)
    requires v.request == v.reservation.request && hash !in v.evidence && s.hash == hash && s.actual >= 0
    requires row.kind == ReceiptRecord
    requires v' == v.(step := v.step.(fin := FinSettled, actual := Some(s.actual)),
                      reservation := v.reservation.(state := HoldCommitted),
                      events := v.events + HoldEntries(accounts, v.reservation, CommitEvent, s.actual,
                                                       v.step.auth.hold - s.actual, Some(|v.history|)),
                      settlement := Some(s),
                      evidence := v.evidence[hash := row])
    requires SettlementValid(v') && EvidenceRowValid(v', hash)
    ensures Sound(accounts, v')
  {
    hide EventsExact, HistoryValid, EvidenceRowValid, Blank, BlankHash;
    HasHistory(v);
    ClosingRoundExact(accounts, v, v', CommitEvent, s.actual, v.step.auth.hold - s.actual);
    HistoryFollowsAuthorization(v, v');
    RowsFollow(v, v', hash, row);
    assert forall h | h in v.evidence :: v'.evidence[h] == v.evidence[h];
  }

  // The tables

  lemma InsertTouches(db: Db, r: Id, hash: EvidenceHash, row: Evidence)
    ensures InsertEvidence(db, r, hash, row) == db.(evidence := InsertEvidence(db, r, hash, row).evidence)
    ensures KeptBut(db.evidence, InsertEvidence(db, r, hash, row).evidence, r)
    ensures EvidenceOf(InsertEvidence(db, r, hash, row), r)
            == if hash in EvidenceOf(db, r) then EvidenceOf(db, r) else EvidenceOf(db, r)[hash := row]
  {
  }

  lemma NoMoneyMoved(db: Db, db': Db, r: Id)
    requires TablesSound(db) && StepLinked(db, r)
    requires db'.ledger == db.ledger && db'.accounts == db.accounts && |db'.reservations| == |db.reservations|
    requires db'.revisions == db.revisions && db'.settlements == db.settlements
    requires KeptBut(db.evidence, db'.evidence, r) && db'.steps.Keys == db.steps.Keys
    ensures LedgerSound(db'.ledger, |db'.accounts|, |db'.reservations|)
    ensures ReferencesSound(db') && BudgetIdsUnique(db'.revisions)
  {
    hide ReservationsSound, LedgerSound, BudgetIdsUnique;
  }

  lemma NoteKeepsInv(db: Db, r: Id, hash: EvidenceHash, row: Evidence)
    requires StepLinked(db, r) && db.steps[r].dispatched
    requires hash !in EvidenceOf(db, r)
    requires row.kind == ReceiptRecord && row.status.Some? && !IsFinal(row.status.value)
    requires EvidenceRowValid(StepView(db, r).(evidence := EvidenceOf(db, r)[hash := row]), hash)
    requires Inv(db)
    ensures Inv(InsertEvidence(db, r, hash, row))
  {
    hide Sound, StepView, TablesSound, StepsSound, OnlyTouched, EventsOf, EvidenceRowValid;
    var db' := InsertEvidence(db, r, hash, row);
    SoundStep(db, r);
    ViewParts(db, r);
    InsertTouches(db, r, hash, row);
    RowsTouch(db, db', r);
    TouchedView(db, db', r);
    NoteSound(db.accounts, StepView(db, r), StepView(db', r), hash, row);
    NoMoneyMoved(db, db', r);
    TouchedKeepsInv(db, db', r);
  }

  lemma MarkUnknownKeepsInv(db: Db, r: Id)
    requires StepLinked(db, r) && db.steps[r].dispatched
    requires Unsettled(db.steps[r], db.reservations[db.steps[r].reservation])
    requires Inv(db)
    ensures Inv(MarkUnknown(db, r))
  {
    hide Sound, StepView, TablesSound, StepsSound, OnlyTouched, EventsOf;
    var db' := MarkUnknown(db, r);
    SoundStep(db, r);
    ViewParts(db, r);
    RowsTouch(db, db', r);
    TouchedView(db, db', r);
    UnknownSound(db.accounts, StepView(db, r), StepView(db', r));
    NoMoneyMoved(db, db', r);
    TouchedKeepsInv(db, db', r);
  }

  /** A conflict row goes in together with the step's move to `conflict`. */
  lemma FreezeKeepsInv(db: Db, r: Id, hash: EvidenceHash, row: Evidence)
    requires StepLinked(db, r) && db.steps[r].dispatched
    requires row.kind == ConflictRecord
    requires hash in EvidenceOf(db, r) && TasksAgree(StepView(db, r)) ==>
               EvidenceOf(db, r)[hash].kind == ConflictRecord
    requires EvidenceRowValid(StepView(db, r).(evidence := EvidenceOf(db, r)[hash := row]), hash)
    requires Inv(db)
    ensures Inv(ConflictRows(db, r, hash, row))
  {
    hide Sound, StepView, TablesSound, StepsSound, OnlyTouched, EventsOf, EvidenceRowValid;
    var db' := ConflictRows(db, r, hash, row);
    SoundStep(db, r);
    ViewParts(db, r);
    NotReleased(db.accounts, StepView(db, r));
    RowsTouch(db, db', r);
    TouchedView(db, db', r);
    StoredRowValid(db.accounts, StepView(db, r), StepView(db', r), hash, row);
    ConflictSound(db.accounts, StepView(db, r), StepView(db', r), hash, row);
    NoMoneyMoved(db, db', r);
    TouchedKeepsInv(db, db', r);
  }

  lemma NotReleased(accounts: seq<Account>, v: GroupView)
    requires Sound(accounts, v) && v.step.dispatched
    ensures v.step.fin != FinReleased
  {
  }

  lemma StoredRowValid(accounts: seq<Account>, v: GroupView, v': GroupView, hash: EvidenceHash, row: Evidence)
    requires Sound(accounts, v)
    requires v' == v.(step := v'.step,
                      evidence := if hash in v.evidence then v.evidence else v.evidence[hash := row])
    requires v'.step.auth == v.step.auth && v'.step.kind == v.step.kind && v'.step.task == v.step.task
    requires EvidenceRowValid(v.(evidence := v.evidence[hash := row]), hash)
    ensures EvidenceRowValid(v', hash)
  {
    hide EventsExact, HistoryValid, Blank, BlankHash, AccountsSound;
    if hash in v.evidence {
      assert EvidenceRowValid(v, hash);
    }
  }

  // Settling

  lemma SettleRowsTouch(db: Db, now: Millis, input: ReceiptInput)
    requires StepLinked(db, input.receipt.request)
    ensures OnlyTouched(db, SettleRows(db, now, input), input.receipt.request)
  {
    hide EventsOf, HoldEntries, LatestRevision, HashOf, EvidenceFor, ChargeOf, NewSettlement, OnlyTouched;
    var r := input.receipt.request;
    var hold := db.reservations[db.steps[r].reservation];
    var actual := ChargeOf(input.receipt);
    AppendHoldEntries(db.ledger, db.accounts, hold, CommitEvent, actual, db.steps[r].auth.hold - actual,
                      LatestRevision(db, r));
    InsertTouches(db, r, HashOf(input), EvidenceFor(input, ReceiptRecord, Some(actual), None, now));
    RowsTouch(db, SettleRows(db, now, input), r);
  }

  predicate AboutStep(input: ReceiptInput, v: GroupView) {
    && input.receipt.request == v.request
    && input.budgetId == v.step.auth.budgetId
    && input.accountRef == v.step.auth.accountRef
    && input.bridge == v.step.auth.bridge
  }

  lemma PendingRowValid(v: GroupView, v': GroupView, input: ReceiptInput, now: Millis)
    requires !ReceiptMalformed(input.receipt) && AboutStep(input, v) && !IsFinal(input.receipt.status)
    requires HashOf(input) !in v.evidence && (v.settlement.Some? ==> v.settlement.value.hash in v.evidence)
    requires v' == v.(evidence := v.evidence[HashOf(input) := NoteRow(input, now)])
    ensures EvidenceRowValid(v', HashOf(input))
  {
    hide Blank;
  }

  lemma ContradictionReproduced(input: ReceiptInput, reason: string, now: Millis)
    requires !ReceiptMalformed(input.receipt) && IsFinal(input.receipt.status) && reason != ""
    ensures ConflictRowValid(input.receipt.request, HashOf(input), ContradictionRow(input, reason, now))
  {
    hide Blank;
  }

  lemma ConflictingRowValid(v: GroupView, v': GroupView, input: ReceiptInput, reason: string, now: Millis)
    requires !ReceiptMalformed(input.receipt) && AboutStep(input, v) && IsFinal(input.receipt.status) && reason != ""
    requires v' == v.(evidence := v.evidence[HashOf(input) := ContradictionRow(input, reason, now)])
    ensures EvidenceRowValid(v', HashOf(input)) && ContradictionRow(input, reason, now).kind == ConflictRecord
  {
    hide Blank, ConflictRowValid, ReceiptRowValid, SettlesWith;
    ContradictionReproduced(input, reason, now);
    assert v'.evidence[HashOf(input)] == ContradictionRow(input, reason, now);
  }

  lemma ReportedRowValid(v: GroupView, v': GroupView, input: ConflictInput, now: Millis)
    requires !Blank(input.source) && !BlankHash(input.hash) && input.observedAt > 0
    requires input.budgetId == v.step.auth.budgetId && input.accountRef == v.step.auth.accountRef
    requires input.bridge == v.step.auth.bridge
    requires v' == v.(evidence := v.evidence[input.hash := ReportedRow(input, now)])
    ensures EvidenceRowValid(v', input.hash)
  {
    hide Blank, BlankHash;
  }

  lemma SettlingRowValid(v: GroupView, v': GroupView, input: ReceiptInput, debt: bool, now: Millis)
    requires !ReceiptMalformed(input.receipt) && AboutStep(input, v) && IsFinal(input.receipt.status)
    requires !TaskConflict(v.step, input.receipt)
    requires v.step.kind == Video && input.receipt.status == Final ==> v.step.task.Some?
    requires v'.step == v.step.(fin := FinSettled, actual := Some(ChargeOf(input.receipt)))
    requires v'.request == v.request && v'.reservationId == v.step.reservation
    requires v'.settlement == Some(NewSettlement(v.step, input, debt, now))
    requires v'.evidence == v.evidence[HashOf(input) :=
                                         EvidenceFor(input, ReceiptRecord, Some(ChargeOf(input.receipt)), None, now)]
    ensures EvidenceRowValid(v', HashOf(input))
    ensures v'.reservation.state == HoldCommitted ==> SettlementValid(v')
  {
    hide Blank;
  }

  /** What a stored receipt row under this input's hash must say. */
  lemma StoredUnderHash(accounts: seq<Account>, v: GroupView, input: ReceiptInput)
    requires Sound(accounts, v) && AboutStep(input, v) && HashOf(input) in v.evidence
    requires v.evidence[HashOf(input)].kind == ReceiptRecord
    ensures var e := v.evidence[HashOf(input)];
            && e.status == Some(input.receipt.status)
            && e.unit == Some(input.receipt.unit)
            && e.source == input.receipt.source
            && e.task == input.receipt.task
            && e.reason.None?
            && (e.actual == input.receipt.actual
                || (input.receipt.status == FailedNoCharge && e.actual == Some(0) && input.receipt.actual.None?))
  {
    hide EventsExact, HistoryValid, AccountsSound, Blank, BlankHash;
    assert EvidenceRowValid(v, HashOf(input));
  }

  /** A receipt row that is not word for word the incoming one is the settled no-charge receipt, its zero left out. */
  lemma CollisionIsSettlement(accounts: seq<Account>, v: GroupView, input: ReceiptInput)
    requires Sound(accounts, v) && AboutStep(input, v) && !ReceiptMalformed(input.receipt)
    requires HashOf(input) in v.evidence && v.evidence[HashOf(input)].kind == ReceiptRecord
    requires !AlreadyRecorded(v.evidence, input)
    ensures input.receipt.status == FailedNoCharge && input.receipt.actual.None?
    ensures v.settlement.Some? && SameSettlement(v.settlement.value, v.evidence, input)
    ensures TasksAgree(v) ==> !TaskConflict(v.step, input.receipt)
  {
    hide EventsExact, HistoryValid, AccountsSound, Blank, BlankHash, HashOf, HasConflictRow;
    StoredUnderHash(accounts, v, input);
    assert EvidenceRowValid(v, HashOf(input));
    assert TasksAgree(v) ==> TaskAgrees(v, HashOf(input));
  }

  /** A row already stored under the hash of a receipt that did not settle is a conflict row, unless its task disagrees. */
  lemma StoredIsConflict(accounts: seq<Account>, v: GroupView, input: ReceiptInput)
    requires Sound(accounts, v) && AboutStep(input, v) && !ReceiptMalformed(input.receipt)
    requires HashOf(input) in v.evidence && !AlreadyRecorded(v.evidence, input)
    requires TaskConflict(v.step, input.receipt) || v.settlement.None?
             || !SameSettlement(v.settlement.value, v.evidence, input)
    ensures v.settlement.None? || TasksAgree(v) ==> v.evidence[HashOf(input)].kind == ConflictRecord
  {
    hide HashOf, TaskConflict, SameSettlement, Sound, AlreadyRecorded, TasksAgree;
    if v.evidence[HashOf(input)].kind == ReceiptRecord {
      CollisionIsSettlement(accounts, v, input);
    }
  }

  lemma OwnerChecked(db: Db, input: ReceiptInput)
    requires Inv(db) && CheckReceiptOwner(db, input).None?
    ensures input.receipt.request in db.steps && StepLinked(db, input.receipt.request)
    ensures AboutStep(input, StepView(db, input.receipt.request))
    ensures db.steps[input.receipt.request].dispatched
    ensures db.steps[input.receipt.request].kind == Video && input.receipt.status == Final ==>
              db.steps[input.receipt.request].task.Some?
  {
    hide Inv, StepView, Sound;
    SoundStep(db, input.receipt.request);
    ViewParts(db, input.receipt.request);
  }

  lemma ContradictKeepsInv(db: Db, now: Millis, input: ReceiptInput, reason: string)
    requires ReceiptFits(db, input)
    requires IsFinal(input.receipt.status) && reason != ""
    requires var r := input.receipt.request;
             TaskConflict(db.steps[r], input.receipt) || r !in db.settlements
             || !SameSettlement(db.settlements[r], EvidenceOf(db, r), input)
    requires Inv(db)
    ensures Inv(ConflictRows(db, input.receipt.request, HashOf(input), ContradictionRow(input, reason, now)))
  {
    hide Inv, StepView, Sound, EvidenceRowValid, ReceiptMalformed, AlreadyRecorded, TaskConflict, SameSettlement,
         HashOf, AboutStep, ConflictRows, CheckReceiptOwner, StepLinked, ContradictionRow;
    var r := input.receipt.request;
    var row := ContradictionRow(input, reason, now);
    OwnerChecked(db, input);
    SoundStep(db, r);
    ViewParts(db, r);
    var v := StepView(db, r);
    ConflictingRowValid(v, v.(evidence := v.evidence[HashOf(input) := row]), input, reason, now);
    if HashOf(input) in v.evidence {
      StoredIsConflict(db.accounts, v, input);
    }
    FreezeKeepsInv(db, r, HashOf(input), row);
  }

  lemma SettledHashStored(accounts: seq<Account>, v: GroupView)
    requires Sound(accounts, v)
    ensures v.settlement.Some? ==> v.settlement.value.hash in v.evidence
  {
  }

  /** Noting a receipt that is not final, or that is stored already, never needs a new row under the settled hash. */
  lemma NotedKeepsInv(db: Db, now: Millis, input: ReceiptInput)
    requires ReceiptFits(db, input)
    requires HashOf(input) in EvidenceOf(db, input.receipt.request) || !IsFinal(input.receipt.status)
    requires Inv(db)
    ensures Inv(InsertEvidence(db, input.receipt.request, HashOf(input), NoteRow(input, now)))
  {
    hide Inv, StepView, Sound, EvidenceRowValid, ReceiptMalformed, HashOf, AboutStep, CheckReceiptOwner, StepLinked,
         EvidenceOf, AlreadyRecorded;
    var r := input.receipt.request;
    OwnerChecked(db, input);
    SoundStep(db, r);
    ViewParts(db, r);
    if HashOf(input) !in EvidenceOf(db, r) {
      var v := StepView(db, r);
      SettledHashStored(db.accounts, v);
      PendingRowValid(v, v.(evidence := v.evidence[HashOf(input) := NoteRow(input, now)]), input, now);
      NoteKeepsInv(db, r, HashOf(input), NoteRow(input, now));
    }
  }

  lemma SuspendKeepsInv(db: Db, now: Millis, input: ReceiptInput)
    requires ReceiptFits(db, input) && !IsFinal(input.receipt.status)
    requires Unsettled(db.steps[input.receipt.request], db.reservations[db.steps[input.receipt.request].reservation])
    requires Inv(db)
    ensures Inv(SuspendRows(db, input.receipt.request, HashOf(input), NoteRow(input, now)))
  {
    hide Inv, StepView, Sound, ReceiptMalformed, HashOf, AboutStep, CheckReceiptOwner, Unsettled, EvidenceOf,
         AlreadyRecorded, NoteRow;
    OwnerChecked(db, input);
    NotedKeepsInv(db, now, input);
    MarkUnknownKeepsInv(InsertEvidence(db, input.receipt.request, HashOf(input), NoteRow(input, now)),
                        input.receipt.request);
  }

  lemma SettleRowsView(db: Db, now: Millis, input: ReceiptInput, v: GroupView, v': GroupView)
    requires StepLinked(db, input.receipt.request) && StepLinked(SettleRows(db, now, input), input.receipt.request)
    requires HashOf(input) !in EvidenceOf(db, input.receipt.request)
    requires LatestRevision(db, input.receipt.request) == Some(|RevisionsOf(db, input.receipt.request)|)
    requires v == StepView(db, input.receipt.request)
    requires v' == StepView(SettleRows(db, now, input), input.receipt.request)
    ensures var actual := ChargeOf(input.receipt);
            var debt := InDebt(CommitLedger(db, v.request, actual), v.reservation);
            var row := EvidenceFor(input, ReceiptRecord, Some(actual), None, now);
            v' == v.(step := v.step.(fin := FinSettled, actual := Some(actual)),
                     reservation := v.reservation.(state := HoldCommitted),
                     events := v.events + HoldEntries(db.accounts, v.reservation, CommitEvent, actual,
                                                      v.step.auth.hold - actual, Some(|v.history|)),
                     settlement := Some(NewSettlement(v.step, input, debt, now)),
                     evidence := v.evidence[HashOf(input) := row])
  {
    hide EventsOf, HoldEntries, LatestRevision, HashOf, EvidenceFor, ChargeOf, NewSettlement, OnlyTouched, InDebt,
         StepView;
    var r := input.receipt.request;
    var db' := SettleRows(db, now, input);
    var actual := ChargeOf(input.receipt);
    ViewParts(db, r);
    SettleRowsTouch(db, now, input);
    TouchedView(db, db', r);
    AppendHoldEntries(db.ledger, db.accounts, v.reservation, CommitEvent, actual, v.step.auth.hold - actual,
                      LatestRevision(db, r));
    InsertTouches(db, r, HashOf(input), EvidenceFor(input, ReceiptRecord, Some(actual), None, now));
  }

  lemma FinalNotStored(accounts: seq<Account>, v: GroupView, input: ReceiptInput)
    requires Sound(accounts, v) && AboutStep(input, v) && !ReceiptMalformed(input.receipt)
    requires !AlreadyRecorded(v.evidence, input) && v.settlement.None? && v.step.fin != FinConflict
    ensures HashOf(input) !in v.evidence
  {
    hide AlreadyRecorded, ReceiptMalformed, HashOf, AboutStep, EventsExact, HistoryValid, EvidenceRowValid;
    if HashOf(input) in v.evidence {
      StoredIsConflict(accounts, v, input);
    }
  }

  lemma SettleRowsSound(accounts: seq<Account>, v: GroupView, v': GroupView, input: ReceiptInput, debt: bool, now: Millis)
    requires Sound(accounts, v) && v.request == v.reservation.request && v.step.dispatched
    requires !ReceiptMalformed(input.receipt) && AboutStep(input, v) && IsFinal(input.receipt.status)
    requires HashOf(input) !in v.evidence && Unsettled(v.step, v.reservation) && !TaskConflict(v.step, input.receipt)
    requires v.step.kind == Video && input.receipt.status == Final ==> v.step.task.Some?
    requires var actual := ChargeOf(input.receipt);
             v' == v.(step := v.step.(fin := FinSettled, actual := Some(actual)),
                      reservation := v.reservation.(state := HoldCommitted),
                      events := v.events + HoldEntries(accounts, v.reservation, CommitEvent, actual,
                                                       v.step.auth.hold - actual, Some(|v.history|)),
                      settlement := Some(NewSettlement(v.step, input, debt, now)),
                      evidence := v.evidence[HashOf(input) :=
                                               EvidenceFor(input, ReceiptRecord, Some(actual), None, now)])
    ensures Sound(accounts, v')
  {
    hide EventsExact, HistoryValid, AccountsSound, EvidenceRowValid, SettlementValid, HashOf, HoldEntries, KindValid,
         LifecycleValid, TaskConflict, Blank, AboutStep;
    var s := NewSettlement(v.step, input, debt, now);
    SettlingRowValid(v, v', input, debt, now);
    SettledSound(accounts, v, v', HashOf(input), EvidenceFor(input, ReceiptRecord, Some(s.actual), None, now), s);
  }

  lemma SettleRowsKeepsInv(db: Db, now: Millis, input: ReceiptInput)
    requires CheckReceiptOwner(db, input).None?
    requires HashOf(input) !in EvidenceOf(db, input.receipt.request)
    requires Unsettled(db.steps[input.receipt.request], db.reservations[db.steps[input.receipt.request].reservation])
    requires !TaskConflict(db.steps[input.receipt.request], input.receipt)
    requires !ReceiptMalformed(input.receipt) && IsFinal(input.receipt.status)
    requires Inv(db)
    ensures Inv(SettleRows(db, now, input))
  {
    hide StepView, Sound, ReceiptMalformed, HashOf, AboutStep, CheckReceiptOwner, Unsettled, EvidenceOf,
         TaskConflict, SettleRows, HoldEntries, InDebt, NewSettlement, EvidenceFor, ChargeOf, LatestRevision,
         TablesSound, StepsSound, OnlyTouched, LedgerSound, ReferencesSound, BudgetIdsUnique;
    var r := input.receipt.request;
    OwnerChecked(db, input);
    var db' := SettleRows(db, now, input);
    SoundStep(db, r);
    ViewParts(db, r);
    LatestIsLength(db, r);
    SettleRowsTouch(db, now, input);
    TouchedView(db, db', r);
    var v, v' := StepView(db, r), StepView(db', r);
    SettleRowsView(db, now, input, v, v');
    SettleRowsSound(db.accounts, v, v', input, InDebt(CommitLedger(db, r, ChargeOf(input.receipt)), v.reservation), now);
    SettleRowsTables(db, now, input);
    TouchedKeepsInv(db, db', r);
  }

  lemma SettleRowsTables(db: Db, now: Millis, input: ReceiptInput)
    requires StepLinked(db, input.receipt.request) && TablesSound(db)
    ensures var db' := SettleRows(db, now, input);
            && db'.accounts == db.accounts
            && LedgerSound(db'.ledger, |db'.accounts|, |db'.reservations|)
            && ReferencesSound(db') && BudgetIdsUnique(db'.revisions)
  {
    hide HashOf, HoldEntries, InDebt, NewSettlement, EvidenceFor, ChargeOf, LatestRevision, LedgerSound,
         BudgetIdsUnique, TablesSound, EvidenceOf;
    SoundParts(db);
    var r := input.receipt.request;
    var actual := ChargeOf(input.receipt);
    RoundKeepsLedgerSound(db, db.reservations[db.steps[r].reservation], CommitEvent, actual,
                          db.steps[r].auth.hold - actual, LatestRevision(db, r));
  }

  lemma ChargeKeepsInv(db: Db, now: Millis, input: ReceiptInput)
    requires ReceiptFits(db, input) && IsFinal(input.receipt.status)
    requires !TaskConflict(db.steps[input.receipt.request], input.receipt)
    requires input.receipt.request !in db.settlements
    requires Unsettled(db.steps[input.receipt.request], db.reservations[db.steps[input.receipt.request].reservation])
    requires Inv(db)
    ensures Inv(SettleRows(db, now, input))
  {
    hide Inv, StepView, Sound, ReceiptMalformed, HashOf, CheckReceiptOwner, EvidenceOf, AlreadyRecorded, TaskConflict,
         SettleRows, AboutStep;
    OwnerChecked(db, input);
    SoundStep(db, input.receipt.request);
    ViewParts(db, input.receipt.request);
    FinalNotStored(db.accounts, StepView(db, input.receipt.request), input);
    SettleRowsKeepsInv(db, now, input);
  }

  lemma SettledHashKnown(db: Db, input: ReceiptInput)
    requires input.receipt.request in db.settlements
    requires SameSettlement(db.settlements[input.receipt.request], EvidenceOf(db, input.receipt.request), input)
    ensures HashOf(input) in EvidenceOf(db, input.receipt.request)
  {
  }

  /** Whatever a receipt says and whenever it comes. */
  lemma ApplyReceiptKeepsInv(db: Db, now: Millis, input: ReceiptInput)
    requires Inv(db)
    ensures Inv(ApplyReceipt(db, now, input).db)
  {
    hide Inv, ReceiptFits, HashOf, SettleRows, ConflictRows, InsertEvidence, SuspendRows, TaskConflict, SameSettlement,
         Unsettled, ReceiptCourse, EvidenceOf, SettledReplyFor;
    match ReceiptCourse(db, input)
    case Reject(_) =>
    case Answer(_) =>
    case Contradict(reason) => ContradictKeepsInv(db, now, input, reason);
    case Note(_) =>
      if IsFinal(input.receipt.status) {
        SettledHashKnown(db, input);
      }
      NotedKeepsInv(db, now, input);
    case Suspend => SuspendKeepsInv(db, now, input);
    case Charge => ChargeKeepsInv(db, now, input);
  }

  lemma MarkConflictKeepsInv(db: Db, now: Millis, input: ConflictInput)
    requires Inv(db)
    ensures Inv(MarkConflict(db, now, input).db)
  {
    hide Inv, StepView, Sound, EvidenceRowValid, ConflictRows, Blank, BlankHash, ConflictVerdict;
    if ConflictVerdict(db, input).Proceed? {
      var r := input.request;
      SoundStep(db, r);
      ViewParts(db, r);
      var v := StepView(db, r);
      ReportedRowValid(v, v.(evidence := v.evidence[input.hash := ReportedRow(input, now)]), input, now);
      FreezeKeepsInv(db, r, input.hash, ReportedRow(input, now));
    }
  }
}
