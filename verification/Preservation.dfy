/** Every transaction of the V2 ledger keeps the invariant. */
module Preservation {
  import opened Wrappers
  import opened Model
  import opened RequestStates
  import opened Ledger
  import opened EventGroup
  import opened Billing
  import opened Settling
  import opened Grants
  import opened Invariant
  import opened Frame
  import opened Text

  // Parts of soundness, by the rows they read

  lemma HistoryFollowsAuthorization(v: GroupView, v': GroupView)
    requires HistoryValid(v)
    requires v'.history == v.history && v'.request == v.request && v'.step.operation == v.step.operation
    requires v'.step.auth == v.step.auth && v'.reservation.amount == v.reservation.amount
    ensures HistoryValid(v')
  {
    forall i | 0 <= i < |v'.history|
      ensures RevisionRowValid(v', i)
    {
      assert RevisionRowValid(v, i);
    }
  }

  lemma EvidenceFollowsReceipts(v: GroupView, v': GroupView)
    requires EvidenceSound(v)
    requires v'.evidence == v.evidence && v'.settlement == v.settlement && v'.request == v.request
    requires v'.step.auth == v.step.auth && v'.step.fin == v.step.fin && v'.step.kind == v.step.kind
    requires v'.reservation.state == v.reservation.state
    requires v'.step.task == v.step.task || v.step.task.None?
    ensures EvidenceSound(v')
  {
    forall hash | hash in v'.evidence
      ensures EvidenceRowValid(v', hash)
    {
      assert EvidenceRowValid(v, hash);
    }
  }

  lemma EventsFollowHold(accounts: seq<Account>, v: GroupView, v': GroupView)
    requires |v.history| > 0 && EventsExact(accounts, v)
    requires v'.events == v.events && v'.history == v.history && v'.request == v.request
    requires AccountsOf(v'.reservation) == AccountsOf(v.reservation)
    requires v'.reservation.userCap == v.reservation.userCap
    requires v'.reservation.user == v.reservation.user && v'.reservation.key == v.reservation.key
    requires Closing(v') == Closing(v) && v'.step.auth == v.step.auth && v'.step.actual == v.step.actual
    ensures EventsExact(accounts, v')
  {
    forall slot: nat, i: nat | slot < SlotCount(v') && i < |AccountsOf(v'.reservation)|
      ensures SlotExact(accounts, v', slot, i)
    {
      assert SlotExact(accounts, v, slot, i);
    }
  }

  // Moves of request, operation and preparation states

  /** No row the invariant reads differs, but for a preparation that may have been admitted. */
  ghost predicate OnlyStatesMoved(db: Db, db': Db) {
    && IdentitiesKept(db, db') && OperationsKept(db, db')
    && AdmissionsKept(db, db')
    && db'.accounts == db.accounts
    && db'.steps == db.steps
    && db'.reservations == db.reservations
    && db'.ledger == db.ledger
    && db'.revisions == db.revisions
    && db'.evidence == db.evidence
    && db'.settlements == db.settlements
  }

  lemma OnlyStatesMovedElsewhere(db: Db, db': Db)
    requires OnlyStatesMoved(db, db')
    ensures Elsewhere(db, db', {}) && db'.steps == db.steps
  {
  }

  lemma OnlyStatesMovedTables(db: Db, db': Db)
    requires TablesSound(db) && OnlyStatesMoved(db, db')
    ensures TablesSound(db')
  {
  }

  lemma OnlyStatesMovedKeepsInv(db: Db, db': Db)
    requires Inv(db) && OnlyStatesMoved(db, db')
    ensures Inv(db')
  {
    hide TablesSound, Elsewhere, StepsSound, OnlyStatesMoved;
    OnlyStatesMovedElsewhere(db, db');
    OnlyStatesMovedTables(db, db');
    InvFromParts(db, db', {});
  }

  lemma SyncKeepsInv(db: Db, r: Id, terminal: ExecState)
    requires Inv(db) && Terminal(terminal) && SyncedState(db, r, terminal).Ok?
    ensures Inv(SyncRows(db, r, terminal))
  {
    hide Inv, SyncAssist, Terminal;
    OnlyStatesMovedKeepsInv(db, SyncRows(db, r, terminal));
  }

  // Transactions that only move execution facts

  /** Only the step's row, request states and operation states differ. */
  ghost predicate OnlyStepMoved(db: Db, db': Db, r: Id, step': Step) {
    && r in db.steps
    && db'.steps == db.steps[r := step']
    && IdentitiesKept(db, db') && OperationsKept(db, db')
    && db'.preparations == db.preparations
    && db'.accounts == db.accounts
    && db'.reservations == db.reservations
    && db'.ledger == db.ledger
    && db'.revisions == db.revisions
    && db'.evidence == db.evidence
    && db'.settlements == db.settlements
  }

  lemma OnlyStepMovedElsewhere(db: Db, db': Db, r: Id, step': Step)
    requires OnlyStepMoved(db, db', r, step')
    ensures Elsewhere(db, db', {r})
  {
  }

  lemma OnlyStepMovedTables(db: Db, db': Db, r: Id, step': Step)
    requires TablesSound(db) && OnlyStepMoved(db, db', r, step')
    requires step'.operation == db.steps[r].operation && step'.reservation == db.steps[r].reservation
    ensures TablesSound(db')
  {
    hide AccountsShaped, ReservationsSound, LedgerSound, BudgetIdsUnique;
  }

  lemma OnlyStepMovedView(db: Db, db': Db, r: Id, step': Step)
    requires OnlyStepMoved(db, db', r, step') && StepLinked(db, r)
    requires step'.operation == db.steps[r].operation && step'.reservation == db.steps[r].reservation
    ensures StepLinked(db', r) && StepView(db', r) == StepView(db, r).(step := step')
  {
  }

  lemma OnlyStepMovedKeepsInv(db: Db, db': Db, r: Id, step': Step)
    requires Inv(db) && OnlyStepMoved(db, db', r, step')
    requires step'.operation == db.steps[r].operation && step'.reservation == db.steps[r].reservation
    requires StepLinked(db, r) && Sound(db.accounts, StepView(db, r).(step := step'))
    ensures Inv(db')
  {
    hide Sound, TablesSound, Elsewhere, StepsSound, StepView;
    OnlyStepMovedElsewhere(db, db', r, step');
    OnlyStepMovedTables(db, db', r, step');
    OnlyStepMovedView(db, db', r, step');
    InvFromParts(db, db', {r});
  }

  /** Soundness of the money rows does not depend on execution facts, once the receipts agree with them. */
  lemma StepFactsIrrelevant(accounts: seq<Account>, v: GroupView, step': Step)
    requires Sound(accounts, v)
    requires step' == v.step.(exec := step'.exec, dispatched := step'.dispatched, task := step'.task)
    requires step'.dispatched == v.step.dispatched || (step'.dispatched && v.step.fin == FinHeld)
    requires step'.task == v.step.task || v.step.task.None?
    ensures Sound(accounts, v.(step := step'))
  {
    var v' := v.(step := step');
    HistoryFollowsAuthorization(v, v');
    EvidenceFollowsReceipts(v, v');
    EventsFollowHold(accounts, v, v');
  }

  /** The step's row may take new execution facts, as long as soundness does not depend on them. */
  lemma StepFactsKeepInv(db: Db, db': Db, r: Id, step': Step)
    requires Inv(db) && OnlyStepMoved(db, db', r, step')
    requires step' == db.steps[r].(exec := step'.exec, dispatched := step'.dispatched, task := step'.task)
    requires step'.dispatched == db.steps[r].dispatched || (step'.dispatched && db.steps[r].fin == FinHeld)
    requires step'.task == db.steps[r].task || db.steps[r].task.None?
    ensures Inv(db')
  {
    hide Inv, Sound, StepView, OnlyStepMoved;
    StepMovedHere(db, db', r, step');
    SoundStep(db, r);
    ViewParts(db, r);
    StepFactsIrrelevant(db.accounts, StepView(db, r), step');
    OnlyStepMovedKeepsInv(db, db', r, step');
  }

  lemma StepMovedHere(db: Db, db': Db, r: Id, step': Step)
    requires OnlyStepMoved(db, db', r, step')
    ensures r in db.steps
  {
  }

  lemma DispatchKeepsInv(db: Db, now: Millis, request: Id, expected: Id)
    requires Inv(db)
    ensures Inv(Dispatch(db, now, request, expected).db)
  {
    hide Inv, DispatchVerdict;
    if DispatchVerdict(db, now, request, expected).Proceed? {
      var step' := db.steps[request].(dispatched := true, exec := ExecRunning);
      StepFactsKeepInv(db, DispatchRows(db, request), request, step');
    }
  }

  lemma MarkRowsKeepInv(db: Db, request: Id, next: ExecState)
    requires Inv(db) && request in db.steps && db.steps[request].operation in db.operations
    ensures Inv(MarkRows(db, request, next))
  {
    hide Inv;
    StepFactsKeepInv(db, MarkRows(db, request, next), request, db.steps[request].(exec := next));
  }

  lemma MarkExecutionKeepsInv(db: Db, request: Id, next: ExecState)
    requires Inv(db)
    ensures Inv(MarkExecution(db, request, next).db)
  {
    hide Inv, MarkVerdict, MarkRows, Terminal, SyncRows;
    if MarkVerdict(db, request, next).Proceed? {
      if SyncsOnMark(db.steps[request], next) {
        SyncKeepsInv(db, request, next);
        MarkRowsKeepInv(SyncRows(db, request, next), request, next);
      } else {
        MarkRowsKeepInv(db, request, next);
      }
    }
  }

  lemma FinishKeepsInv(db: Db, parent: Id, terminal: ExecState)
    requires Inv(db)
    ensures Inv(Finish(db, parent, terminal).db)
  {
    hide Inv, FinishVerdict, FinishParent, Terminal;
    if FinishVerdict(db, parent, terminal).Proceed? {
      OnlyStatesMovedKeepsInv(db, Finish(db, parent, terminal).db);
    }
  }

  /** Binding a task changes nothing the ledger rests on, even of a settled step; only the check may mind. */
  lemma BindKeepsInv(db: Db, request: Id, task: Id)
    requires Inv(db)
    ensures Inv(Bind(db, request, task).db)
  {
    hide Inv, BindVerdict;
    if BindVerdict(db, request, task).Proceed? {
      StepFactsKeepInv(db, BindRows(db, request, task), request, db.steps[request].(task := Some(task)));
    }
  }

  // Releasing

  lemma ReleaseSound(accounts: seq<Account>, v: GroupView, v': GroupView, exec: ExecState, reason: string)
    requires Sound(accounts, v) && v.request == v.reservation.request
    requires v.step.fin == FinHeld && !v.step.dispatched && v.reservation.state == HoldHeld && reason != ""
    requires v' == v.(step := v.step.(fin := FinReleased, exec := exec, releaseReason := Some(reason)),
                      reservation := v.reservation.(state := HoldReleased),
                      events := v.events + HoldEntries(accounts, v.reservation, ReleaseEvent, v.reservation.amount,
                                                       v.reservation.amount, Some(|v.history|)))
    ensures Sound(accounts, v')
  {
    ClosingRoundExact(accounts, v, v', ReleaseEvent, v.reservation.amount, v.reservation.amount);
    HistoryFollowsAuthorization(v, v');
  }

  lemma ReleaseRowsTouch(db: Db, request: Id, reason: string)
    requires StepLinked(db, request)
    ensures OnlyTouched(db, ReleaseRows(db, request, reason), request)
  {
    hide EventsOf, HoldEntries, LatestRevision;
    var hold := db.reservations[db.steps[request].reservation];
    AppendHoldEntries(db.ledger, db.accounts, hold, ReleaseEvent, hold.amount, hold.amount, LatestRevision(db, request));
  }

  lemma LatestIsLength(db: Db, r: Id)
    requires StepLinked(db, r) && Sound(db.accounts, StepView(db, r))
    ensures |RevisionsOf(db, r)| > 0 && LatestRevision(db, r) == Some(|RevisionsOf(db, r)|)
  {
    ViewParts(db, r);
    var v := StepView(db, r);
    assert RevisionRowValid(v, |v.history| - 1);
  }

  /** The ledger stays well referenced when a hold of the same database gets one more round. */
  lemma RoundKeepsLedgerSound(db: Db, hold: Reservation, kind: EventKind, amount: int, delta: int, revision: Option<int>)
    requires TablesSound(db) && hold in db.reservations && kind != GrantEvent
    ensures LedgerSound(db.ledger + HoldEntries(db.accounts, hold, kind, amount, delta, revision),
                        |db.accounts|, |db.reservations|)
  {
    hide HoldEntries;
    AppendedEntriesSound(db.ledger, db.accounts, hold, kind, amount, delta, revision,
                         |db.accounts|, |db.reservations|, |db.accounts|, |db.reservations|);
  }

  lemma ReleaseRowsKeepsInv(db: Db, request: Id, reason: string)
    requires Inv(db) && request in db.steps && StepLinked(db, request)
    requires db.steps[request].fin == FinHeld && !db.steps[request].dispatched && reason != ""
    requires db.reservations[db.steps[request].reservation].state == HoldHeld
    ensures Inv(ReleaseRows(db, request, reason))
  {
    hide Sound, StepView, OnlyTouched, StepsSound, EventsOf, LedgerSound, BudgetIdsUnique, HoldEntries, ReservationsSound;
    var db' := ReleaseRows(db, request, reason);
    SoundStep(db, request);
    ViewParts(db, request);
    ReleaseRowsTouch(db, request, reason);
    TouchedView(db, db', request);
    LatestIsLength(db, request);
    var v, v' := StepView(db, request), StepView(db', request);
    var amount := v.reservation.amount;
    AppendHoldEntries(db.ledger, db.accounts, v.reservation, ReleaseEvent, amount, amount, LatestRevision(db, request));
    ReleaseSound(db.accounts, v, v', v'.step.exec, reason);
    RoundKeepsLedgerSound(db, v.reservation, ReleaseEvent, amount, amount, LatestRevision(db, request));
    TouchedKeepsInv(db, db', request);
  }

  lemma ReleaseKeepsInv(db: Db, request: Id, reason: string)
    requires Inv(db)
    ensures Inv(Release(db, request, reason).db)
  {
    hide Inv, ReleaseRows, ReleaseVerdict, SyncRows, StepLinked, Trim;
    if ReleaseVerdict(db, request, reason).Proceed? {
      var synced := db;
      if SyncsOnRelease(db.steps[request]) {
        SyncKeepsInv(db, request, ExecCanceled);
        synced := SyncRows(db, request, ExecCanceled);
      }
      SoundStep(synced, request);
      ReleaseRowsKeepsInv(synced, request, Trim(reason));
    }
  }
}
