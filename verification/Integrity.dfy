/**
  The integrity check over whole runs. One transaction can break an event group: it binds a task to a video
  that a receipt has already settled without charge. Every run without that step passes the check throughout.
 */
module Integrity {
  import opened Wrappers
  import opened Model
  import opened RequestStates
  import opened Ledger
  import opened EventGroup
  import opened Billing
  import opened Settling
  import opened Grants
  import opened Invariant
  import opened Preservation
  import opened ReceiptPreservation
  import opened AdmissionPreservation
  import opened Runs
  import opened Tables
  import opened Finality
  import opened Slots
  import opened Text

  // The one transaction that can break an event group

  /** A task is about to be bound to a step that a receipt has already settled. */
  predicate BindsSettled(db: Db, action: Action) {
    && action.BindTask? && !Blank(action.task)
    && action.request in db.settlements && action.request in db.steps
    && var step := db.steps[action.request];
       step.kind == Video && step.dispatched && step.task.None? && step.exec != ExecFailed && step.exec != ExecCanceled
  }

  /** The guards of the bind do not look at settlements: these are the binds of settled steps that take effect. */
  lemma SettledBindTakesEffect(db: Db, request: Id, task: Id)
    ensures BindsSettled(db, BindTask(request, task))
            <==> request in db.settlements && Bind(db, request, task).reply == Ok(Applied)
  {
    hide Blank;
  }

  /** A settled step that can still be given a task is a video step settled without charge. */
  lemma SettledWithoutTask(db: Db, request: Id, task: Id)
    requires Inv(db) && BindsSettled(db, BindTask(request, task))
    ensures var v := StepView(db, request);
            && v.settlement.Some? && v.step.kind == Video && v.step.task.None?
            && v.settlement.value.hash in v.evidence
            && v.evidence[v.settlement.value.hash].kind == ReceiptRecord
            && v.evidence[v.settlement.value.hash].status == Some(FailedNoCharge)
            && v.step.actual == Some(0)
  {
    hide StepView, TablesSound, StepsSound, EventsExact, HistoryValid, AccountsSound, Blank, HasConflictRow;
    SoundStep(db, request);
    ViewParts(db, request);
    var v := StepView(db, request);
    assert EvidenceRowValid(v, v.settlement.value.hash);
  }

  /** The integrity check accepts the reservation of this step. */
  predicate StepPasses(db: Db, request: Id) {
    && request in db.steps
    && db.steps[request].reservation < |db.reservations|
    && GroupValid(db, db.steps[request].reservation)
  }

  /** What the check demands of a step's task: a video that was settled without charge has none. */
  predicate TaskFits(db: Db, r: Id)
    requires r in db.steps
  {
    r in db.settlements && db.steps[r].kind == Video && SettledFree(EvidenceOf(db, r), db.settlements[r].hash) ==>
      db.steps[r].task.None?
  }

  predicate SettledFree(rows: map<EvidenceHash, Evidence>, hash: EvidenceHash) {
    hash in rows && rows[hash].kind == ReceiptRecord && rows[hash].status == Some(FailedNoCharge)
  }

  /** In a sound state that demand is all the check can still refuse. */
  lemma PassesIffTaskFits(db: Db, r: Id)
    requires Inv(db) && r in db.steps
    ensures StepPasses(db, r) <==> TaskFits(db, r)
  {
    hide Inv, GroupValid, StepView, Sound, EvidenceOf;
    SoundStep(db, r);
    ViewParts(db, r);
    InvIsValid(db, r);
    FitsIffAgree(StepView(db, r));
  }

  lemma FitsIffAgree(v: GroupView)
    ensures TasksAgree(v)
            <==> (v.settlement.Some? && v.step.kind == Video && SettledFree(v.evidence, v.settlement.value.hash) ==>
                    v.step.task.None?)
  {
    if v.settlement.Some? && v.settlement.value.hash in v.evidence {
      assert TasksAgree(v) ==> TaskAgrees(v, v.settlement.value.hash);
    }
  }

  lemma BoundAfterNoCharge(db: Db, request: Id, task: Id)
    requires Inv(db) && BindsSettled(db, BindTask(request, task))
    ensures !StepPasses(Bind(db, request, task).db, request)
  {
    hide Inv, StepPasses, StepView, EvidenceOf;
    SoundStep(db, request);
    ViewParts(db, request);
    SettledWithoutTask(db, request, task);
    SettledBindTakesEffect(db, request, task);
    BindKeepsInv(db, request, task);
    var db' := Bind(db, request, task).db;
    SameEvidence(db, db', request);
    PassesIffTaskFits(db', request);
  }

  /** Any other bind leaves everything as it was, or is of a step that is not settled. */
  lemma OtherBinds(db: Db, request: Id, task: Id)
    requires !BindsSettled(db, BindTask(request, task)) && request in db.steps
    ensures var db' := Bind(db, request, task).db;
            db' == db || (request in db'.steps && request !in db.settlements && db'.settlements == db.settlements)
  {
    hide Blank;
  }

  lemma UnsettledFits(db: Db, r: Id)
    requires r in db.steps && r !in db.settlements
    ensures TaskFits(db, r)
  {
  }

  /**
    Exactly when binding a task leaves an event group that passes: when it passed before and the bind does not
    take effect on a settled step. The transaction does not refuse that case.
   */
  lemma BindValidIff(db: Db, request: Id, task: Id)
    requires Inv(db) && request in db.steps
    ensures StepPasses(Bind(db, request, task).db, request)
            <==> StepPasses(db, request) && !BindsSettled(db, BindTask(request, task))
  {
    hide Inv, StepPasses, Bind, BindsSettled, TaskFits;
    var db' := Bind(db, request, task).db;
    if BindsSettled(db, BindTask(request, task)) {
      BoundAfterNoCharge(db, request, task);
    } else {
      OtherBinds(db, request, task);
      if db' != db {
        BindKeepsInv(db, request, task);
        UnsettledFits(db, request);
        UnsettledFits(db', request);
        PassesIffTaskFits(db, request);
        PassesIffTaskFits(db', request);
      }
    }
  }

  // Tasks and settlements, transaction by transaction

  /** Nothing is settled, and no step is given a task. */
  ghost predicate TasksKept(db: Db, db': Db) {
    && db'.settlements == db.settlements
    && forall r | r in db.steps ::
         r in db'.steps && (db'.steps[r].task == db.steps[r].task || db'.steps[r].task.None?)
  }

  lemma SameStepsKeepTasks(db: Db, db': Db)
    requires db'.settlements == db.settlements && db'.steps == db.steps
    ensures TasksKept(db, db')
  {
  }

  lemma BeginKeepsTasks(db: Db, now: Millis, parent: Id, kind: StepKind, auth: Authorization)
    ensures TasksKept(db, Begin(db, now, parent, kind, auth).db)
  {
    hide BeginVerdict, HoldFor, NewStepRows, Opened, CheckPreparation, CheckIdentity, AdmissionCount, KeyBlockedIn,
         BudgetIdUsed, Blank, MinAvailable;
    if BeginVerdict(db, now, parent, kind, auth).Proceed? {
      OpenedShape(db, parent, auth.key);
      var opened' := Opened(db, parent, auth.key);
      NewStepShape(opened', now, parent, kind, auth, BeginHold(db, parent, auth).value);
      NewStepSteps(opened', now, parent, kind, auth, BeginHold(db, parent, auth).value);
    }
  }

  lemma AddKeepsTasks(db: Db, now: Millis, parent: Id, kind: StepKind, auth: Authorization)
    ensures TasksKept(db, Add(db, now, parent, kind, auth).db)
  {
    hide AddVerdict, HoldFor, NewStepRows, KeyBlockedIn, BudgetIdUsed, Blank, MinAvailable, Terminal;
    if AddVerdict(db, now, parent, kind, auth).Proceed? {
      NewStepShape(db, now, parent, kind, auth, BeginHold(db, parent, auth).value);
      NewStepSteps(db, now, parent, kind, auth, BeginHold(db, parent, auth).value);
    }
  }

  lemma RefreshRowsKeepTasks(
    db: Db, now: Millis, request: Id, expectedOld: Id, replacement: Authorization, proof: Proof)
    requires request in db.steps && db.steps[request].reservation < |db.reservations|
    requires AccountsKnown(db.accounts, AccountsOf(db.reservations[db.steps[request].reservation]))
    ensures TasksKept(db, RefreshRows(db, now, request, expectedOld, replacement, proof))
  {
    hide HoldEntries, AdvanceAll, NextRevision, RevisionsOf, Abs, AccountsOf, AccountsKnown;
  }

  lemma RefreshKeepsTasks(db: Db, now: Millis, request: Id, expectedOld: Id, replacement: Authorization, proof: Proof)
    ensures TasksKept(db, Refresh(db, now, request, expectedOld, replacement, proof).db)
  {
    hide RefreshVerdict, RefreshRows, TasksKept;
    SameStepsKeepTasks(db, db);
    if RefreshVerdict(db, now, request, expectedOld, replacement, proof).Proceed? {
      RefreshRowsKeepTasks(db, now, request, expectedOld, replacement, proof);
    }
  }

  lemma DispatchKeepsTasks(db: Db, now: Millis, request: Id, expected: Id)
    ensures TasksKept(db, Dispatch(db, now, request, expected).db)
  {
    hide DispatchVerdict, KeyBlockedIn, Terminal;
  }

  lemma ReleaseRowsKeepTasks(db: Db, request: Id, reason: string)
    requires request in db.steps && db.steps[request].reservation < |db.reservations|
    ensures TasksKept(db, ReleaseRows(db, request, reason))
  {
    hide HoldEntries, LatestRevision;
  }

  lemma ReleaseKeepsTasks(db: Db, request: Id, reason: string)
    ensures TasksKept(db, Release(db, request, reason).db)
  {
    hide ReleaseVerdict, ReleaseRows, Trim, SyncRows;
    if ReleaseVerdict(db, request, reason).Proceed? {
      var synced := if SyncsOnRelease(db.steps[request]) then SyncRows(db, request, ExecCanceled) else db;
      ReleaseRowsKeepTasks(synced, request, Trim(reason));
    }
  }

  lemma MarkKeepsTasks(db: Db, request: Id, next: ExecState)
    ensures TasksKept(db, MarkExecution(db, request, next).db)
  {
    hide MarkVerdict, SyncRows, Terminal;
  }

  lemma FinishKeepsTasks(db: Db, parent: Id, terminal: ExecState)
    ensures TasksKept(db, Finish(db, parent, terminal).db)
  {
    hide FinishVerdict, FinishParent, Terminal, AllStepsTerminal;
  }

  lemma InsertKeepsTasks(db: Db, r: Id, hash: EvidenceHash, row: Evidence)
    ensures TasksKept(db, InsertEvidence(db, r, hash, row))
  {
    hide InsertEvidence;
    InsertShape(db, r, hash, row);
  }

  lemma ConflictRowsKeepTasks(db: Db, r: Id, hash: EvidenceHash, row: Evidence)
    requires r in db.steps
    ensures TasksKept(db, ConflictRows(db, r, hash, row))
  {
    hide InsertEvidence;
    InsertShape(db, r, hash, row);
  }

  lemma SuspendRowsKeepTasks(db: Db, r: Id, hash: EvidenceHash, row: Evidence)
    requires r in db.steps && db.steps[r].reservation < |db.reservations|
    ensures TasksKept(db, SuspendRows(db, r, hash, row))
  {
    hide InsertEvidence;
    InsertShape(db, r, hash, row);
  }

  /** Only a charge settles. */
  lemma ReceiptKeepsTasks(db: Db, now: Millis, input: ReceiptInput)
    requires !ReceiptCourse(db, input).Charge?
    ensures TasksKept(db, ApplyReceipt(db, now, input).db)
  {
    hide ReceiptCourse, ReceiptFits, TaskConflict, SameSettlement, Unsettled, InsertEvidence, HashOf, NoteRow,
         ContradictionRow, ConflictRows, SettledReplyFor, AccountsOf, AccountsKnown, EvidenceOf, IsFinal, SuspendRows,
         TasksKept, SettleRows;
    var r, course := input.receipt.request, ReceiptCourse(db, input);
    SameStepsKeepTasks(db, db);
    if course.Note? {
      InsertKeepsTasks(db, r, HashOf(input), NoteRow(input, now));
    } else if course.Contradict? {
      CourseStep(db, input);
      ConflictRowsKeepTasks(db, r, HashOf(input), ContradictionRow(input, course.reason, now));
    } else if course.Suspend? {
      CourseStep(db, input);
      SuspendRowsKeepTasks(db, r, HashOf(input), NoteRow(input, now));
    }
  }

  lemma ConflictKeepsTasks(db: Db, now: Millis, input: ConflictInput)
    ensures TasksKept(db, MarkConflict(db, now, input).db)
  {
    hide ConflictVerdict, ConflictRows, Blank, BlankHash, EvidenceOf, TasksKept;
    SameStepsKeepTasks(db, db);
    if ConflictVerdict(db, input).Proceed? {
      ConflictRowsKeepTasks(db, input.request, input.hash, ReportedRow(input, now));
    }
  }

  lemma NextKeepsTasks(db: Db, action: Action, db': Db)
    requires Next(db, action, db') && !action.BindTask?
    requires action.DeliverReceipt? ==> !ReceiptCourse(db, action.input).Charge?
    ensures TasksKept(db, db')
  {
    hide Begin, Add, Refresh, Release, ApplyReceipt, MarkConflict, Dispatch, MarkExecution, Finish, ReceiptCourse,
         GrantKey, GrantPool, Allocate, AllocateFromPool, DeleteKey, TasksKept;
    match action
    case BeginOperation(now, parent, kind, auth) => BeginKeepsTasks(db, now, parent, kind, auth);
    case AddStep(now, parent, kind, auth) => AddKeepsTasks(db, now, parent, kind, auth);
    case RefreshAuthorization(now, request, expectedOld, replacement, proof) =>
      RefreshKeepsTasks(db, now, request, expectedOld, replacement, proof);
    case DispatchStep(now, request, expected) => DispatchKeepsTasks(db, now, request, expected);
    case ReleaseStep(request, reason) => ReleaseKeepsTasks(db, request, reason);
    case MarkStep(request, next) => MarkKeepsTasks(db, request, next);
    case FinishOperation(parent, terminal) => FinishKeepsTasks(db, parent, terminal);
    case DeliverReceipt(now, input) => ReceiptKeepsTasks(db, now, input);
    case ReportConflict(now, conflict) => ConflictKeepsTasks(db, now, conflict);
    case OtherWork => SameStepsKeepTasks(db, db');
    case _ =>
      AdministrativeShape(db, action, db');
      SameStepsKeepTasks(db, db');
  }

  // Tasks fit, in every run without a late bind

  ghost predicate TasksFit(db: Db) {
    forall r | r in db.steps :: TaskFits(db, r)
  }

  /** A step settled before is still settled the same way. */
  lemma SettledStaysFit(db: Db, db': Db, r: Id)
    requires Advances(db, db') && r in db.steps && r in db.settlements && TaskFits(db, r)
    requires db.settlements[r].hash in EvidenceOf(db, r)
    requires r in db'.steps && (db'.steps[r].task == db.steps[r].task || db'.steps[r].task.None?)
    ensures TaskFits(db', r)
  {
    hide StepHoldsAdvance, OperationsAdvance, RevisionsOf, EvidenceOf, Terminal;
    assert StepRowsAdvance(db, db', r);
  }

  lemma SettledStored(db: Db, r: Id)
    requires Inv(db) && r in db.settlements
    ensures r in db.steps && db.settlements[r].hash in EvidenceOf(db, r)
  {
    hide StepView, EventsExact, HistoryValid, AccountsSound, StepsSound, ReservationsSound, LedgerSound,
         BudgetIdsUnique;
    SoundStep(db, r);
    ViewParts(db, r);
    SettledHashStored(db.accounts, StepView(db, r));
  }

  lemma KeptTasksFit(db: Db, db': Db)
    requires TasksFit(db) && TasksKept(db, db') && Advances(db, db')
    requires Inv(db)
    ensures TasksFit(db')
  {
    hide Inv, Advances, TaskFits, EvidenceOf;
    forall r | r in db'.steps
      ensures TaskFits(db', r)
    {
      if r in db.settlements {
        SettledStored(db, r);
        SettledStaysFit(db, db', r);
      } else {
        UnsettledFits(db', r);
      }
    }
  }

  lemma BindKeepsFit(db: Db, request: Id, task: Id)
    requires TasksFit(db) && !BindsSettled(db, BindTask(request, task))
    ensures TasksFit(Bind(db, request, task).db)
  {
    hide TaskFits, Blank, EvidenceOf;
    var db' := Bind(db, request, task).db;
    forall r | r in db'.steps
      ensures TaskFits(db', r)
    {
      if r !in db'.settlements {
        UnsettledFits(db', r);
      } else {
        SameRowFits(db, db', r);
      }
    }
  }

  lemma SameRowFits(db: Db, db': Db, r: Id)
    requires r in db.steps && r in db'.steps && db'.steps[r] == db.steps[r] && TaskFits(db, r)
    requires db'.settlements == db.settlements && db'.evidence == db.evidence
    ensures TaskFits(db', r)
  {
  }

  /** The receipt that settles a video without charge finds it without a task. */
  lemma ChargeFits(db: Db, now: Millis, input: ReceiptInput)
    requires ReceiptCourse(db, input).Charge?
    requires HashOf(input) !in EvidenceOf(db, input.receipt.request)
    requires input.receipt.request in ApplyReceipt(db, now, input).db.steps
    ensures TaskFits(ApplyReceipt(db, now, input).db, input.receipt.request)
  {
    hide ReceiptCourse, HoldEntries, InDebt, ChargeOf, LatestRevision, ReceiptFits, Unsettled, AccountsKnown, HashOf,
         SettledReplyFor, EvidenceOf, InsertEvidence;
    CourseStep(db, input);
    var r, db' := input.receipt.request, ApplyReceipt(db, now, input).db;
    var row := EvidenceFor(input, ReceiptRecord, Some(ChargeOf(input.receipt)), None, now);
    InsertTouches(db, r, HashOf(input), row);
    SameEvidence(InsertEvidence(db, r, HashOf(input), row), db', r);
  }

  lemma ChargeElsewhere(db: Db, now: Millis, input: ReceiptInput, r: Id)
    requires ReceiptCourse(db, input).Charge? && r != input.receipt.request
    ensures var db' := ApplyReceipt(db, now, input).db;
            && (r in db'.steps ==> r in db.steps && db'.steps[r] == db.steps[r])
            && (r in db'.settlements ==> r in db.settlements)
  {
    hide ReceiptCourse, HoldEntries, InDebt, ChargeOf, LatestRevision, ReceiptFits, Unsettled, AccountsKnown, HashOf,
         SettledReplyFor, EvidenceOf, InsertEvidence;
    CourseStep(db, input);
    var row := EvidenceFor(input, ReceiptRecord, Some(ChargeOf(input.receipt)), None, now);
    InsertShape(db, input.receipt.request, HashOf(input), row);
  }

  lemma ChargeNotStored(db: Db, input: ReceiptInput)
    requires ReceiptCourse(db, input).Charge?
    requires Inv(db)
    ensures input.receipt.request !in db.settlements
    ensures HashOf(input) !in EvidenceOf(db, input.receipt.request)
  {
    hide Inv, StepView, Sound, ReceiptMalformed, HashOf, CheckReceiptOwner, EvidenceOf, AlreadyRecorded, TaskConflict,
         AboutStep, ReceiptCourse, AccountsKnown;
    OwnerChecked(db, input);
    SoundStep(db, input.receipt.request);
    ViewParts(db, input.receipt.request);
    FinalNotStored(db.accounts, StepView(db, input.receipt.request), input);
  }

  lemma ChargeKeepsFit(db: Db, now: Millis, input: ReceiptInput)
    requires TasksFit(db) && ReceiptCourse(db, input).Charge?
    requires Inv(db)
    ensures TasksFit(ApplyReceipt(db, now, input).db)
  {
    hide Inv, Advances, TaskFits, EvidenceOf, ReceiptCourse, ApplyReceipt, HashOf;
    var db' := ApplyReceipt(db, now, input).db;
    ChargeNotStored(db, input);
    ReceiptAdvances(db, now, input);
    forall r | r in db'.steps
      ensures TaskFits(db', r)
    {
      if r == input.receipt.request {
        ChargeFits(db, now, input);
      } else {
        ChargeElsewhere(db, now, input, r);
        if r in db'.settlements {
          SettledStored(db, r);
          SettledStaysFit(db, db', r);
        } else {
          UnsettledFits(db', r);
        }
      }
    }
  }

  lemma NextKeepsFit(db: Db, action: Action, db': Db)
    requires Next(db, action, db') && TasksFit(db) && !BindsSettled(db, action)
    requires Inv(db)
    ensures TasksFit(db')
  {
    hide Inv, TasksFit, TasksKept, Advances, BindsSettled, Bind, ReceiptCourse, ApplyReceipt, OtherWorkDone, Begin, Add,
         Refresh, Release, MarkConflict, Dispatch, MarkExecution, Finish, GrantKey, GrantPool, Allocate;
    if action.BindTask? {
      BindKeepsFit(db, action.request, action.task);
    } else if action.DeliverReceipt? && ReceiptCourse(db, action.input).Charge? {
      ChargeKeepsFit(db, action.now, action.input);
    } else {
      NextKeepsTasks(db, action, db');
      NextAdvances(db, action, db');
      KeptTasksFit(db, db');
    }
  }

  /** The side condition under which the check holds: the caller never binds a task to a settled step. */
  ghost predicate NoLateBind(states: seq<Db>, actions: seq<Action>)
    requires |states| == |actions| + 1
  {
    forall i | 0 <= i < |actions| :: !BindsSettled(states[i], actions[i])
  }

  lemma {:induction false} ReachableFit(states: seq<Db>, actions: seq<Action>, i: nat)
    requires |states| == |actions| + 1 && i < |states|
    requires NoLateBind(states, actions)
    requires Run(states, actions)
    ensures TasksFit(states[i])
  {
    hide Inv, Next, BindsSettled;
    if i > 0 {
      hide TasksFit;
      ReachableFit(states, actions, i - 1);
      ReachableInv(states, actions, i - 1);
      NextKeepsFit(states[i - 1], actions[i - 1], states[i]);
    }
  }

  /** Every reservation that a V2 step holds, in every reachable state, passes the integrity check. */
  lemma ReachableValid(states: seq<Db>, actions: seq<Action>, i: nat)
    requires |states| == |actions| + 1 && i < |states|
    requires NoLateBind(states, actions)
    requires Run(states, actions)
    ensures forall id: nat | OwnedByStep(states[i], id) :: GroupValid(states[i], id)
  {
    hide Inv, GroupValid, Run, NoLateBind, TaskFits;
    var db := states[i];
    ReachableInv(states, actions, i);
    ReachableFit(states, actions, i);
    forall id: nat | OwnedByStep(db, id)
      ensures GroupValid(db, id)
    {
      PassesIffTaskFits(db, db.reservations[id].request);
    }
  }

  lemma ContextIsOwned(db: Db, id: nat, request: Id)
    requires Inv(db) && request in db.steps && ReservationFor(db.reservations, request) == Some(id)
    ensures OwnedByStep(db, id)
  {
    hide StepsSound, LedgerSound, BudgetIdsUnique, ReferencesSound, AccountsShaped;
    assert StepLinked(db, request);
    assert db.reservations[id].request == db.reservations[db.steps[request].reservation].request;
  }

  /** A dispatch in a reachable state is never refused because of the integrity of the ledger. */
  lemma NeverRefusedForIntegrity(
    states: seq<Db>, actions: seq<Action>, i: nat, now: Millis, request: Id, expected: Id)
    requires |states| == |actions| + 1 && i < |states|
    requires NoLateBind(states, actions)
    requires Run(states, actions)
    ensures Dispatch(states[i], now, request, expected).reply != Err(IntegrityRefused)
  {
    hide GroupValid, Run, NoLateBind, KeyBlockedIn, HasV2Context, MinAvailable, Inv, OwnedByStep;
    ReachableValid(states, actions, i);
    ReachableInv(states, actions, i);
    if request in states[i].steps && ReservationFor(states[i].reservations, request).Some? {
      ContextIsOwned(states[i], ReservationFor(states[i].reservations, request).value, request);
    }
  }
}
