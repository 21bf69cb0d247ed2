/** The finality theorems: what a dispatch, a settlement and a conflict mean for the rest of a run. */
module Verdicts {
  import opened Wrappers
  import opened Model
  import opened Ledger
  import opened EventGroup
  import opened Billing
  import opened Settling
  import opened Invariant
  import opened Frame
  import opened Preservation
  import opened ReceiptPreservation
  import opened RefreshPreservation
  import opened AdmissionPreservation
  import opened Runs
  import opened Tables
  import opened Finality
  import opened Text

  lemma AdvancedStep(a: Db, b: Db, r: Id)
    requires Advances(a, b) && r in a.steps
    ensures StepRowsAdvance(a, b, r)
  {
    hide StepRowsAdvance, StepHoldsAdvance, OperationsAdvance;
  }

  lemma AdvancedHold(a: Db, b: Db, id: nat)
    requires Advances(a, b) && OwnedByStep(a, id)
    ensures id < |b.reservations| && HoldAdvances(a.reservations[id], b.reservations[id])
  {
    hide StepsAdvance, OperationsAdvance, HoldAdvances;
  }

  // Dispatch

  /** What a dispatch that takes effect finds and leaves: the last authorization of a gap-free history. */
  lemma DispatchTakesLatest(db: Db, now: Millis, request: Id, expected: Id)
    requires Inv(db) && Dispatch(db, now, request, expected).reply == Ok(Applied)
    ensures request in db.steps && !db.steps[request].dispatched
    ensures var db' := Dispatch(db, now, request, expected).db;
            var rows := RevisionsOf(db, request);
            && request in db'.steps && db'.steps[request].dispatched
            && db'.steps[request].auth == db.steps[request].auth
            && db'.steps[request].auth.budgetId == expected
            && |rows| > 0 && rows[|rows| - 1].auth == db.steps[request].auth
            && RevisionsOf(db', request) == rows
            && db.steps[request].reservation < |db.reservations|
            && db.reservations[db.steps[request].reservation].amount == db.steps[request].auth.hold
  {
    hide Inv, DispatchVerdict, KeyBlockedIn, StepView, EventsExact, EvidenceSound, AccountsSound, Terminal;
    SoundStep(db, request);
    ViewParts(db, request);
  }

  /** A step is dispatched at most once in a run. */
  lemma DispatchedOnce(
    states: seq<Db>, actions: seq<Action>, i: nat, j: nat, now: Millis, expected: Id, now': Millis, expected': Id,
    request: Id)
    requires |states| == |actions| + 1 && i < j < |actions|
    requires Run(states, actions)
    requires actions[i] == DispatchStep(now, request, expected) && actions[j] == DispatchStep(now', request, expected')
    requires Dispatch(states[i], now, request, expected).reply == Ok(Applied)
    ensures Dispatch(states[j], now', request, expected').reply != Ok(Applied)
  {
    hide Inv, Advances, Dispatch;
    ReachableInv(states, actions, i);
    ReachableInv(states, actions, j);
    assert Next(states[i], actions[i], states[i + 1]);
    DispatchTakesLatest(states[i], now, request, expected);
    RunAdvances(states, actions, i + 1, j);
    AdvancedStep(states[i + 1], states[j], request);
    if Dispatch(states[j], now', request, expected').reply == Ok(Applied) {
      DispatchTakesLatest(states[j], now', request, expected');
    }
  }

  /** From its dispatch on, a step runs under that authorization, and its history never grows again. */
  lemma DispatchFixesAuthorization(
    states: seq<Db>, actions: seq<Action>, i: nat, j: nat, now: Millis, expected: Id, request: Id)
    requires |states| == |actions| + 1 && i < |actions| && i < j < |states|
    requires Run(states, actions)
    requires actions[i] == DispatchStep(now, request, expected)
    requires Dispatch(states[i], now, request, expected).reply == Ok(Applied)
    ensures var rows := RevisionsOf(states[i], request);
            && request in states[j].steps
            && states[j].steps[request].dispatched
            && RevisionsOf(states[j], request) == rows
            && |rows| > 0
            && states[j].steps[request].auth == rows[|rows| - 1].auth
            && states[j].steps[request].auth.budgetId == expected
  {
    hide Inv, Advances, Dispatch, RevisionsOf;
    ReachableInv(states, actions, i);
    assert Next(states[i], actions[i], states[i + 1]);
    DispatchTakesLatest(states[i], now, request, expected);
    RunAdvances(states, actions, i + 1, j);
    AdvancedStep(states[i + 1], states[j], request);
  }

  /** Revisions numbered from 1 without gaps, each after the first replacing its predecessor with proof of cancellation. */
  ghost predicate Chained(rows: seq<Revision>, request: Id) {
    && |rows| > 0
    && rows[0].previous.None?
    && (forall k | 0 <= k < |rows| :: rows[k].number == k + 1 && rows[k].budgetId == rows[k].auth.budgetId)
    && forall k | 0 < k < |rows| :: Replaces(rows[k - 1], rows[k], request)
  }

  ghost predicate Replaces(before: Revision, row: Revision, request: Id) {
    && row.previous == Some(before.budgetId)
    && row.proof.Some?
    && row.proof.value.budgetId == before.budgetId
    && row.proof.value.request == request
    && row.proof.value.bridge == before.auth.bridge == row.auth.bridge
    && row.proofDigest == Some(ProofDigest(row.proof.value))
  }

  lemma HistoryChained(v: GroupView)
    requires HistoryValid(v)
    ensures Chained(v.history, v.request)
  {
    forall k | 0 <= k < |v.history|
      ensures v.history[k].number == k + 1 && v.history[k].budgetId == v.history[k].auth.budgetId
    {
      assert RevisionRowValid(v, k);
    }
    forall k | 0 < k < |v.history|
      ensures Replaces(v.history[k - 1], v.history[k], v.request)
    {
      assert RevisionRowValid(v, k - 1);
      assert ProofValid(v.request, v.history[k - 1].auth, v.history[k]);
      var p := v.history[k].proof.value;
      assert p == Proof(p.budgetId, p.request, p.bridge, p.cancelRef, p.revision, p.canceledAt);
    }
  }

  lemma LatestInForce(accounts: seq<Account>, v: GroupView)
    requires Sound(accounts, v)
    ensures |v.history| > 0 && v.history[|v.history| - 1].auth == v.step.auth
  {
    assert CurrentAuthorization(v) == v.step.auth;
  }

  /**
    The history of every step in a reachable state is a chain without gaps whose last authorization is the one in
    force, and no budget id is adopted twice anywhere.
   */
  lemma HistoryIsChain(states: seq<Db>, actions: seq<Action>, i: nat, request: Id)
    requires |states| == |actions| + 1 && i < |states| && request in states[i].steps
    requires Run(states, actions)
    ensures var rows := RevisionsOf(states[i], request);
            Chained(rows, request) && rows[|rows| - 1].auth == states[i].steps[request].auth
    ensures BudgetIdsUnique(states[i].revisions)
  {
    hide Run, StepView, Sound, StepsSound, BudgetIdsUnique, Chained;
    ReachableInv(states, actions, i);
    SoundStep(states[i], request);
    ViewParts(states[i], request);
    var v := StepView(states[i], request);
    HistoryOf(states[i].accounts, v);
    HistoryChained(v);
    LatestInForce(states[i].accounts, v);
    SoundParts(states[i]);
  }

  lemma HistoryOf(accounts: seq<Account>, v: GroupView)
    requires Sound(accounts, v)
    ensures HistoryValid(v)
  {
  }

  // Settlement

  lemma {:induction false} EventsPrefix(ledger: seq<Entry>, ledger': seq<Entry>, i: nat)
    requires ledger <= ledger'
    ensures EventsOf(ledger, HoldGroup(i)) <= EventsOf(ledger', HoldGroup(i))
    decreases |ledger'|
  {
    if |ledger| < |ledger'| {
      EventsPrefix(ledger, ledger'[..|ledger'| - 1], i);
    } else {
      assert ledger == ledger';
    }
  }

  lemma SettledStep(db: Db, r: Id)
    requires Inv(db) && r in db.settlements
    ensures r in db.steps && StepLinked(db, r)
    ensures db.reservations[db.steps[r].reservation].state == HoldCommitted && db.steps[r].dispatched
    ensures db.steps[r].actual == Some(db.settlements[r].actual)
    ensures db.settlements[r].reservation == db.steps[r].reservation
  {
    hide StepView, EventsExact, HistoryValid, EvidenceSound, AccountsSound, StepsSound, ReservationsSound, LedgerSound,
         BudgetIdsUnique;
    SoundStep(db, r);
    ViewParts(db, r);
  }

  /** How many entries a closed hold has: a fixed number, once its history is fixed. */
  lemma ClosedCount(db: Db, r: Id)
    requires Inv(db) && r in db.steps && StepLinked(db, r)
    requires Closed(db.reservations[db.steps[r].reservation].state)
    ensures db.reservations[db.steps[r].reservation].group == HoldGroup(db.steps[r].reservation)
    ensures |EventsOf(db.ledger, HoldGroup(db.steps[r].reservation))|
            == |AccountsOf(db.reservations[db.steps[r].reservation])| * (|RevisionsOf(db, r)| + 1)
  {
    hide StepView, EvidenceSound, AccountsSound, StepsSound, TablesSound;
    SoundStep(db, r);
    ViewParts(db, r);
    var v := StepView(db, r);
    assert |v.events| == At(v, SlotCount(v), 0);
  }

  /**
    Once a step is settled its settlement, its reservation, its charge and every ledger entry of its group stay
    exactly as they are, and no entry is ever added to the group.
   */
  lemma SettlementIsFinal(states: seq<Db>, actions: seq<Action>, i: nat, j: nat, r: Id)
    requires |states| == |actions| + 1 && i <= j < |states|
    requires Run(states, actions)
    requires r in states[i].settlements
    ensures r in states[j].settlements && states[j].settlements[r] == states[i].settlements[r]
    ensures var id := states[i].settlements[r].reservation;
            && id < |states[i].reservations| && id < |states[j].reservations|
            && states[j].reservations[id] == states[i].reservations[id]
            && states[j].reservations[id].state == HoldCommitted
            && EventsOf(states[j].ledger, HoldGroup(id)) == EventsOf(states[i].ledger, HoldGroup(id))
    ensures states[i].ledger <= states[j].ledger
    ensures r in states[i].steps && r in states[j].steps && states[j].steps[r].actual == states[i].steps[r].actual
  {
    hide Inv, Run, EventsOf, RevisionsOf, StepsAdvance, StepHoldsAdvance, OperationsAdvance;
    var a, b := states[i], states[j];
    ReachableInv(states, actions, i);
    ReachableInv(states, actions, j);
    RunAdvances(states, actions, i, j);
    SettledStep(a, r);
    StepsOwn(a, r);
    AdvancedStep(a, b, r);
    var id := a.steps[r].reservation;
    AdvancedHold(a, b, id);
    SettledStep(b, r);
    ClosedCount(a, r);
    ClosedCount(b, r);
    EventsPrefix(a.ledger, b.ledger, id);
  }

  /**
    A final receipt for a settled step moves no money and changes no settlement; it makes the step `conflict`
    exactly when it is not the receipt that settled it, or contradicts the task the step has been given since.
   */
  lemma LateFinalReceipt(db: Db, now: Millis, input: ReceiptInput)
    requires Inv(db) && !ReceiptMalformed(input.receipt) && CheckReceiptOwner(db, input).None?
    requires IsFinal(input.receipt.status) && input.receipt.request in db.settlements
    ensures var db' := ApplyReceipt(db, now, input).db;
            var r := input.receipt.request;
            && db'.ledger == db.ledger && db'.reservations == db.reservations && db'.settlements == db.settlements
            && r in db.steps && r in db'.steps
            && db'.steps[r].fin == if RepeatsSettlement(db, input) then db.steps[r].fin else FinConflict
  {
    hide Inv, Sound, StepView, AboutStep, ReceiptMalformed, CheckReceiptOwner, AlreadyRecorded, TaskConflict, SameSettlement,
         EvidenceOf, HashOf, InsertEvidence, ConflictRows, NoteRow, ContradictionRow, ReceiptCourse, StepLinked, IsFinal,
         RepeatsSettlement;
    var r := input.receipt.request;
    OwnerChecked(db, input);
    SoundStep(db, r);
    ViewParts(db, r);
    NotReleased(db.accounts, StepView(db, r));
    LateFinalCourse(db, input);
    LateFinalRepeats(db, input);
    var course := ReceiptCourse(db, input);
    if course.Note? {
      InsertShape(db, r, HashOf(input), NoteRow(input, now));
    } else if course.Contradict? {
      ConflictRowsShape(db, r, HashOf(input), ContradictionRow(input, course.reason, now));
      Frozen(db, r, HashOf(input), ContradictionRow(input, course.reason, now));
    }
  }

  /** The receipt that settled the step, unless it names no task and the step has been given one since. */
  predicate RepeatsSettlement(db: Db, input: ReceiptInput)
    requires input.receipt.request in db.settlements && input.receipt.request in db.steps
  {
    var r := input.receipt.request;
    && HashOf(input) == db.settlements[r].hash
    && (AlreadyRecorded(EvidenceOf(db, r), input) || !TaskConflict(db.steps[r], input.receipt))
  }

  lemma LateFinalRepeats(db: Db, input: ReceiptInput)
    requires Inv(db) && !ReceiptMalformed(input.receipt) && CheckReceiptOwner(db, input).None?
    requires IsFinal(input.receipt.status) && input.receipt.request in db.settlements
    requires input.receipt.request in db.steps
    ensures ReceiptCourse(db, input).Note? ==> RepeatsSettlement(db, input)
    ensures ReceiptCourse(db, input).Contradict? ==> !RepeatsSettlement(db, input)
    ensures ReceiptCourse(db, input).Answer? && !RepeatsSettlement(db, input) ==>
              db.steps[input.receipt.request].fin == FinConflict
  {
    hide Inv, Sound, StepView, AboutStep, ReceiptMalformed, CheckReceiptOwner, AlreadyRecorded, TaskConflict, SameSettlement,
         EvidenceOf, HashOf, ReceiptCourse, StepLinked, IsFinal;
    var r := input.receipt.request;
    OwnerChecked(db, input);
    SoundStep(db, r);
    ViewParts(db, r);
    LateFinal(db.accounts, StepView(db, r), input);
    LateFinalCourse(db, input);
  }

  /** After settlement a final receipt is known, noted or contradicted. */
  lemma LateFinalCourse(db: Db, input: ReceiptInput)
    requires !ReceiptMalformed(input.receipt) && CheckReceiptOwner(db, input).None?
    requires IsFinal(input.receipt.status) && input.receipt.request in db.settlements
    ensures var r := input.receipt.request;
            var rows := EvidenceOf(db, r);
            var same := SameSettlement(db.settlements[r], rows, input);
            r in db.steps
            && match ReceiptCourse(db, input)
               case Answer(_) => AlreadyRecorded(rows, input)
               case Note(_) => !AlreadyRecorded(rows, input) && !TaskConflict(db.steps[r], input.receipt) && same
               case Contradict(_) =>
                 !AlreadyRecorded(rows, input) && (TaskConflict(db.steps[r], input.receipt) || !same)
               case _ => false
  {
    hide ReceiptMalformed, CheckReceiptOwner, AlreadyRecorded, EvidenceOf, TaskConflict, SameSettlement, Unsettled;
    StepOf(db, input);
  }

  lemma Frozen(db: Db, r: Id, hash: EvidenceHash, row: Evidence)
    requires r in db.steps && db.steps[r].fin != FinReleased
    ensures r in ConflictRows(db, r, hash, row).steps && ConflictRows(db, r, hash, row).steps[r].fin == FinConflict
  {
    hide InsertEvidence;
    InsertShape(db, r, hash, row);
  }

  lemma StepOf(db: Db, input: ReceiptInput)
    requires CheckReceiptOwner(db, input).None?
    ensures input.receipt.request in db.steps
    ensures db.steps[input.receipt.request].reservation < |db.reservations|
  {
  }

  lemma LateFinal(accounts: seq<Account>, v: GroupView, input: ReceiptInput)
    requires Sound(accounts, v) && AboutStep(input, v) && !ReceiptMalformed(input.receipt)
    requires IsFinal(input.receipt.status) && v.settlement.Some?
    ensures AlreadyRecorded(v.evidence, input) && HashOf(input) != v.settlement.value.hash ==> v.step.fin == FinConflict
    ensures !AlreadyRecorded(v.evidence, input) && HashOf(input) == v.settlement.value.hash ==>
              SameSettlement(v.settlement.value, v.evidence, input)
    ensures SameSettlement(v.settlement.value, v.evidence, input) ==> HashOf(input) == v.settlement.value.hash
  {
    hide EventsExact, HistoryValid, AccountsSound, HashOf, AboutStep, ReceiptMalformed, TaskConflict, EvidenceRowValid,
         TasksAgree;
    if !AlreadyRecorded(v.evidence, input) && HashOf(input) == v.settlement.value.hash {
      CollisionIsSettlement(accounts, v, input);
    }
  }

  // Conflict

  /** A conflict is forever, and if the step was not settled by then, its hold is never committed nor released. */
  lemma ConflictIsSticky(states: seq<Db>, actions: seq<Action>, i: nat, j: nat, r: Id)
    requires |states| == |actions| + 1 && i <= j < |states|
    requires Run(states, actions)
    requires r in states[i].steps && states[i].steps[r].fin == FinConflict
    ensures r in states[j].steps && states[j].steps[r].fin == FinConflict
    ensures r !in states[i].settlements ==> r !in states[j].settlements
    ensures r !in states[i].settlements ==>
              states[j].steps[r].reservation < |states[j].reservations|
              && Outstanding(states[j].reservations[states[j].steps[r].reservation].state)
  {
    hide Inv, Run, StepsAdvance, StepHoldsAdvance, OperationsAdvance;
    ReachableInv(states, actions, j);
    RunAdvances(states, actions, i, j);
    AdvancedStep(states[i], states[j], r);
    OpenConflict(states[j], r);
  }

  lemma OpenConflict(db: Db, r: Id)
    requires Inv(db) && r in db.steps && db.steps[r].fin == FinConflict
    ensures db.steps[r].reservation < |db.reservations|
    ensures r !in db.settlements ==> Outstanding(db.reservations[db.steps[r].reservation].state)
  {
    hide StepView, EventsExact, HistoryValid, EvidenceSound, AccountsSound, StepsSound, TablesSound;
    SoundStep(db, r);
    ViewParts(db, r);
  }

  /** The actions that reserve, adopt or spend credits of a Key. */
  predicate SpendsOn(db: Db, action: Action, key: Id) {
    match action
    case BeginOperation(now, parent, kind, auth) => auth.key == key && Begin(db, now, parent, kind, auth).reply == Ok(Applied)
    case AddStep(now, parent, kind, auth) => auth.key == key && Add(db, now, parent, kind, auth).reply == Ok(Applied)
    case RefreshAuthorization(now, request, expectedOld, replacement, proof) =>
      replacement.key == key && Refresh(db, now, request, expectedOld, replacement, proof).reply == Ok(Applied)
    case DispatchStep(now, request, expected) =>
      request in db.steps && db.steps[request].auth.key == key
      && Dispatch(db, now, request, expected).reply == Ok(Applied)
    case _ => false
  }

  /** From the first conflict of a Key on, no transaction reserves, adopts or dispatches anything for that Key. */
  lemma ConflictStopsKey(states: seq<Db>, actions: seq<Action>, i: nat, j: nat, r: Id)
    requires |states| == |actions| + 1 && i <= j < |actions|
    requires Run(states, actions)
    requires r in states[i].steps && states[i].steps[r].fin == FinConflict
    ensures !SpendsOn(states[j], actions[j], states[i].steps[r].auth.key)
  {
    hide Inv, Run, StepsAdvance, StepHoldsAdvance, OperationsAdvance, Begin, Add, Refresh, Dispatch;
    RunLength(states, actions);
    var key := states[i].steps[r].auth.key;
    RunAdvances(states, actions, i, j);
    AdvancedStep(states[i], states[j], r);
    assert KeyBlockedIn(states[j], key);
    if SpendsOn(states[j], actions[j], key) {
      SpendingNeedsUnblocked(states[j], actions[j], key);
    }
  }

  lemma SpendingNeedsUnblocked(db: Db, action: Action, key: Id)
    requires SpendsOn(db, action, key)
    ensures !KeyBlockedIn(db, key)
  {
    hide KeyBlockedIn, BeginVerdict, AddVerdict, RefreshVerdict, DispatchVerdict, HoldFor, NewStepRows, RefreshRows,
         CheckPreparation, CheckIdentity, AdmissionCount, BudgetIdUsed, Blank, Terminal, MinAvailable;
  }
}
