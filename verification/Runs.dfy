/**
  Runs of the ledger from an empty database: any sequence of its transactions, interleaved with whatever
  else the core store does to the rows these transactions only read.
 */
module Runs {
  import opened Wrappers
  import opened Model
  import opened Ledger
  import opened EventGroup
  import opened Billing
  import opened Settling
  import opened Grants
  import opened Invariant
  import opened Frame
  import opened Preservation
  import opened ReceiptPreservation
  import opened RefreshPreservation
  import opened AdmissionPreservation
  import opened GrantPreservation

  datatype Action =
    | BeginOperation(now: Millis, parent: Id, kind: StepKind, auth: Authorization)
    | AddStep(now: Millis, parent: Id, kind: StepKind, auth: Authorization)
    | RefreshAuthorization(now: Millis, request: Id, expectedOld: Id, replacement: Authorization, proof: Proof)
    | DispatchStep(now: Millis, request: Id, expected: Id)
    | ReleaseStep(request: Id, reason: string)
    | BindTask(request: Id, task: Id)
    | MarkStep(request: Id, next: ExecState)
    | FinishOperation(parent: Id, terminal: ExecState)
    | DeliverReceipt(now: Millis, input: ReceiptInput)
    | ReportConflict(now: Millis, conflict: ConflictInput)
    | CreditKey(key: Id, amount: int)
    | CreditPool(user: Id, amount: int)
    | AllocateCredit(now: Millis, key: Id, amount: int, snapshot: Snapshot)
    | AllocatePool(key: Id, amount: int)
    | DeleteApiKey(key: Id, facts: DeletionFacts)
    | OtherWork

  const EMPTY := Db(map[], map[], map[], map[], [], [], [], map[], map[], map[], map[], map[], {})

  /** An entry that some other billing writes for a hold of its own. */
  ghost predicate ForeignEntry(db: Db, db': Db, e: Entry) {
    && EntrySound(e, |db'.accounts|, |db'.reservations|)
    && e.kind != GrantEvent
    && !OwnedByStep(db, e.group.reservation)
  }

  /** Holds that no V2 step owns come, change state and are charged; those of steps are left alone. */
  ghost predicate ForeignHoldsMove(db: Db, db': Db) {
    && |db.reservations| <= |db'.reservations|
    && (forall i | 0 <= i < |db.reservations| ::
          && db'.reservations[i] == db.reservations[i].(state := db'.reservations[i].state)
          && (OwnedByStep(db, i) ==> db'.reservations[i] == db.reservations[i]))
    && ReservationsSound(db'.accounts, db'.reservations)
    && db.ledger <= db'.ledger
    && forall x | |db.ledger| <= x < |db'.ledger| :: ForeignEntry(db, db', db'.ledger[x])
  }

  /**
    Work outside the V2 ledger: V1 billing and plain requests take, settle and suspend holds of their own; Keys
    and requests are created and requests change state, relations and preparations are added, accounts are
    enabled, disabled or moved to a later version, Keys are updated or blocked. No row is deleted and no identity
    changes.
   */
  ghost predicate OtherWorkDone(db: Db, db': Db) {
    && IdentitiesKept(db, db')
    && (forall q | q in db.requests :: db'.requests[q].createdAt == db.requests[q].createdAt)
    && AdmissionsKept(db, db')
    && AccountsGrow(db.accounts, db'.accounts) && |db'.accounts| == |db.accounts|
    && (forall k | k in db.keys :: k in db'.keys && db'.keys[k].user == db.keys[k].user)
    && (forall q | q in db.relations :: q in db'.relations && db'.relations[q] == db.relations[q])
    && db.blocks <= db'.blocks
    && ForeignHoldsMove(db, db')
    && db'.operations == db.operations
    && db'.steps == db.steps
    && db'.revisions == db.revisions
    && db'.evidence == db.evidence
    && db'.settlements == db.settlements
  }

  function After(db: Db, action: Action): Db
    requires !action.OtherWork?
  {
    match action
    case BeginOperation(now, parent, kind, auth) => Begin(db, now, parent, kind, auth).db
    case AddStep(now, parent, kind, auth) => Add(db, now, parent, kind, auth).db
    case RefreshAuthorization(now, request, expectedOld, replacement, proof) =>
      Refresh(db, now, request, expectedOld, replacement, proof).db
    case DispatchStep(now, request, expected) => Dispatch(db, now, request, expected).db
    case ReleaseStep(request, reason) => Release(db, request, reason).db
    case BindTask(request, task) => Bind(db, request, task).db
    case MarkStep(request, next) => MarkExecution(db, request, next).db
    case FinishOperation(parent, terminal) => Finish(db, parent, terminal).db
    case DeliverReceipt(now, input) => ApplyReceipt(db, now, input).db
    case ReportConflict(now, conflict) => MarkConflict(db, now, conflict).db
    case CreditKey(key, amount) => GrantKey(db, key, amount).db
    case CreditPool(user, amount) => GrantPool(db, user, amount).db
    case AllocateCredit(now, key, amount, snapshot) => Allocate(db, now, key, amount, snapshot).db
    case AllocatePool(key, amount) => AllocateFromPool(db, key, amount).db
    case DeleteApiKey(key, facts) => DeleteKey(db, key, facts).db
  }

  ghost predicate Next(db: Db, action: Action, db': Db) {
    if action.OtherWork? then OtherWorkDone(db, db') else db' == After(db, action)
  }

  // Every reachable state

  ghost predicate Run(states: seq<Db>, actions: seq<Action>) {
    && |states| == |actions| + 1
    && states[0] == EMPTY
    && forall i | 0 <= i < |actions| :: Next(states[i], actions[i], states[i + 1])
  }

  lemma RunLength(states: seq<Db>, actions: seq<Action>)
    requires Run(states, actions)
    ensures |states| == |actions| + 1
  {
    hide Next;
  }

  lemma EmptyInv()
    ensures Inv(EMPTY)
  {
  }

  // Other work

  lemma {:induction false} EventsElsewhere(ledger: seq<Entry>, ledger': seq<Entry>, id: nat)
    requires ledger <= ledger'
    requires forall x | |ledger| <= x < |ledger'| :: ledger'[x].group != HoldGroup(id)
    ensures EventsOf(ledger', HoldGroup(id)) == EventsOf(ledger, HoldGroup(id))
    decreases |ledger'|
  {
    if |ledger| < |ledger'| {
      EventsElsewhere(ledger, ledger'[..|ledger'| - 1], id);
    } else {
      assert ledger == ledger';
    }
  }

  lemma StepsOwn(db: Db, q: Id)
    requires StepLinked(db, q)
    ensures OwnedByStep(db, db.steps[q].reservation)
  {
  }

  lemma OtherWorkRows(db: Db, db': Db, q: Id)
    requires ForeignHoldsMove(db, db') && StepLinked(db, q)
    requires db.reservations[db.steps[q].reservation].group == HoldGroup(db.steps[q].reservation)
    requires db'.steps == db.steps && db'.revisions == db.revisions && db'.evidence == db.evidence
    requires db'.settlements == db.settlements
    ensures StepRowsKept(db, db', q)
  {
    hide EventsOf, ReservationsSound;
    StepsOwn(db, q);
    var id := db.steps[q].reservation;
    forall x | |db.ledger| <= x < |db'.ledger|
      ensures db'.ledger[x].group != HoldGroup(id)
    {
      assert ForeignEntry(db, db', db'.ledger[x]);
    }
    EventsElsewhere(db.ledger, db'.ledger, id);
  }

  lemma OtherWorkElsewhere(db: Db, db': Db)
    requires TablesSound(db) && OtherWorkDone(db, db')
    ensures Elsewhere(db, db', {}) && db'.steps == db.steps
  {
    hide AdmissionsKept, ForeignHoldsMove, StepLinked, LedgerSound, BudgetIdsUnique, ReferencesSound, AccountsShaped,
         AccountsKnown, StepRowsKept;
    assert OperationsKept(db, db');
    forall q | q in db.steps
      ensures StepRowsKept(db, db', q)
    {
      assert StepLinked(db, q);
      LinkedInRange(db, q);
      OtherWorkRows(db, db', q);
    }
  }

  lemma LinkedInRange(db: Db, q: Id)
    requires StepLinked(db, q)
    ensures db.steps[q].reservation < |db.reservations|
  {
  }

  lemma OtherWorkLedger(db: Db, db': Db)
    requires LedgerSound(db.ledger, |db.accounts|, |db.reservations|) && ForeignHoldsMove(db, db')
    requires |db'.accounts| == |db.accounts|
    ensures LedgerSound(db'.ledger, |db'.accounts|, |db'.reservations|)
  {
    hide ReservationsSound;
    forall x | 0 <= x < |db'.ledger|
      ensures EntrySound(db'.ledger[x], |db'.accounts|, |db'.reservations|)
    {
      if x < |db.ledger| {
        assert EntrySound(db.ledger[x], |db.accounts|, |db.reservations|);
      } else {
        assert ForeignEntry(db, db', db'.ledger[x]);
      }
    }
  }

  lemma OtherWorkLinks(db: Db, db': Db, q: Id)
    requires OtherWorkDone(db, db') && StepLinked(db, q)
    ensures StepLinked(db', q)
  {
    hide AdmissionsKept, AccountsGrow, ReservationsSound;
  }

  lemma OtherWorkTables(db: Db, db': Db)
    requires TablesSound(db) && OtherWorkDone(db, db')
    ensures TablesSound(db')
  {
    hide AdmissionsKept, AccountsShaped, LedgerSound, BudgetIdsUnique, ReservationsSound, StepLinked, AccountsGrow,
         IdentitiesKept;
    GrownShaped(db.accounts, db'.accounts);
    OtherWorkLedger(db, db');
    forall q | q in db'.steps
      ensures StepLinked(db', q)
    {
      assert StepLinked(db, q);
      OtherWorkLinks(db, db', q);
    }
  }

  lemma OtherWorkKeepsInv(db: Db, db': Db)
    requires Inv(db) && OtherWorkDone(db, db')
    ensures Inv(db')
  {
    hide TablesSound, StepsSound, Elsewhere, OtherWorkDone;
    OtherWorkElsewhere(db, db');
    OtherWorkTables(db, db');
    InvFromParts(db, db', {});
  }

  lemma NextKeepsInv(db: Db, action: Action, db': Db)
    requires Inv(db) && Next(db, action, db')
    ensures Inv(db')
  {
    hide Inv, Begin, Add, Refresh, Dispatch, Release, Bind, MarkExecution, Finish, ApplyReceipt, MarkConflict, GrantKey,
         GrantPool, Allocate, AllocateFromPool, DeleteKey, OtherWorkDone;
    match action
    case BeginOperation(now, parent, kind, auth) => BeginKeepsInv(db, now, parent, kind, auth);
    case AddStep(now, parent, kind, auth) => AddKeepsInv(db, now, parent, kind, auth);
    case RefreshAuthorization(now, request, expectedOld, replacement, proof) =>
      RefreshKeepsInv(db, now, request, expectedOld, replacement, proof);
    case DispatchStep(now, request, expected) => DispatchKeepsInv(db, now, request, expected);
    case ReleaseStep(request, reason) => ReleaseKeepsInv(db, request, reason);
    case BindTask(request, task) => BindKeepsInv(db, request, task);
    case MarkStep(request, next) => MarkExecutionKeepsInv(db, request, next);
    case FinishOperation(parent, terminal) => FinishKeepsInv(db, parent, terminal);
    case DeliverReceipt(now, input) => ApplyReceiptKeepsInv(db, now, input);
    case ReportConflict(now, conflict) => MarkConflictKeepsInv(db, now, conflict);
    case CreditKey(key, amount) => GrantKeyKeepsInv(db, key, amount);
    case CreditPool(user, amount) => GrantPoolKeepsInv(db, user, amount);
    case AllocateCredit(now, key, amount, snapshot) => AllocateKeepsInv(db, now, key, amount, snapshot);
    case AllocatePool(key, amount) => AllocateFromPoolKeepsInv(db, key, amount);
    case DeleteApiKey(key, facts) => DeleteKeyKeepsInv(db, key, facts);
    case OtherWork => OtherWorkKeepsInv(db, db');
  }

  /** Every state of every run is sound, whatever is billed beside the V2 ledger. */
  lemma {:induction false} ReachableInv(states: seq<Db>, actions: seq<Action>, i: nat)
    requires |states| == |actions| + 1 && i < |states|
    requires Run(states, actions)
    ensures Inv(states[i])
  {
    hide Inv, Next;
    if i == 0 {
      EmptyInv();
    } else {
      ReachableInv(states, actions, i - 1);
      NextKeepsInv(states[i - 1], actions[i - 1], states[i]);
    }
  }
}
