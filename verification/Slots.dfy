/** Concurrency slots over whole runs, and that a finished operation stays finished. */
module Slots {
  import opened Sets
  import opened Wrappers
  import opened Model
  import opened Ledger
  import opened EventGroup
  import opened Billing
  import opened Settling
  import opened Grants
  import opened Invariant
  import opened Frame
  import opened AdmissionPreservation
  import opened Runs
  import opened Tables
  import opened Finality
  import opened Text

  /** The active operations of a Key whose parent request is not an assist child. */
  function ActiveOn(db: Db, key: Id): set<Id> {
    set p | p in db.operations && db.operations[p].key == key && !Terminal(db.operations[p].state) && p !in db.relations
  }

  ghost predicate WithinLimit(db: Db, key: Id)
    requires key in db.keys
  {
    |ActiveOn(db, key)| <= db.keys[key].maxConcurrency
  }

  /** A finished operation has only finished steps. */
  ghost predicate FinishedStepsOnly(db: Db) {
    forall s | s in db.steps && db.steps[s].operation in db.operations ::
      Terminal(db.operations[db.steps[s].operation].state) ==> Terminal(db.steps[s].exec)
  }

  ghost predicate SlotsHeld(db: Db) {
    && (forall p | p in db.operations :: db.operations[p].key in db.keys)
    && (forall k | k in db.keys :: db.keys[k].maxConcurrency > 0 && WithinLimit(db, k))
  }

  /** No Key's limit is lowered, and every limit is positive. */
  ghost predicate LimitsKept(db: Db, db': Db) {
    && (forall k | k in db.keys && k in db'.keys :: db.keys[k].maxConcurrency <= db'.keys[k].maxConcurrency)
    && (forall k | k in db'.keys :: db'.keys[k].maxConcurrency > 0)
  }

  /** Nothing that happens to existing rows frees an assist relation, revives an operation or re-keys one. */
  ghost predicate SlotsFollow(db: Db, db': Db) {
    && OperationsAdvance(db.operations, db'.operations)
    && (forall q | q in db.relations :: q in db'.relations)
    && (forall k | k in db.keys :: k in db'.keys)
    && LimitsKept(db, db')
  }

  lemma ActiveShrinks(db: Db, db': Db, key: Id)
    requires SlotsFollow(db, db') && db'.operations.Keys == db.operations.Keys
    ensures ActiveOn(db', key) <= ActiveOn(db, key)
  {
    hide Terminal;
  }

  lemma NoActivity(db: Db, key: Id)
    requires (forall p | p in db.operations :: db.operations[p].key in db.keys) && key !in db.keys
    ensures ActiveOn(db, key) == {}
  {
  }

  lemma LimitFollows(db: Db, db': Db, key: Id)
    requires SlotsHeld(db) && SlotsFollow(db, db') && db'.operations.Keys == db.operations.Keys && key in db'.keys
    ensures WithinLimit(db', key)
  {
    hide ActiveOn;
    ActiveShrinks(db, db', key);
    SubsetSize(ActiveOn(db', key), ActiveOn(db, key));
    if key !in db.keys {
      NoActivity(db, key);
    }
  }

  /** The admission gate of begin_budget_operation leaves a slot for the operation it admits. */
  lemma AdmittedWithinLimit(db: Db, db': Db, now: Millis, parent: Id, kind: StepKind, auth: Authorization, key: Id)
    requires SlotsHeld(db) && BeginVerdict(db, now, parent, kind, auth).Proceed?
    requires db'.operations == db.operations[parent := Operation(auth.key, ExecReady)]
    requires db'.keys == db.keys && db'.relations == db.relations && key in db.keys
    ensures WithinLimit(db', key)
  {
    hide BeginVerdict, HoldFor, CheckPreparation, CheckIdentity, KeyBlockedIn, BudgetIdUsed, Blank, MinAvailable,
         CountedRequests;
    var before, after := ActiveOn(db, key), ActiveOn(db', key);
    assert WithinLimit(db, key);
    if key == auth.key && parent !in db.relations {
      assert after <= before + {parent};
      SubsetSize(after, before + {parent});
      assert before <= CountedOperations(db, key, parent);
      SubsetSize(before, CountedOperations(db, key, parent));
    } else {
      assert after <= before;
      SubsetSize(after, before);
    }
  }

  lemma FinishedFollows(db: Db, db': Db)
    requires (forall s | s in db.steps :: StepLinked(db, s)) && FinishedStepsOnly(db)
    requires StepsAdvance(db, db') && db'.steps.Keys == db.steps.Keys
    requires forall p | p in db'.operations && Terminal(db'.operations[p].state) ::
               p in db.operations && (Terminal(db.operations[p].state) || AllStepsTerminal(db, p))
    ensures FinishedStepsOnly(db')
  {
    hide Terminal, RevisionsOf, EvidenceOf, SettlementOf;
    forall s | s in db'.steps && db'.steps[s].operation in db'.operations
               && Terminal(db'.operations[db'.steps[s].operation].state)
      ensures Terminal(db'.steps[s].exec)
    {
      assert StepRowsAdvance(db, db', s);
    }
  }

  lemma LinkedSteps(db: Db)
    requires Inv(db)
    ensures forall s | s in db.steps :: StepLinked(db, s)
  {
    hide StepsSound, StepLinked;
  }

  lemma NewStepSteps(db: Db, now: Millis, operation: Id, kind: StepKind, auth: Authorization, hold: Reservation)
    ensures NewStepRows(db, now, operation, kind, auth, hold).steps
            == db.steps[auth.request := NewStep(operation, kind, auth, |db.reservations|)]
    ensures NewStepRows(db, now, operation, kind, auth, hold).operations == db.operations
  {
    hide HoldEntries;
  }

  lemma OpenedSteps(db: Db, parent: Id, key: Id)
    requires parent in db.requests
    ensures Opened(db, parent, key).steps == db.steps
    ensures Opened(db, parent, key).operations == db.operations[parent := Operation(key, ExecReady)]
  {
  }

  lemma BeginFinishedFollows(db: Db, now: Millis, parent: Id, kind: StepKind, auth: Authorization)
    requires (forall s | s in db.steps :: StepLinked(db, s)) && FinishedStepsOnly(db)
    requires BeginVerdict(db, now, parent, kind, auth).Proceed?
    ensures FinishedStepsOnly(Begin(db, now, parent, kind, auth).db)
  {
    hide BeginVerdict, HoldFor, CheckPreparation, CheckIdentity, KeyBlockedIn, BudgetIdUsed, Blank, AdmissionCount,
         NewStepRows, Opened;
    var hold := BeginHold(db, parent, auth).value;
    OpenedSteps(db, parent, auth.key);
    NewStepSteps(Opened(db, parent, auth.key), now, parent, kind, auth, hold);
    forall s | s in db.steps
      ensures db.steps[s].operation != parent
    {
      assert StepLinked(db, s);
    }
  }

  lemma AddFinishedFollows(db: Db, now: Millis, parent: Id, kind: StepKind, auth: Authorization)
    requires FinishedStepsOnly(db) && AddVerdict(db, now, parent, kind, auth).Proceed?
    ensures FinishedStepsOnly(Add(db, now, parent, kind, auth).db)
  {
    hide AddVerdict, HoldFor, KeyBlockedIn, BudgetIdUsed, Blank, NewStepRows;
    NewStepSteps(db, now, parent, kind, auth, BeginHold(db, parent, auth).value);
  }

  lemma OperationKeysKept(db: Db, db': Db, action: Action)
    requires Next(db, action, db') && !action.BeginOperation? && LimitsKept(db, db')
    requires forall p | p in db.operations :: db.operations[p].key in db.keys
    requires Advances(db, db')
    ensures SlotsFollow(db, db') && db'.operations.Keys == db.operations.Keys
  {
    hide After, StepsAdvance, StepHoldsAdvance, OperationsAdvance;
    if IsAdministrative(action) {
      AdministrativeShape(db, action, db');
    } else {
      NextKeepsTables(db, action, db');
    }
  }

  lemma FinishTerminals(db: Db, parent: Id, terminal: ExecState)
    ensures var db' := Finish(db, parent, terminal).db;
            forall p | p in db'.operations && Terminal(db'.operations[p].state) ::
              p in db.operations && (Terminal(db.operations[p].state) || AllStepsTerminal(db, p))
  {
    hide FinishVerdict, AllStepsTerminal;
  }

  lemma NextFinished(db: Db, action: Action, db': Db)
    requires (forall s | s in db.steps :: StepLinked(db, s)) && FinishedStepsOnly(db)
    requires Next(db, action, db') && Advances(db, db')
    ensures FinishedStepsOnly(db')
  {
    hide Begin, Add, Refresh, Dispatch, Release, Bind, MarkExecution, Finish, ApplyReceipt, MarkConflict, GrantKey,
         GrantPool, FinishedStepsOnly, StepsAdvance, StepLinked, Terminal, StepHoldsAdvance, OperationsAdvance;
    if action.BeginOperation? {
      BeginFinished(db, action.now, action.parent, action.kind, action.auth);
    } else if action.AddStep? {
      AddFinished(db, action.now, action.parent, action.kind, action.auth);
    } else {
      if action.FinishOperation? {
        FinishTerminals(db, action.parent, action.terminal);
        FinishShape(db, action.parent, action.terminal);
      } else if IsAdministrative(action) {
        AdministrativeShape(db, action, db');
      } else {
        NextKeepsTables(db, action, db');
      }
      FinishedFollows(db, db');
    }
  }

  lemma BeginFinished(db: Db, now: Millis, parent: Id, kind: StepKind, auth: Authorization)
    requires (forall s | s in db.steps :: StepLinked(db, s)) && FinishedStepsOnly(db)
    ensures FinishedStepsOnly(Begin(db, now, parent, kind, auth).db)
  {
    hide BeginVerdict, HoldFor, NewStepRows, Opened, FinishedStepsOnly, StepLinked;
    if BeginVerdict(db, now, parent, kind, auth).Proceed? {
      BeginFinishedFollows(db, now, parent, kind, auth);
    }
  }

  lemma AddFinished(db: Db, now: Millis, parent: Id, kind: StepKind, auth: Authorization)
    requires FinishedStepsOnly(db)
    ensures FinishedStepsOnly(Add(db, now, parent, kind, auth).db)
  {
    hide AddVerdict, HoldFor, NewStepRows, FinishedStepsOnly;
    if AddVerdict(db, now, parent, kind, auth).Proceed? {
      AddFinishedFollows(db, now, parent, kind, auth);
    }
  }

  lemma NextKeepsSlots(db: Db, action: Action, db': Db)
    requires Inv(db) && SlotsHeld(db) && Next(db, action, db') && LimitsKept(db, db')
    ensures SlotsHeld(db')
  {
    hide Inv, Next, Advances, WithinLimit;
    NextAdvances(db, action, db');
    if action.BeginOperation? {
      BeginKeepsLimits(db, action, db');
    } else {
      OperationKeysKept(db, db', action);
      forall k | k in db'.keys
        ensures WithinLimit(db', k)
      {
        LimitFollows(db, db', k);
      }
      OwnersKept(db, db');
    }
  }

  lemma OwnersKept(db: Db, db': Db)
    requires SlotsFollow(db, db') && db'.operations.Keys == db.operations.Keys
    requires forall p | p in db.operations :: db.operations[p].key in db.keys
    ensures forall p | p in db'.operations :: db'.operations[p].key in db'.keys
    ensures forall k | k in db'.keys :: db'.keys[k].maxConcurrency > 0
  {
    hide Terminal;
  }

  lemma BeginKeepsLimits(db: Db, action: Action, db': Db)
    requires SlotsHeld(db) && Next(db, action, db') && action.BeginOperation?
    ensures forall p | p in db'.operations :: db'.operations[p].key in db'.keys
    ensures forall k | k in db'.keys :: db'.keys[k].maxConcurrency > 0 && WithinLimit(db', k)
  {
    hide BeginVerdict, HoldFor, NewStepRows, Opened, WithinLimit, CheckPreparation, CheckIdentity,
         KeyBlockedIn, BudgetIdUsed, Blank, AdmissionCount, MinAvailable;
    BeginShape(db, action.now, action.parent, action.kind, action.auth);
    if BeginVerdict(db, action.now, action.parent, action.kind, action.auth).Proceed? {
      forall k | k in db.keys
        ensures WithinLimit(db', k)
      {
        AdmittedWithinLimit(db, db', action.now, action.parent, action.kind, action.auth, k);
      }
    }
  }

  // Whole runs

  /** The side condition of slot safety: administrators do not lower a limit under running operations. */
  ghost predicate LimitsNeverFall(states: seq<Db>) {
    forall i | 0 < i < |states| :: LimitsKept(states[i - 1], states[i])
  }

  lemma {:induction false} ReachableSlots(states: seq<Db>, actions: seq<Action>, i: nat)
    requires |states| == |actions| + 1 && i < |states|
    requires LimitsNeverFall(states)
    requires Run(states, actions)
    ensures SlotsHeld(states[i])
  {
    hide Inv, Next, LimitsKept;
    if i > 0 {
      hide SlotsHeld;
      ReachableSlots(states, actions, i - 1);
      ReachableInv(states, actions, i - 1);
      NextKeepsSlots(states[i - 1], actions[i - 1], states[i]);
    }
  }

  /** At no time do a Key's active operations outside assist chains exceed its concurrency limit. */
  lemma SlotSafety(states: seq<Db>, actions: seq<Action>, i: nat, key: Id)
    requires |states| == |actions| + 1 && i < |states| && key in states[i].keys
    requires LimitsNeverFall(states)
    requires Run(states, actions)
    ensures |ActiveOn(states[i], key)| <= states[i].keys[key].maxConcurrency
  {
    hide Run, ActiveOn, LimitsNeverFall;
    ReachableSlots(states, actions, i);
    assert WithinLimit(states[i], key);
  }

  lemma {:induction false} ReachableFinished(states: seq<Db>, actions: seq<Action>, i: nat)
    requires |states| == |actions| + 1 && i < |states|
    requires Run(states, actions)
    ensures FinishedStepsOnly(states[i])
  {
    hide Inv, Next;
    if i > 0 {
      hide FinishedStepsOnly, Advances, StepLinked;
      ReachableFinished(states, actions, i - 1);
      ReachableInv(states, actions, i - 1);
      LinkedSteps(states[i - 1]);
      NextAdvances(states[i - 1], actions[i - 1], states[i]);
      NextFinished(states[i - 1], actions[i - 1], states[i]);
    }
  }

  /** A terminal operation stays as it is, and from then on every step it has is terminal. */
  lemma FinishedForGood(states: seq<Db>, actions: seq<Action>, i: nat, j: nat, parent: Id)
    requires |states| == |actions| + 1 && i <= j < |states|
    requires Run(states, actions)
    requires parent in states[i].operations && Terminal(states[i].operations[parent].state)
    ensures parent in states[j].operations && states[j].operations[parent] == states[i].operations[parent]
    ensures forall s | s in states[j].steps && states[j].steps[s].operation == parent :: Terminal(states[j].steps[s].exec)
  {
    hide Run, Terminal, StepsAdvance, StepHoldsAdvance;
    RunAdvances(states, actions, i, j);
    ReachableFinished(states, actions, j);
  }
}
