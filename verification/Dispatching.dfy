/**
  When a step is dispatched, and when an undispatched one is released, in any state of the invariant and read off its
  tables: the integrity of the step's own rows need not be asked for there, because the invariant gives it.
 */
module Dispatching {
  import opened Wrappers
  import opened Model
  import opened RequestStates
  import opened Ledger
  import opened EventGroup
  import opened Billing
  import opened Invariant
  import opened Admitted
  import opened Text

  // What the invariant says about a step's rows

  lemma {:induction false} FoundAt(reservations: seq<Reservation>, id: nat, from: nat)
    requires from <= id < |reservations|
    requires forall i, j | 0 <= i < j < |reservations| :: reservations[i].request != reservations[j].request
    ensures ReservationFor(reservations, reservations[id].request, from) == Some(id)
    decreases id - from
  {
    if from < id {
      FoundAt(reservations, id, from + 1);
    }
  }

  /** The reservation found for a step is the one it names, on accounts that exist. */
  lemma StepHold(db: Db, r: Id)
    requires Inv(db) && r in db.steps
    ensures StepLinked(db, r)
    ensures ReservationFor(db.reservations, r) == Some(db.steps[r].reservation)
    ensures HasV2Context(db, db.steps[r].reservation, r)
    ensures AccountsKnown(db.accounts, AccountsOf(db.reservations[db.steps[r].reservation]))
  {
    hide StepsSound, LedgerSound, AccountsShaped, ReferencesSound, BudgetIdsUnique, AccountsOf, AccountsKnown;
    assert StepLinked(db, r);
    FoundAt(db.reservations, db.steps[r].reservation, 0);
  }

  /** The group of a step that is not dispatched passes the check, and its hold is open while the step is held. */
  lemma UndispatchedPasses(db: Db, r: Id)
    requires Inv(db) && r in db.steps && !db.steps[r].dispatched
    ensures StepLinked(db, r) && GroupValid(db, db.steps[r].reservation)
    ensures db.steps[r].fin == FinHeld ==> db.reservations[db.steps[r].reservation].state == HoldHeld
  {
    hide Inv, GroupValid, StepView, OwnersAgree, HistoryValid, KindValid, AccountsSound, EventsExact, SettlementValid,
         EvidenceSound, EvidenceOf, RevisionsOf, SettlementOf;
    SoundStep(db, r);
    ViewParts(db, r);
    InvIsValid(db, r);
    assert TasksAgree(StepView(db, r));
  }

  /** The accounts of a hold are in use, and none is overdrawn. */
  predicate HoldCovered(db: Db, hold: Reservation, amount: int) {
    Covers(db, hold.keyAccount, amount) && (hold.userCap.Some? ==> Covers(db, hold.userCap.value, amount))
  }

  predicate HoldInUse(accounts: seq<Account>, hold: Reservation) {
    InUse(accounts, hold.keyAccount) && (hold.userCap.Some? ==> InUse(accounts, hold.userCap.value))
  }

  lemma InUseIff(accounts: seq<Account>, hold: Reservation)
    ensures AllReady(accounts, AccountsOf(hold)) <==> HoldInUse(accounts, hold)
  {
    var ids := AccountsOf(hold);
    assert ids[0] == hold.keyAccount;
    if hold.userCap.Some? {
      assert ids[1] == hold.userCap.value;
    }
  }

  lemma CoveredIff(db: Db, hold: Reservation, amount: int)
    ensures HoldCovered(db, hold, amount)
            <==> HoldInUse(db.accounts, hold) && MinAvailable(db.ledger, hold.keyAccount, hold.userCap) >= amount
  {
    hide Available;
  }

  // Dispatch

  ghost predicate MayDispatch(db: Db, now: Millis, r: Id, expected: Id) {
    && r in db.steps && r in db.requests
    && var step := db.steps[r];
       && step.auth.budgetId == expected && now < step.auth.expiresAt
       && !step.dispatched && step.exec == ExecReady && step.fin == FinHeld
       && step.operation in db.operations && db.operations[step.operation].state in {ExecReady, ExecRunning}
       && step.auth.key in db.keys && db.keys[step.auth.key].active && Unblocked(db, step.auth.key)
       && step.reservation < |db.reservations| && HoldCovered(db, db.reservations[step.reservation], 0)
       && db.requests[r].state in {Received, Validating, Reserved, Queued}
  }

  /** The step was dispatched under this authorization and is not done yet, and its rows and accounts are in order. */
  ghost predicate UnderDispatch(db: Db, r: Id, expected: Id) {
    && r in db.steps && db.steps[r].auth.budgetId == expected && db.steps[r].dispatched
    && db.steps[r].exec in {ExecRunning, ExecUnknown}
    && db.steps[r].reservation < |db.reservations|
    && HoldInUse(db.accounts, db.reservations[db.steps[r].reservation])
    && GroupValid(db, db.steps[r].reservation)
  }

  /**
    A dispatch takes effect exactly on a ready, held step under the expected authorization while that lasts, with its
    operation, Key, accounts and request as said; a second one is answered as a duplicate while the step is running or
    in doubt; and any other leaves everything as it was.
   */
  lemma DispatchAnswers(db: Db, now: Millis, r: Id, expected: Id)
    requires Inv(db)
    ensures var tx := Dispatch(db, now, r, expected);
            && (tx.reply == Ok(Applied) <==> MayDispatch(db, now, r, expected))
            && (tx.reply == Ok(Duplicate) <==> UnderDispatch(db, r, expected))
            && (tx.reply != Ok(Applied) ==> tx.db == db)
  {
    hide Inv, GroupValid, StepLinked, ReservationFor, HasV2Context, KeyBlockedIn, Unblocked, AllReady, HoldInUse,
         HoldCovered, AccountsOf, AccountsKnown, MinAvailable, DispatchRows;
    if r in db.steps {
      StepHold(db, r);
      StepThere(db, r);
      var hold := db.reservations[db.steps[r].reservation];
      InUseIff(db.accounts, hold);
      CoveredIff(db, hold, 0);
      BlockedIff(db, db.steps[r].auth.key);
      if !db.steps[r].dispatched {
        UndispatchedPasses(db, r);
      }
    }
  }

  lemma StepThere(db: Db, r: Id)
    requires StepLinked(db, r)
    ensures r in db.steps && r in db.requests && db.steps[r].operation in db.operations
            && db.steps[r].reservation < |db.reservations|
  {
  }

  /** A dispatched step is running, its operation too, and its request is dispatched; nothing else moves. */
  lemma DispatchLeaves(db: Db, now: Millis, r: Id, expected: Id)
    requires Dispatch(db, now, r, expected).reply == Ok(Applied)
    ensures r in db.steps && r in db.requests && db.steps[r].operation in db.operations
    ensures var operation := db.steps[r].operation;
            Dispatch(db, now, r, expected).db
            == db.(requests := db.requests[r := db.requests[r].(state := Dispatched)],
                   steps := db.steps[r := db.steps[r].(dispatched := true, exec := ExecRunning)],
                   operations := db.operations[operation := db.operations[operation].(state := ExecRunning)])
  {
    hide DispatchVerdict;
  }

  // Release

  /** A step that never ran can be released, for a reason, while its hold is open. */
  predicate MayRelease(db: Db, r: Id, reason: string) {
    && !Blank(r) && !Blank(reason)
    && r in db.steps && r in db.requests
    && !db.steps[r].dispatched && db.steps[r].fin == FinHeld
    && db.steps[r].exec in {ExecReady, ExecFailed, ExecCanceled}
    && (db.steps[r].kind == Assist && db.steps[r].exec == ExecReady ==>
          db.requests[r].state !in {Succeeded, Failed, Settled})
  }

  lemma ReleaseAnswers(db: Db, r: Id, reason: string)
    requires Inv(db)
    ensures var tx := Release(db, r, reason);
            && (tx.reply == Ok(Applied) <==> MayRelease(db, r, reason))
            && (tx.reply == Ok(Duplicate) <==>
                  && !Blank(r) && !Blank(reason) && r in db.steps
                  && !db.steps[r].dispatched && db.steps[r].fin == FinReleased
                  && db.steps[r].exec in {ExecFailed, ExecCanceled}
                  && db.steps[r].releaseReason == Some(Trim(reason)))
            && (tx.reply != Ok(Applied) ==> tx.db == db)
  {
    hide Inv, GroupValid, Blank, Trim, ReservationFor, HasV2Context, AccountsOf, AccountsKnown, ReleaseRows, SyncRows;
    if r in db.steps {
      StepHold(db, r);
      if !db.steps[r].dispatched {
        UndispatchedPasses(db, r);
      }
    }
  }

  /**
    A release gives the hold back in full on its accounts under the last revision, and cancels the step if it was ready,
    and with it the request of an assist.
   */
  lemma ReleaseLeaves(db: Db, r: Id, reason: string)
    requires Inv(db) && Release(db, r, reason).reply == Ok(Applied)
    ensures StepLinked(db, r)
    ensures var step := db.steps[r];
            var hold := db.reservations[step.reservation];
            var exec := if step.exec == ExecReady then ExecCanceled else step.exec;
            Release(db, r, reason).db
            == db.(reservations := db.reservations[step.reservation := hold.(state := HoldReleased)],
                   ledger := db.ledger + HoldEntries(db.accounts, hold, ReleaseEvent, hold.amount, hold.amount,
                                                     Some(|RevisionsOf(db, r)|)),
                   steps := db.steps[r := step.(fin := FinReleased, exec := exec, releaseReason := Some(Trim(reason)))],
                   requests := if step.kind == Assist && step.exec == ExecReady
                               then db.requests[r := db.requests[r].(state := Canceled)] else db.requests)
  {
    hide Inv, GroupValid, Blank, Trim, ReservationFor, HasV2Context, AccountsOf, AccountsKnown, HoldEntries, StepLinked,
         ReleaseVerdict;
    StepHold(db, r);
    StepThere(db, r);
    RevisionIsLast(db, r);
  }

  lemma RevisionIsLast(db: Db, r: Id)
    requires Inv(db) && r in db.steps
    ensures LatestRevision(db, r) == Some(|RevisionsOf(db, r)|)
  {
    hide Inv, StepView, OwnersAgree, KindValid, AccountsSound, LifecycleValid, EventsExact, SettlementValid, EvidenceSound,
         Timely, RevisionsOf;
    SoundStep(db, r);
    ViewParts(db, r);
    var rows := StepView(db, r).history;
    assert RevisionRowValid(StepView(db, r), |rows| - 1);
  }
}
