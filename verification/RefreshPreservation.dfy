/** Refreshing an authorization keeps the invariant. */
module RefreshPreservation {
  import opened Wrappers
  import opened Model
  import opened Ledger
  import opened EventGroup
  import opened Billing
  import opened Settling
  import opened Invariant
  import opened Frame
  import opened Preservation
  import opened Text

  /** What the guards of a refresh establish about the step, its current rows and the replacement. */
  predicate Adoptable(v: GroupView, expectedOld: Id, replacement: Authorization, proof: Proof) {
    var auth := v.step.auth;
    && auth.budgetId == expectedOld
    && !v.step.dispatched && v.step.fin == FinHeld
    && v.reservation.state == HoldHeld
    && replacement.hold > 0
    && replacement.parent == v.step.operation && replacement.request == v.request
    && replacement.key == auth.key && replacement.fingerprint == auth.fingerprint
    && replacement.endpoint == auth.endpoint && replacement.model == auth.model
    && replacement.bridge == auth.bridge == proof.bridge
    && proof.budgetId == expectedOld && proof.request == v.request
    && !Blank(proof.cancelRef) && proof.revision > 0 && proof.canceledAt > 0
  }

  function RefreshedView(
    accounts': seq<Account>, v: GroupView, now: Millis, expectedOld: Id, replacement: Authorization, proof: Proof)
    : GroupView
  {
    var delta := v.step.auth.hold - replacement.hold;
    v.(step := v.step.(auth := replacement, digest := AuthorizationDigest(replacement)),
       reservation := v.reservation.(amount := replacement.hold, expiresAt := replacement.expiresAt),
       history := v.history + [NextRevision(v.history, now, expectedOld, replacement, proof)],
       events := v.events + HoldEntries(accounts', v.reservation, AdjustHoldEvent, Abs(delta), delta,
                                        Some(|v.history| + 1)))
  }

  lemma AdvanceAllGrows(accounts: seq<Account>, hold: Reservation)
    requires AccountsKnown(accounts, AccountsOf(hold)) && hold.userCap != Some(hold.keyAccount)
    ensures AccountsGrow(accounts, AdvanceAll(accounts, hold))
    ensures |AdvanceAll(accounts, hold)| == |accounts|
    ensures forall i: nat | i < |AccountsOf(hold)| ::
              accounts[AccountsOf(hold)[i]].version < AdvanceAll(accounts, hold)[AccountsOf(hold)[i]].version
  {
  }

  lemma RefreshedHistory(
    accounts': seq<Account>, v: GroupView, now: Millis, expectedOld: Id, replacement: Authorization, proof: Proof)
    requires HistoryValid(v) && v.step.auth.request == v.request && v.step.auth.parent == v.step.operation
    requires Adoptable(v, expectedOld, replacement, proof)
    ensures HistoryValid(RefreshedView(accounts', v, now, expectedOld, replacement, proof))
  {
    hide HoldEntries;
    var v' := RefreshedView(accounts', v, now, expectedOld, replacement, proof);
    forall i | 0 <= i < |v'.history|
      ensures RevisionRowValid(v', i)
    {
      assert i < |v.history| ==> RevisionRowValid(v, i);
    }
    assert CurrentAuthorization(v) == v.step.auth;
    assert ProofValid(v'.request, v.history[|v.history| - 1].auth, v'.history[|v.history|]);
    forall i | 0 < i < |v'.history|
      ensures ProofValid(v'.request, v'.history[i - 1].auth, v'.history[i])
    {
    }
  }

  lemma RefreshedEvents(
    accounts: seq<Account>, accounts': seq<Account>, v: GroupView, now: Millis, expectedOld: Id,
    replacement: Authorization, proof: Proof)
    requires HistoryValid(v) && EventsExact(accounts, v) && AccountsSound(accounts, v)
    requires v.request == v.reservation.request && OwnersAgree(v)
    requires Adoptable(v, expectedOld, replacement, proof)
    requires AccountsKnown(accounts, AccountsOf(v.reservation)) && accounts' == AdvanceAll(accounts, v.reservation)
    ensures EventsExact(accounts', RefreshedView(accounts', v, now, expectedOld, replacement, proof))
  {
    var v' := RefreshedView(accounts', v, now, expectedOld, replacement, proof);
    var delta := v.step.auth.hold - replacement.hold;
    var round := HoldEntries(accounts', v.reservation, AdjustHoldEvent, Abs(delta), delta, Some(|v.history| + 1));
    AdvanceAllGrows(accounts, v.reservation);
    hide AdvanceAll, EventsExact;
    AppendRound(accounts, accounts', v, v', round);
  }

  lemma RefreshSound(
    accounts: seq<Account>, accounts': seq<Account>, v: GroupView, now: Millis, expectedOld: Id,
    replacement: Authorization, proof: Proof)
    requires Sound(accounts, v) && v.request == v.reservation.request
    requires Adoptable(v, expectedOld, replacement, proof)
    requires AccountsKnown(accounts, AccountsOf(v.reservation)) && accounts' == AdvanceAll(accounts, v.reservation)
    ensures Sound(accounts', RefreshedView(accounts', v, now, expectedOld, replacement, proof))
  {
    hide HoldEntries, EventsExact, HistoryValid;
    RefreshedHistory(accounts', v, now, expectedOld, replacement, proof);
    RefreshedEvents(accounts, accounts', v, now, expectedOld, replacement, proof);
    AdvanceAllGrows(accounts, v.reservation);
    hide AdvanceAll;
  }

  // The tables

  lemma RefreshRowsTouch(
    db: Db, now: Millis, request: Id, expectedOld: Id, replacement: Authorization, proof: Proof, id: nat)
    requires StepLinked(db, request) && id == db.steps[request].reservation
    requires AccountsKnown(db.accounts, AccountsOf(db.reservations[id]))
    requires db.reservations[id].userCap != Some(db.reservations[id].keyAccount)
    ensures OnlyTouched(db, RefreshRows(db, now, request, expectedOld, replacement, proof), request)
  {
    hide EventsOf, HoldEntries, NextRevision, OnlyTouched, Abs;
    var db' := RefreshRows(db, now, request, expectedOld, replacement, proof);
    var step, hold := db.steps[request], db.reservations[id];
    var delta := step.auth.hold - replacement.hold;
    AdvanceAllGrows(db.accounts, hold);
    hide AdvanceAll, AccountsGrow;
    AppendHoldEntries(db.ledger, AdvanceAll(db.accounts, hold), hold, AdjustHoldEvent, Abs(delta), delta,
                      Some(|RevisionsOf(db, request)| + 1));
    RowsTouch(db, db', request);
  }

  lemma RefreshRowsView(
    db: Db, now: Millis, request: Id, expectedOld: Id, replacement: Authorization, proof: Proof, id: nat)
    requires StepLinked(db, request) && id == db.steps[request].reservation
    requires AccountsKnown(db.accounts, AccountsOf(db.reservations[id]))
    requires db.reservations[id].userCap != Some(db.reservations[id].keyAccount)
    ensures var db' := RefreshRows(db, now, request, expectedOld, replacement, proof);
            && StepLinked(db', request)
            && db'.accounts == AdvanceAll(db.accounts, db.reservations[id])
            && StepView(db', request)
               == RefreshedView(db'.accounts, StepView(db, request), now, expectedOld, replacement, proof)
  {
    hide EventsOf, HoldEntries, NextRevision, OnlyTouched, Abs, AdvanceAll, StepView;
    var db' := RefreshRows(db, now, request, expectedOld, replacement, proof);
    var step, hold := db.steps[request], db.reservations[id];
    var delta := step.auth.hold - replacement.hold;
    ViewParts(db, request);
    RefreshRowsTouch(db, now, request, expectedOld, replacement, proof, id);
    TouchedView(db, db', request);
    AppendHoldEntries(db.ledger, db'.accounts, hold, AdjustHoldEvent, Abs(delta), delta,
                      Some(|RevisionsOf(db, request)| + 1));
  }

  lemma NewBudgetStaysUnique(db: Db, request: Id, row: Revision)
    requires BudgetIdsUnique(db.revisions) && !BudgetIdUsed(db, row.budgetId)
    ensures BudgetIdsUnique(db.revisions[request := RevisionsOf(db, request) + [row]])
  {
    var after := db.revisions[request := RevisionsOf(db, request) + [row]];
    forall r, i, q, j | HasRevision(after, r, i) && HasRevision(after, q, j)
      ensures after[r][i].budgetId == after[q][j].budgetId ==> r == q && i == j
    {
      var last := |RevisionsOf(db, request)|;
      assert HasRevision(db.revisions, r, i) || (r == request && i == last);
      assert HasRevision(db.revisions, q, j) || (q == request && j == last);
    }
  }

  lemma RefreshRowsTables(
    db: Db, now: Millis, request: Id, expectedOld: Id, replacement: Authorization, proof: Proof, id: nat)
    requires StepLinked(db, request) && id == db.steps[request].reservation
    requires AccountsKnown(db.accounts, AccountsOf(db.reservations[id]))
    requires !BudgetIdUsed(db, replacement.budgetId)
    requires TablesSound(db)
    ensures var db' := RefreshRows(db, now, request, expectedOld, replacement, proof);
            LedgerSound(db'.ledger, |db'.accounts|, |db'.reservations|)
            && ReferencesSound(db') && BudgetIdsUnique(db'.revisions)
  {
    hide HoldEntries, Abs, BudgetIdsUnique, LedgerSound, TablesSound, BudgetIdUsed, AccountsGrow;
    var step, hold := db.steps[request], db.reservations[id];
    var delta := step.auth.hold - replacement.hold;
    SoundParts(db);
    HoldInGroup(db, id);
    NewBudgetStaysUnique(db, request, NextRevision(RevisionsOf(db, request), now, expectedOld, replacement, proof));
    AppendedEntriesSound(db.ledger, AdvanceAll(db.accounts, hold), hold, AdjustHoldEvent, Abs(delta), delta,
                         Some(|RevisionsOf(db, request)| + 1),
                         |db.accounts|, |db.reservations|, |db.accounts|, |db.reservations|);
  }

  lemma HoldInGroup(db: Db, id: nat)
    requires TablesSound(db) && id < |db.reservations|
    ensures db.reservations[id].group == HoldGroup(id)
    ensures AccountsKnown(db.accounts, AccountsOf(db.reservations[id]))
  {
  }

  lemma RefreshGuards(db: Db, request: Id, expectedOld: Id, replacement: Authorization, proof: Proof)
    requires RefreshFits(db, request, expectedOld, replacement, proof) && StepLinked(db, request)
    ensures Adoptable(StepView(db, request), expectedOld, replacement, proof)
  {
    hide Blank, StepView, MinAvailable;
    ViewParts(db, request);
  }

  lemma RefreshRowsKeepsInv(
    db: Db, now: Millis, request: Id, expectedOld: Id, replacement: Authorization, proof: Proof)
    requires RefreshFits(db, request, expectedOld, replacement, proof)
    requires !BudgetIdUsed(db, replacement.budgetId)
    requires Inv(db)
    ensures Inv(RefreshRows(db, now, request, expectedOld, replacement, proof))
  {
    hide Sound, StepView, RefreshRows, Adoptable, RefreshedView, BudgetIdUsed, TablesSound, StepsSound, OnlyTouched,
         LedgerSound, ReferencesSound, BudgetIdsUnique, Blank, MinAvailable;
    var id := db.steps[request].reservation;
    SoundStep(db, request);
    ViewParts(db, request);
    RefreshGuards(db, request, expectedOld, replacement, proof);
    var db' := RefreshRows(db, now, request, expectedOld, replacement, proof);
    RefreshRowsTouch(db, now, request, expectedOld, replacement, proof, id);
    RefreshRowsView(db, now, request, expectedOld, replacement, proof, id);
    RefreshSound(db.accounts, db'.accounts, StepView(db, request), now, expectedOld, replacement, proof);
    RefreshRowsTables(db, now, request, expectedOld, replacement, proof, id);
    TouchedKeepsInv(db, db', request);
  }

  lemma RefreshKeepsInv(db: Db, now: Millis, request: Id, expectedOld: Id, replacement: Authorization, proof: Proof)
    requires Inv(db)
    ensures Inv(Refresh(db, now, request, expectedOld, replacement, proof).db)
  {
    hide Inv, RefreshRows, RefreshVerdict, BudgetIdUsed;
    if RefreshVerdict(db, now, request, expectedOld, replacement, proof).Proceed? {
      RefreshRowsKeepsInv(db, now, request, expectedOld, replacement, proof);
    }
  }
}
