/**
  When the authorization of an undispatched step is replaced by a refreshed one, and when a replacement is known
  already, in any state of the invariant and read off its tables.
 */
module Refreshing {
  import opened Wrappers
  import opened Model
  import opened Ledger
  import opened EventGroup
  import opened Billing
  import opened Settling
  import opened Invariant
  import opened Admitted
  import opened Dispatching
  import opened Text

  // A replacement that was accepted before

  /** The replacement was adopted for the old budget, on this proof. */
  predicate Adopted(rows: seq<Revision>, expectedOld: Id, replacement: Authorization, proof: Proof) {
    exists i | 0 < i < |rows| ::
      rows[i].auth == replacement && rows[i].previous == Some(expectedOld) && rows[i].proof == Some(proof)
  }

  lemma AdoptedIff(v: GroupView, expectedOld: Id, replacement: Authorization, proof: Proof)
    requires HistoryValid(v)
    ensures Adopted(v.history, expectedOld, replacement, proof)
            <==> RefreshReplays(v.history, expectedOld, replacement, proof)
  {
    var rows := v.history;
    forall i | 0 < i < |rows|
      ensures RevisionRowValid(v, i) && ProofValid(v.request, rows[i - 1].auth, rows[i])
    {
    }
    assert RevisionRowValid(v, 0);
    if RefreshReplays(rows, expectedOld, replacement, proof) {
      var i :| 0 <= i < |rows| && rows[i].budgetId == replacement.budgetId && rows[i].number > 1
               && rows[i].previous == Some(expectedOld) && rows[i].auth == replacement
               && rows[i].proof == Some(proof);
      assert RevisionRowValid(v, i);
    }
    if Adopted(rows, expectedOld, replacement, proof) {
      var i :| 0 < i < |rows| && rows[i].auth == replacement && rows[i].previous == Some(expectedOld)
               && rows[i].proof == Some(proof);
      assert RevisionRowValid(v, i) && ProofValid(v.request, rows[i - 1].auth, rows[i]);
    }
  }

  lemma AdoptedIsUsed(v: GroupView, expectedOld: Id, replacement: Authorization, proof: Proof)
    requires HistoryValid(v) && Adopted(v.history, expectedOld, replacement, proof)
    ensures exists i | 0 <= i < |v.history| :: v.history[i].budgetId == replacement.budgetId
  {
    var i :| 0 < i < |v.history| && v.history[i].auth == replacement;
    assert RevisionRowValid(v, i);
  }

  // A new replacement

  /** The old budget is proved to have been canceled upstream, by the bridge that issued it. */
  predicate Proved(proof: Proof, expectedOld: Id, r: Id, bridge: Id, now: Millis) {
    && proof.budgetId == expectedOld && proof.request == r && proof.bridge == bridge && !Blank(bridge)
    && !Blank(proof.cancelRef) && proof.revision > 0 && 0 < proof.canceledAt <= now
  }

  /** The replacement is for the same step: it differs in budget, account, profile, policy, hold and expiry at most. */
  predicate SameStep(old': Authorization, replacement: Authorization) {
    replacement
    == old'.(budgetId := replacement.budgetId, accountRef := replacement.accountRef, profile := replacement.profile,
             policy := replacement.policy, hold := replacement.hold, expiresAt := replacement.expiresAt)
  }

  ghost predicate MayRefresh(db: Db, now: Millis, r: Id, expectedOld: Id, replacement: Authorization, proof: Proof) {
    && !Blank(r) && !Blank(expectedOld) && r in db.steps && r in db.requests
    && var step := db.steps[r];
       && step.auth.budgetId == expectedOld && !step.dispatched && step.exec == ExecReady && step.fin == FinHeld
       && Complete(replacement) && replacement.hold > 0 && now < replacement.expiresAt
       && SameStep(step.auth, replacement) && NewBudget(db, replacement.budgetId)
       && Proved(proof, expectedOld, r, step.auth.bridge, now)
       && step.operation in db.operations && db.operations[step.operation].state in {ExecReady, ExecRunning, ExecUnknown}
       && step.operation in db.requests
       && db.requests[step.operation].state in {Received, Validating, Reserved, Queued, Dispatched, Completing,
                                                CancelRequested, UnknownOutcome}
       && KeyServes(db, step.auth.key, db.requests[r].identity.user)
       && step.reservation < |db.reservations|
       && HoldRefreshable(db, db.reservations[step.reservation], replacement.hold - step.auth.hold)
  }

  /** The accounts are in use, cover what the replacement holds more, if anything, and can take another version. */
  predicate HoldRefreshable(db: Db, hold: Reservation, extra: int) {
    && HoldCovered(db, hold, if extra > 0 then extra else 0)
    && db.accounts[hold.keyAccount].version < MAX_I64
    && (hold.userCap.Some? ==> db.accounts[hold.userCap.value].version < MAX_I64)
  }

  lemma HoldCheckIff(db: Db, r: Id, replacement: Authorization)
    requires Inv(db) && r in db.steps && !db.steps[r].dispatched && db.steps[r].fin == FinHeld
    ensures StepLinked(db, r)
    ensures CheckRefreshHold(db, r, replacement).None?
            <==> HoldRefreshable(db, db.reservations[db.steps[r].reservation], replacement.hold - db.steps[r].auth.hold)
  {
    hide Inv, StepView, GroupValid, HistoryValid, KindValid, LifecycleValid, EventsExact, SettlementValid, EvidenceSound, Timely,
         EvidenceOf, RevisionsOf, SettlementOf, Available;
    SoundStep(db, r);
    ViewParts(db, r);
    UndispatchedPasses(db, r);
    var hold := db.reservations[db.steps[r].reservation];
    var extra := replacement.hold - db.steps[r].auth.hold;
    CoveredIff(db, hold, if extra > 0 then extra else 0);
    var ids := AccountsOf(hold);
    assert ids[0] == hold.keyAccount;
    if hold.userCap.Some? {
      assert ids[1] == hold.userCap.value;
    }
  }

  /** The owners' rows allow the replacement. */
  ghost predicate OwnersAllow(db: Db, r: Id, expectedOld: Id, replacement: Authorization, proof: Proof)
    requires r in db.steps && r in db.requests
  {
    var step := db.steps[r];
    && step.auth.budgetId == expectedOld && !step.dispatched && step.exec == ExecReady && step.fin == FinHeld
    && SameStep(step.auth, replacement) && proof.bridge == step.auth.bridge
    && step.operation in db.operations && db.operations[step.operation].state in {ExecReady, ExecRunning, ExecUnknown}
    && step.operation in db.requests
    && db.requests[step.operation].state in {Received, Validating, Reserved, Queued, Dispatched, Completing,
                                             CancelRequested, UnknownOutcome}
    && KeyServes(db, step.auth.key, db.requests[r].identity.user)
  }

  lemma LatestRevisionIs(v: GroupView)
    requires HistoryValid(v)
    ensures var rows := v.history;
            && rows != [] && |rows| == rows[|rows| - 1].number && rows[|rows| - 1].budgetId == v.step.auth.budgetId
            && rows[|rows| - 1].digest == AuthorizationDigest(CurrentAuthorization(v))
            && rows[|rows| - 1].hold == v.reservation.amount
  {
    assert RevisionRowValid(v, |v.history| - 1);
  }

  lemma LatestIsUsed(db: Db, r: Id)
    requires Inv(db) && r in db.steps
    ensures !NewBudget(db, db.steps[r].auth.budgetId)
  {
    hide Inv, StepView, OwnersAgree, KindValid, AccountsSound, LifecycleValid, EventsExact, SettlementValid, EvidenceSound,
         Timely, HistoryValid, EvidenceOf, SettlementOf;
    SoundStep(db, r);
    ViewParts(db, r);
    LatestRevisionIs(StepView(db, r));
    var rows := db.revisions[r];
    assert rows[|rows| - 1].budgetId == db.steps[r].auth.budgetId;
  }

  lemma OwnersCheckIff(db: Db, r: Id, expectedOld: Id, replacement: Authorization, proof: Proof)
    requires Inv(db) && r in db.steps && StepJoined(db, r)
    requires NewBudget(db, replacement.budgetId) && replacement.request == r
    ensures CheckRefreshOwners(db, r, expectedOld, replacement, proof).None?
            <==> OwnersAllow(db, r, expectedOld, replacement, proof)
  {
    hide Inv, StepView, GroupValid, KindValid, LifecycleValid, EventsExact, SettlementValid, EvidenceSound, HistoryValid,
         AccountsSound, EvidenceOf, SettlementOf, KeyBlockedIn, Unblocked, NewBudget;
    SoundStep(db, r);
    ViewParts(db, r);
    LatestRevisionIs(StepView(db, r));
    LatestIsUsed(db, r);
    BlockedIff(db, db.steps[r].auth.key);
  }

  lemma StepIsJoined(db: Db, r: Id)
    requires Inv(db) && r in db.steps
    ensures StepJoined(db, r) && StepLinked(db, r)
  {
    hide StepsSound, LedgerSound, AccountsShaped, ReferencesSound, BudgetIdsUnique, ReservationsSound;
    assert StepLinked(db, r);
  }

  lemma NoStepNoRevision(db: Db, r: Id)
    requires Inv(db) && r !in db.steps
    ensures RevisionsOf(db, r) == []
  {
    hide StepsSound, LedgerSound, AccountsShaped, BudgetIdsUnique, ReservationsSound, StepLinked;
  }

  lemma StepHistory(db: Db, r: Id)
    requires Inv(db) && r in db.steps
    ensures StepLinked(db, r) && StepView(db, r).history == RevisionsOf(db, r) && HistoryValid(StepView(db, r))
    ensures db.steps[r].auth.request == r && db.steps[r].auth.parent == db.steps[r].operation
  {
    hide Inv, StepView, OwnersAgree, KindValid, AccountsSound, LifecycleValid, EventsExact, SettlementValid, EvidenceSound,
         HistoryValid, EvidenceOf, SettlementOf, RevisionsOf;
    SoundStep(db, r);
    ViewParts(db, r);
  }

  lemma AdoptedAnswers(db: Db, r: Id, expectedOld: Id, replacement: Authorization, proof: Proof)
    requires Inv(db)
    ensures Adopted(RevisionsOf(db, r), expectedOld, replacement, proof)
            <==> BudgetIdUsed(db, replacement.budgetId) && RefreshReplays(RevisionsOf(db, r), expectedOld, replacement, proof)
  {
    hide Inv, StepView, StepLinked, HistoryValid;
    if r in db.steps {
      StepHistory(db, r);
      var v := StepView(db, r);
      AdoptedIff(v, expectedOld, replacement, proof);
      if Adopted(v.history, expectedOld, replacement, proof) {
        AdoptedIsUsed(v, expectedOld, replacement, proof);
      }
    } else {
      NoStepNoRevision(db, r);
    }
  }

  /**
    A refresh takes effect exactly on a ready, held step under the expected authorization, with proof that the old budget
    was canceled and rows as said; the adoption that is on record is answered as a duplicate, at any later time; and any
    other leaves everything as it was.
   */
  lemma RefreshAnswers(db: Db, now: Millis, r: Id, expectedOld: Id, replacement: Authorization, proof: Proof)
    requires Inv(db)
    ensures var tx := Refresh(db, now, r, expectedOld, replacement, proof);
            && (tx.reply == Ok(Applied) <==> MayRefresh(db, now, r, expectedOld, replacement, proof))
            && (tx.reply == Ok(Duplicate) <==>
                  && !Blank(r) && !Blank(expectedOld)
                  && Adopted(RevisionsOf(db, r), expectedOld, replacement, proof))
            && (tx.reply != Ok(Applied) ==> tx.db == db)
  {
    hide Inv, StepLinked, Blank, BudgetIdUsed, NewBudget, RefreshReplays, Adopted, RevisionsOf, CheckRefreshOwners,
         CheckRefreshHold, HoldRefreshable, KeyServes, Complete, Incomplete, RefreshRows, RefreshFits, HoldCovered;
    AdoptedAnswers(db, r, expectedOld, replacement, proof);
    NewBudgetIff(db, replacement.budgetId);
    CompleteIff(replacement);
    if r in db.steps {
      StepIsJoined(db, r);
      StepHistory(db, r);
      if !BudgetIdUsed(db, replacement.budgetId) && replacement.request == r {
        OwnersCheckIff(db, r, expectedOld, replacement, proof);
        if OwnersAllow(db, r, expectedOld, replacement, proof) {
          HoldCheckIff(db, r, replacement);
          StepThere(db, r);
        }
      }
    }
  }

  /** Every account of the hold has its next version, and no other account changes. */
  predicate NextVersions(accounts: seq<Account>, accounts': seq<Account>, hold: Reservation) {
    && |accounts'| == |accounts|
    && forall a | 0 <= a < |accounts| ::
         accounts'[a] == if a == hold.keyAccount || Some(a) == hold.userCap
                         then accounts[a].(version := accounts[a].version + 1) else accounts[a]
  }

  /**
    The replacement is in force as the next revision, with the budget it replaces and the proof; the hold has its amount
    and expiry; and each account of the hold has, under its next version, one entry for the difference.
   */
  predicate Refreshed(db: Db, db': Db, now: Millis, r: Id, replacement: Authorization, proof: Proof)
    requires r in db.steps && db.steps[r].reservation < |db.reservations|
  {
    var step, rows := db.steps[r], RevisionsOf(db, r);
    var hold := db.reservations[step.reservation];
    var less := step.auth.hold - replacement.hold;
    && NextVersions(db.accounts, db'.accounts, hold)
    && db' == db.(accounts := db'.accounts,
                  steps := db.steps[r := step.(auth := replacement, digest := AuthorizationDigest(replacement))],
                  reservations := db.reservations[step.reservation := hold.(amount := replacement.hold,
                                                                            expiresAt := replacement.expiresAt)],
                  ledger := db.ledger + HoldEntries(db'.accounts, hold, AdjustHoldEvent, if less < 0 then -less else less,
                                                    less, Some(|rows| + 1)),
                  revisions := db.revisions[r := rows
                                                 + [Revision(|rows| + 1, replacement.budgetId, replacement,
                                                             AuthorizationDigest(replacement), replacement.hold,
                                                             Some(step.auth.budgetId), Some(proof),
                                                             Some(ProofDigest(proof)), now)]])
  }

  lemma RefreshLeaves(db: Db, now: Millis, r: Id, expectedOld: Id, replacement: Authorization, proof: Proof)
    requires Refresh(db, now, r, expectedOld, replacement, proof).reply == Ok(Applied)
    ensures r in db.steps && db.steps[r].reservation < |db.reservations|
    ensures Refreshed(db, Refresh(db, now, r, expectedOld, replacement, proof).db, now, r, replacement, proof)
  {
    hide RefreshVerdict, HoldEntries, RevisionsOf, AdvanceAll, AccountsOf, NextVersions, MinAvailable, BudgetIdUsed,
         KeyBlockedIn, Blank;
    AdvancedAll(db.accounts, db.reservations[db.steps[r].reservation]);
  }

  lemma AdvancedAll(accounts: seq<Account>, hold: Reservation)
    requires AccountsKnown(accounts, AccountsOf(hold)) && hold.userCap != Some(hold.keyAccount)
    ensures NextVersions(accounts, AdvanceAll(accounts, hold), hold)
  {
    assert AccountsOf(hold)[0] == hold.keyAccount;
    if hold.userCap.Some? {
      assert AccountsOf(hold)[1] == hold.userCap.value;
    }
  }
}
