/**
  What every reachable state satisfies. Per step, Sound says more than the integrity check asks: its
  ledger entries stand in one exact order, and its evidence and history record nothing premature.
 */
module Invariant {
  import opened Wrappers
  import opened Model
  import opened Ledger
  import opened EventGroup
  import opened Text

  // One step's rows

  /** Where the entry of the i-th account for a slot stands among the group's entries. */
  function At(v: GroupView, slot: nat, i: nat): nat {
    if v.reservation.userCap.None? then slot + i else 2 * slot + i
  }

  function SlotKind(v: GroupView, slot: nat): EventKind {
    if slot == 0 then ReserveEvent
    else if slot < |v.history| then AdjustHoldEvent
    else if Closing(v) == Some(CommitEvent) then CommitEvent
    else ReleaseEvent
  }

  function SlotRevision(v: GroupView, slot: nat): int {
    if slot < |v.history| then slot + 1 else |v.history|
  }

  ghost predicate EventExact(accounts: seq<Account>, v: GroupView, e: Entry, account: nat, slot: nat)
    requires |v.history| > 0 && slot < SlotCount(v)
  {
    && e.account == account < |accounts|
    && e.kind == SlotKind(v, slot)
    && e.revision == Some(SlotRevision(v, slot))
    && e.amount == SlotAmount(v, slot)
    && e.delta == SlotDelta(v, slot)
    && e.request == Some(v.request)
    && e.user == v.reservation.user
    && e.key == Some(v.reservation.key)
    && 0 < e.version <= accounts[account].version
  }

  ghost predicate SlotExact(accounts: seq<Account>, v: GroupView, slot: nat, i: nat)
    requires |v.history| > 0 && slot < SlotCount(v) && i < |AccountsOf(v.reservation)|
    requires |v.events| == At(v, SlotCount(v), 0)
  {
    && EventExact(accounts, v, v.events[At(v, slot, i)], AccountsOf(v.reservation)[i], slot)
    && (slot > 0 ==>
          if slot < |v.history|
          then v.events[At(v, slot - 1, i)].version < v.events[At(v, slot, i)].version
          else v.events[At(v, slot - 1, i)].version <= v.events[At(v, slot, i)].version)
  }

  ghost predicate EventsExact(accounts: seq<Account>, v: GroupView)
    requires |v.history| > 0
  {
    && |v.events| == At(v, SlotCount(v), 0)
    && forall slot: nat, i: nat | slot < SlotCount(v) && i < |AccountsOf(v.reservation)| ::
         SlotExact(accounts, v, slot, i)
  }

  ghost predicate AccountIs(accounts: seq<Account>, id: nat, scope: Scope, user: Id, key: Option<Id>) {
    && id < |accounts|
    && accounts[id].scope == scope
    && accounts[id].user == user
    && accounts[id].key == key
    && accounts[id].version > 0
  }

  ghost predicate AccountsSound(accounts: seq<Account>, v: GroupView) {
    && AccountIs(accounts, v.reservation.keyAccount, KeyScope, v.reservation.user, Some(v.reservation.key))
    && (v.reservation.userCap.Some? ==>
          AccountIs(accounts, v.reservation.userCap.value, UserCapScope, v.reservation.user, None))
  }

  /** Nothing is on record before its time: no evidence before dispatch, no final receipt that did not settle. */
  ghost predicate Timely(v: GroupView) {
    && v.step.auth.hold > 0
    && v.step.auth.request == v.request
    && v.step.auth.parent == v.step.operation
    && v.reservation.group == HoldGroup(v.reservationId)
    && (!v.step.dispatched ==>
          v.evidence == map[] && v.settlement.None? && (v.step.fin == FinHeld || v.step.fin == FinReleased))
    && (forall hash | hash in v.evidence && v.evidence[hash].kind == ReceiptRecord ::
          v.evidence[hash].status.Some? && IsFinal(v.evidence[hash].status.value) ==>
            v.settlement.Some? && v.settlement.value.hash == hash)
  }

  ghost predicate Sound(accounts: seq<Account>, v: GroupView) {
    && OwnersAgree(v)
    && v.step.digest == AuthorizationDigest(CurrentAuthorization(v))
    && HistoryValid(v)
    && KindValid(v)
    && AccountsSound(accounts, v)
    && LifecycleValid(v)
    && EventsExact(accounts, v)
    && SettlementValid(v)
    && EvidenceSound(v)
    && Timely(v)
  }

  // Sound steps pass the check

  lemma ExactFits(accounts: seq<Account>, v: GroupView, slot: nat, i: nat)
    requires |v.history| > 0 && LifecycleValid(v) && EventsExact(accounts, v)
    requires slot < SlotCount(v) && i < |AccountsOf(v.reservation)|
    ensures At(v, slot, i) < |v.events|
    ensures EventFits(accounts, v, v.events[At(v, slot, i)])
    ensures SameSlot(v, v.events[At(v, slot, i)], AccountsOf(v.reservation)[i], slot)
  {
    assert SlotExact(accounts, v, slot, i);
  }

  /** The slot and the account of the entry at position x. */
  function SlotAt(v: GroupView, x: nat): nat {
    if v.reservation.userCap.None? then x else x / 2
  }

  function AccountAt(v: GroupView, x: nat): nat {
    if v.reservation.userCap.None? then 0 else x % 2
  }

  lemma PositionFits(accounts: seq<Account>, v: GroupView, x: nat)
    requires |v.history| > 0 && LifecycleValid(v) && EventsExact(accounts, v)
    requires x < |v.events|
    ensures SlotAt(v, x) < SlotCount(v) && AccountAt(v, x) < |AccountsOf(v.reservation)|
    ensures x == At(v, SlotAt(v, x), AccountAt(v, x))
    ensures EventFits(accounts, v, v.events[x])
    ensures SameSlot(v, v.events[x], AccountsOf(v.reservation)[AccountAt(v, x)], SlotAt(v, x))
  {
    ExactFits(accounts, v, SlotAt(v, x), AccountAt(v, x));
  }

  ghost predicate DistinctAccounts(v: GroupView) {
    v.reservation.userCap != Some(v.reservation.keyAccount)
  }

  lemma ExactEventsValid(accounts: seq<Account>, v: GroupView)
    requires |v.history| > 0 && LifecycleValid(v) && EventsExact(accounts, v) && DistinctAccounts(v)
    ensures EventsValid(accounts, v)
  {
    forall x: nat | x < |v.events|
      ensures EventFits(accounts, v, v.events[x])
    {
      PositionFits(accounts, v, x);
    }
    forall x: nat, y: nat | x < y < |v.events|
      ensures v.events[x].account != v.events[y].account || Slot(v, v.events[x]) != Slot(v, v.events[y])
    {
      PositionFits(accounts, v, x);
      PositionFits(accounts, v, y);
    }
    forall i: nat, slot: nat | i < |AccountsOf(v.reservation)| && slot < SlotCount(v)
      ensures SlotFilled(v, v.events, AccountsOf(v.reservation)[i], slot)
    {
      ExactFits(accounts, v, slot, i);
    }
    forall x: nat, y: nat | x < |v.events| && y < |v.events|
      ensures VersionsFollow(v, x, y)
    {
      PositionFits(accounts, v, x);
      PositionFits(accounts, v, y);
      assert SlotExact(accounts, v, SlotAt(v, y), AccountAt(v, y));
    }
  }

  lemma {:induction false} FirstHoldIs(accounts: seq<Account>, events: seq<Entry>, x: nat, scope: Scope, user: Id, key: Option<Id>)
    requires x < |events| && HoldCandidate(accounts, events[x], scope, user, key)
    requires forall y | 0 <= y < x :: !HoldCandidate(accounts, events[y], scope, user, key)
    ensures FirstHold(accounts, events, scope, user, key) == [events[x].account]
  {
    if x > 0 {
      FirstHoldIs(accounts, events[1..], x - 1, scope, user, key);
    }
  }

  lemma {:induction false} NoHold(accounts: seq<Account>, events: seq<Entry>, scope: Scope, user: Id, key: Option<Id>)
    requires forall y | 0 <= y < |events| :: !HoldCandidate(accounts, events[y], scope, user, key)
    ensures FirstHold(accounts, events, scope, user, key) == []
  {
    if events != [] {
      NoHold(accounts, events[1..], scope, user, key);
    }
  }

  lemma SoundAccountsAgree(accounts: seq<Account>, v: GroupView)
    requires OwnersAgree(v) && |v.history| > 0 && LifecycleValid(v)
    requires EventsExact(accounts, v) && AccountsSound(accounts, v)
    ensures AccountsAgree(accounts, v)
  {
    assert SlotExact(accounts, v, 0, 0);
    FirstHoldIs(accounts, v.events, 0, KeyScope, v.identity.user, Some(v.step.auth.key));
    if v.reservation.userCap.Some? {
      assert SlotExact(accounts, v, 0, 1);
      FirstHoldIs(accounts, v.events, 1, UserCapScope, v.identity.user, None);
    } else {
      forall y: nat | y < |v.events|
        ensures !HoldCandidate(accounts, v.events[y], UserCapScope, v.identity.user, None)
      {
        PositionFits(accounts, v, y);
      }
      NoHold(accounts, v.events, UserCapScope, v.identity.user, None);
    }
  }

  /** Such a group meets every clause of the check but one, which is about the task of a settled video. */
  lemma SoundIsValid(accounts: seq<Account>, v: GroupView)
    requires Sound(accounts, v)
    ensures ViewValid(accounts, v) <==> TasksAgree(v)
  {
    ExactEventsValid(accounts, v);
    SoundAccountsAgree(accounts, v);
  }

  // All steps

  ghost predicate StepLinked(db: Db, r: Id) {
    && r in db.steps && r in db.requests
    && db.steps[r].operation in db.operations && db.steps[r].operation in db.requests
    && db.steps[r].reservation < |db.reservations|
    && db.reservations[db.steps[r].reservation].request == r
  }

  function StepView(db: Db, r: Id): GroupView
    requires StepLinked(db, r)
  {
    ViewOf(db, db.steps[r].reservation).value
  }

  ghost predicate StepSound(db: Db, r: Id) {
    StepLinked(db, r) && Sound(db.accounts, StepView(db, r))
  }

  /** The CHECK constraints of an account row: a version, and a key exactly on a Key account. */
  ghost predicate AccountShaped(account: Account) {
    account.version > 0 && (account.scope == KeyScope <==> account.key.Some?)
  }

  ghost predicate AccountsShaped(accounts: seq<Account>) {
    forall i | 0 <= i < |accounts| :: AccountShaped(accounts[i])
  }

  ghost predicate ReservationsSound(accounts: seq<Account>, reservations: seq<Reservation>) {
    && (forall i | 0 <= i < |reservations| ::
          reservations[i].group == HoldGroup(i) && AccountsKnown(accounts, AccountsOf(reservations[i])))
    && (forall i, j | 0 <= i < j < |reservations| :: reservations[i].request != reservations[j].request)
  }

  /** Every entry belongs to an account and to a hold, or to an administrative grant. */
  ghost predicate EntrySound(e: Entry, accountCount: nat, reservationCount: nat) {
    && e.account < accountCount
    && if e.kind == GrantEvent then e.group.AdminGroup?
       else e.group.HoldGroup? && e.group.reservation < reservationCount
  }

  ghost predicate LedgerSound(ledger: seq<Entry>, accountCount: nat, reservationCount: nat) {
    forall x | 0 <= x < |ledger| :: EntrySound(ledger[x], accountCount, reservationCount)
  }

  /** The key columns of the step's dependent tables refer to existing steps. */
  ghost predicate ReferencesSound(db: Db) {
    db.revisions.Keys <= db.steps.Keys && db.evidence.Keys <= db.steps.Keys && db.settlements.Keys <= db.steps.Keys
  }

  ghost predicate HasRevision(revisions: map<Id, seq<Revision>>, r: Id, i: int) {
    r in revisions && 0 <= i < |revisions[r]|
  }

  /** UNIQUE(budget_id): no budget id is ever adopted twice, by any request. */
  ghost predicate BudgetIdsUnique(revisions: map<Id, seq<Revision>>) {
    forall r, i, q, j | HasRevision(revisions, r, i) && HasRevision(revisions, q, j) ::
      revisions[r][i].budgetId == revisions[q][j].budgetId ==> r == q && i == j
  }

  ghost predicate TablesSound(db: Db) {
    && AccountsShaped(db.accounts)
    && ReservationsSound(db.accounts, db.reservations)
    && LedgerSound(db.ledger, |db.accounts|, |db.reservations|)
    && ReferencesSound(db)
    && BudgetIdsUnique(db.revisions)
    && forall r | r in db.steps :: StepLinked(db, r)
  }

  ghost predicate StepsSound(db: Db) {
    forall r | r in db.steps :: StepSound(db, r)
  }

  ghost predicate Inv(db: Db) {
    TablesSound(db) && StepsSound(db)
  }

  lemma ViewParts(db: Db, r: Id)
    requires StepLinked(db, r)
    ensures var v := StepView(db, r);
            && v.request == r
            && v.step == db.steps[r]
            && v.operationKey == db.operations[v.step.operation].key
            && v.identity == db.requests[r].identity
            && v.parentIdentity == db.requests[v.step.operation].identity
            && v.reservationId == v.step.reservation
            && v.reservation == db.reservations[v.step.reservation]
            && v.history == RevisionsOf(db, r)
            && v.admittedChild == AdmittedChild(db, v.step.operation)
            && v.events == EventsOf(db.ledger, v.reservation.group)
            && v.settlement == SettlementOf(db, r)
            && v.evidence == EvidenceOf(db, r)
  {
  }

  lemma SoundStep(db: Db, r: Id)
    requires Inv(db) && r in db.steps
    ensures StepLinked(db, r) && Sound(db.accounts, StepView(db, r))
  {
    hide Sound, TablesSound;
    assert StepSound(db, r);
  }

  /** In such a state the integrity check accepts the reservation of a step unless its task disagrees. */
  lemma InvIsValid(db: Db, r: Id)
    requires Inv(db) && r in db.steps
    ensures StepLinked(db, r)
    ensures GroupValid(db, db.steps[r].reservation) <==> TasksAgree(StepView(db, r))
  {
    assert StepSound(db, r);
    SoundIsValid(db.accounts, StepView(db, r));
  }
}
