/**
  What the integrity check of an event group demands, written out over the tables: which rows a reservation must have,
  column by column, and which entries the ledger must hold for it, in whatever order they stand there.
 */
module GroupRows {
  import opened Wrappers
  import opened Model
  import opened Ledger
  import opened EventGroup
  import opened Text
  import Invariant

  // The step, its requests and its history

  /** The reservation, the step that holds it, and both requests are of one Key, one user and one authorization. */
  predicate StepRows(db: Db, id: nat)
    requires id < |db.reservations|
  {
    var hold := db.reservations[id];
    && hold.request in db.steps && hold.request in db.requests && hold.request != ""
    && var step, auth := db.steps[hold.request], db.steps[hold.request].auth;
       && step.operation in db.operations && step.operation in db.requests
       && step.reservation == id
       && auth.key == hold.key && db.operations[step.operation].key == hold.key
       && db.requests[hold.request].identity == Identity(hold.user, hold.key, auth.endpoint, auth.model, auth.fingerprint)
       && db.requests[step.operation].identity.user == hold.user
       && db.requests[step.operation].identity.key == hold.key
       && auth.hold == hold.amount >= 0
       && step.digest == AuthorizationDigest(auth.(parent := step.operation, request := hold.request))
       && if step.kind == Assist
          then step.operation in db.preparations
               && db.preparations[step.operation] == Preparation(hold.request, PrepAdmitted)
          else step.operation == hold.request
  }

  /** A revision of the step's authorization: it may differ in budget, account, bridge, profile, policy, hold and expiry. */
  predicate RevisionOf(step: Step, r: Id, i: nat, row: Revision) {
    && row.auth == Authorization(row.auth.budgetId, step.operation, r, step.auth.key, step.auth.fingerprint,
                                 step.auth.endpoint, step.auth.model, row.auth.accountRef, row.auth.bridge,
                                 row.auth.profile, row.auth.policy, row.auth.hold, row.auth.expiresAt)
    && row == Revision(i + 1, row.auth.budgetId, row.auth, AuthorizationDigest(row.auth), row.auth.hold, row.previous,
                       row.proof, row.proofDigest, row.adoptedAt)
    && row.adoptedAt >= 0
  }

  /** A later revision carries the proof that its predecessor was canceled by the bridge that issued it. */
  predicate Replaces(r: Id, before: Authorization, row: Revision) {
    && row.proof.Some?
    && var proof := row.proof.value;
       && proof == Proof(before.budgetId, r, before.bridge, proof.cancelRef, proof.revision, proof.canceledAt)
       && proof.cancelRef != "" && proof.revision > 0 && proof.canceledAt > 0
       && row.previous == Some(before.budgetId) && row.proofDigest == Some(ProofDigest(proof))
       && row.auth.bridge == before.bridge
  }

  predicate HistoryRows(step: Step, r: Id, rows: seq<Revision>) {
    && rows != []
    && (forall i | 0 <= i < |rows| :: RevisionOf(step, r, i, rows[i]))
    && rows[0].previous == None && rows[0].proof == None && rows[0].proofDigest == None
    && (forall i | 0 < i < |rows| :: Replaces(r, rows[i - 1].auth, rows[i]))
    && rows[|rows| - 1].auth == step.auth.(parent := step.operation, request := r)
  }

  // The state of the hold

  predicate StatesAgree(state: HoldState, step: Step) {
    match state
    case HoldHeld => step.fin in {FinHeld, FinConflict} && step.actual == None
    case HoldUnknown => step.fin in {FinUnknown, FinConflict} && step.actual == None
    case HoldReleased =>
      step.fin == FinReleased && step.actual == None && !step.dispatched
      && step.releaseReason.Some? && step.releaseReason.value != ""
    case HoldCommitted =>
      step.fin in {FinSettled, FinConflict} && step.dispatched && step.actual.Some? && step.actual.value >= 0
  }

  // The ledger

  predicate ClosedState(state: HoldState) {
    state in {HoldReleased, HoldCommitted}
  }

  /** How many entries each account has: one for the reserve, one for each adoption, and one for the closing. */
  function Rounds(hold: Reservation, rows: seq<Revision>): nat {
    |rows| + if ClosedState(hold.state) then 1 else 0
  }

  /** The entry of one round on one account. */
  function Booked(hold: Reservation, step: Step, rows: seq<Revision>, round: nat, account: nat, version: int): Entry
    requires round < Rounds(hold, rows) && rows != []
  {
    var r, user, key, group := Some(hold.request), hold.user, Some(hold.key), hold.group;
    if round == 0 then
      Entry(account, ReserveEvent, rows[0].hold, -rows[0].hold, r, user, key, group, version, Some(1))
    else if round < |rows| then
      var less := rows[round - 1].hold - rows[round].hold;
      Entry(account, AdjustHoldEvent, if less < 0 then -less else less, less, r, user, key, group, version, Some(round + 1))
    else if hold.state == HoldReleased then
      Entry(account, ReleaseEvent, hold.amount, hold.amount, r, user, key, group, version, Some(|rows|))
    else
      var actual := if step.actual.Some? then step.actual.value else 0;
      Entry(account, CommitEvent, actual, hold.amount - actual, r, user, key, group, version, Some(|rows|))
  }

  predicate IsBooked(
    accounts: seq<Account>, hold: Reservation, step: Step, rows: seq<Revision>, e: Entry, round: nat, account: nat)
    requires round < Rounds(hold, rows) && rows != []
  {
    && account < |accounts| && 0 < e.version <= accounts[account].version
    && e == Booked(hold, step, rows, round, account, e.version)
  }

  predicate OnHold(hold: Reservation, account: nat) {
    account == hold.keyAccount || Some(account) == hold.userCap
  }

  /** The entry is that of some round on some account of the hold. */
  ghost predicate HasRound(accounts: seq<Account>, hold: Reservation, step: Step, rows: seq<Revision>, e: Entry)
    requires rows != []
  {
    exists round: nat, account: nat ::
      round < Rounds(hold, rows) && OnHold(hold, account) && IsBooked(accounts, hold, step, rows, e, round, account)
  }

  /** Some entry is that of the round on the account. */
  ghost predicate HasEntry(
    accounts: seq<Account>, hold: Reservation, step: Step, rows: seq<Revision>, es: seq<Entry>, round: nat, account: nat)
    requires round < Rounds(hold, rows) && rows != []
  {
    exists x :: 0 <= x < |es| && IsBooked(accounts, hold, step, rows, es[x], round, account)
  }

  /** No round has two entries on one account. */
  ghost predicate NoneTwice(accounts: seq<Account>, hold: Reservation, step: Step, rows: seq<Revision>, es: seq<Entry>)
    requires rows != []
  {
    forall x, y, round: nat, account: nat |
      0 <= x < y < |es| && round < Rounds(hold, rows) && IsBooked(accounts, hold, step, rows, es[x], round, account) ::
      !IsBooked(accounts, hold, step, rows, es[y], round, account)
  }

  /** On each account the versions rise from one adoption to the next, and do not fall at the closing. */
  ghost predicate VersionsRise(accounts: seq<Account>, hold: Reservation, step: Step, rows: seq<Revision>, es: seq<Entry>)
    requires rows != []
  {
    forall x, y, round: nat, account: nat |
      && 0 <= x < |es| && 0 <= y < |es| && round + 1 < Rounds(hold, rows)
      && IsBooked(accounts, hold, step, rows, es[x], round, account)
      && IsBooked(accounts, hold, step, rows, es[y], round + 1, account) ::
      if round + 1 < |rows| then es[x].version < es[y].version else es[x].version <= es[y].version
  }

  /** The entries of the group are, in some order, one for every round on every account of the hold. */
  ghost predicate LedgerRows(accounts: seq<Account>, hold: Reservation, step: Step, rows: seq<Revision>, es: seq<Entry>)
    requires rows != []
  {
    && hold.userCap != Some(hold.keyAccount)
    && |es| == Rounds(hold, rows) * (if hold.userCap.Some? then 2 else 1)
    && (forall x | 0 <= x < |es| :: HasRound(accounts, hold, step, rows, es[x]))
    && (forall round: nat, account: nat | round < Rounds(hold, rows) && OnHold(hold, account) ::
          HasEntry(accounts, hold, step, rows, es, round, account))
    && NoneTwice(accounts, hold, step, rows, es)
    && VersionsRise(accounts, hold, step, rows, es)
  }

  /** The reserve entries name the Key's account and, with it, the owner's cap; or the cap alone, in the Key's place. */
  predicate AccountRows(accounts: seq<Account>, hold: Reservation) {
    || (NamesAccount(accounts, hold.keyAccount, KeyScope, hold.user, Some(hold.key))
        && (hold.userCap.Some? ==> NamesAccount(accounts, hold.userCap.value, UserCapScope, hold.user, None)))
    || (hold.userCap.None? && NamesAccount(accounts, hold.keyAccount, UserCapScope, hold.user, None))
  }

  predicate NamesAccount(accounts: seq<Account>, account: nat, scope: Scope, user: Id, key: Option<Id>) {
    && account < |accounts| && accounts[account].version > 0
    && accounts[account].scope == scope && accounts[account].user == user && accounts[account].key == key
  }

  // Settlement and evidence

  predicate SettlementRow(id: nat, hold: Reservation, step: Step, settlement: Option<Settlement>) {
    if hold.state != HoldCommitted then settlement == None
    else
      && settlement.Some? && step.actual.Some?
      && var s, auth, actual := settlement.value, step.auth, step.actual.value;
         && s == Settlement(id, auth.budgetId, auth.accountRef, auth.bridge, s.source, s.hash, s.task, auth.hold, actual,
                            auth.hold - actual, s.debt, s.settledAt)
         && !Blank(s.source) && (s.hash.Supplied? ==> !Blank(s.hash.text)) && s.settledAt > 0
  }

  /** The amount a receipt of this status may say, and the amount its row keeps. */
  predicate AmountFits(status: ReceiptStatus, said: Option<int>) {
    match status
    case Final => said.Some? && said.value >= 0
    case FailedNoCharge => said == None || said == Some(0)
    case Pending | Unknown | Unverified => said.Some? ==> said.value >= 0
  }

  /** The row reproduces its hash from what it says; for a receipt without charge, from no amount or from zero. */
  predicate Reproduces(r: Id, hash: EvidenceHash, e: Evidence, status: ReceiptStatus, said: Option<int>) {
    && (status != FailedNoCharge ==> said == e.actual)
    && (status == FailedNoCharge ==> said == None || said == Some(0))
    && hash == Computed(ReceiptFacts(r, e.budgetId, e.accountRef, e.bridge, status, said, Some("credits"), e.source, e.task))
  }

  predicate ReceiptRow(r: Id, hash: EvidenceHash, e: Evidence) {
    && e.status.Some? && e.unit == Some("credits") && e.reason == None
    && AmountFits(e.status.value, e.actual) && (e.status.value == FailedNoCharge ==> e.actual == Some(0))
    && (Reproduces(r, hash, e, e.status.value, e.actual) || Reproduces(r, hash, e, e.status.value, None))
  }

  /** A conflict row keeps the final receipt that conflicts, or only the hash that was reported. */
  predicate ConflictRow(r: Id, hash: EvidenceHash, e: Evidence) {
    && e.reason.Some? && e.reason.value != ""
    && match e.status
       case None => e.actual == None && e.unit == None && e.task == None
       case Some(status) =>
         && status in {Final, FailedNoCharge} && e.unit == Some("credits") && AmountFits(status, e.actual)
         && (Reproduces(r, hash, e, status, e.actual) || Reproduces(r, hash, e, status, None)
             || Reproduces(r, hash, e, status, Some(0)))
  }

  /** The row the settlement names is the final receipt it was made from, about the bound task, or about none. */
  predicate SettledFrom(step: Step, s: Settlement, e: Evidence) {
    && e.source == s.source && e.task == s.task && s.actual == (if e.actual.Some? then e.actual.value else 0)
    && e.status.Some? && e.status.value in {Final, FailedNoCharge}
    && (step.kind == Video && e.status == Some(Final) ==> step.task.Some? && e.task == step.task)
    && (step.kind == Video && e.status == Some(FailedNoCharge) ==> step.task.None? && e.task.None?)
  }

  predicate EvidenceRow(r: Id, step: Step, settlement: Option<Settlement>, hash: EvidenceHash, e: Evidence) {
    && e.budgetId == step.auth.budgetId && e.accountRef == step.auth.accountRef && e.bridge == step.auth.bridge
    && !Blank(e.source) && (hash.Supplied? ==> !Blank(hash.text)) && e.observedAt > 0 && e.recordedAt > 0
    && match e.kind
       case ReceiptRecord =>
         && ReceiptRow(r, hash, e)
         && (settlement.Some? && settlement.value.hash == hash ==> SettledFrom(step, settlement.value, e))
       case ConflictRecord => ConflictRow(r, hash, e)
  }

  ghost predicate EvidenceRows(
    r: Id, hold: Reservation, step: Step, settlement: Option<Settlement>, rows: map<EvidenceHash, Evidence>)
  {
    && (forall hash | hash in rows :: EvidenceRow(r, step, settlement, hash, rows[hash]))
    && (step.fin == FinConflict <==> exists hash :: hash in rows && rows[hash].kind == ConflictRecord)
    && (hold.state == HoldCommitted ==>
          settlement.Some? && settlement.value.hash in rows && rows[settlement.value.hash].kind == ReceiptRecord)
  }

  /** Everything the tables must say about a reservation. */
  ghost predicate RowsAgree(db: Db, id: nat)
    requires id < |db.reservations|
  {
    var hold := db.reservations[id];
    && StepRows(db, id)
    && var r, step, rows := hold.request, db.steps[hold.request], RevisionsOf(db, hold.request);
       && HistoryRows(step, r, rows)
       && AccountRows(db.accounts, hold)
       && StatesAgree(hold.state, step)
       && LedgerRows(db.accounts, hold, step, rows, EventsOf(db.ledger, hold.group))
       && SettlementRow(id, hold, step, SettlementOf(db, r))
       && EvidenceRows(r, hold, step, SettlementOf(db, r), EvidenceOf(db, r))
  }

  // The check demands exactly this

  lemma StepRowsIff(db: Db, id: nat)
    requires id < |db.reservations|
    ensures StepRows(db, id)
            <==> && ViewOf(db, id).Some?
                 && var v := ViewOf(db, id).value;
                    && OwnersAgree(v) && v.step.auth.hold >= 0 && KindValid(v)
                    && v.step.digest == AuthorizationDigest(CurrentAuthorization(v))
  {
    hide RevisionsOf, EvidenceOf, SettlementOf, EventsOf;
  }

  lemma HistoryRowsIff(v: GroupView)
    requires OwnersAgree(v)
    ensures HistoryValid(v) <==> HistoryRows(v.step, v.request, v.history)
  {
    var rows := v.history;
    forall i | 0 <= i < |rows|
      ensures RevisionRowValid(v, i) <==> RevisionOf(v.step, v.request, i, rows[i])
    {
    }
    forall i | 0 < i < |rows| && RevisionRowValid(v, i)
      ensures ProofValid(v.request, rows[i - 1].auth, rows[i]) <==> Replaces(v.request, rows[i - 1].auth, rows[i])
    {
    }
    hide RevisionRowValid, RevisionOf, ProofValid, Replaces;
    if rows != [] && RevisionOf(v.step, v.request, |rows| - 1, rows[|rows| - 1]) {
      LastHold(v.step, v.request, |rows| - 1, rows[|rows| - 1]);
    }
  }

  lemma LastHold(step: Step, r: Id, i: nat, row: Revision)
    requires RevisionOf(step, r, i, row)
    ensures row.hold == row.auth.hold
  {
  }

  lemma StatesAgreeIff(v: GroupView)
    ensures LifecycleValid(v) <==> StatesAgree(v.reservation.state, v.step)
  {
  }

  lemma SettlementRowIff(v: GroupView)
    requires LifecycleValid(v)
    ensures SettlementValid(v) <==> SettlementRow(v.reservationId, v.reservation, v.step, v.settlement)
  {
    hide Blank;
  }

  lemma ReceiptRowIff(r: Id, hash: EvidenceHash, e: Evidence)
    ensures ReceiptRowValid(r, hash, e) <==> ReceiptRow(r, hash, e)
  {
  }

  lemma ConflictRowIff(r: Id, hash: EvidenceHash, e: Evidence)
    ensures ConflictRowValid(r, hash, e) <==> ConflictRow(r, hash, e)
  {
  }

  lemma EvidenceRowIff(v: GroupView, hash: EvidenceHash)
    requires hash in v.evidence
    ensures EvidenceRowValid(v, hash) && TaskAgrees(v, hash)
            <==> EvidenceRow(v.request, v.step, v.settlement, hash, v.evidence[hash])
  {
    hide Blank, ReceiptRowValid, ReceiptRow, ConflictRowValid, ConflictRow;
    ReceiptRowIff(v.request, hash, v.evidence[hash]);
    ConflictRowIff(v.request, hash, v.evidence[hash]);
  }

  lemma EvidenceRowsIff(v: GroupView)
    ensures EvidenceValid(v) <==> EvidenceRows(v.request, v.reservation, v.step, v.settlement, v.evidence)
  {
    hide EvidenceRowValid, TaskAgrees, EvidenceRow;
    forall hash | hash in v.evidence
      ensures EvidenceRowValid(v, hash) && TaskAgrees(v, hash)
              <==> EvidenceRow(v.request, v.step, v.settlement, hash, v.evidence[hash])
    {
      EvidenceRowIff(v, hash);
    }
  }

  // The ledger part: an entry fits exactly where it is the entry of a round

  /** What the ledger part of the check may rely on, from the parts before it. */
  ghost predicate Prepared(v: GroupView) {
    && v.history != [] && LifecycleValid(v)
    && v.reservation.request == v.request && v.step.auth.hold == v.reservation.amount
    && forall x | 0 <= x < |v.events| :: v.events[x].group == v.reservation.group
  }

  lemma RoundsAreSlots(v: GroupView)
    requires Prepared(v)
    ensures Rounds(v.reservation, v.history) == SlotCount(v)
  {
  }

  /** An entry of a round on an account of the hold fits, in that slot. */
  lemma BookedFits(accounts: seq<Account>, v: GroupView, x: nat, round: nat, account: nat)
    requires Prepared(v) && x < |v.events| && round < Rounds(v.reservation, v.history)
    requires IsBooked(accounts, v.reservation, v.step, v.history, v.events[x], round, account)
    ensures Slot(v, v.events[x]) == Some(round) && v.events[x].account == account && round < SlotCount(v)
    ensures OnHold(v.reservation, account) ==> EventFits(accounts, v, v.events[x])
  {
    RoundsAreSlots(v);
    AccountIds(v.reservation, account);
  }

  lemma AccountIds(hold: Reservation, account: nat)
    ensures account in AccountsOf(hold) <==> OnHold(hold, account)
  {
    assert AccountsOf(hold)[0] == hold.keyAccount;
    if hold.userCap.Some? {
      assert AccountsOf(hold)[1] == hold.userCap.value;
    }
  }

  /** An entry that fits is that of its slot's round on its account. */
  lemma FitsBooked(accounts: seq<Account>, v: GroupView, x: nat)
    requires Prepared(v) && x < |v.events| && EventFits(accounts, v, v.events[x])
    ensures var e := v.events[x];
            && Slot(v, e).Some? && Slot(v, e).value < Rounds(v.reservation, v.history) && OnHold(v.reservation, e.account)
            && IsBooked(accounts, v.reservation, v.step, v.history, e, Slot(v, e).value, e.account)
  {
    RoundsAreSlots(v);
    AccountIds(v.reservation, v.events[x].account);
  }

  lemma RowsOfFitting(accounts: seq<Account>, v: GroupView)
    requires Prepared(v) && EventsValid(accounts, v) && v.reservation.userCap != Some(v.reservation.keyAccount)
    ensures LedgerRows(accounts, v.reservation, v.step, v.history, v.events)
  {
    hide LifecycleValid, EventFits, IsBooked, Slot;
    RoundsAreSlots(v);
    var hold, rows := v.reservation, v.history;
    forall x: nat | x < |v.events|
      ensures HasRound(accounts, hold, v.step, rows, v.events[x])
    {
      FitsBooked(accounts, v, x);
    }
    forall round: nat, account: nat | round < Rounds(hold, rows) && OnHold(hold, account)
      ensures HasEntry(accounts, hold, v.step, rows, v.events, round, account)
    {
      FilledBooked(accounts, v, round, account);
    }
    forall x: nat, y: nat, round: nat, account: nat |
      x < y < |v.events| && round < Rounds(hold, rows) && IsBooked(accounts, hold, v.step, rows, v.events[x], round, account)
      ensures !IsBooked(accounts, hold, v.step, rows, v.events[y], round, account)
    {
      BookedFits(accounts, v, x, round, account);
      if IsBooked(accounts, hold, v.step, rows, v.events[y], round, account) {
        BookedFits(accounts, v, y, round, account);
      }
    }
    forall x: nat, y: nat, round: nat, account: nat |
      && x < |v.events| && y < |v.events| && round + 1 < Rounds(hold, rows)
      && IsBooked(accounts, hold, v.step, rows, v.events[x], round, account)
      && IsBooked(accounts, hold, v.step, rows, v.events[y], round + 1, account)
      ensures if round + 1 < |rows| then v.events[x].version < v.events[y].version
              else v.events[x].version <= v.events[y].version
    {
      BookedFits(accounts, v, x, round, account);
      BookedFits(accounts, v, y, round + 1, account);
      assert VersionsFollow(v, x, y);
    }
  }

  lemma FilledBooked(accounts: seq<Account>, v: GroupView, round: nat, account: nat)
    requires Prepared(v) && EventsValid(accounts, v)
    requires round < Rounds(v.reservation, v.history) && OnHold(v.reservation, account)
    ensures HasEntry(accounts, v.reservation, v.step, v.history, v.events, round, account)
  {
    hide LifecycleValid, EventFits, IsBooked, Slot;
    RoundsAreSlots(v);
    AccountIds(v.reservation, account);
    var i :| 0 <= i < |AccountsOf(v.reservation)| && AccountsOf(v.reservation)[i] == account;
    assert SlotFilled(v, v.events, AccountsOf(v.reservation)[i], round);
    var x :| 0 <= x < |v.events| && SameSlot(v, v.events[x], account, round);
    FitsBooked(accounts, v, x);
  }

  lemma FittingOfRows(accounts: seq<Account>, v: GroupView)
    requires Prepared(v) && LedgerRows(accounts, v.reservation, v.step, v.history, v.events)
    ensures EventsValid(accounts, v)
  {
    hide LifecycleValid, EventFits, IsBooked, Slot;
    RoundsAreSlots(v);
    var hold, rows := v.reservation, v.history;
    forall x: nat | x < |v.events|
      ensures EventFits(accounts, v, v.events[x])
    {
      assert HasRound(accounts, hold, v.step, rows, v.events[x]);
      var round: nat, account: nat :|
        round < Rounds(hold, rows) && OnHold(hold, account) && IsBooked(accounts, hold, v.step, rows, v.events[x], round, account);
      BookedFits(accounts, v, x, round, account);
    }
    forall x: nat, y: nat | x < y < |v.events|
      ensures v.events[x].account != v.events[y].account || Slot(v, v.events[x]) != Slot(v, v.events[y])
    {
      FitsBooked(accounts, v, x);
      FitsBooked(accounts, v, y);
    }
    forall i: nat, slot: nat | i < |AccountsOf(hold)| && slot < SlotCount(v)
      ensures SlotFilled(v, v.events, AccountsOf(hold)[i], slot)
    {
      AccountIds(hold, AccountsOf(hold)[i]);
      assert HasEntry(accounts, hold, v.step, rows, v.events, slot, AccountsOf(hold)[i]);
      var x :| 0 <= x < |v.events| && IsBooked(accounts, hold, v.step, rows, v.events[x], slot, AccountsOf(hold)[i]);
      BookedFits(accounts, v, x, slot, AccountsOf(hold)[i]);
      assert SameSlot(v, v.events[x], AccountsOf(hold)[i], slot);
    }
    forall x: nat, y: nat | x < |v.events| && y < |v.events|
      ensures VersionsFollow(v, x, y)
    {
      FitsBooked(accounts, v, x);
      FitsBooked(accounts, v, y);
    }
  }

  // The accounts, which the check finds through the reserve entries

  lemma {:induction false} FirstHoldNamed(accounts: seq<Account>, es: seq<Entry>, scope: Scope, user: Id, key: Option<Id>)
    ensures var first := FirstHold(accounts, es, scope, user, key);
            first == [] || (|first| == 1 && NamesAccount(accounts, first[0], scope, user, key))
  {
    if es != [] {
      FirstHoldNamed(accounts, es[1..], scope, user, key);
    }
  }

  lemma {:induction false} OnlyHold(
    accounts: seq<Account>, es: seq<Entry>, scope: Scope, user: Id, key: Option<Id>, x: nat, account: nat)
    requires x < |es| && HoldCandidate(accounts, es[x], scope, user, key)
    requires forall y | 0 <= y < |es| && HoldCandidate(accounts, es[y], scope, user, key) :: es[y].account == account
    ensures FirstHold(accounts, es, scope, user, key) == [account]
  {
    hide HoldCandidate;
    if x > 0 {
      var rest := es[1..];
      forall y | 0 <= y < |rest| && HoldCandidate(accounts, rest[y], scope, user, key)
        ensures rest[y].account == account
      {
        assert rest[y] == es[y + 1];
      }
      assert rest[x - 1] == es[x];
      OnlyHold(accounts, rest, scope, user, key, x - 1, account);
    }
  }

  lemma AccountRowsFollow(accounts: seq<Account>, v: GroupView)
    requires OwnersAgree(v) && AccountsAgree(accounts, v)
    ensures AccountRows(accounts, v.reservation) && v.reservation.userCap != Some(v.reservation.keyAccount)
  {
    hide FirstHold;
    FirstHoldNamed(accounts, v.events, KeyScope, v.identity.user, Some(v.step.auth.key));
    FirstHoldNamed(accounts, v.events, UserCapScope, v.identity.user, None);
  }

  /** The account has its reserve entry, which makes it a candidate where its row names it. */
  lemma ReservedOn(accounts: seq<Account>, v: GroupView, account: nat, scope: Scope, user: Id, key: Option<Id>) returns (x: nat)
    requires Prepared(v) && LedgerRows(accounts, v.reservation, v.step, v.history, v.events)
    requires OnHold(v.reservation, account) && NamesAccount(accounts, account, scope, user, key)
    ensures x < |v.events| && HoldCandidate(accounts, v.events[x], scope, user, key) && v.events[x].account == account
  {
    hide LifecycleValid, HasRound, NoneTwice, VersionsRise;
    assert HasEntry(accounts, v.reservation, v.step, v.history, v.events, 0, account);
    x :| x < |v.events| && IsBooked(accounts, v.reservation, v.step, v.history, v.events[x], 0, account);
  }

  lemma CandidateOnHold(accounts: seq<Account>, v: GroupView, x: nat, scope: Scope, user: Id, key: Option<Id>)
    requires Prepared(v) && LedgerRows(accounts, v.reservation, v.step, v.history, v.events)
    requires x < |v.events| && HoldCandidate(accounts, v.events[x], scope, user, key)
    ensures OnHold(v.reservation, v.events[x].account) && NamesAccount(accounts, v.events[x].account, scope, user, key)
  {
    hide LifecycleValid, HasEntry, NoneTwice, VersionsRise;
    assert HasRound(accounts, v.reservation, v.step, v.history, v.events[x]);
  }

  /** The one account of the hold that is named so is found; if none is, nothing is. */
  lemma FoundNamed(accounts: seq<Account>, v: GroupView, scope: Scope, user: Id, key: Option<Id>, account: Option<nat>)
    requires Prepared(v) && LedgerRows(accounts, v.reservation, v.step, v.history, v.events)
    requires account.Some? ==> OnHold(v.reservation, account.value) && NamesAccount(accounts, account.value, scope, user, key)
    requires forall a: nat | OnHold(v.reservation, a) && NamesAccount(accounts, a, scope, user, key) :: account == Some(a)
    ensures FirstHold(accounts, v.events, scope, user, key) == if account.Some? then [account.value] else []
  {
    hide Prepared, LedgerRows, HoldCandidate, NamesAccount, OnHold, FirstHold;
    forall y: nat | y < |v.events| && HoldCandidate(accounts, v.events[y], scope, user, key)
      ensures account == Some(v.events[y].account)
    {
      CandidateOnHold(accounts, v, y, scope, user, key);
    }
    if account.Some? {
      var x := ReservedOn(accounts, v, account.value, scope, user, key);
      OnlyHold(accounts, v.events, scope, user, key, x, account.value);
    } else {
      Invariant.NoHold(accounts, v.events, scope, user, key);
    }
  }

  lemma AccountsFollow(accounts: seq<Account>, v: GroupView)
    requires OwnersAgree(v) && Prepared(v) && LedgerRows(accounts, v.reservation, v.step, v.history, v.events)
    requires AccountRows(accounts, v.reservation)
    ensures AccountsAgree(accounts, v)
  {
    hide LifecycleValid, HasEntry, HasRound, NoneTwice, VersionsRise, FirstHold;
    var hold := v.reservation;
    if NamesAccount(accounts, hold.keyAccount, KeyScope, hold.user, Some(hold.key)) {
      FoundNamed(accounts, v, KeyScope, hold.user, Some(hold.key), Some(hold.keyAccount));
      FoundNamed(accounts, v, UserCapScope, hold.user, None, hold.userCap);
    } else {
      FoundNamed(accounts, v, KeyScope, hold.user, Some(hold.key), None);
      FoundNamed(accounts, v, UserCapScope, hold.user, None, Some(hold.keyAccount));
    }
  }

  lemma {:induction false} EventsOfGroup(ledger: seq<Entry>, group: Model.EventGroup)
    ensures forall x | 0 <= x < |EventsOf(ledger, group)| :: EventsOf(ledger, group)[x].group == group
  {
    if ledger != [] {
      EventsOfGroup(ledger[..|ledger| - 1], group);
    }
  }

  lemma LedgerPartIff(accounts: seq<Account>, v: GroupView)
    requires OwnersAgree(v) && HistoryValid(v) && LifecycleValid(v) && v.reservation.request == v.request
    requires forall x | 0 <= x < |v.events| :: v.events[x].group == v.reservation.group
    ensures AccountsAgree(accounts, v) && EventsValid(accounts, v)
            <==> AccountRows(accounts, v.reservation) && LedgerRows(accounts, v.reservation, v.step, v.history, v.events)
  {
    assert Prepared(v);
    hide LifecycleValid, EventsValid, LedgerRows, AccountsAgree, AccountRows, HistoryValid, Prepared;
    if AccountsAgree(accounts, v) && EventsValid(accounts, v) {
      AccountRowsFollow(accounts, v);
      RowsOfFitting(accounts, v);
    }
    if AccountRows(accounts, v.reservation) && LedgerRows(accounts, v.reservation, v.step, v.history, v.events) {
      FittingOfRows(accounts, v);
      AccountsFollow(accounts, v);
    }
  }

  /** The check accepts a reservation exactly when the tables say about it what is written out above. */
  lemma CheckDemands(db: Db, id: nat)
    requires id < |db.reservations|
    ensures GroupValid(db, id) <==> RowsAgree(db, id)
  {
    hide StepRows, OwnersAgree, KindValid, HistoryValid, HistoryRows, LifecycleValid, StatesAgree, EventsValid, LedgerRows,
         AccountsAgree, AccountRows, SettlementValid, SettlementRow, EvidenceValid, EvidenceRows, EventsOf, RevisionsOf,
         EvidenceOf, SettlementOf;
    StepRowsIff(db, id);
    if StepRows(db, id) {
      var v := ViewOf(db, id).value;
      EventsOfGroup(db.ledger, db.reservations[id].group);
      HistoryRowsIff(v);
      StatesAgreeIff(v);
      EvidenceRowsIff(v);
      if LifecycleValid(v) {
        SettlementRowIff(v);
        if HistoryValid(v) {
          LedgerPartIff(db.accounts, v);
        }
      }
    }
  }
}
