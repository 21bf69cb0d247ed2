/**
  How each transaction moves money, and what that bounds: reserves and refreshes never take a balance below
  zero, so only charges beyond a hold can, and no transaction but a grant raises what the accounts commit.
 */
module Solvency {
  import opened Wrappers
  import opened Model
  import opened RequestStates
  import opened Ledger
  import opened EventGroup
  import opened Billing
  import opened Settling
  import opened Grants
  import opened Invariant
  import opened Frame
  import opened Preservation
  import opened ReceiptPreservation
  import opened RefreshPreservation
  import opened AdmissionPreservation
  import opened GrantPreservation
  import opened Money
  import opened Runs
  import opened Tables
  import opened Text

  datatype Round = Round(
    accounts: seq<Account>, hold: Reservation, kind: EventKind, amount: int, delta: int, revision: Option<int>)

  /** All that can happen to the ledger in one transaction. */
  datatype Move = Still | Charged(round: Round) | Credited(entry: Entry) | Withdrawn(entry: Entry)

  function RoundEntries(round: Round): seq<Entry> {
    HoldEntries(round.accounts, round.hold, round.kind, round.amount, round.delta, round.revision)
  }

  function Moved(ledger: seq<Entry>, move: Move): seq<Entry> {
    match move
    case Still => ledger
    case Charged(round) => ledger + RoundEntries(round)
    case Credited(entry) => ledger + [entry]
    case Withdrawn(entry) => ledger + [entry]
  }

  /** A round that takes credits, unless it commits a charge, takes no more than every account of the hold has. */
  predicate RoundAllowed(ledger: seq<Entry>, round: Round) {
    && round.hold.userCap != Some(round.hold.keyAccount)
    && round.amount >= 0
    && match round.kind
       case ReserveEvent | AdjustHoldEvent =>
         round.delta < 0 ==> MinAvailable(ledger, round.hold.keyAccount, round.hold.userCap) >= -round.delta
       case ReleaseEvent => round.delta >= 0
       case CommitEvent => true
       case GrantEvent => false
  }

  predicate MoveAllowed(ledger: seq<Entry>, move: Move) {
    match move
    case Still => true
    case Charged(round) => RoundAllowed(ledger, round)
    case Credited(entry) => entry.kind == GrantEvent && entry.amount == entry.delta && entry.delta > 0
    case Withdrawn(entry) =>
      entry.kind == GrantEvent && entry.amount == -entry.delta && 0 < -entry.delta <= Available(ledger, entry.account)
  }

  // The move each transaction makes

  lemma DistinctAccountsOf(accounts: seq<Account>, v: GroupView)
    requires AccountsSound(accounts, v)
    ensures v.reservation.userCap != Some(v.reservation.keyAccount)
  {
  }

  lemma HoldOf(db: Db, request: Id)
    requires Inv(db) && request in db.steps
    ensures StepLinked(db, request)
    ensures var hold := db.reservations[db.steps[request].reservation];
            hold.userCap != Some(hold.keyAccount) && hold.amount == db.steps[request].auth.hold > 0
  {
    hide EventsExact, HistoryValid, EvidenceSound, TablesSound, StepsSound, StepView;
    SoundStep(db, request);
    ViewParts(db, request);
    DistinctAccountsOf(db.accounts, StepView(db, request));
  }

  function ReserveMove(accounts: seq<Account>, hold: Reservation): Move {
    Charged(Round(accounts, hold, ReserveEvent, hold.amount, -hold.amount, Some(1)))
  }

  lemma NewStepMoves(db: Db, before: Db, now: Millis, operation: Id, kind: StepKind, auth: Authorization, user: Id, key: Id)
    returns (move: Move)
    requires HoldFor(before, user, key, auth.request, auth.hold, auth.expiresAt).Ok? && auth.hold > 0
    requires db.ledger == before.ledger && db.accounts == before.accounts
    ensures MoveAllowed(db.ledger, move) && !move.Credited?
    ensures var hold := HoldFor(before, user, key, auth.request, auth.hold, auth.expiresAt).value;
            NewStepRows(db, now, operation, kind, auth, hold).ledger == Moved(db.ledger, move)
  {
    hide HoldFor, HoldEntries, HasReservation, Available, MinAvailable, NewStep, FirstRevision;
    move := ReserveMove(db.accounts, HoldFor(before, user, key, auth.request, auth.hold, auth.expiresAt).value);
  }

  lemma BeginMoves(db: Db, now: Millis, parent: Id, kind: StepKind, auth: Authorization) returns (move: Move)
    ensures MoveAllowed(db.ledger, move) && !move.Credited?
    ensures Begin(db, now, parent, kind, auth).db.ledger == Moved(db.ledger, move)
  {
    hide BeginVerdict, HoldFor, MoveAllowed, Opened, NewStepRows, CheckPreparation, CheckIdentity, AdmissionCount,
         KeyBlockedIn, BudgetIdUsed, Blank, MinAvailable;
    StillAllowed(db.ledger);
    move := Still;
    if BeginVerdict(db, now, parent, kind, auth).Proceed? {
      OpenedShape(db, parent, auth.key);
      move := NewStepMoves(Opened(db, parent, auth.key), db, now, parent, kind, auth, db.requests[parent].identity.user,
                           auth.key);
    }
  }

  lemma AddMoves(db: Db, now: Millis, parent: Id, kind: StepKind, auth: Authorization) returns (move: Move)
    ensures MoveAllowed(db.ledger, move) && !move.Credited?
    ensures Add(db, now, parent, kind, auth).db.ledger == Moved(db.ledger, move)
  {
    hide AddVerdict, HoldFor, MoveAllowed, NewStepRows, KeyBlockedIn, BudgetIdUsed, Blank, MinAvailable, Terminal;
    StillAllowed(db.ledger);
    move := Still;
    if AddVerdict(db, now, parent, kind, auth).Proceed? {
      move := NewStepMoves(db, db, now, parent, kind, auth, db.requests[parent].identity.user, auth.key);
    }
  }

  lemma RefreshMoves(db: Db, now: Millis, request: Id, expectedOld: Id, replacement: Authorization, proof: Proof)
    returns (move: Move)
    ensures MoveAllowed(db.ledger, move) && !move.Credited?
    ensures Refresh(db, now, request, expectedOld, replacement, proof).db.ledger == Moved(db.ledger, move)
  {
    hide RefreshVerdict, BudgetIdUsed, KeyBlockedIn, Blank, HoldEntries, Available, AdvanceAll, NextRevision;
    move := Still;
    if RefreshVerdict(db, now, request, expectedOld, replacement, proof).Proceed? {
      var step := db.steps[request];
      var hold := db.reservations[step.reservation];
      var delta := step.auth.hold - replacement.hold;
      move := Charged(Round(AdvanceAll(db.accounts, hold), hold, AdjustHoldEvent, Abs(delta), delta,
                            Some(|RevisionsOf(db, request)| + 1)));
    }
  }

  lemma ReleaseRowsMove(db: Db, request: Id, reason: string) returns (move: Move)
    requires Inv(db) && request in db.steps && StepLinked(db, request)
    ensures MoveAllowed(db.ledger, move) && !move.Credited?
    ensures ReleaseRows(db, request, reason).ledger == Moved(db.ledger, move)
  {
    hide Inv, HoldEntries, LatestRevision;
    HoldOf(db, request);
    var hold := db.reservations[db.steps[request].reservation];
    move := Charged(Round(db.accounts, hold, ReleaseEvent, hold.amount, hold.amount, LatestRevision(db, request)));
  }

  lemma ReleaseMoves(db: Db, request: Id, reason: string) returns (move: Move)
    requires Inv(db)
    ensures MoveAllowed(db.ledger, move) && !move.Credited?
    ensures Release(db, request, reason).db.ledger == Moved(db.ledger, move)
  {
    hide Inv, ReleaseVerdict, ReleaseRows, SyncRows, MoveAllowed, Moved, Trim, StepLinked;
    StillAllowed(db.ledger);
    move := Still;
    if ReleaseVerdict(db, request, reason).Proceed? {
      var synced := db;
      if SyncsOnRelease(db.steps[request]) {
        SyncKeepsInv(db, request, ExecCanceled);
        synced := SyncRows(db, request, ExecCanceled);
      }
      SoundStep(synced, request);
      move := ReleaseRowsMove(synced, request, Trim(reason));
    } else {
      StillMoves(db.ledger);
    }
  }

  lemma StillMoves(ledger: seq<Entry>)
    ensures Moved(ledger, Still) == ledger
  {
  }

  lemma StillAllowed(ledger: seq<Entry>)
    ensures MoveAllowed(ledger, Still)
  {
  }

  lemma SettleMoves(db: Db, now: Millis, input: ReceiptInput) returns (move: Move)
    requires Inv(db) && input.receipt.request in db.steps && !ReceiptMalformed(input.receipt)
    requires db.steps[input.receipt.request].reservation < |db.reservations|
    ensures MoveAllowed(db.ledger, move) && !move.Credited?
    ensures SettleRows(db, now, input).ledger == Moved(db.ledger, move)
  {
    hide Inv, HoldEntries, InsertEvidence, NewSettlement, InDebt, HashOf, EvidenceFor;
    var r := input.receipt.request;
    var step := db.steps[r];
    HoldOf(db, r);
    var actual := ChargeOf(input.receipt);
    move := Charged(Round(db.accounts, db.reservations[step.reservation], CommitEvent, actual, step.auth.hold - actual,
                          LatestRevision(db, r)));
  }

  /** Of the kinds of rows a receipt writes, only a charge moves money. */
  lemma ReceiptMoves(db: Db, now: Millis, input: ReceiptInput) returns (move: Move)
    requires Inv(db)
    ensures MoveAllowed(db.ledger, move) && !move.Credited?
    ensures ApplyReceipt(db, now, input).db.ledger == Moved(db.ledger, move)
  {
    hide Inv, ReceiptCourse, ReceiptFits, TaskConflict, SameSettlement, Unsettled, InsertEvidence, HashOf, NoteRow,
         ContradictionRow, ConflictRows, SettleRows, SettledReplyFor, AccountsOf, AccountsKnown, EvidenceOf, IsFinal,
         MoveAllowed, Moved, SuspendRows;
    var r := input.receipt.request;
    var course := ReceiptCourse(db, input);
    StillAllowed(db.ledger);
    StillMoves(db.ledger);
    move := Still;
    if course.Reject? || course.Answer? {
    } else if course.Note? {
      InsertShape(db, r, HashOf(input), NoteRow(input, now));
    } else {
      CourseStep(db, input);
      if course.Contradict? {
        ConflictRowsShape(db, r, HashOf(input), ContradictionRow(input, course.reason, now));
      } else if course.Suspend? {
        SuspendShape(db, r, HashOf(input), NoteRow(input, now));
      } else {
        WellFormed(db, input);
        move := SettleMoves(db, now, input);
      }
    }
  }

  lemma SuspendShape(db: Db, r: Id, hash: EvidenceHash, row: Evidence)
    requires r in db.steps && db.steps[r].reservation < |db.reservations|
    ensures SuspendRows(db, r, hash, row).ledger == db.ledger
  {
    hide InsertEvidence;
    InsertShape(db, r, hash, row);
  }

  lemma WellFormed(db: Db, input: ReceiptInput)
    requires !ReceiptCourse(db, input).Reject? && !ReceiptCourse(db, input).Answer?
    ensures !ReceiptMalformed(input.receipt)
  {
    hide ReceiptCourse, ReceiptMalformed, CheckReceiptOwner, AlreadyRecorded, EvidenceOf;
  }

  lemma CreditMoves(db: Db, account: Option<nat>, initial: Account, amount: int) returns (move: Move)
    requires account.Some? ==> account.value < |db.accounts|
    requires amount > 0
    ensures MoveAllowed(db.ledger, move)
    ensures CreditRows(db, account, initial, amount).ledger == Moved(db.ledger, move)
  {
    hide AdvanceAccount;
    move := Credited(CreditRows(db, account, initial, amount).ledger[|db.ledger|]);
  }

  lemma GrantKeyMoves(db: Db, key: Id, amount: int) returns (move: Move)
    ensures MoveAllowed(db.ledger, move)
    ensures GrantKey(db, key, amount).db.ledger == Moved(db.ledger, move)
  {
    hide GrantKeyError, CreditRows;
    move := Still;
    if GrantKeyError(db, key, amount).None? {
      move := CreditMoves(db, FindAccountOfKey(db.accounts, key),
                          Account(KeyScope, db.keys[key].user, Some(key), 1, true, Ready), amount);
    }
  }

  lemma GrantPoolMoves(db: Db, user: Id, amount: int) returns (move: Move)
    ensures MoveAllowed(db.ledger, move)
    ensures GrantPool(db, user, amount).db.ledger == Moved(db.ledger, move)
  {
    hide GrantPoolError, CreditRows, PromotedCap;
    move := Still;
    if GrantPoolError(db, user, amount).None? {
      PromotedLength(db.accounts, user);
      move := CreditMoves(db.(accounts := PromotedCap(db.accounts, user)), FindUserCap(db.accounts, user),
                          Account(UserCapScope, user, None, 1, true, Ready), amount);
    }
  }

  lemma AllocatePoolMoves(db: Db, key: Id, amount: int) returns (move: Move)
    ensures MoveAllowed(db.ledger, move)
    ensures AllocateFromPool(db, key, amount).db.ledger == Moved(db.ledger, move)
  {
    hide PoolError, PromotedCap, GrantKey, MoveAllowed, Moved;
    StillAllowed(db.ledger);
    StillMoves(db.ledger);
    move := Still;
    if AllocateFromPool(db, key, amount).db != db {
      move := GrantKeyMoves(db.(accounts := PromotedCap(db.accounts, db.keys[key].user)), key, amount);
    }
  }

  /** Deleting a Key takes back what is left on it. */
  lemma DeleteKeyMoves(db: Db, key: Id, facts: DeletionFacts) returns (move: Move)
    ensures MoveAllowed(db.ledger, move) && (move.Still? || (move.Withdrawn? && move.entry.group.AdminGroup?))
    ensures DeleteKey(db, key, facts).db.ledger == Moved(db.ledger, move)
  {
    hide DeletionError, AdvanceAccount, Available, FindKeyAccount;
    move := Still;
    var ledger := DeleteKey(db, key, facts).db.ledger;
    if ledger != db.ledger {
      move := Withdrawn(ledger[|db.ledger|]);
    }
  }

  lemma NextMoves(db: Db, action: Action, db': Db) returns (move: Move)
    requires Inv(db) && Next(db, action, db') && !action.OtherWork?
    ensures MoveAllowed(db.ledger, move) && db'.ledger == Moved(db.ledger, move)
    ensures move.Credited? ==> IsGrant(action)
  {
    hide Inv, Begin, Add, Refresh, Dispatch, Release, Bind, MarkExecution, Finish, ApplyReceipt, MarkConflict, GrantKey,
         GrantPool, AllocateFromPool, DeleteKey, MoveAllowed, Moved, CommitmentOverflows;
    StillAllowed(db.ledger);
    StillMoves(db.ledger);
    match action
    case BeginOperation(now, parent, kind, auth) => move := BeginMoves(db, now, parent, kind, auth);
    case AddStep(now, parent, kind, auth) => move := AddMoves(db, now, parent, kind, auth);
    case RefreshAuthorization(now, request, expectedOld, replacement, proof) =>
      move := RefreshMoves(db, now, request, expectedOld, replacement, proof);
    case DispatchStep(now, request, expected) =>
      move := Still;
      DispatchLedger(db, now, request, expected);
    case ReleaseStep(request, reason) => move := ReleaseMoves(db, request, reason);
    case BindTask(request, task) =>
      move := Still;
      BindLedger(db, request, task);
    case MarkStep(request, next) =>
      move := Still;
      MarkLedger(db, request, next);
    case FinishOperation(parent, terminal) =>
      move := Still;
      FinishLedger(db, parent, terminal);
    case DeliverReceipt(now, input) => move := ReceiptMoves(db, now, input);
    case ReportConflict(now, conflict) =>
      move := Still;
      ConflictLedger(db, now, conflict);
    case CreditKey(key, amount) => move := GrantKeyMoves(db, key, amount);
    case CreditPool(user, amount) => move := GrantPoolMoves(db, user, amount);
    case AllocateCredit(now, key, amount, snapshot) =>
      if Allocate(db, now, key, amount, snapshot).db == db {
        move := Still;
      } else {
        move := GrantKeyMoves(db, key, amount);
      }
    case AllocatePool(key, amount) => move := AllocatePoolMoves(db, key, amount);
    case DeleteApiKey(key, facts) => move := DeleteKeyMoves(db, key, facts);
  }

  lemma DispatchLedger(db: Db, now: Millis, request: Id, expected: Id)
    ensures Dispatch(db, now, request, expected).db.ledger == db.ledger
  {
    hide DispatchVerdict, KeyBlockedIn, Terminal;
  }

  lemma BindLedger(db: Db, request: Id, task: Id)
    ensures Bind(db, request, task).db.ledger == db.ledger
  {
    hide BindVerdict;
  }

  lemma MarkLedger(db: Db, request: Id, next: ExecState)
    ensures MarkExecution(db, request, next).db.ledger == db.ledger
  {
    hide MarkVerdict, SyncRows, Terminal;
  }

  lemma FinishLedger(db: Db, parent: Id, terminal: ExecState)
    ensures Finish(db, parent, terminal).db.ledger == db.ledger
  {
    hide FinishVerdict, FinishParent, Terminal, AllStepsTerminal;
  }

  lemma ConflictLedger(db: Db, now: Millis, input: ConflictInput)
    ensures MarkConflict(db, now, input).db.ledger == db.ledger
  {
    hide ConflictVerdict, ConflictRows, Blank, BlankHash, EvidenceOf;
    if ConflictVerdict(db, input).Proceed? {
      ConflictRowsShape(db, input.request, input.hash, ReportedRow(input, now));
    }
  }

  // What a move does to one account

  lemma RoundOnAccount(ledger: seq<Entry>, round: Round, account: nat)
    requires round.hold.userCap != Some(round.hold.keyAccount)
    ensures var ledger' := ledger + RoundEntries(round);
            var charged := ChargedTo(round.hold, account);
            var commit := charged && round.kind == CommitEvent;
            && Available(ledger', account) == Available(ledger, account) + (if charged then round.delta else 0)
            && SettledOn(ledger', account) == SettledOn(ledger, account) + (if commit then round.amount else 0)
            && (round.kind != GrantEvent ==> GrantedOn(ledger', account) == GrantedOn(ledger, account))
            && SumOf(ledger', OverrunOf(account))
               == SumOf(ledger, OverrunOf(account)) + (if commit && round.delta < 0 then -round.delta else 0)
  {
    var first := RoundEntries(round)[0];
    AppendEntry(ledger, first);
    SumAppend(ledger, first, OverrunOf(account));
    if round.hold.userCap.Some? {
      var second := RoundEntries(round)[1];
      AppendEntry(ledger + [first], second);
      SumAppend(ledger + [first], second, OverrunOf(account));
      assert ledger + [first] + [second] == ledger + RoundEntries(round);
    }
  }

  lemma {:induction false} OverrunsNonNegative(es: seq<Entry>, account: nat)
    ensures SumOf(es, OverrunOf(account)) >= 0
  {
    if es != [] {
      OverrunsNonNegative(es[..|es| - 1], account);
    }
  }

  /** No account is further below zero than its charges beyond holds account for. */
  ghost predicate Solvent(ledger: seq<Entry>) {
    forall account: nat :: SolventOn(ledger, account)
  }

  ghost predicate SolventOn(ledger: seq<Entry>, account: nat) {
    Available(ledger, account) + SumOf(ledger, OverrunOf(account)) >= 0
  }

  lemma RoundKeepsSolvent(ledger: seq<Entry>, round: Round, account: nat)
    requires RoundAllowed(ledger, round) && SolventOn(ledger, account)
    ensures SolventOn(ledger + RoundEntries(round), account)
  {
    hide OverrunOf, RoundEntries, SumOf, Available;
    RoundOnAccount(ledger, round, account);
    OverrunsNonNegative(ledger, account);
  }

  lemma MoveKeepsSolvent(ledger: seq<Entry>, move: Move, account: nat)
    requires MoveAllowed(ledger, move) && SolventOn(ledger, account)
    ensures SolventOn(Moved(ledger, move), account)
  {
    hide OverrunOf, RoundEntries, SumOf, Available;
    match move
    case Still =>
    case Charged(round) => RoundKeepsSolvent(ledger, round, account);
    case Credited(entry) =>
      AppendEntry(ledger, entry);
      SumAppend(ledger, entry, OverrunOf(account));
      GrantIsNoOverrun(entry, account);
    case Withdrawn(entry) =>
      AppendEntry(ledger, entry);
      SumAppend(ledger, entry, OverrunOf(account));
      GrantIsNoOverrun(entry, account);
      OverrunsNonNegative(ledger, account);
  }

  lemma GrantIsNoOverrun(entry: Entry, account: nat)
    requires entry.kind == GrantEvent
    ensures OverrunOf(account)(entry) == 0
  {
  }

  lemma EmptySolvent(account: nat)
    ensures SolventOn([], account)
  {
  }

  /**
    The overdraft bound: an account's balance is at least minus the sum, over the reservations charged to it, of
    what each was charged beyond its hold.
   */
  lemma OverdraftBounded(db: Db, account: nat)
    requires forall id: nat | id < |db.reservations| :: OverrunBounded(db, id, account)
    requires LedgerSound(db.ledger, |db.accounts|, |db.reservations|) && SolventOn(db.ledger, account)
    ensures Available(db.ledger, account) >= -OverHolds(db, |db.reservations|, account)
  {
    hide OverrunBounded, OverrunOf;
    Overruns(db, account);
  }

  /** Begin, add, refresh, release and dispatch alone never leave an account they charge below zero. */
  lemma OnlyCommitsOverdraw(ledger: seq<Entry>, move: Move, account: nat)
    requires MoveAllowed(ledger, move) && Available(Moved(ledger, move), account) < 0 <= Available(ledger, account)
    ensures move.Charged? && move.round.kind == CommitEvent && move.round.delta < 0
  {
    hide RoundEntries, OverrunOf;
    match move
    case Still =>
    case Charged(round) => RoundOnAccount(ledger, round, account);
    case Credited(entry) => AppendEntry(ledger, entry);
    case Withdrawn(entry) => AppendEntry(ledger, entry);
  }

  // The upstream ceiling

  /** The granted credits an account has not spent. */
  function Unspent(ledger: seq<Entry>, account: nat): int {
    GrantedOn(ledger, account) - SettledOn(ledger, account)
  }

  /** What an account commits is what it has not spent, and what it has in excess. */
  lemma CommitmentIsUnspent(db: Db, account: nat)
    ensures var unspent := Unspent(db.ledger, account) + Excess(db, account);
            Commitment(db, account) == if unspent < 0 then 0 else unspent
  {
  }

  lemma MoveOnUnspent(ledger: seq<Entry>, move: Move, account: nat)
    requires MoveAllowed(ledger, move) && !move.Credited?
    ensures Unspent(Moved(ledger, move), account) <= Unspent(ledger, account)
  {
    hide RoundEntries, OverrunOf;
    match move
    case Still =>
    case Charged(round) => RoundOnAccount(ledger, round, account);
    case Withdrawn(entry) => AppendEntry(ledger, entry);
  }

  /**
    A move that is no grant raises what the Key accounts together commit of the upstream balance by no more than
    what it leaves in excess, which is `amount` on one account here and nothing on the others.
   */
  lemma MoveNeverCommits(db: Db, move: Move, db': Db, account: nat, amount: int)
    requires MoveAllowed(db.ledger, move) && db'.ledger == Moved(db.ledger, move) && !move.Credited?
    requires |db'.accounts| == |db.accounts| && SameScopes(db, db', |db.accounts|)
    requires amount >= 0
    requires forall a: nat | a < |db.accounts| && db.accounts[a].scope == KeyScope ::
               Excess(db', a) <= Excess(db, a) + if a == account then amount else 0
    ensures Committed(db') <= Committed(db) + amount
  {
    hide Commitment, Moved, MoveAllowed, Unspent, Excess;
    forall i: nat | i < |db.accounts| && db.accounts[i].scope == KeyScope
      ensures Commitment(db', i) <= Commitment(db, i) + if i == account then amount else 0
    {
      MoveOnUnspent(db.ledger, move, i);
      CommitmentIsUnspent(db, i);
      CommitmentIsUnspent(db', i);
    }
    CommittedRises(db, db', |db.accounts|, account, amount);
  }

  // A grant raises the sum by no more than its amount

  lemma {:induction false} CommittedRises(db: Db, db': Db, count: nat, account: nat, amount: int)
    requires SameScopes(db, db', count) && amount >= 0
    requires forall i: nat | i < count && db.accounts[i].scope == KeyScope ::
               Commitment(db', i) <= Commitment(db, i) + if i == account then amount else 0
    ensures CommittedTo(db', count) <= CommittedTo(db, count) + if account < count then amount else 0
  {
    hide Commitment;
    if count > 0 {
      CommittedRises(db, db', count - 1, account, amount);
    }
  }

  lemma {:induction false} NothingOnNewAccount(ledger: seq<Entry>, account: nat)
    requires forall x | 0 <= x < |ledger| :: ledger[x].account != account
    ensures Available(ledger, account) == 0
  {
    if ledger != [] {
      NothingOnNewAccount(ledger[..|ledger| - 1], account);
    }
  }

  lemma {:induction false} NothingHeldOnNewAccount(reservations: seq<Reservation>, account: nat)
    requires forall i | 0 <= i < |reservations| :: !ChargedTo(reservations[i], account)
    ensures HeldOn(reservations, account) == 0
  {
    if reservations != [] {
      NothingHeldOnNewAccount(reservations[..|reservations| - 1], account);
    }
  }

  lemma ElsewhereThanNew(accounts: seq<Account>, hold: Reservation)
    requires AccountsKnown(accounts, AccountsOf(hold))
    ensures !ChargedTo(hold, |accounts|)
  {
    assert AccountsOf(hold)[0] == hold.keyAccount;
    assert hold.userCap.Some? ==> AccountsOf(hold)[1] == hold.userCap.value;
  }

  lemma FreshAccountEmpty(db: Db)
    requires Inv(db)
    ensures Available(db.ledger, |db.accounts|) == 0 && HeldOn(db.reservations, |db.accounts|) == 0
  {
    hide StepsSound, BudgetIdsUnique, ReferencesSound, AccountsShaped, StepLinked, AccountsOf;
    forall x | 0 <= x < |db.ledger|
      ensures db.ledger[x].account != |db.accounts|
    {
      assert EntrySound(db.ledger[x], |db.accounts|, |db.reservations|);
    }
    NothingOnNewAccount(db.ledger, |db.accounts|);
    forall i | 0 <= i < |db.reservations|
      ensures !ChargedTo(db.reservations[i], |db.accounts|)
    {
      ElsewhereThanNew(db.accounts, db.reservations[i]);
    }
    NothingHeldOnNewAccount(db.reservations, |db.accounts|);
  }

  /** The account a grant on a Key credits: its first account, or the one it creates. */
  function GrantedAccount(db: Db, key: Id): nat {
    var found := FindAccountOfKey(db.accounts, key);
    if found.Some? then found.value else |db.accounts|
  }

  /** One administrative entry credits `account`, which is one of the accounts or the next one. */
  ghost predicate CreditedOnce(db: Db, db': Db, account: nat, amount: int) {
    && SameScopes(db, db', |db.accounts|)
    && |db'.accounts| == (if account == |db.accounts| then |db.accounts| + 1 else |db.accounts|)
    && account < |db'.accounts|
    && |db'.ledger| == |db.ledger| + 1
    && db'.ledger == db.ledger + [db'.ledger[|db.ledger|]]
    && var entry := db'.ledger[|db.ledger|];
       entry.kind == GrantEvent && entry.account == account && entry.delta == amount
  }

  lemma CreditEffect(db: Db, account: Option<nat>, initial: Account, amount: int)
    requires account.Some? ==> account.value < |db.accounts|
    ensures CreditedOnce(db, CreditRows(db, account, initial, amount),
                         if account.Some? then account.value else |db.accounts|, amount)
  {
  }

  lemma GrantKeyEffect(db: Db, key: Id, amount: int)
    requires GrantKey(db, key, amount).reply.Ok?
    ensures amount > 0 && CreditedOnce(db, GrantKey(db, key, amount).db, GrantedAccount(db, key), amount)
  {
    hide CreditRows, CreditedOnce, GrantKeyError;
    CreditEffect(db, FindAccountOfKey(db.accounts, key), Account(KeyScope, db.keys[key].user, Some(key), 1, true, Ready),
                 amount);
  }

  /** A grant raises what its own account commits, by its amount at most. */
  lemma CreditRaises(db: Db, db': Db, account: nat, amount: int, i: nat)
    requires CreditedOnce(db, db', account, amount) && db'.reservations == db.reservations && amount >= 0
    ensures Commitment(db', i) <= Commitment(db, i) + if i == account then amount else 0
  {
    hide HeldOn, SameScopes;
    AppendEntry(db.ledger, db'.ledger[|db.ledger|]);
  }

  lemma GrantRaises(db: Db, key: Id, amount: int)
    requires GrantKey(db, key, amount).reply.Ok?
    requires Inv(db)
    ensures Committed(GrantKey(db, key, amount).db) <= Committed(db) + amount
  {
    hide Inv, GrantKey, Available, HeldOn;
    var db' := GrantKey(db, key, amount).db;
    var account := GrantedAccount(db, key);
    GrantKeyShape(db, key, amount);
    GrantKeyEffect(db, key, amount);
    forall i: nat
      ensures Commitment(db', i) <= Commitment(db, i) + if i == account then amount else 0
    {
      CreditRaises(db, db', account, amount, i);
    }
    CommittedRises(db, db', |db.accounts|, account, amount);
    FreshAccountEmpty(db);
  }

  /** A successful allocation leaves the commitments of all Keys within the upstream balance it was shown. */
  lemma AllocationWithinCeiling(db: Db, now: Millis, key: Id, amount: int, snapshot: Snapshot)
    requires Allocate(db, now, key, amount, snapshot).reply.Ok?
    requires Inv(db)
    ensures Committed(Allocate(db, now, key, amount, snapshot).db) <= snapshot.total
  {
    hide Inv, GrantKey, Committed, CommitmentOverflows;
    GrantRaises(db, key, amount);
  }

  /** Where a settlement reports debt, an account of its hold is below zero. */
  lemma DebtAccount(db: Db, now: Millis, input: ReceiptInput, actual: int, released: int) returns (account: nat)
    requires ApplyReceipt(db, now, input).reply == Ok(SettledReply(actual, released, true))
    ensures Available(ApplyReceipt(db, now, input).db.ledger, account) < 0
  {
    hide Available, HashOf, EvidenceFor, NewSettlement, InsertEvidence, CommitLedger, ReceiptFits, TaskConflict,
         SameSettlement, Unsettled, ReceiptMalformed, CheckReceiptOwner, AlreadyRecorded, EvidenceOf, NoteRow,
         ContradictionRow, ConflictRows, SuspendRows;
    var r := input.receipt.request;
    assert ReceiptCourse(db, input).Charge?;
    CourseStep(db, input);
    hide ReceiptCourse;
    var hold := db.reservations[db.steps[r].reservation];
    var ledger := CommitLedger(db, r, ChargeOf(input.receipt));
    account := if Available(ledger, hold.keyAccount) < 0 then hold.keyAccount else hold.userCap.value;
  }
}
