/**
  What the integrity sweep finds on the accounts that all billing shares. A V2 step's hold passes unless it was
  bound late. A hold of V1 billing or of a plain request passes only as long as nothing else moves its accounts to
  a new version, its outcome is known, it was charged no more than it held, and it was closed once.
 */
module Quarantine {
  import opened Wrappers
  import opened Model
  import opened Ledger
  import opened EventGroup
  import opened Billing
  import opened Grants
  import opened Invariant
  import opened Frame
  import opened Money
  import opened Solvency
  import opened Holds
  import opened ForeignMoves
  import opened Reconcile
  import opened Controlled
  import opened JointRuns
  import opened JointMoney
  import Integrity
  import ControlledRuns
  import Sweep

  // Counting the entries of a round

  lemma {:induction false} CountAppend(a: seq<Entry>, b: seq<Entry>, account: nat, kind: EventKind)
    ensures CountOf(a + b, account, kind) == CountOf(a, account, kind) + CountOf(b, account, kind)
  {
    if a == [] {
      assert a + b == b;
    } else {
      assert (a + b)[1..] == a[1..] + b;
      CountAppend(a[1..], b, account, kind);
    }
  }

  lemma CountRound(
    accounts: seq<Account>, hold: Reservation, kind: EventKind, amount: int, delta: int, account: nat, k: EventKind)
    requires hold.userCap != Some(hold.keyAccount)
    ensures CountOf(HoldEntries(accounts, hold, kind, amount, delta, None), account, k)
            == if k == kind && account in AccountsOf(hold) then 1 else 0
  {
    var first := [HoldEntry(accounts, hold, hold.keyAccount, kind, amount, delta, None)];
    assert first[1..] == [];
    if hold.userCap.Some? {
      var second := [HoldEntry(accounts, hold, hold.userCap.value, kind, amount, delta, None)];
      assert second[1..] == [];
      CountAppend(first, second, account, k);
      assert first + second == HoldEntries(accounts, hold, kind, amount, delta, None);
    } else {
      assert first + [] == HoldEntries(accounts, hold, kind, amount, delta, None);
    }
  }

  lemma RoundCounted(taken: seq<Account>, closed: seq<Account>, hold: Reservation, charge: Option<int>, account: nat, k: EventKind)
    requires hold.userCap != Some(hold.keyAccount) && account in AccountsOf(hold)
    ensures CountOf(TakingRound(taken, hold), account, k) == if k == ReserveEvent then 1 else 0
    ensures CountOf(ClosingRound(closed, hold, charge), account, k)
            == if k == (if charge.None? then ReleaseEvent else CommitEvent) then 1 else 0
  {
    hide HoldEntries;
    CountRound(taken, hold, ReserveEvent, hold.amount, -hold.amount, account, k);
    if charge.None? {
      CountRound(closed, hold, ReleaseEvent, hold.amount, hold.amount, account, k);
    } else {
      CountRound(closed, hold, CommitEvent, charge.value, hold.amount - charge.value, account, k);
    }
  }

  lemma BookedCounted(es: seq<Entry>, hold: Reservation, taken: seq<Account>, closed: seq<Account>, charge: int)
    requires Booked(es, hold, taken, closed, charge) && HoldShaped(hold)
    ensures EntriesCounted(es, hold)
    ensures |es| == |AccountsOf(hold)| * (if FinalKind(hold.state).Some? then 2 else 1)
  {
    hide TakingRound, ClosingRound, AccountsOf;
    var paid := if hold.state == HoldCommitted then Some(charge) else None;
    RoundLengths(taken, hold, paid);
    RoundLengths(closed, hold, paid);
    assert TakingRound(taken, hold) + [] == TakingRound(taken, hold);
    forall i | 0 <= i < |AccountsOf(hold)|
      ensures CountOf(es, AccountsOf(hold)[i], ReserveEvent) == 1
      ensures FinalKind(hold.state).Some? ==> CountOf(es, AccountsOf(hold)[i], FinalKind(hold.state).value) == 1
    {
      var account := AccountsOf(hold)[i];
      RoundCounted(taken, closed, hold, paid, account, ReserveEvent);
      CountAppend(TakingRound(taken, hold), ClosingRound(closed, hold, paid), account, ReserveEvent);
      if FinalKind(hold.state).Some? {
        RoundCounted(taken, closed, hold, paid, account, FinalKind(hold.state).value);
        CountAppend(TakingRound(taken, hold), ClosingRound(closed, hold, paid), account, FinalKind(hold.state).value);
      }
    }
  }

  // The verdict on one hold

  /** No account of the entries has moved to another version since. */
  predicate VersionsCurrent(accounts: seq<Account>, es: seq<Entry>) {
    forall x | 0 <= x < |es| :: es[x].account < |accounts| && es[x].version == accounts[es[x].account].version
  }

  /** The hold as the check of V1 and plain holds wants it. */
  predicate Intact(db: Db, id: nat)
    requires id < |db.reservations|
  {
    var hold := db.reservations[id];
    && hold.state != HoldUnknown
    && VersionsCurrent(db.accounts, EventsOf(db.ledger, HoldGroup(id)))
    && (hold.state == HoldCommitted ==> ChargeOn(db, id) <= hold.amount)
  }

  lemma TakingEntry(accounts: seq<Account>, hold: Reservation, x: nat)
    requires x < |TakingRound(accounts, hold)|
    ensures var e := TakingRound(accounts, hold)[x];
            e.account in AccountsOf(hold) && e.request == Some(hold.request) && e.kind == ReserveEvent
            && e.amount == hold.amount && e.delta == -hold.amount
  {
  }

  lemma ClosingEntry(accounts: seq<Account>, hold: Reservation, charge: Option<int>, x: nat)
    requires x < |ClosingRound(accounts, hold, charge)|
    ensures var e := ClosingRound(accounts, hold, charge)[x];
            && e.account in AccountsOf(hold) && e.request == Some(hold.request)
            && if charge.None? then e.kind == ReleaseEvent && e.amount == hold.amount && e.delta == hold.amount
               else e.kind == CommitEvent && e.amount == charge.value && e.delta == hold.amount - charge.value
  {
  }

  lemma BookedEntry(
    accounts: seq<Account>, es: seq<Entry>, hold: Reservation, taken: seq<Account>, closed: seq<Account>, charge: int,
    x: nat)
    requires Booked(es, hold, taken, closed, charge) && x < |es|
    ensures PlainEntryValid(accounts, hold, es[x])
            <==> && es[x].account < |accounts| && es[x].version == accounts[es[x].account].version
                 && (es[x].kind == CommitEvent ==> charge <= hold.amount)
    ensures es[x].kind == CommitEvent ==> hold.state == HoldCommitted
  {
    hide TakingRound, ClosingRound, AccountsOf;
    var paid := if hold.state == HoldCommitted then Some(charge) else None;
    var n := |TakingRound(taken, hold)|;
    if x < n {
      TakingEntry(taken, hold, x);
    } else {
      ClosingEntry(closed, hold, paid, x - n);
    }
  }

  /** A committed hold has a commit entry. */
  lemma CommitThere(es: seq<Entry>, hold: Reservation, taken: seq<Account>, closed: seq<Account>, charge: int)
    returns (x: nat)
    requires Booked(es, hold, taken, closed, charge) && hold.state == HoldCommitted
    ensures x < |es| && es[x].kind == CommitEvent
  {
    hide TakingRound, ClosingRound, AccountsOf;
    RoundLengths(taken, hold, Some(charge));
    RoundLengths(closed, hold, Some(charge));
    x := |TakingRound(taken, hold)|;
    OneAccount(hold);
    ClosingEntry(closed, hold, Some(charge), 0);
  }

  lemma OneAccount(hold: Reservation)
    ensures |AccountsOf(hold)| > 0
  {
  }

  /** Exactly when the sweep accepts a hold of V1 billing or of a plain request. */
  lemma PlainValidIff(db: Db, id: nat)
    requires id < |db.reservations| && db.reservations[id].group == HoldGroup(id)
    requires HoldShaped(db.reservations[id]) && HoldBooked(EventsOf(db.ledger, HoldGroup(id)), db.reservations[id])
    ensures PlainGroupValid(db, id) <==> ScopesRight(db.accounts, db.reservations[id]) && Intact(db, id)
  {
    hide EventsOf, Booked, PlainEntryValid, EntriesCounted, SettledOn, ScopesRight, HoldAccounted;
    var es, hold := EventsOf(db.ledger, HoldGroup(id)), db.reservations[id];
    var taken, closed, charge :| Booked(es, hold, taken, closed, charge);
    BookedAccounted(es, hold, taken, closed, charge, hold.keyAccount);
    BookedCounted(es, hold, taken, closed, charge);
    forall x: nat | x < |es|
      ensures PlainEntryValid(db.accounts, hold, es[x])
              <==> && es[x].account < |db.accounts| && es[x].version == db.accounts[es[x].account].version
                   && (es[x].kind == CommitEvent ==> charge <= hold.amount)
      ensures es[x].kind == CommitEvent ==> hold.state == HoldCommitted
    {
      BookedEntry(db.accounts, es, hold, taken, closed, charge, x);
    }
    if hold.state == HoldCommitted {
      var x := CommitThere(es, hold, taken, closed, charge);
      assert PlainGroupValid(db, id) ==> PlainEntryValid(db.accounts, hold, es[x]);
    }
  }

  /** A hold that was closed and then reached for does not: it is in doubt, or has a closing round too many. */
  lemma SpoiledFails(db: Db, id: nat)
    requires SpoiledAt(db, id) && db.reservations[id].group == HoldGroup(id)
    ensures !PlainGroupValid(db, id)
  {
    hide EventsOf, PlainEntryValid, EntriesCounted, ScopesRight;
    OneAccount(db.reservations[id]);
  }

  /** A hold of a step, in V2 context, whose task agrees with its settlement. */
  predicate StepAcceptable(core: Db, id: nat) {
    OwnedByStep(core, id) && Integrity.TaskFits(core, core.reservations[id].request)
  }

  /** What the sweep accepts of a hold: a fitting step's in V2 context, anywhere else an intact one closed once. */
  predicate Acceptable(books: seq<ControlledBooks>, actions: seq<Action>, i: nat, id: nat)
    requires |books| == |actions| + 1 && i < |books|
  {
    var core := books[i].core;
    && id < |core.reservations|
    && if InV2Context(core, id) then StepAcceptable(core, id)
       else Intact(core, id) && !HoldReached(books, actions, i, id)
  }

  /** The whole verdict on a hold, in every reachable state. */
  lemma RowSoundIff(
    books: seq<ControlledBooks>, actions: seq<Action>, i: nat, table: Reconcile.Books, row: nat)
    requires |books| == |actions| + 1 && i < |books| && table.db == books[i].core
    requires row < |table.rows| && table.rows[row].subject.Held?
    requires Run(books, actions)
    ensures RowSound(table, row) <==> Acceptable(books, actions, i, table.rows[row].subject.reservation)
  {
    hide Run, GroupValid, PlainGroupValid, Intact, Structure, InV2Context, Inv, TablesSound, ForeignShaped,
         ForeignBounded, OwnedByStep, Solvent, LedgerSound, HoldReached, Integrity.TaskFits, ControlledRuns.Sound;
    var core, id := books[i].core, table.rows[row].subject.reservation;
    ReachableStructure(books, actions, i);
    StructureParts(books[i]);
    if id >= |core.reservations| {
    } else if OwnedByStep(core, id) {
      OwnedInContext(core, id);
      OwnedVerdict(core, id);
    } else if InV2Context(core, id) {
      UnownedFails(core, id);
    } else {
      PlainVerdict(books, actions, i, id);
    }
  }

  lemma OwnedVerdict(core: Db, id: nat)
    requires Inv(core) && OwnedByStep(core, id)
    ensures id < |core.reservations| && (GroupValid(core, id) <==> StepAcceptable(core, id))
  {
    hide Inv, GroupValid, Integrity.TaskFits;
    Integrity.PassesIffTaskFits(core, core.reservations[id].request);
  }

  lemma PlainVerdict(books: seq<ControlledBooks>, actions: seq<Action>, i: nat, id: nat)
    requires |books| == |actions| + 1 && i < |books|
    requires id < |books[i].core.reservations| && !OwnedByStep(books[i].core, id)
    requires Run(books, actions)
    ensures PlainGroupValid(books[i].core, id)
            <==> Intact(books[i].core, id) && !HoldReached(books, actions, i, id)
  {
    hide Run, PlainGroupValid, Intact, Structure, Inv, TablesSound, ForeignBounded, OwnedByStep, Solvent, LedgerSound,
         HoldReached, SpoiledAt, ScopesRight, ControlledRuns.Sound, HoldBooked;
    var core := books[i].core;
    ReachableStructure(books, actions, i);
    StructureParts(books[i]);
    OwnGroup(core, id);
    if HoldReached(books, actions, i, id) {
      ReachableSpoiled(books, actions, i, id);
      SpoiledFails(core, id);
    } else {
      ReachableBooked(books, actions, i, id);
      assert HoldShaped(core.reservations[id]) && ScopesRight(core.accounts, core.reservations[id]);
      PlainValidIff(core, id);
    }
  }

  lemma OwnGroup(core: Db, id: nat)
    requires TablesSound(core) && id < |core.reservations|
    ensures core.reservations[id].group == HoldGroup(id)
  {
    hide LedgerSound, BudgetIdsUnique, ReferencesSound, AccountsShaped, StepLinked;
  }

  /** Exactly when a sweep over a table of any holds, in any reachable state, finds and quarantines nothing. */
  lemma SilentSweepIff(books: seq<ControlledBooks>, actions: seq<Action>, i: nat, table: Reconcile.Books)
    requires |books| == |actions| + 1 && i < |books| && table.db == books[i].core && Sweep.TableSound(table.rows)
    requires Run(books, actions)
    ensures Sweep.SweepIsSilent(table)
            <==> forall row | 0 <= row < |table.rows| && table.rows[row].subject.Held? ::
                   Acceptable(books, actions, i, table.rows[row].subject.reservation)
  {
    hide Run, RowSound, Acceptable, Sweep.TableSound, Sweep.SweepIsSilent;
    Sweep.SilentIffSound(table);
    forall row: nat | row < |table.rows|
      ensures RowSound(table, row)
              <==> (table.rows[row].subject.Held? ==> Acceptable(books, actions, i, table.rows[row].subject.reservation))
    {
      if table.rows[row].subject.Held? {
        RowSoundIff(books, actions, i, table, row);
      } else {
        SingleLedgerPasses(table, row);
      }
    }
  }

  lemma SingleLedgerPasses(table: Reconcile.Books, row: nat)
    requires row < |table.rows| && table.rows[row].subject.SingleLedger?
    ensures RowSound(table, row)
  {
  }

  lemma UnownedFails(db: Db, id: nat)
    requires id < |db.reservations| && !OwnedByStep(db, id)
    ensures !GroupValid(db, id)
  {
    hide ViewValid;
  }

  lemma OwnedInContext(db: Db, id: nat)
    requires OwnedByStep(db, id)
    ensures id < |db.reservations| && InV2Context(db, id)
  {
  }

  // What makes a sound hold unsound

  lemma GrantMovesVersion(db: Db, key: Id, amount: int, account: nat)
    requires GrantKey(db, key, amount).reply.Ok? && FindAccountOfKey(db.accounts, key) == Some(account)
    ensures account < |db.accounts|
    ensures var db' := GrantKey(db, key, amount).db;
            && |db'.accounts| == |db.accounts|
            && db'.accounts[account].version == db.accounts[account].version + 1
            && db'.reservations == db.reservations
            && |db'.ledger| == |db.ledger| + 1 && db'.ledger[..|db.ledger|] == db.ledger
            && db'.ledger[|db.ledger|].group.AdminGroup?
  {
    hide GrantKeyError;
  }

  /** Crediting a Key makes every sound hold of V1 billing or of a plain request on it fail the sweep. */
  lemma GrantUnsettlesHolds(db: Db, key: Id, amount: int, id: nat)
    requires id < |db.reservations| && PlainGroupValid(db, id)
    requires GrantKey(db, key, amount).reply.Ok?
    requires FindAccountOfKey(db.accounts, key) == Some(db.reservations[id].keyAccount)
    requires db.reservations[id].group == HoldGroup(id)
    ensures id < |GrantKey(db, key, amount).db.reservations|
    ensures !PlainGroupValid(GrantKey(db, key, amount).db, id)
  {
    hide EventsOf, GrantKey, ScopesRight;
    var db', hold := GrantKey(db, key, amount).db, db.reservations[id];
    GrantMovesVersion(db, key, amount, hold.keyAccount);
    AppendEntry(db.ledger, db'.ledger[|db.ledger|]);
    assert db'.ledger == db.ledger + [db'.ledger[|db.ledger|]];
    var es := EventsOf(db.ledger, hold.group);
    assert EventsOf(db'.ledger, hold.group) == es by { assert es + [] == es; }
    assert AccountsOf(hold)[0] == hold.keyAccount;
    var x := SomeEntry(es, hold.keyAccount, ReserveEvent);
    assert PlainEntryValid(db.accounts, hold, es[x]);
    assert !PlainEntryValid(db'.accounts, hold, es[x]);
  }

  lemma {:induction false} SomeEntry(es: seq<Entry>, account: nat, kind: EventKind) returns (x: nat)
    requires CountOf(es, account, kind) > 0
    ensures x < |es| && es[x].account == account && es[x].kind == kind
  {
    if es[0].account == account && es[0].kind == kind {
      x := 0;
    } else {
      var y := SomeEntry(es[1..], account, kind);
      x := y + 1;
    }
  }
}
