/** What the two other transactions of administrators do: a share of a user's pool, and the deletion of a Key. */
module Pools {
  import opened Wrappers
  import opened Model
  import opened Ledger
  import opened EventGroup
  import opened Billing
  import opened Grants
  import opened Invariant
  import opened Frame
  import opened GrantPreservation
  import opened Money
  import opened Tables
  import opened Solvency

  // A share of the pool

  /** The accounts are the same to the pool. */
  lemma PromotedDraws(db: Db, user: Id, account: nat)
    requires account < |db.accounts|
    ensures var promoted := db.(accounts := PromotedCap(db.accounts, user));
            |promoted.accounts| == |db.accounts| && DrawsOnPool(promoted, user, account) == DrawsOnPool(db, user, account)
  {
  }

  lemma {:induction false} PromotedDrawn(db: Db, user: Id, count: nat)
    requires count <= |db.accounts|
    ensures var promoted := db.(accounts := PromotedCap(db.accounts, user));
            |promoted.accounts| == |db.accounts| && DrawnTo(promoted, user, count) == DrawnTo(db, user, count)
  {
    hide DrawsOnPool, PromotedCap, Available, HeldOn;
    PromotedLength(db.accounts, user);
    if count > 0 {
      PromotedDrawn(db, user, count - 1);
      PromotedDraws(db, user, count - 1);
    }
  }

  /** A grant changes no existing account but for its version, and the one it adds is the Key's. */
  lemma GrantedDraws(db: Db, key: Id, amount: int, user: Id, account: nat)
    requires GrantKey(db, key, amount).reply.Ok? && account < |db.accounts|
    ensures account < |GrantKey(db, key, amount).db.accounts|
    ensures DrawsOnPool(GrantKey(db, key, amount).db, user, account) == DrawsOnPool(db, user, account)
  {
    hide CreditRows, GrantKeyError, FindAccountOfKey, DrawsOnPool;
    GrantKeyShape(db, key, amount);
    CreditedRow(db, FindAccountOfKey(db.accounts, key), Account(KeyScope, db.keys[key].user, Some(key), 1, true, Ready),
                amount, account);
    SameDraws(db, GrantKey(db, key, amount).db, user, account);
  }

  lemma CreditedRow(db: Db, found: Option<nat>, initial: Account, amount: int, i: nat)
    requires (found.Some? ==> found.value < |db.accounts|) && i < |db.accounts|
    ensures var db' := CreditRows(db, found, initial, amount);
            i < |db'.accounts| && db'.accounts[i] == db.accounts[i].(version := db'.accounts[i].version)
  {
    hide GrantEntry;
  }

  lemma SameDraws(db: Db, db': Db, user: Id, i: nat)
    requires db'.keys == db.keys && i < |db.accounts| && i < |db'.accounts|
    requires db'.accounts[i] == db.accounts[i].(version := db'.accounts[i].version)
    ensures DrawsOnPool(db', user, i) == DrawsOnPool(db, user, i)
  {
  }

  function Share(db: Db, account: nat): int {
    Clamped(Available(db.ledger, account) + HeldOn(db.reservations, account))
  }

  lemma ShareRises(db: Db, db': Db, account: nat, amount: int, i: nat)
    requires CreditedOnce(db, db', account, amount) && db'.reservations == db.reservations && amount > 0
    ensures Share(db', i) <= Share(db, i) + if i == account then amount else 0
  {
    hide HeldOn, SameScopes;
    AppendEntry(db.ledger, db'.ledger[|db.ledger|]);
  }

  lemma {:induction false} DrawnRises(db: Db, key: Id, amount: int, user: Id, count: nat)
    requires GrantKey(db, key, amount).reply.Ok? && count <= |db.accounts|
    ensures count <= |GrantKey(db, key, amount).db.accounts|
    ensures DrawnTo(GrantKey(db, key, amount).db, user, count)
            <= DrawnTo(db, user, count) + if GrantedAccount(db, key) < count then amount else 0
  {
    hide GrantKey, DrawsOnPool, Available, HeldOn, Clamped;
    var db' := GrantKey(db, key, amount).db;
    GrantKeyEffect(db, key, amount);
    GrantKeyShape(db, key, amount);
    if count > 0 {
      DrawnRises(db, key, amount, user, count - 1);
      GrantedDraws(db, key, amount, user, count - 1);
      ShareRises(db, db', GrantedAccount(db, key), amount, count - 1);
    }
  }

  lemma NewShare(db: Db, key: Id, amount: int)
    requires GrantKey(db, key, amount).reply.Ok? && GrantedAccount(db, key) == |db.accounts|
    requires Inv(db)
    ensures Share(GrantKey(db, key, amount).db, |db.accounts|) <= amount
  {
    hide Inv, GrantKey, Available, HeldOn;
    GrantKeyEffect(db, key, amount);
    GrantKeyShape(db, key, amount);
    FreshAccountEmpty(db);
    ShareRises(db, GrantKey(db, key, amount).db, |db.accounts|, amount, |db.accounts|);
  }

  lemma GrantDraws(db: Db, key: Id, amount: int, user: Id)
    requires GrantKey(db, key, amount).reply.Ok?
    requires Inv(db)
    ensures Drawn(GrantKey(db, key, amount).db, user) <= Drawn(db, user) + amount
  {
    hide Inv, GrantKey, DrawsOnPool, Available, HeldOn, Clamped;
    GrantKeyEffect(db, key, amount);
    DrawnRises(db, key, amount, user, |db.accounts|);
    if GrantedAccount(db, key) == |db.accounts| {
      NewShare(db, key, amount);
    }
  }

  lemma PoolUntouched(db: Db, key: Id, amount: int, pool: nat)
    requires GrantKey(db, key, amount).reply.Ok?
    requires pool < |db.accounts| && db.accounts[pool].scope == UserCapScope
    ensures Available(GrantKey(db, key, amount).db.ledger, pool) == Available(db.ledger, pool)
  {
    hide GrantKey, Available;
    GrantKeyEffect(db, key, amount);
    AppendEntry(db.ledger, GrantKey(db, key, amount).db.ledger[|db.ledger|]);
  }

  /** An allocation that succeeds leaves the Keys of the user within what the pool has, and the pool as it was. */
  lemma PoolCovers(db: Db, key: Id, amount: int)
    requires AllocateFromPool(db, key, amount).reply.Ok?
    requires Inv(db)
    ensures key in db.keys && FindUserCap(db.accounts, db.keys[key].user).Some?
    ensures var db', user := AllocateFromPool(db, key, amount).db, db.keys[key].user;
            var pool := FindUserCap(db.accounts, user).value;
            && Drawn(db', user) <= Available(db'.ledger, pool) == Available(db.ledger, pool)
  {
    hide Inv, GrantKey, DrawsOnPool, Available, HeldOn, DrawnOverflows, PromotedCap, Drawn;
    var user := db.keys[key].user;
    var promoted := db.(accounts := PromotedCap(db.accounts, user));
    PoolPromoted(db, user);
    GrowthKeepsInv(db, promoted);
    GrantDraws(promoted, key, amount, user);
    PoolUntouched(promoted, key, amount, FindUserCap(db.accounts, user).value);
  }

  lemma PoolPromoted(db: Db, user: Id)
    requires FindUserCap(db.accounts, user).Some?
    ensures var promoted := db.(accounts := PromotedCap(db.accounts, user));
            && OnlyAccountsGrew(db, promoted) && Drawn(promoted, user) == Drawn(db, user)
            && |promoted.accounts| == |db.accounts|
            && promoted.accounts[FindUserCap(db.accounts, user).value].scope == UserCapScope
  {
    hide DrawsOnPool, DrawnTo;
    PromotedDrawn(db, user, |db.accounts|);
  }

  // Deleting a Key

  /** A step's hold names a Key account and a cap account. */
  lemma OwnedScopes(db: Db, id: nat)
    requires Inv(db) && OwnedByStep(db, id)
    ensures id < |db.reservations| && ScopesRight(db.accounts, db.reservations[id])
  {
    hide EventsExact, HistoryValid, EvidenceSound, TablesSound, StepsSound, StepView;
    SoundStep(db, db.reservations[id].request);
    ViewParts(db, db.reservations[id].request);
    ViewScopes(db.accounts, StepView(db, db.reservations[id].request));
  }

  lemma ViewScopes(accounts: seq<Account>, v: GroupView)
    requires AccountsSound(accounts, v)
    ensures ScopesRight(accounts, v.reservation)
  {
  }

  lemma {:induction false} NothingOutstanding(reservations: seq<Reservation>, account: nat)
    requires forall i | 0 <= i < |reservations| :: HoldShare(reservations[i], account) == 0
    ensures HeldOn(reservations, account) == 0
  {
    if reservations != [] {
      NothingOutstanding(reservations[..|reservations| - 1], account);
    }
  }

  lemma UnusedHoldsNothing(db: Db, key: Id, account: nat)
    requires !KeyInUse(db, key) && account < |db.accounts| && KeysAccount(db.accounts[account], key)
    requires forall i | 0 <= i < |db.reservations| :: ScopesRight(db.accounts, db.reservations[i])
    ensures HeldOn(db.reservations, account) == 0
  {
    forall i | 0 <= i < |db.reservations|
      ensures HoldShare(db.reservations[i], account) == 0
    {
      assert !HoldsForKey(db, key, db.reservations[i]);
      assert ScopesRight(db.accounts, db.reservations[i]);
    }
    NothingOutstanding(db.reservations, account);
  }

  /**
    Deleting a Key takes back exactly what is left on its account and leaves every other account alone; the Key has
    nothing more to spend, holds nothing, and so commits nothing of the upstream balance.
   */
  lemma DeletionReturnsRest(db: Db, key: Id, facts: DeletionFacts, returned: int, account: nat, other: nat)
    requires DeleteKey(db, key, facts).reply == Ok(returned) && key in db.keys && !facts.deleted
    requires FindKeyAccount(db.accounts, key, db.keys[key].user) == Some(account) && other != account
    requires forall i | 0 <= i < |db.reservations| :: ScopesRight(db.accounts, db.reservations[i])
    ensures var db' := DeleteKey(db, key, facts).db;
            && key in db'.keys && !db'.keys[key].active
            && Available(db'.ledger, account) == Available(db.ledger, account) - returned <= 0
            && GrantedOn(db'.ledger, account) == GrantedOn(db.ledger, account) - returned && returned >= 0
            && HeldOn(db'.reservations, account) == 0 && Commitment(db', account) == 0
            && Excess(db', account) == Excess(db, account)
            && Available(db'.ledger, other) == Available(db.ledger, other)
            && GrantedOn(db'.ledger, other) == GrantedOn(db.ledger, other)
  {
    hide Available, HeldOn, SettledOn, GrantedOn, KeyInUse, ReturnRows;
    var db' := DeleteKey(db, key, facts).db;
    UnusedHoldsNothing(db, key, account);
    ReturnMoves(db, account);
    ReturnSpares(db, account, other);
  }

  lemma ReturnMoves(db: Db, account: nat)
    requires account < |db.accounts|
    ensures var db' := ReturnRows(db, account);
            && db'.reservations == db.reservations
            && Available(db'.ledger, account) == Available(db.ledger, account) - Returned(db, account)
            && GrantedOn(db'.ledger, account) == GrantedOn(db.ledger, account) - Returned(db, account)
            && SettledOn(db'.ledger, account) == SettledOn(db.ledger, account)
  {
    hide Available, SettledOn, GrantedOn, AdvanceAccount;
    var ledger := ReturnRows(db, account).ledger;
    if Returned(db, account) != 0 {
      AppendEntry(db.ledger, ledger[|db.ledger|]);
    }
  }

  lemma ReturnSpares(db: Db, account: nat, other: nat)
    requires account < |db.accounts| && other != account
    ensures var db' := ReturnRows(db, account);
            && Available(db'.ledger, other) == Available(db.ledger, other)
            && GrantedOn(db'.ledger, other) == GrantedOn(db.ledger, other)
  {
    hide Available, SettledOn, GrantedOn, AdvanceAccount;
    var ledger := ReturnRows(db, account).ledger;
    if Returned(db, account) != 0 {
      AppendEntry(db.ledger, ledger[|db.ledger|]);
    }
  }
}
