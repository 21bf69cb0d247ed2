/** Administrative credits keep the invariant. */
module GrantPreservation {
  import opened Wrappers
  import opened Model
  import opened Ledger
  import opened EventGroup
  import opened Billing
  import opened Grants
  import opened Invariant
  import opened Frame

  /** The accounts grew and one administrative entry was appended; nothing else differs. */
  ghost predicate OnlyCredited(db: Db, db': Db) {
    && AccountsGrow(db.accounts, db'.accounts)
    && |db'.ledger| == |db.ledger| + 1
    && db'.ledger == db.ledger + [db'.ledger[|db.ledger|]]
    && db'.ledger[|db.ledger|].kind == GrantEvent
    && EntrySound(db'.ledger[|db.ledger|], |db'.accounts|, |db.reservations|)
    && db' == db.(keys := db'.keys, accounts := db'.accounts, ledger := db'.ledger)
  }

  lemma CreditedElsewhere(db: Db, db': Db)
    requires TablesSound(db) && OnlyCredited(db, db')
    ensures Elsewhere(db, db', {})
  {
    hide LedgerSound, ReferencesSound, BudgetIdsUnique, AccountsShaped, EventsOf;
    AppendEntry(db.ledger, db'.ledger[|db.ledger|]);
    forall q | q in db.steps
      ensures StepRowsKept(db, db', q)
    {
      CreditedRows(db, db', q);
    }
  }

  lemma CreditedRows(db: Db, db': Db, q: Id)
    requires ReservationsSound(db.accounts, db.reservations) && StepLinked(db, q) && OnlyCredited(db, db')
    ensures StepRowsKept(db, db', q)
  {
    hide EventsOf;
    AppendEntry(db.ledger, db'.ledger[|db.ledger|]);
    var group := db.reservations[db.steps[q].reservation].group;
    assert EventsOf(db.ledger, group) + [] == EventsOf(db.ledger, group);
  }

  lemma GrownReservations(accounts: seq<Account>, accounts': seq<Account>, reservations: seq<Reservation>)
    requires ReservationsSound(accounts, reservations) && |accounts| <= |accounts'|
    ensures ReservationsSound(accounts', reservations)
  {
    forall i | 0 <= i < |reservations|
      ensures AccountsKnown(accounts', AccountsOf(reservations[i]))
    {
      assert AccountsKnown(accounts, AccountsOf(reservations[i]));
    }
  }

  lemma CreditedTables(db: Db, db': Db)
    requires TablesSound(db) && OnlyCredited(db, db')
    ensures TablesSound(db')
  {
    hide AccountsShaped, BudgetIdsUnique;
    GrownShaped(db.accounts, db'.accounts);
    GrownReservations(db.accounts, db'.accounts, db.reservations);
    forall q | q in db'.steps
      ensures StepLinked(db', q)
    {
      assert StepLinked(db, q);
    }
  }

  lemma CreditedKeepsInv(db: Db, db': Db)
    requires Inv(db) && OnlyCredited(db, db')
    ensures Inv(db')
  {
    hide TablesSound, StepsSound, Elsewhere;
    assert db'.steps == db.steps;
    CreditedElsewhere(db, db');
    CreditedTables(db, db');
    InvFromParts(db, db', {});
  }

  lemma CreditCredits(db: Db, account: Option<nat>, initial: Account, amount: int)
    requires account.Some? ==> account.value < |db.accounts|
    requires AccountShaped(initial) && amount > 0
    ensures OnlyCredited(db, CreditRows(db, account, initial, amount))
  {
  }

  ghost predicate OnlyAccountsGrew(db: Db, db': Db) {
    AccountsGrow(db.accounts, db'.accounts) && db' == db.(keys := db'.keys, accounts := db'.accounts)
  }

  lemma GrowthElsewhere(db: Db, db': Db)
    requires OnlyAccountsGrew(db, db')
    ensures Elsewhere(db, db', {})
  {
    hide EventsOf;
  }

  lemma GrowthTables(db: Db, db': Db)
    requires TablesSound(db) && OnlyAccountsGrew(db, db')
    ensures TablesSound(db')
  {
    hide AccountsShaped, BudgetIdsUnique, ReservationsSound;
    GrownShaped(db.accounts, db'.accounts);
    GrownReservations(db.accounts, db'.accounts, db.reservations);
  }

  lemma GrowthKeepsInv(db: Db, db': Db)
    requires Inv(db) && OnlyAccountsGrew(db, db')
    ensures Inv(db')
  {
    hide TablesSound, StepsSound, Elsewhere;
    assert db'.steps == db.steps;
    GrowthElsewhere(db, db');
    GrowthTables(db, db');
    InvFromParts(db, db', {});
  }

  lemma CreditRowsKeepInv(db: Db, account: Option<nat>, initial: Account, amount: int)
    requires Inv(db) && AccountShaped(initial) && amount > 0
    requires account.Some? ==> account.value < |db.accounts|
    ensures Inv(CreditRows(db, account, initial, amount))
  {
    hide Inv, CreditRows, OnlyCredited;
    CreditCredits(db, account, initial, amount);
    CreditedKeepsInv(db, CreditRows(db, account, initial, amount));
  }

  lemma GrantKeyKeepsInv(db: Db, key: Id, amount: int)
    requires Inv(db)
    ensures Inv(GrantKey(db, key, amount).db)
  {
    hide Inv, CreditRows, GrantKeyError;
    if GrantKeyError(db, key, amount).None? {
      CreditRowsKeepInv(db, FindAccountOfKey(db.accounts, key),
                        Account(KeyScope, db.keys[key].user, Some(key), 1, true, Ready), amount);
    }
  }

  lemma GrantPoolKeepsInv(db: Db, user: Id, amount: int)
    requires Inv(db)
    ensures Inv(GrantPool(db, user, amount).db)
  {
    hide Inv, CreditRows, GrantPoolError;
    if GrantPoolError(db, user, amount).None? {
      var promoted := db.(accounts := PromotedCap(db.accounts, user));
      GrowthKeepsInv(db, promoted);
      CreditRowsKeepInv(promoted, FindUserCap(db.accounts, user), Account(UserCapScope, user, None, 1, true, Ready),
                        amount);
    }
  }

  lemma AllocateFromPoolKeepsInv(db: Db, key: Id, amount: int)
    requires Inv(db)
    ensures Inv(AllocateFromPool(db, key, amount).db)
  {
    hide Inv, GrantKey, PoolError;
    if PoolError(db, key, amount).None? {
      var promoted := db.(accounts := PromotedCap(db.accounts, db.keys[key].user));
      GrowthKeepsInv(db, promoted);
      GrantKeyKeepsInv(promoted, key, amount);
    }
  }

  lemma ReturnCredits(db: Db, account: nat)
    requires account < |db.accounts|
    ensures if Returned(db, account) == 0 then ReturnRows(db, account) == db else OnlyCredited(db, ReturnRows(db, account))
  {
    hide Returned;
  }

  /** Whether the Key is active does not matter to the ledger. */
  lemma AnyKeys(db: Db, db': Db, keys: map<Id, ApiKey>)
    ensures OnlyCredited(db, db') ==> OnlyCredited(db, db'.(keys := keys))
    ensures db' == db ==> OnlyAccountsGrew(db, db'.(keys := keys))
  {
  }

  lemma ReturnKeeps(db: Db, key: Id)
    requires key in db.keys
    ensures OnlyCredited(db, DeletedRows(db, key)) || OnlyAccountsGrew(db, DeletedRows(db, key))
  {
    hide ReturnRows, Returned, FindKeyAccount, OnlyCredited, OnlyAccountsGrew;
    var account := FindKeyAccount(db.accounts, key, db.keys[key].user);
    var revoked := db.keys[key := db.keys[key].(active := false)];
    if account.Some? {
      ReturnCredits(db, account.value);
      AnyKeys(db, ReturnRows(db, account.value), revoked);
    } else {
      AnyKeys(db, db, revoked);
    }
  }

  lemma DeleteKeyKeepsInv(db: Db, key: Id, facts: DeletionFacts)
    requires Inv(db)
    ensures Inv(DeleteKey(db, key, facts).db)
  {
    hide Inv, DeletedRows, DeletionError, OnlyCredited, OnlyAccountsGrew;
    if DeleteKey(db, key, facts).db != db {
      ReturnKeeps(db, key);
      if OnlyCredited(db, DeletedRows(db, key)) {
        CreditedKeepsInv(db, DeletedRows(db, key));
      } else {
        GrowthKeepsInv(db, DeletedRows(db, key));
      }
    }
  }

  lemma AllocateKeepsInv(db: Db, now: Millis, key: Id, amount: int, snapshot: Snapshot)
    requires Inv(db)
    ensures Inv(Allocate(db, now, key, amount, snapshot).db)
  {
    hide Inv, GrantKey, Committed, CommitmentOverflows;
    GrantKeyKeepsInv(db, key, amount);
  }
}
