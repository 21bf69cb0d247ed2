/** When credits are granted, allocated or taken back with a deleted Key, and what that leaves, read off the tables. */
module Granting {
  import opened Wrappers
  import opened Model
  import opened Ledger
  import opened Billing
  import opened Grants
  import opened Admitted

  // Crediting an account

  /** The first account of the Key. */
  predicate AccountOfKey(accounts: seq<Account>, key: Id, account: Option<nat>) {
    match account
    case Some(a) =>
      && a < |accounts| && accounts[a].scope == KeyScope && accounts[a].key == Some(key)
      && forall i | 0 <= i < a :: accounts[i].scope == KeyScope ==> accounts[i].key != Some(key)
    case None => forall i | 0 <= i < |accounts| :: accounts[i].scope == KeyScope ==> accounts[i].key != Some(key)
  }

  /** An existing account is in use and can take another version. */
  predicate Creditable(accounts: seq<Account>, account: nat) {
    InUse(accounts, account) && accounts[account].version < MAX_I64
  }

  /** The account has the amount more, by one entry under its next version, or it is new and has it under its first. */
  predicate Credited(
    db: Db, db': Db, accounts: seq<Account>, account: Option<nat>, initial: Account, amount: int)
  {
    match account
    case Some(a) =>
      && a < |accounts|
      && db' == db.(accounts := accounts[a := accounts[a].(version := accounts[a].version + 1)],
                    ledger := db.ledger + [Entry(a, GrantEvent, amount, amount, None, accounts[a].user, accounts[a].key,
                                                 AdminGroup(|db.ledger|), accounts[a].version + 1, None)])
    case None =>
      db' == db.(accounts := accounts + [initial],
                 ledger := db.ledger + [Entry(|accounts|, GrantEvent, amount, amount, None, initial.user, initial.key,
                                              AdminGroup(|db.ledger|), 1, None)])
  }

  ghost predicate MayGrantKey(db: Db, key: Id, amount: int) {
    && amount > 0 && key in db.keys && db.keys[key].active
    && forall account: nat | AccountOfKey(db.accounts, key, Some(account)) ::
         db.accounts[account].user == db.keys[key].user && Creditable(db.accounts, account)
  }

  lemma KeyAccountFound(accounts: seq<Account>, key: Id)
    ensures AccountOfKey(accounts, key, FindAccountOfKey(accounts, key))
    ensures forall account: nat | AccountOfKey(accounts, key, Some(account)) :: FindAccountOfKey(accounts, key) == Some(account)
  {
    forall account: nat | AccountOfKey(accounts, key, Some(account))
      ensures FindAccountOfKey(accounts, key) == Some(account)
    {
      assert accounts[account].scope == KeyScope && accounts[account].key == Some(key);
    }
  }

  lemma GrantKeyAnswers(db: Db, key: Id, amount: int)
    ensures var tx := GrantKey(db, key, amount);
            && (tx.reply == Ok(Applied) <==> MayGrantKey(db, key, amount))
            && (tx.reply != Ok(Applied) ==> tx.db == db && tx.reply.Err?)
            && (tx.reply == Ok(Applied) ==>
                  exists account ::
                    && AccountOfKey(db.accounts, key, account)
                    && Credited(db, tx.db, db.accounts, account,
                                Account(KeyScope, db.keys[key].user, Some(key), 1, true, Ready), amount))
  {
    hide FindAccountOfKey;
    KeyAccountFound(db.accounts, key);
    var found := FindAccountOfKey(db.accounts, key);
    if GrantKey(db, key, amount).reply == Ok(Applied) {
      assert Credited(db, GrantKey(db, key, amount).db, db.accounts, found,
                      Account(KeyScope, db.keys[key].user, Some(key), 1, true, Ready), amount);
    }
  }

  // The pool of a user

  /** The accounts as a grant to the pool finds them: a cap left over from before there were grants becomes ready. */
  function CapReady(accounts: seq<Account>, cap: Option<nat>): seq<Account> {
    if cap.Some? && cap.value < |accounts| && accounts[cap.value].mode == LegacyUnassigned
    then accounts[cap.value := accounts[cap.value].(mode := Ready)] else accounts
  }

  lemma CapFound(accounts: seq<Account>, user: Id)
    ensures CapIs(accounts, user, FindUserCap(accounts, user))
    ensures forall cap: Option<nat> | CapIs(accounts, user, cap) :: FindUserCap(accounts, user) == cap
    ensures PromotedCap(accounts, user) == CapReady(accounts, FindUserCap(accounts, user))
  {
    var found := FindUserCap(accounts, user);
    forall cap: Option<nat> | CapIs(accounts, user, cap)
      ensures found == cap
    {
      if cap.Some? {
        assert IsUserCap(accounts[cap.value], user);
      }
      if found.Some? {
        assert IsUserCap(accounts[found.value], user);
      }
    }
  }

  lemma GrantPoolAnswers(db: Db, user: Id, amount: int, cap: Option<nat>)
    requires CapIs(db.accounts, user, cap)
    ensures var tx := GrantPool(db, user, amount);
            && (tx.reply == Ok(Applied) <==>
                  amount > 0 && (cap.Some? ==> Creditable(CapReady(db.accounts, cap), cap.value)))
            && (tx.reply != Ok(Applied) ==> tx.db == db && tx.reply.Err?)
            && (tx.reply == Ok(Applied) ==>
                  Credited(db, tx.db, CapReady(db.accounts, cap), cap, Account(UserCapScope, user, None, 1, true, Ready), amount))
  {
    hide FindUserCap, CapIs, PromotedCap;
    CapFound(db.accounts, user);
  }

  /** What the Keys of the user draw on the pool together is, with the allocation, within what the pool has. */
  lemma AllocateFromPoolAnswers(db: Db, key: Id, amount: int, cap: Option<nat>)
    requires key in db.keys && CapIs(db.accounts, db.keys[key].user, cap)
    ensures var tx := AllocateFromPool(db, key, amount);
            var user := db.keys[key].user;
            && (tx.reply == Ok(Applied) <==>
                  && amount > 0 && db.keys[key].active
                  && cap.Some? && InUse(CapReady(db.accounts, cap), cap.value)
                  && !DrawnOverflows(db, user)
                  && amount <= MAX_I64 && Drawn(db, user) + amount <= Available(db.ledger, cap.value)
                  && MayGrantKey(db.(accounts := CapReady(db.accounts, cap)), key, amount))
            && (tx.reply == Ok(Applied) ==> tx == GrantKey(db.(accounts := CapReady(db.accounts, cap)), key, amount))
            && (tx.reply != Ok(Applied) ==> tx.db == db && tx.reply.Err?)
  {
    hide FindUserCap, CapIs, PromotedCap, GrantKey, DrawnOverflows, Drawn, Available, MayGrantKey;
    CapFound(db.accounts, db.keys[key].user);
    GrantKeyAnswers(db.(accounts := CapReady(db.accounts, cap)), key, amount);
  }

  // Allocations

  /** An allocation is a grant within what a snapshot of the last five minutes leaves uncommitted. */
  lemma AllocateAnswers(db: Db, now: Millis, key: Id, amount: int, snapshot: Snapshot)
    ensures var tx := Allocate(db, now, key, amount, snapshot);
            && (tx.reply == Ok(Applied) <==>
                  && MayGrantKey(db, key, amount)
                  && 0 < snapshot.updatedAt && snapshot.updatedAt <= now && now - snapshot.updatedAt <= 300_000
                  && !CommitmentOverflows(db) && Committed(db) + amount <= snapshot.total)
            && (tx.reply == Ok(Applied) ==> tx == GrantKey(db, key, amount))
            && (tx.reply != Ok(Applied) ==> tx.db == db && tx.reply.Err?)
  {
    hide GrantKey, CommitmentOverflows, Committed;
    GrantKeyAnswers(db, key, amount);
  }

  // Deletion

  /** Nothing of the Key is under way: no open request, no open hold, no account that waits for reconciliation. */
  predicate Idle(db: Db, key: Id) {
    && (forall q | q in db.requests && db.requests[q].identity.key == key ::
          db.requests[q].state in {CancelRequested, Canceled, Succeeded, Failed, RequestState.Settled})
    && (forall i | 0 <= i < |db.reservations| && db.reservations[i].state in {HoldHeld, HoldUnknown} ::
          && db.reservations[i].key != key
          && (db.reservations[i].keyAccount < |db.accounts| && db.accounts[db.reservations[i].keyAccount].scope == KeyScope ==>
                db.accounts[db.reservations[i].keyAccount].key != Some(key)))
    && (forall a | 0 <= a < |db.accounts| && db.accounts[a].scope == KeyScope && db.accounts[a].key == Some(key) ::
          db.accounts[a].mode == Ready)
  }

  /** A Key is deleted exactly when it is idle, is no administrator's, and its account can take the entry for the rest. */
  lemma DeleteKeyAnswers(db: Db, key: Id, facts: DeletionFacts)
    ensures var tx := DeleteKey(db, key, facts);
            && (tx.reply.Ok? <==>
                  && key in db.keys && !facts.administrators
                  && (facts.deleted
                      || (!facts.working && Idle(db, key)
                          && forall a: nat | KeyAccountIs(db.accounts, key, db.keys[key].user, a)
                                             && Available(db.ledger, a) > 0 :: db.accounts[a].version < MAX_I64)))
            && (tx.reply.Err? || facts.deleted ==> tx.db == db)
            && (tx.reply.Ok? && !facts.deleted ==>
                  && tx.db == db.(keys := db.keys[key := db.keys[key].(active := false)], accounts := tx.db.accounts,
                                  ledger := tx.db.ledger)
                  && forall a: nat | KeyAccountIs(db.accounts, key, db.keys[key].user, a) ::
                       tx.reply.value == if Available(db.ledger, a) > 0 then Available(db.ledger, a) else 0)
  {
    hide Available, FindKeyAccount;
    IdleIff(db, key);
    if key in db.keys {
      KeysAccountFound(db.accounts, key, db.keys[key].user);
    }
    hide KeyInUse, Idle, KeyAccountIs;
  }

  lemma IdleIff(db: Db, key: Id)
    ensures KeyInUse(db, key) <==> !Idle(db, key)
  {
  }

  lemma KeysAccountFound(accounts: seq<Account>, key: Id, user: Id)
    ensures forall a: nat | KeyAccountIs(accounts, key, user, a) :: FindKeyAccount(accounts, key, user) == Some(a)
    ensures var found := FindKeyAccount(accounts, key, user); found.Some? ==> KeyAccountIs(accounts, key, user, found.value)
  {
    var found := FindKeyAccount(accounts, key, user);
    if found.Some? {
      assert IsKeyAccount(accounts[found.value], key, user);
      assert forall i | 0 <= i < found.value :: !IsKeyAccount(accounts[i], key, user);
    }
    forall a: nat | KeyAccountIs(accounts, key, user, a)
      ensures found == Some(a)
    {
      assert IsKeyAccount(accounts[a], key, user);
    }
  }
}
