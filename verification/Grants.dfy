/** Administrative entries: crediting a Key, a user's cap, or a Key out of the upstream balance. */
module Grants {
  import opened Wrappers
  import opened Model
  import opened Ledger
  import opened Billing

  const SNAPSHOT_MAX_AGE_MS := 5 * 60 * 1_000

  datatype Snapshot = Snapshot(total: int, updatedAt: int)

  function FindAccountOfKey(accounts: seq<Account>, key: Id, from: nat := 0): (r: Option<nat>)
    requires from <= |accounts|
    ensures r.Some? ==> from <= r.value < |accounts| && accounts[r.value].scope == KeyScope
                        && accounts[r.value].key == Some(key)
    ensures r.Some? ==> forall i | from <= i < r.value ::
                          !(accounts[i].scope == KeyScope && accounts[i].key == Some(key))
    ensures r.None? ==> forall i | from <= i < |accounts| ::
                          !(accounts[i].scope == KeyScope && accounts[i].key == Some(key))
    decreases |accounts| - from
  {
    if from == |accounts| then None
    else if accounts[from].scope == KeyScope && accounts[from].key == Some(key) then Some(from)
    else FindAccountOfKey(accounts, key, from + 1)
  }

  function GrantEntry(ledger: seq<Entry>, account: nat, user: Id, key: Option<Id>, amount: int, version: int): Entry {
    Entry(account, GrantEvent, amount, amount, None, user, key, AdminGroup(|ledger|), version, None)
  }

  /** Crediting an existing account needs it ready and its version not exhausted. */
  function CreditError(accounts: seq<Account>, account: Option<nat>): Option<Error>
    requires account.Some? ==> account.value < |accounts|
  {
    if account.None? then None
    else if !AccountReady(accounts[account.value]) then Some(AccountNotReady)
    else if accounts[account.value].version >= MAX_I64 then Some(InvalidConfiguration)
    else None
  }

  /** A new account starts at version 1, an existing one is credited under its next version. */
  function CreditRows(db: Db, account: Option<nat>, initial: Account, amount: int): Db
    requires account.Some? ==> account.value < |db.accounts|
  {
    if account.None? then
      db.(accounts := db.accounts + [initial],
          ledger := db.ledger
                    + [GrantEntry(db.ledger, |db.accounts|, initial.user, initial.key, amount, initial.version)])
    else
      var row := db.accounts[account.value];
      db.(accounts := AdvanceAccount(db.accounts, account.value),
          ledger := db.ledger + [GrantEntry(db.ledger, account.value, row.user, row.key, amount, row.version + 1)])
  }

  function GrantKeyError(db: Db, key: Id, amount: int): (e: Option<Error>)
    ensures e.None? ==> amount > 0 && key in db.keys
  {
    if amount <= 0 then Some(InvalidAmount)
    else if key !in db.keys then Some(KeyNotFound)
    else if !db.keys[key].active then Some(InvalidIdentity)
    else
      var found := FindAccountOfKey(db.accounts, key);
      if found.Some? && db.accounts[found.value].user != db.keys[key].user then Some(KeyOwnershipMismatch)
      else CreditError(db.accounts, found)
  }

  function GrantKeyRows(db: Db, key: Id, amount: int): Db
    requires key in db.keys
  {
    CreditRows(db, FindAccountOfKey(db.accounts, key), Account(KeyScope, db.keys[key].user, Some(key), 1, true, Ready),
               amount)
  }

  /** key_quota_grant_as_admin */
  function GrantKey(db: Db, key: Id, amount: int): Tx<Mutation> {
    var error := GrantKeyError(db, key, amount);
    if error.Some? then Tx(db, Err(error.value)) else Tx(GrantKeyRows(db, key, amount), Ok(Applied))
  }

  /** A legacy cap account becomes ready on its first administrative grant. */
  function PromotedCap(accounts: seq<Account>, user: Id): seq<Account> {
    var found := FindUserCap(accounts, user);
    if found.Some? && accounts[found.value].mode == LegacyUnassigned
    then accounts[found.value := accounts[found.value].(mode := Ready)] else accounts
  }

  function GrantPoolError(db: Db, user: Id, amount: int): (e: Option<Error>)
    ensures e.None? ==> amount > 0
  {
    if amount <= 0 then Some(InvalidAmount)
    else CreditError(PromotedCap(db.accounts, user), FindUserCap(db.accounts, user))
  }

  function GrantPoolRows(db: Db, user: Id, amount: int): Db {
    CreditRows(db.(accounts := PromotedCap(db.accounts, user)), FindUserCap(db.accounts, user),
               Account(UserCapScope, user, None, 1, true, Ready), amount)
  }

  /** quota_pool_grant_as_admin */
  function GrantPool(db: Db, user: Id, amount: int): Tx<Mutation> {
    var error := GrantPoolError(db, user, amount);
    if error.Some? then Tx(db, Err(error.value)) else Tx(GrantPoolRows(db, user, amount), Ok(Applied))
  }

  // Allocation out of the upstream balance

  /** What one account still commits: its balance and its holds, but never less than nothing. */
  function Commitment(db: Db, account: nat): int {
    var total := Available(db.ledger, account) + HeldOn(db.reservations, account);
    if total < 0 then 0 else total
  }

  /** The sum of the commitments of the Key accounts among the first `count` accounts. */
  function CommittedTo(db: Db, count: nat): int
    requires count <= |db.accounts|
  {
    if count == 0 then 0
    else CommittedTo(db, count - 1) + if db.accounts[count - 1].scope == KeyScope then Commitment(db, count - 1) else 0
  }

  function Committed(db: Db): int {
    CommittedTo(db, |db.accounts|)
  }

  /** Would the running sum of commitments, or one account's, leave the range of i64? */
  predicate CommitmentOverflows(db: Db) {
    exists i | 0 <= i < |db.accounts| :: OverflowsAt(db, i)
  }

  predicate OverflowsAt(db: Db, i: nat)
    requires i < |db.accounts|
  {
    && db.accounts[i].scope == KeyScope
    && (Available(db.ledger, i) + HeldOn(db.reservations, i) < MIN_I64
        || Available(db.ledger, i) + HeldOn(db.reservations, i) > MAX_I64
        || CommittedTo(db, i + 1) > MAX_I64)
  }

  predicate SnapshotFresh(snapshot: Snapshot, now: Millis) {
    0 < snapshot.updatedAt <= now && now - snapshot.updatedAt <= SNAPSHOT_MAX_AGE_MS
  }

  /** key_quota_allocate_from_upstream_as_admin */
  function Allocate(db: Db, now: Millis, key: Id, amount: int, snapshot: Snapshot): Tx<Mutation> {
    if amount <= 0 then Tx(db, Err(InvalidAmount))
    else if !SnapshotFresh(snapshot, now) then Tx(db, Err(SnapshotUnavailable))
    else if CommitmentOverflows(db) then Tx(db, Err(InvalidConfiguration))
    else if Committed(db) > snapshot.total then Tx(db, Err(CommitmentsExceedBalance))
    else if amount > snapshot.total - Committed(db) then
      Tx(db, Err(UpstreamLimitExceeded(snapshot.total - Committed(db), amount)))
    else GrantKey(db, key, amount)
  }

  // Allocation out of a user's pool

  function Clamped(x: int): int {
    if x < MIN_I64 then MIN_I64 else if x > MAX_I64 then MAX_I64 else x
  }

  /** A Key account that draws on its user's pool. */
  predicate DrawsOnPool(db: Db, user: Id, account: nat)
    requires account < |db.accounts|
  {
    var row := db.accounts[account];
    && row.scope == KeyScope && row.user == user && row.enabled
    && row.key.Some? && row.key.value in db.keys
    && db.keys[row.key.value].user == user && db.keys[row.key.value].active
  }

  /** What the Keys of a user may still spend, over the first `count` accounts. */
  function DrawnTo(db: Db, user: Id, count: nat): int
    requires count <= |db.accounts|
  {
    if count == 0 then 0
    else
      DrawnTo(db, user, count - 1)
        + if DrawsOnPool(db, user, count - 1)
          then Clamped(Available(db.ledger, count - 1) + HeldOn(db.reservations, count - 1)) else 0
  }

  function Drawn(db: Db, user: Id): int {
    DrawnTo(db, user, |db.accounts|)
  }

  predicate DrawnOverflows(db: Db, user: Id) {
    exists i | 0 <= i < |db.accounts| :: DrawnOverflowsAt(db, user, i)
  }

  predicate DrawnOverflowsAt(db: Db, user: Id, i: nat)
    requires i < |db.accounts|
  {
    DrawnTo(db, user, i + 1) != Clamped(DrawnTo(db, user, i + 1))
  }

  /** What is left of the pool once every Key has drawn what it may spend. */
  function Allocatable(db: Db, user: Id, pool: nat): int {
    var rest := Clamped(Available(db.ledger, pool) - Drawn(db, user));
    if rest < 0 then 0 else rest
  }

  function PoolError(db: Db, key: Id, amount: int): (e: Option<Error>)
    ensures e.None? ==> amount > 0 && key in db.keys && FindUserCap(db.accounts, db.keys[key].user).Some?
  {
    if amount <= 0 then Some(InvalidAmount)
    else if key !in db.keys then Some(KeyNotFound)
    else if !db.keys[key].active then Some(InvalidIdentity)
    else
      var user := db.keys[key].user;
      var pool := FindUserCap(db.accounts, user);
      if pool.None? then Some(PoolNotConfigured)
      else if !AccountReady(PromotedCap(db.accounts, user)[pool.value]) then Some(AccountNotReady)
      else if DrawnOverflows(db, user) then Some(InvalidConfiguration)
      else if amount > Allocatable(db, user, pool.value) then
        Some(PoolInsufficient(Allocatable(db, user, pool.value), amount))
      else None
  }

  /** key_quota_allocate_from_pool_as_admin: the pool's own ledger is not touched, the Key is granted its share. */
  function AllocateFromPool(db: Db, key: Id, amount: int): Tx<Mutation> {
    var error := PoolError(db, key, amount);
    if error.Some? then Tx(db, Err(error.value))
    else
      var tx := GrantKey(db.(accounts := PromotedCap(db.accounts, db.keys[key].user)), key, amount);
      if tx.reply.Err? then Tx(db, tx.reply) else tx
  }

  // Deleting a Key

  /** What a deletion reads from tables that are not modelled. */
  datatype DeletionFacts = DeletionFacts(administrators: bool, deleted: bool, working: bool)

  predicate RequestOpen(state: RequestState) {
    && state != CancelRequested && state != Canceled && state != Succeeded && state != Failed
    && state != RequestState.Settled
  }

  predicate KeysAccount(account: Account, key: Id) {
    account.scope == KeyScope && account.key == Some(key)
  }

  predicate HoldsForKey(db: Db, key: Id, hold: Reservation) {
    && Outstanding(hold.state)
    && (hold.key == key || (hold.keyAccount < |db.accounts| && KeysAccount(db.accounts[hold.keyAccount], key)))
  }

  /** A Key with open requests, open holds or an account that is not ready is not deleted. */
  predicate KeyInUse(db: Db, key: Id) {
    || (exists q | q in db.requests :: db.requests[q].identity.key == key && RequestOpen(db.requests[q].state))
    || (exists i | 0 <= i < |db.reservations| :: HoldsForKey(db, key, db.reservations[i]))
    || (exists i | 0 <= i < |db.accounts| :: KeysAccount(db.accounts[i], key) && db.accounts[i].mode != Ready)
  }

  /** What is left on the Key's account goes back to the shared balance. */
  function Returned(db: Db, account: nat): int {
    var available := Available(db.ledger, account);
    if available < 0 then 0 else available
  }

  function ReturnRows(db: Db, account: nat): Db
    requires account < |db.accounts|
  {
    var row, returned := db.accounts[account], Returned(db, account);
    if returned == 0 then db
    else
      db.(accounts := AdvanceAccount(db.accounts, account),
          ledger := db.ledger
                    + [Entry(account, GrantEvent, returned, -returned, None, row.user, row.key,
                             AdminGroup(|db.ledger|), row.version + 1, None)])
  }

  function DeletionError(db: Db, key: Id, facts: DeletionFacts): (e: Option<Error>)
    ensures e.None? ==> key in db.keys && !facts.deleted && !KeyInUse(db, key)
  {
    if key !in db.keys then Some(KeyNotFound)
    else if facts.administrators then Some(DeletionBlocked)
    else if facts.deleted then Some(DeletionBlocked)
    else if facts.working || KeyInUse(db, key) then Some(DeletionBlocked)
    else
      var account := FindKeyAccount(db.accounts, key, db.keys[key].user);
      if account.Some? && Returned(db, account.value) > 0 && db.accounts[account.value].version >= MAX_I64
      then Some(InvalidConfiguration) else None
  }

  function DeletedRows(db: Db, key: Id): Db
    requires key in db.keys
  {
    var account := FindKeyAccount(db.accounts, key, db.keys[key].user);
    var returned := if account.Some? then ReturnRows(db, account.value) else db;
    returned.(keys := db.keys[key := db.keys[key].(active := false)])
  }

  /** delete_api_key_as_admin: what it returns to the shared balance; a deleted Key is left as it is. */
  function DeleteKey(db: Db, key: Id, facts: DeletionFacts): Tx<int> {
    if key in db.keys && !facts.administrators && facts.deleted then Tx(db, Ok(0))
    else
      var error := DeletionError(db, key, facts);
      if error.Some? then Tx(db, Err(error.value))
      else
        var account := FindKeyAccount(db.accounts, key, db.keys[key].user);
        Tx(DeletedRows(db, key), Ok(if account.Some? then Returned(db, account.value) else 0))
  }
}
