/** Account lookups and the balances that SQL aggregates compute from the ledger and the reservations. */
module Ledger {
  import opened Wrappers
  import opened Model

  // Balances

  /** SUM(delta) over the account's entries. */
  function Available(ledger: seq<Entry>, account: nat): int {
    if ledger == [] then 0
    else
      var last := ledger[|ledger| - 1];
      Available(ledger[..|ledger| - 1], account) + if last.account == account then last.delta else 0
  }

  /** SUM(amount) over the account's commit entries. */
  function SettledOn(ledger: seq<Entry>, account: nat): int {
    if ledger == [] then 0
    else
      var last := ledger[|ledger| - 1];
      SettledOn(ledger[..|ledger| - 1], account)
        + if last.account == account && last.kind == CommitEvent then last.amount else 0
  }

  /** SUM(delta) over the account's administrative entries. */
  function GrantedOn(ledger: seq<Entry>, account: nat): int {
    if ledger == [] then 0
    else
      var last := ledger[|ledger| - 1];
      GrantedOn(ledger[..|ledger| - 1], account)
        + if last.account == account && last.kind == GrantEvent then last.delta else 0
  }

  function ChargedTo(reservation: Reservation, account: nat): bool {
    reservation.keyAccount == account || reservation.userCap == Some(account)
  }

  predicate Outstanding(state: HoldState) {
    state == HoldHeld || state == HoldUnknown
  }

  predicate Closed(state: HoldState) {
    state == HoldCommitted || state == HoldReleased
  }

  function HoldShare(reservation: Reservation, account: nat): int {
    if ChargedTo(reservation, account) && Outstanding(reservation.state) then reservation.amount else 0
  }

  /** SUM(amount) over the reservations that still hold credits on the account. */
  function HeldOn(reservations: seq<Reservation>, account: nat): int {
    if reservations == [] then 0
    else
      HeldOn(reservations[..|reservations| - 1], account) + HoldShare(reservations[|reservations| - 1], account)
  }

  /** The entries of one event group, in ledger order. */
  function EventsOf(ledger: seq<Entry>, group: EventGroup): seq<Entry> {
    if ledger == [] then []
    else
      var last := ledger[|ledger| - 1];
      EventsOf(ledger[..|ledger| - 1], group) + if last.group == group then [last] else []
  }

  lemma AppendEntry(ledger: seq<Entry>, entry: Entry)
    ensures forall a: nat :: Available(ledger + [entry], a)
                             == Available(ledger, a) + if entry.account == a then entry.delta else 0
    ensures forall a: nat :: SettledOn(ledger + [entry], a)
                             == SettledOn(ledger, a)
                                + if entry.account == a && entry.kind == CommitEvent then entry.amount else 0
    ensures forall a: nat :: GrantedOn(ledger + [entry], a)
                             == GrantedOn(ledger, a)
                                + if entry.account == a && entry.kind == GrantEvent then entry.delta else 0
    ensures forall g :: EventsOf(ledger + [entry], g)
                        == EventsOf(ledger, g) + if entry.group == g then [entry] else []
  {
    assert (ledger + [entry])[..|ledger|] == ledger;
  }

  lemma AppendReservation(reservations: seq<Reservation>, row: Reservation, account: nat)
    ensures HeldOn(reservations + [row], account) == HeldOn(reservations, account) + HoldShare(row, account)
  {
    assert (reservations + [row])[..|reservations|] == reservations;
  }

  lemma {:induction false} UpdateReservation(reservations: seq<Reservation>, id: nat, row: Reservation, account: nat)
    requires id < |reservations|
    ensures HeldOn(reservations[id := row], account)
            == HeldOn(reservations, account) - HoldShare(reservations[id], account) + HoldShare(row, account)
  {
    var last := |reservations| - 1;
    if id == last {
      assert reservations[id := row][..last] == reservations[..last];
    } else {
      assert reservations[id := row][..last] == reservations[..last][id := row];
      UpdateReservation(reservations[..last], id, row, account);
    }
  }

  // Lookups: the first row in id order, as ORDER BY id LIMIT 1 returns it

  predicate IsKeyAccount(account: Account, key: Id, user: Id) {
    account.scope == KeyScope && account.key == Some(key) && account.user == user
  }

  predicate IsUserCap(account: Account, user: Id) {
    account.scope == UserCapScope && account.user == user
  }

  function FindKeyAccount(accounts: seq<Account>, key: Id, user: Id, from: nat := 0): (r: Option<nat>)
    requires from <= |accounts|
    ensures r.Some? ==> from <= r.value < |accounts| && IsKeyAccount(accounts[r.value], key, user)
    ensures r.Some? ==> forall i | from <= i < r.value :: !IsKeyAccount(accounts[i], key, user)
    ensures r.None? ==> forall i | from <= i < |accounts| :: !IsKeyAccount(accounts[i], key, user)
    decreases |accounts| - from
  {
    if from == |accounts| then None
    else if IsKeyAccount(accounts[from], key, user) then Some(from)
    else FindKeyAccount(accounts, key, user, from + 1)
  }

  function FindUserCap(accounts: seq<Account>, user: Id, from: nat := 0): (r: Option<nat>)
    requires from <= |accounts|
    ensures r.Some? ==> from <= r.value < |accounts| && IsUserCap(accounts[r.value], user)
    ensures r.Some? ==> forall i | from <= i < r.value :: !IsUserCap(accounts[i], user)
    ensures r.None? ==> forall i | from <= i < |accounts| :: !IsUserCap(accounts[i], user)
    decreases |accounts| - from
  {
    if from == |accounts| then None
    else if IsUserCap(accounts[from], user) then Some(from)
    else FindUserCap(accounts, user, from + 1)
  }

  function ReservationFor(reservations: seq<Reservation>, request: Id, from: nat := 0): (r: Option<nat>)
    requires from <= |reservations|
    ensures r.Some? ==> from <= r.value < |reservations| && reservations[r.value].request == request
    ensures r.None? ==> forall i | from <= i < |reservations| :: reservations[i].request != request
    decreases |reservations| - from
  {
    if from == |reservations| then None
    else if reservations[from].request == request then Some(from)
    else ReservationFor(reservations, request, from + 1)
  }

  predicate AccountReady(account: Account) {
    account.version > 0 && account.enabled && account.mode == Ready
  }

  /** The accounts a reservation is held on, Key account first. */
  function AccountsOf(reservation: Reservation): seq<nat> {
    [reservation.keyAccount] + if reservation.userCap.Some? then [reservation.userCap.value] else []
  }

  predicate AccountsKnown(accounts: seq<Account>, ids: seq<nat>) {
    forall i | 0 <= i < |ids| :: ids[i] < |accounts|
  }

  /** The accounts the reservation names are there and of the right scopes. */
  predicate ScopesRight(accounts: seq<Account>, hold: Reservation) {
    && hold.userCap != Some(hold.keyAccount)
    && hold.keyAccount < |accounts| && accounts[hold.keyAccount].scope == KeyScope
    && (hold.userCap.Some? ==>
          hold.userCap.value < |accounts| && accounts[hold.userCap.value].scope == UserCapScope)
  }

  predicate AllReady(accounts: seq<Account>, ids: seq<nat>) {
    forall i | 0 <= i < |ids| :: ids[i] < |accounts| && AccountReady(accounts[ids[i]])
  }

  /** The smaller of the balances of a Key account and an optional user-cap account. */
  function MinAvailable(ledger: seq<Entry>, keyAccount: nat, userCap: Option<nat>): int {
    var key := Available(ledger, keyAccount);
    if userCap.None? then key
    else
      var cap := Available(ledger, userCap.value);
      if cap < key then cap else key
  }
}
