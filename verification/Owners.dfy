/**
  What the sweep demands of a hold that no step owns, and whose accounts it quarantines, read off the entries of the group
  and the accounts of its Key.
 */
module Owners {
  import opened Wrappers
  import opened Model
  import opened Ledger
  import opened EventGroup
  import opened Reconcile
  import opened Sweep

  /** The entry reserves credits on an account of this scope and owner that has been written to. */
  predicate ReservesOn(accounts: seq<Account>, e: Entry, scope: Scope, user: Id, key: Option<Id>) {
    && e.kind == ReserveEvent && e.account < |accounts| && accounts[e.account].version > 0
    && accounts[e.account].scope == scope && accounts[e.account].user == user && accounts[e.account].key == key
  }

  /** The account that the first such entry among these names. */
  predicate FirstReserved(
    accounts: seq<Account>, events: seq<Entry>, scope: Scope, user: Id, key: Option<Id>, account: nat)
  {
    exists x | 0 <= x < |events| ::
      && events[x].account == account && ReservesOn(accounts, events[x], scope, user, key)
      && forall y | 0 <= y < x :: !ReservesOn(accounts, events[y], scope, user, key)
  }

  predicate NoneReserved(accounts: seq<Account>, events: seq<Entry>, scope: Scope, user: Id, key: Option<Id>) {
    forall x | 0 <= x < |events| :: !ReservesOn(accounts, events[x], scope, user, key)
  }

  /** The first account of the Key and its owner, if it has been written to. */
  predicate KeysOwn(accounts: seq<Account>, key: Id, user: Id, account: nat) {
    && account < |accounts| && accounts[account].version > 0
    && accounts[account].scope == KeyScope && accounts[account].user == user && accounts[account].key == Some(key)
    && forall i | 0 <= i < account ::
         accounts[i].scope == KeyScope && accounts[i].user == user ==> accounts[i].key != Some(key)
  }

  /**
    The accounts that a failing hold is charged to. In V2 context they are those its reserve entries name for the owner of
    the request's Key, and the Key's own account if they name none; the reservation's own pointers are not trusted there.
   */
  predicate Owns(db: Db, id: nat, account: nat)
    requires id < |db.reservations|
  {
    var hold := db.reservations[id];
    if InV2Context(db, id) then
      && hold.request in db.requests && db.requests[hold.request].identity.key in db.keys
      && var key := db.requests[hold.request].identity.key;
         var user, events := db.keys[key].user, EventsOf(db.ledger, hold.group);
         || FirstReserved(db.accounts, events, KeyScope, user, Some(key), account)
         || (NoneReserved(db.accounts, events, KeyScope, user, Some(key)) && KeysOwn(db.accounts, key, user, account))
         || FirstReserved(db.accounts, events, UserCapScope, user, None, account)
    else hold.keyAccount == account || hold.userCap == Some(account)
  }

  predicate RowOwnedBy(books: Books, i: nat, account: nat)
    requires i < |books.rows|
  {
    match books.rows[i].subject
    case Held(id) => id < |books.db.reservations| && Owns(books.db, id, account)
    case SingleLedger => false
  }

  lemma FirstIsLater(accounts: seq<Account>, events: seq<Entry>, scope: Scope, user: Id, key: Option<Id>, account: nat)
    requires events != [] && !ReservesOn(accounts, events[0], scope, user, key)
    ensures FirstReserved(accounts, events, scope, user, key, account)
            <==> FirstReserved(accounts, events[1..], scope, user, key, account)
  {
    hide ReservesOn;
    var rest := events[1..];
    if FirstReserved(accounts, rest, scope, user, key, account) {
      var x :| 0 <= x < |rest| && rest[x].account == account && ReservesOn(accounts, rest[x], scope, user, key)
               && forall y | 0 <= y < x :: !ReservesOn(accounts, rest[y], scope, user, key);
      forall y | 0 <= y < x + 1
        ensures !ReservesOn(accounts, events[y], scope, user, key)
      {
        assert y > 0 ==> events[y] == rest[y - 1];
      }
      assert events[x + 1] == rest[x];
    }
    if FirstReserved(accounts, events, scope, user, key, account) {
      var x :| 0 <= x < |events| && events[x].account == account && ReservesOn(accounts, events[x], scope, user, key)
               && forall y | 0 <= y < x :: !ReservesOn(accounts, events[y], scope, user, key);
      assert rest[x - 1] == events[x];
      forall y | 0 <= y < x - 1
        ensures !ReservesOn(accounts, rest[y], scope, user, key)
      {
        assert rest[y] == events[y + 1];
      }
    }
  }

  lemma {:induction false} FirstHoldNames(
    accounts: seq<Account>, events: seq<Entry>, scope: Scope, user: Id, key: Option<Id>, account: nat)
    ensures account in FirstHold(accounts, events, scope, user, key)
            <==> FirstReserved(accounts, events, scope, user, key, account)
    ensures FirstHold(accounts, events, scope, user, key) == [] <==> NoneReserved(accounts, events, scope, user, key)
  {
    if events != [] {
      FirstHoldNames(accounts, events[1..], scope, user, key, account);
      assert HoldCandidate(accounts, events[0], scope, user, key) == ReservesOn(accounts, events[0], scope, user, key);
      if !ReservesOn(accounts, events[0], scope, user, key) {
        FirstIsLater(accounts, events, scope, user, key, account);
      }
    }
  }

  lemma CanonicalIs(accounts: seq<Account>, key: Id, user: Id, account: nat)
    ensures var found := FindKeyAccount(accounts, key, user);
            (found == Some(account) && accounts[account].version > 0) <==> KeysOwn(accounts, key, user, account)
  {
    var found := FindKeyAccount(accounts, key, user);
    if KeysOwn(accounts, key, user, account) {
      assert IsKeyAccount(accounts[account], key, user);
    }
  }

  lemma OwnersAre(books: Books, i: nat, account: nat)
    requires i < |books.rows|
    ensures account in RowOwners(books, i) <==> RowOwnedBy(books, i, account)
  {
    hide FirstHold, FirstReserved, NoneReserved, KeysOwn, InV2Context, EventsOf;
    match books.rows[i].subject
    case SingleLedger =>
    case Held(id) =>
      var db := books.db;
      if id < |db.reservations| && InV2Context(db, id) {
        var hold := db.reservations[id];
        if hold.request in db.requests && db.requests[hold.request].identity.key in db.keys {
          var key := db.requests[hold.request].identity.key;
          var user, events := db.keys[key].user, EventsOf(db.ledger, hold.group);
          FirstHoldNames(db.accounts, events, KeyScope, user, Some(key), account);
          FirstHoldNames(db.accounts, events, UserCapScope, user, None, account);
          CanonicalIs(db.accounts, key, user, account);
        }
      }
  }

  /** A pass marks exactly the accounts that own an unsound row of it, and changes nothing else about any account. */
  lemma PassQuarantines(books: Books, ids: seq<nat>, account: nat)
    requires RowIds(books.rows, ids) && account < |books.db.accounts|
    ensures var after := InspectedAll(books, ids).db.accounts;
            && |after| == |books.db.accounts|
            && after[account]
               == books.db.accounts[account].(
                  mode := if exists k | 0 <= k < |ids| :: !RowSound(books, ids[k]) && RowOwnedBy(books, ids[k], account)
                          then ReconcileRequired else books.db.accounts[account].mode)
  {
    hide RowSound, RowOwners, RowOwnedBy, InspectedAll;
    PassEffect(books, ids);
    forall k | 0 <= k < |ids|
      ensures account in RowOwners(books, ids[k]) <==> RowOwnedBy(books, ids[k], account)
    {
      OwnersAre(books, ids[k], account);
    }
  }

  // The check of V1 and plain holds

  /** Exactly one entry of the kind is on the account. */
  ghost predicate OneEntry(es: seq<Entry>, account: nat, kind: EventKind) {
    && (exists x :: 0 <= x < |es| && es[x].account == account && es[x].kind == kind)
    && forall x, y | 0 <= x < y < |es| && es[x].account == account && es[x].kind == kind ::
         !(es[y].account == account && es[y].kind == kind)
  }

  /** The entry takes the hold, or closes it as its state says, under the version its account still has. */
  predicate PlainEntry(accounts: seq<Account>, hold: Reservation, e: Entry) {
    && (e.account == hold.keyAccount || Some(e.account) == hold.userCap)
    && e.request == Some(hold.request) && e.account < |accounts| && e.version == accounts[e.account].version
    && match e.kind
       case ReserveEvent => e.amount == hold.amount && e.delta == -hold.amount
       case ReleaseEvent => hold.state == HoldReleased && e.amount == hold.amount && e.delta == hold.amount
       case CommitEvent =>
         hold.state == HoldCommitted && 0 <= e.amount <= hold.amount && e.amount + e.delta == hold.amount
       case AdjustHoldEvent | GrantEvent => false
  }

  /** On each account of the hold there is one entry that takes it and, once it is closed, one that closes it. */
  ghost predicate PlainRows(db: Db, id: nat)
    requires id < |db.reservations|
  {
    var hold, accounts := db.reservations[id], db.accounts;
    var es := EventsOf(db.ledger, hold.group);
    && hold.state in {HoldHeld, HoldReleased, HoldCommitted}
    && hold.userCap != Some(hold.keyAccount)
    && hold.keyAccount < |accounts| && accounts[hold.keyAccount].scope == KeyScope
    && (hold.userCap.Some? ==> hold.userCap.value < |accounts| && accounts[hold.userCap.value].scope == UserCapScope)
    && |es| == (if hold.userCap.Some? then 2 else 1) * (if hold.state == HoldHeld then 1 else 2)
    && (forall x | 0 <= x < |es| :: PlainEntry(accounts, hold, es[x]))
    && forall account: nat | account == hold.keyAccount || Some(account) == hold.userCap ::
         && OneEntry(es, account, ReserveEvent)
         && (hold.state == HoldReleased ==> OneEntry(es, account, ReleaseEvent))
         && (hold.state == HoldCommitted ==> OneEntry(es, account, CommitEvent))
  }

  lemma {:induction false} CountIsPositive(es: seq<Entry>, account: nat, kind: EventKind)
    ensures CountOf(es, account, kind) > 0 <==> exists x :: 0 <= x < |es| && es[x].account == account && es[x].kind == kind
  {
    if es != [] {
      CountIsPositive(es[1..], account, kind);
      assert forall x | 0 <= x < |es[1..]| :: es[1..][x] == es[x + 1];
      if x :| 0 < x < |es| && es[x].account == account && es[x].kind == kind {
        assert es[1..][x - 1].account == account;
      }
    }
  }

  lemma {:induction false} CountIsOne(es: seq<Entry>, account: nat, kind: EventKind)
    ensures CountOf(es, account, kind) == 1 <==> OneEntry(es, account, kind)
  {
    CountIsPositive(es, account, kind);
    if es != [] {
      var rest := es[1..];
      CountIsPositive(rest, account, kind);
      CountIsOne(rest, account, kind);
      assert forall x | 0 <= x < |rest| :: rest[x] == es[x + 1];
      if OneEntry(es, account, kind) {
        OneOfTail(es, account, kind);
      }
      if CountOf(es, account, kind) == 1 {
        OneOfWhole(es, account, kind);
      }
    }
  }

  lemma OneOfTail(es: seq<Entry>, account: nat, kind: EventKind)
    requires es != [] && OneEntry(es, account, kind)
    ensures if es[0].account == account && es[0].kind == kind
            then !(exists x :: 0 <= x < |es[1..]| && es[1..][x].account == account && es[1..][x].kind == kind)
            else OneEntry(es[1..], account, kind)
  {
    var rest := es[1..];
    assert forall x | 0 <= x < |rest| :: rest[x] == es[x + 1];
    var x :| 0 <= x < |es| && es[x].account == account && es[x].kind == kind;
    if x > 0 {
      assert rest[x - 1] == es[x];
    }
  }

  lemma OneOfWhole(es: seq<Entry>, account: nat, kind: EventKind)
    requires es != []
    requires if es[0].account == account && es[0].kind == kind
             then !(exists x :: 0 <= x < |es[1..]| && es[1..][x].account == account && es[1..][x].kind == kind)
             else OneEntry(es[1..], account, kind)
    ensures OneEntry(es, account, kind)
  {
    var rest := es[1..];
    assert forall x | 1 <= x < |es| :: es[x] == rest[x - 1];
    if !(es[0].account == account && es[0].kind == kind) {
      var x :| 0 <= x < |rest| && rest[x].account == account && rest[x].kind == kind;
      assert es[x + 1] == rest[x];
    }
  }

  /** The check accepts a hold outside V2 context exactly when its rows are those. */
  lemma PlainDemands(db: Db, id: nat)
    requires id < |db.reservations|
    ensures PlainGroupValid(db, id) <==> PlainRows(db, id)
  {
    hide CountOf, OneEntry, EventsOf;
    var hold := db.reservations[id];
    var es, ids := EventsOf(db.ledger, hold.group), AccountsOf(hold);
    forall account: nat, kind
      ensures CountOf(es, account, kind) == 1 <==> OneEntry(es, account, kind)
    {
      CountIsOne(es, account, kind);
    }
    assert ids[0] == hold.keyAccount;
    if hold.userCap.Some? {
      assert ids[1] == hold.userCap.value;
    }
    forall x | 0 <= x < |es|
      ensures PlainEntryValid(db.accounts, hold, es[x]) <==> PlainEntry(db.accounts, hold, es[x])
    {
    }
    hide PlainEntryValid, PlainEntry;
  }
}
