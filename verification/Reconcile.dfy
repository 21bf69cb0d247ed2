/**
  The bounded, resumable integrity sweep: every reservation is checked in (created_at, id) order, a limited
  number per transaction, and the accounts of a group that fails the check are quarantined.
 */
module Reconcile {
  import opened Sets
  import opened Wrappers
  import opened Model
  import opened Ledger
  import opened EventGroup
  import opened Billing
  import opened Text

  const DEFAULT_BATCH_SIZE := 100
  const MAX_BATCH_SIZE := 500

  datatype Stamp = Stamp(createdAt: int, id: string)

  /**
    What a reservation row is to the sweep: a hold on a Key account, or one of the old single ledger, which is
    only scanned.
   */
  datatype Subject = Held(reservation: nat) | SingleLedger

  datatype Row = Row(stamp: Stamp, subject: Subject)

  /** The database as the sweep sees it: the check reads `db`, and only account modes and audits change. */
  datatype Books = Books(db: Db, rows: seq<Row>, audits: seq<string>, database: int)

  datatype Cursor = Cursor(after: Stamp, through: Stamp, database: int)

  datatype Report = Report(
    scanned: nat, rawRowsRead: nat, processed: nat, invalid: nat, next: Option<Cursor>, complete: bool)

  datatype BatchTx = BatchTx(books: Books, reply: Result<Report, Error>)

  predicate RowIds(rows: seq<Row>, ids: seq<nat>) {
    forall k | 0 <= k < |ids| :: ids[k] < |rows|
  }

  // Order

  predicate Precedes(a: Stamp, b: Stamp) {
    a.createdAt < b.createdAt || (a.createdAt == b.createdAt && Less(a.id, b.id))
  }

  predicate InRange(s: Stamp, after: Option<Stamp>, through: Stamp) {
    (after.None? || Precedes(after.value, s)) && !Precedes(through, s)
  }

  lemma PrecedesTransitive(a: Stamp, b: Stamp, c: Stamp)
    requires Precedes(a, b) && Precedes(b, c)
    ensures Precedes(a, c)
  {
    if a.createdAt == b.createdAt == c.createdAt {
      LessTransitive(a.id, b.id, c.id);
    }
  }

  lemma PrecedesTotal(a: Stamp, b: Stamp)
    ensures a == b || Precedes(a, b) || Precedes(b, a)
    ensures !(Precedes(a, b) && Precedes(b, a)) && !Precedes(a, a)
  {
    LessTotal(a.id, b.id);
    if Less(a.id, a.id) {
      LessAsymmetric(a.id, a.id);
    }
    if Less(a.id, b.id) {
      LessAsymmetric(a.id, b.id);
    }
  }

  /** The first row of the range: ORDER BY created_at_ms, id LIMIT 1. */
  function NextRow(rows: seq<Row>, after: Option<Stamp>, through: Stamp): (r: Option<nat>)
    ensures r.Some? ==> r.value < |rows| && InRange(rows[r.value].stamp, after, through)
    ensures r.Some? ==> forall i | 0 <= i < |rows| && InRange(rows[i].stamp, after, through) ::
                          !Precedes(rows[i].stamp, rows[r.value].stamp)
    ensures r.None? ==> forall i | 0 <= i < |rows| :: !InRange(rows[i].stamp, after, through)
  {
    if rows == [] then None
    else
      var last := |rows| - 1;
      var best := NextRow(rows[..last], after, through);
      assert forall i | 0 <= i < last :: rows[..last][i] == rows[i];
      if !InRange(rows[last].stamp, after, through) then best
      else if best.None? then (PrecedesTotal(rows[last].stamp, rows[last].stamp); Some(last))
      else if Precedes(rows[last].stamp, rows[best.value].stamp) then
        (LastIsFirst(rows, last, best.value, after, through); Some(last))
      else best
  }

  lemma LastIsFirst(rows: seq<Row>, last: nat, best: nat, after: Option<Stamp>, through: Stamp)
    requires best < last == |rows| - 1 && Precedes(rows[last].stamp, rows[best].stamp)
    requires forall i | 0 <= i < last && InRange(rows[i].stamp, after, through) ::
               !Precedes(rows[i].stamp, rows[best].stamp)
    ensures forall i | 0 <= i < |rows| && InRange(rows[i].stamp, after, through) ::
              !Precedes(rows[i].stamp, rows[last].stamp)
  {
    forall i | 0 <= i < |rows| && InRange(rows[i].stamp, after, through)
      ensures !Precedes(rows[i].stamp, rows[last].stamp)
    {
      PrecedesTotal(rows[last].stamp, rows[last].stamp);
      if Precedes(rows[i].stamp, rows[last].stamp) {
        PrecedesTransitive(rows[i].stamp, rows[last].stamp, rows[best].stamp);
      }
    }
  }

  function RowsPending(rows: seq<Row>, after: Option<Stamp>, through: Stamp): set<nat> {
    set i: nat | i < |rows| && InRange(rows[i].stamp, after, through)
  }

  lemma FewerPending(rows: seq<Row>, after: Option<Stamp>, through: Stamp, next: nat)
    requires NextRow(rows, after, through) == Some(next)
    ensures |RowsPending(rows, Some(rows[next].stamp), through)| < |RowsPending(rows, after, through)|
  {
    var fewer, more := RowsPending(rows, Some(rows[next].stamp), through), RowsPending(rows, after, through);
    PrecedesTotal(rows[next].stamp, rows[next].stamp);
    assert next in more && next !in fewer;
    forall i | i in fewer
      ensures i in more
    {
      if after.Some? {
        PrecedesTransitive(after.value, rows[next].stamp, rows[i].stamp);
      }
    }
    ProperSubsetSize(fewer, more);
  }

  /** The rows of the range, in order. A query with LIMIT n returns the first n of them. */
  function Listing(rows: seq<Row>, after: Option<Stamp>, through: Stamp): (s: seq<nat>)
    ensures RowIds(rows, s)
    decreases |RowsPending(rows, after, through)|
  {
    var next := NextRow(rows, after, through);
    if next.None? then []
    else
      FewerPending(rows, after, through, next.value);
      [next.value] + Listing(rows, Some(rows[next.value].stamp), through)
  }

  // The check, and whose accounts it quarantines

  predicate RowProcessed(books: Books, i: nat)
    requires i < |books.rows|
  {
    !books.rows[i].subject.SingleLedger?
  }

  function CountOf(es: seq<Entry>, account: nat, kind: EventKind): nat {
    if es == [] then 0
    else CountOf(es[1..], account, kind) + if es[0].account == account && es[0].kind == kind then 1 else 0
  }

  /** What the check of V1 and plain holds asks of an entry: it is of the current version of its account. */
  predicate PlainEntryValid(accounts: seq<Account>, hold: Reservation, e: Entry) {
    && e.account in AccountsOf(hold) && e.account < |accounts|
    && e.request == Some(hold.request)
    && e.version == accounts[e.account].version
    && match e.kind
       case ReserveEvent => e.amount == hold.amount && e.delta == -hold.amount
       case ReleaseEvent => hold.state == HoldReleased && e.amount == hold.amount && e.delta == hold.amount
       case CommitEvent => hold.state == HoldCommitted && 0 <= e.amount <= hold.amount && e.delta == hold.amount - e.amount
       case AdjustHoldEvent => false
       case GrantEvent => false
  }

  /** The kind of entry that closes the hold, if it is closed. */
  function FinalKind(state: HoldState): Option<EventKind> {
    match state
    case HoldHeld => None
    case HoldUnknown => None
    case HoldReleased => Some(ReleaseEvent)
    case HoldCommitted => Some(CommitEvent)
  }

  predicate EntriesCounted(es: seq<Entry>, hold: Reservation) {
    forall i | 0 <= i < |AccountsOf(hold)| ::
      && CountOf(es, AccountsOf(hold)[i], ReserveEvent) == 1
      && (FinalKind(hold.state).Some? ==> CountOf(es, AccountsOf(hold)[i], FinalKind(hold.state).value) == 1)
  }

  /** validate_quota_event_group for a hold without V2 context. */
  predicate PlainGroupValid(db: Db, id: nat)
    requires id < |db.reservations|
  {
    var hold := db.reservations[id];
    var es := EventsOf(db.ledger, hold.group);
    && ScopesRight(db.accounts, hold)
    && hold.state != HoldUnknown
    && |es| == |AccountsOf(hold)| * (if FinalKind(hold.state).Some? then 2 else 1)
    && (forall x | 0 <= x < |es| :: PlainEntryValid(db.accounts, hold, es[x]))
    && EntriesCounted(es, hold)
  }

  predicate InV2Context(db: Db, id: nat)
    requires id < |db.reservations|
  {
    HasV2Context(db, id, db.reservations[id].request)
  }

  predicate RowSound(books: Books, i: nat)
    requires i < |books.rows|
  {
    match books.rows[i].subject
    case Held(r) =>
      && r < |books.db.reservations|
      && if InV2Context(books.db, r) then GroupValid(books.db, r) else PlainGroupValid(books.db, r)
    case SingleLedger => true
  }

  /** v2_owner_account_ids: the accounts of the reserve entries, and in any case the Key's own account. */
  function HoldOwners(db: Db, id: nat): seq<nat>
    requires id < |db.reservations|
  {
    var r := db.reservations[id];
    if r.request !in db.requests || db.requests[r.request].identity.key !in db.keys then []
    else
      var key := db.requests[r.request].identity.key;
      var user := db.keys[key].user;
      var events := EventsOf(db.ledger, r.group);
      var held := FirstHold(db.accounts, events, KeyScope, user, Some(key));
      var canonical := FindKeyAccount(db.accounts, key, user);
      var keyAccounts :=
        if held != [] then held
        else if canonical.Some? && db.accounts[canonical.value].version > 0 then [canonical.value]
        else [];
      keyAccounts + FirstHold(db.accounts, events, UserCapScope, user, None)
  }

  function NamedAccounts(hold: Reservation): seq<nat> {
    [hold.keyAccount]
      + if hold.userCap.Some? && hold.userCap.value != hold.keyAccount then [hold.userCap.value] else []
  }

  function RowOwners(books: Books, i: nat): seq<nat>
    requires i < |books.rows|
  {
    match books.rows[i].subject
    case Held(r) =>
      if r >= |books.db.reservations| then []
      else if InV2Context(books.db, r) then HoldOwners(books.db, r)
      else NamedAccounts(books.db.reservations[r])
    case SingleLedger => []
  }

  // One reservation

  function Quarantined(accounts: seq<Account>, owners: seq<nat>): seq<Account> {
    seq(|accounts|, i requires 0 <= i < |accounts| =>
      if i in owners then accounts[i].(mode := ReconcileRequired) else accounts[i])
  }

  predicate SomeTransition(accounts: seq<Account>, owners: seq<nat>) {
    exists i | 0 <= i < |owners| :: owners[i] < |accounts| && accounts[owners[i]].mode != ReconcileRequired
  }

  /** Quarantine and audit; nothing else in the database changes. */
  function Inspected(books: Books, i: nat): Books
    requires i < |books.rows|
  {
    if RowSound(books, i) then books
    else
      var owners, id := RowOwners(books, i), books.rows[i].stamp.id;
      books.(
      db := books.db.(accounts := Quarantined(books.db.accounts, owners)),
      audits := if SomeTransition(books.db.accounts, owners) || id !in books.audits
                then books.audits + [id] else books.audits)
  }

  function InspectedAll(books: Books, ids: seq<nat>): (b: Books)
    requires RowIds(books.rows, ids)
    ensures b == books.(db := books.db.(accounts := b.db.accounts), audits := b.audits)
    decreases |ids|
  {
    if ids == [] then books
    else InspectedAll(Inspected(books, ids[0]), ids[1..])
  }

  function Unsound(books: Books, ids: seq<nat>): nat
    requires RowIds(books.rows, ids)
  {
    if ids == [] then 0
    else (if RowSound(books, ids[0]) then 0 else 1) + Unsound(books, ids[1..])
  }

  function Processed(books: Books, ids: seq<nat>): nat
    requires RowIds(books.rows, ids)
  {
    if ids == [] then 0
    else (if RowProcessed(books, ids[0]) then 1 else 0) + Processed(books, ids[1..])
  }

  // One batch

  predicate CursorIdValid(id: string) {
    id != "" && Trim(id) == id && Utf8Length(id) <= 1024 && forall i | 0 <= i < |id| :: !IsControl(id[i])
  }

  predicate CursorShaped(c: Cursor) {
    CursorIdValid(c.after.id) && CursorIdValid(c.through.id) && Precedes(c.after, c.through)
  }

  predicate HasRow(rows: seq<Row>, s: Stamp) {
    exists i | 0 <= i < |rows| :: rows[i].stamp == s
  }

  predicate CursorAccepted(books: Books, c: Cursor) {
    CursorShaped(c) && c.database == books.database && HasRow(books.rows, c.after) && HasRow(books.rows, c.through)
  }

  /** The greatest row of the table: ORDER BY created_at_ms DESC, id DESC LIMIT 1. */
  function Watermark(rows: seq<Row>): (w: Option<Stamp>)
    ensures w.None? <==> rows == []
    ensures w.Some? ==> HasRow(rows, w.value)
  {
    if rows == [] then None
    else
      var last := rows[|rows| - 1].stamp;
      var best := Watermark(rows[..|rows| - 1]);
      assert rows[|rows| - 1].stamp == last;
      assert best.Some? ==> HasRow(rows[..|rows| - 1], best.value) ==> HasRow(rows, best.value);
      if best.Some? && Precedes(last, best.value) then best else Some(last)
  }

  function Through(books: Books, cursor: Option<Cursor>): Option<Stamp> {
    if cursor.Some? then Some(cursor.value.through) else Watermark(books.rows)
  }

  function AfterOf(cursor: Option<Cursor>): Option<Stamp> {
    if cursor.Some? then Some(cursor.value.after) else None
  }

  predicate BatchRefused(books: Books, cursor: Option<Cursor>, limit: int) {
    || limit < 1 || limit > MAX_BATCH_SIZE
    || (cursor.Some? && !CursorAccepted(books, cursor.value))
    || (cursor.None? && books.rows != [] && !CursorIdValid(Watermark(books.rows).value.id))
  }

  /** The rows still to scan when a batch starts at the cursor. */
  function Remaining(books: Books, cursor: Option<Cursor>): (s: seq<nat>)
    ensures RowIds(books.rows, s)
  {
    var through := Through(books, cursor);
    if through.None? then [] else Listing(books.rows, AfterOf(cursor), through.value)
  }

  function Scanned(books: Books, cursor: Option<Cursor>, limit: int): (s: seq<nat>)
    ensures RowIds(books.rows, s)
  {
    var listing := Remaining(books, cursor);
    if 0 <= limit < |listing| then listing[..limit] else listing
  }

  function NextCursor(books: Books, cursor: Option<Cursor>, limit: int): Option<Cursor> {
    var listing, through := Remaining(books, cursor), Through(books, cursor);
    if 0 < limit < |listing|
    then Some(Cursor(books.rows[listing[limit - 1]].stamp, through.value, books.database))
    else None
  }

  function Batch(books: Books, cursor: Option<Cursor>, limit: int): BatchTx {
    if BatchRefused(books, cursor, limit) then BatchTx(books, Err(InvalidConfiguration))
    else
      var ids, next := Scanned(books, cursor, limit), NextCursor(books, cursor, limit);
      if next.Some? && !CursorIdValid(next.value.after.id) then BatchTx(books, Err(InvalidConfiguration))
      else
        BatchTx(
          InspectedAll(books, ids),
          Ok(Report(|ids|, |ids| + if next.Some? then 1 else 0, Processed(books, ids), Unsound(books, ids),
                    next, next.None?)))
  }

  // Quarantining decides nothing: neither the check nor the accounts it names depend on an account's mode

  predicate ModesApart(a: seq<Account>, b: seq<Account>) {
    |a| == |b| && forall i | 0 <= i < |a| :: b[i] == a[i].(mode := b[i].mode)
  }

  predicate SameBooks(books: Books, books': Books) {
    && books' == books.(db := books.db.(accounts := books'.db.accounts), audits := books'.audits)
    && ModesApart(books.db.accounts, books'.db.accounts)
  }

  lemma {:induction false} FirstHoldIgnoresModes(
    a: seq<Account>, b: seq<Account>, events: seq<Entry>, scope: Scope, user: Id, key: Option<Id>)
    requires ModesApart(a, b)
    ensures FirstHold(a, events, scope, user, key) == FirstHold(b, events, scope, user, key)
  {
    if events != [] {
      FirstHoldIgnoresModes(a, b, events[1..], scope, user, key);
    }
  }

  lemma {:induction false} FindIgnoresModes(a: seq<Account>, b: seq<Account>, key: Id, user: Id, from: nat)
    requires ModesApart(a, b) && from <= |a|
    ensures FindKeyAccount(a, key, user, from) == FindKeyAccount(b, key, user, from)
    decreases |a| - from
  {
    if from < |a| {
      FindIgnoresModes(a, b, key, user, from + 1);
    }
  }

  lemma ViewIgnoresModes(a: seq<Account>, b: seq<Account>, v: GroupView)
    requires ModesApart(a, b)
    ensures ViewValid(a, v) == ViewValid(b, v)
  {
    hide OwnersAgree, RevisionRowValid, ProofValid, KindValid, LifecycleValid, SettlementValid, EvidenceValid, SlotFilled,
         VersionsFollow, Slot, SlotCount, SlotAmount, SlotDelta, FirstHold;
    FirstHoldIgnoresModes(a, b, v.events, KeyScope, v.identity.user, Some(v.step.auth.key));
    FirstHoldIgnoresModes(a, b, v.events, UserCapScope, v.identity.user, None);
    if |v.history| > 0 {
      forall x | 0 <= x < |v.events|
        ensures EventFits(a, v, v.events[x]) == EventFits(b, v, v.events[x])
      {
      }
    }
  }

  lemma RowIgnoresModes(books: Books, books': Books, i: nat)
    requires i < |books.rows| && SameBooks(books, books')
    ensures RowSound(books', i) == RowSound(books, i)
    ensures RowOwners(books', i) == RowOwners(books, i)
  {
    hide ViewValid, FirstHold, PlainGroupValid, InV2Context;
    var db, db' := books.db, books'.db;
    match books.rows[i].subject
    case Held(r) =>
      if r < |db.reservations| {
        PlainIgnoresModes(db, db', r);
        ContextIgnoresModes(db, db', r);
        var view := ViewOf(db, r);
        if view.Some? {
          ViewIgnoresModes(db.accounts, db'.accounts, view.value);
        }
        OwnersIgnoreModes(db, db', r);
      }
    case SingleLedger =>
  }

  lemma ContextIgnoresModes(db: Db, db': Db, id: nat)
    requires id < |db.reservations| && db' == db.(accounts := db'.accounts)
    ensures InV2Context(db', id) == InV2Context(db, id)
  {
  }

  lemma PlainIgnoresModes(db: Db, db': Db, id: nat)
    requires id < |db.reservations| && db' == db.(accounts := db'.accounts) && ModesApart(db.accounts, db'.accounts)
    ensures PlainGroupValid(db', id) == PlainGroupValid(db, id)
  {
    hide EventsOf, EntriesCounted;
    var hold := db.reservations[id];
    var es := EventsOf(db.ledger, hold.group);
    forall x | 0 <= x < |es|
      ensures PlainEntryValid(db'.accounts, hold, es[x]) == PlainEntryValid(db.accounts, hold, es[x])
    {
    }
  }

  lemma OwnersIgnoreModes(db: Db, db': Db, id: nat)
    requires id < |db.reservations| && db' == db.(accounts := db'.accounts) && ModesApart(db.accounts, db'.accounts)
    ensures HoldOwners(db', id) == HoldOwners(db, id)
  {
    hide FirstHold, EventsOf;
    var r := db.reservations[id];
    if r.request in db.requests && db.requests[r.request].identity.key in db.keys {
      var key := db.requests[r.request].identity.key;
      var user := db.keys[key].user;
      var events := EventsOf(db.ledger, r.group);
      FirstHoldIgnoresModes(db.accounts, db'.accounts, events, KeyScope, user, Some(key));
      FirstHoldIgnoresModes(db.accounts, db'.accounts, events, UserCapScope, user, None);
      FindIgnoresModes(db.accounts, db'.accounts, key, user, 0);
    }
  }

  lemma InspectedSame(books: Books, i: nat)
    requires i < |books.rows|
    ensures SameBooks(books, Inspected(books, i))
  {
    hide RowSound, RowOwners;
  }

  lemma {:induction false} UnsoundSame(books: Books, books': Books, ids: seq<nat>)
    requires RowIds(books.rows, ids) && SameBooks(books, books')
    ensures Unsound(books', ids) == Unsound(books, ids)
  {
    hide RowSound, ModesApart;
    if ids != [] {
      RowIgnoresModes(books, books', ids[0]);
      UnsoundSame(books, books', ids[1..]);
    }
  }

  // The listing, taken apart

  lemma {:induction false} ListingSuffix(rows: seq<Row>, after: Option<Stamp>, through: Stamp, k: nat)
    requires 0 < k <= |Listing(rows, after, through)|
    ensures Listing(rows, after, through)[k - 1] < |rows|
    ensures Listing(rows, Some(rows[Listing(rows, after, through)[k - 1]].stamp), through)
            == Listing(rows, after, through)[k..]
    decreases k
  {
    if k > 1 {
      var next := NextRow(rows, after, through).value;
      ListingSuffix(rows, Some(rows[next].stamp), through, k - 1);
    }
  }
}
