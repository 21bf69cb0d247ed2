/**
  What a whole sweep does. However the work is cut into batches, over an unchanged table the batches together
  check every reservation exactly once, and leave what a single pass over the ordered table leaves.
 */
module Sweep {
  import opened Wrappers
  import opened Model
  import opened EventGroup
  import opened Runs
  import opened Integrity
  import opened Reconcile
  import opened Text

  /** Reservation ids are the primary key and well formed. */
  predicate TableSound(rows: seq<Row>) {
    && (forall i | 0 <= i < |rows| :: CursorIdValid(rows[i].stamp.id))
    && (forall i, j | 0 <= i < j < |rows| :: rows[i].stamp.id != rows[j].stamp.id)
  }

  predicate LimitsValid(limits: seq<int>) {
    forall i | 0 <= i < |limits| :: 1 <= limits[i] <= MAX_BATCH_SIZE
  }

  predicate Resumable(books: Books, cursor: Option<Cursor>) {
    cursor.Some? ==> CursorAccepted(books, cursor.value)
  }

  datatype Outcome = Outcome(books: Books, scanned: seq<nat>, invalid: nat, next: Option<Cursor>, complete: bool)

  /** Batches with the given limits, each resuming where the one before stopped. None when one is refused. */
  function Batches(books: Books, cursor: Option<Cursor>, limits: seq<int>): Option<Outcome>
    decreases |limits|
  {
    if limits == [] then Some(Outcome(books, [], 0, cursor, false))
    else
      var batch := Batch(books, cursor, limits[0]);
      if batch.reply.Err? then None
      else
        var report, ids := batch.reply.value, Scanned(books, cursor, limits[0]);
        if report.complete then Some(Outcome(batch.books, ids, report.invalid, None, true))
        else
          var rest := Batches(batch.books, report.next, limits[1..]);
          if rest.None? then None
          else Some(rest.value.(scanned := ids + rest.value.scanned, invalid := report.invalid + rest.value.invalid))
  }

  // Single steps

  lemma {:induction false} InspectedAllSame(books: Books, ids: seq<nat>)
    requires RowIds(books.rows, ids)
    ensures SameBooks(books, InspectedAll(books, ids))
    decreases |ids|
  {
    hide Inspected;
    if ids != [] {
      InspectedSame(books, ids[0]);
      InspectedAllSame(Inspected(books, ids[0]), ids[1..]);
    }
  }

  lemma {:induction false} InspectedAllAppend(books: Books, a: seq<nat>, b: seq<nat>)
    requires RowIds(books.rows, a) && RowIds(books.rows, b)
    ensures RowIds(books.rows, a + b)
    ensures InspectedAll(books, a + b) == InspectedAll(InspectedAll(books, a), b)
    decreases |a|
  {
    hide Inspected;
    if a == [] {
      assert a + b == b;
    } else {
      assert (a + b)[1..] == a[1..] + b;
      InspectedSame(books, a[0]);
      InspectedAllAppend(Inspected(books, a[0]), a[1..], b);
    }
  }

  lemma {:induction false} UnsoundAppend(books: Books, a: seq<nat>, b: seq<nat>)
    requires RowIds(books.rows, a) && RowIds(books.rows, b)
    ensures RowIds(books.rows, a + b)
    ensures Unsound(books, a + b) == Unsound(books, a) + Unsound(books, b)
    decreases |a|
  {
    hide RowSound;
    if a == [] {
      assert a + b == b;
    } else {
      assert (a + b)[1..] == a[1..] + b;
      UnsoundAppend(books, a[1..], b);
    }
  }

  lemma HeadInRange(rows: seq<Row>, after: Option<Stamp>, through: Stamp)
    requires Listing(rows, after, through) != []
    ensures Listing(rows, after, through)[0] < |rows|
    ensures InRange(rows[Listing(rows, after, through)[0]].stamp, after, through)
  {
  }

  /** The cursor a batch hands out lies strictly before the watermark, so the next batch accepts it. */
  lemma NextCursorAccepted(books: Books, cursor: Option<Cursor>, limit: int)
    requires TableSound(books.rows) && Resumable(books, cursor) && 1 <= limit <= MAX_BATCH_SIZE
    ensures !BatchRefused(books, cursor, limit)
    ensures NextCursor(books, cursor, limit).Some? ==>
              CursorAccepted(books, NextCursor(books, cursor, limit).value)
  {
    hide CursorIdValid, Listing;
    var rows, listing := books.rows, Remaining(books, cursor);
    if 0 < limit < |listing| {
      var through := Through(books, cursor).value;
      ListingSuffix(rows, AfterOf(cursor), through, limit);
      var last := rows[listing[limit - 1]].stamp;
      assert Listing(rows, Some(last), through) == listing[limit..];
      HeadInRange(rows, Some(last), through);
      var first := rows[listing[limit]].stamp;
      PrecedesTotal(first, through);
      if Precedes(first, through) {
        PrecedesTransitive(last, first, through);
      }
    }
  }

  /** What is left after a batch is what the batch left of the listing. */
  lemma RemainingAfter(books: Books, cursor: Option<Cursor>, limit: int, books': Books)
    requires SameBooks(books, books') && NextCursor(books, cursor, limit).Some?
    ensures 0 < limit < |Remaining(books, cursor)|
    ensures Remaining(books', NextCursor(books, cursor, limit)) == Remaining(books, cursor)[limit..]
  {
    hide Listing;
    ListingSuffix(books.rows, AfterOf(cursor), Through(books, cursor).value, limit);
  }

  /** One batch: never refused, its rows the first of those remaining, its effect theirs. */
  lemma BatchStep(books: Books, cursor: Option<Cursor>, limit: int)
    requires TableSound(books.rows) && Resumable(books, cursor) && 1 <= limit <= MAX_BATCH_SIZE
    ensures var batch, ids := Batch(books, cursor, limit), Scanned(books, cursor, limit);
            && batch.reply.Ok?
            && batch.reply.value.next == NextCursor(books, cursor, limit)
            && batch.reply.value.complete == batch.reply.value.next.None?
            && batch.reply.value.invalid == Unsound(books, ids)
            && batch.books == InspectedAll(books, ids)
            && SameBooks(books, batch.books)
            && Resumable(batch.books, batch.reply.value.next)
  {
    hide CursorIdValid, Remaining, InspectedAll, Unsound, Processed, BatchRefused, NextCursor;
    NextCursorAccepted(books, cursor, limit);
    InspectedAllSame(books, Scanned(books, cursor, limit));
  }

  /** Where the batch cuts the listing. */
  lemma BatchCut(books: Books, cursor: Option<Cursor>, limit: int, books': Books)
    requires limit >= 1 && SameBooks(books, books')
    ensures var all, ids, next := Remaining(books, cursor), Scanned(books, cursor, limit), NextCursor(books, cursor, limit);
            && (next.None? ==> ids == all)
            && (next.Some? ==> |ids| == limit && all == ids + Remaining(books', next))
  {
    hide Remaining;
    if NextCursor(books, cursor, limit).Some? {
      RemainingAfter(books, cursor, limit, books');
    }
  }

  // The refinement

  /** An outcome is a single pass over the first rows of the listing, over all of them when it says complete. */
  predicate OnePass(books: Books, all: seq<nat>, o: Outcome) {
    && o.scanned <= all
    && RowIds(books.rows, o.scanned)
    && o.books == InspectedAll(books, o.scanned)
    && o.invalid == Unsound(books, o.scanned)
    && (o.complete ==> o.scanned == all)
  }

  lemma JoinPasses(books: Books, ids: seq<nat>, middle: Books, left: seq<nat>, rest: Outcome)
    requires RowIds(books.rows, ids) && middle == InspectedAll(books, ids) && SameBooks(books, middle)
    requires OnePass(middle, left, rest)
    ensures OnePass(books, ids + left,
                    rest.(scanned := ids + rest.scanned, invalid := Unsound(books, ids) + rest.invalid))
  {
    hide InspectedAll, Unsound, ModesApart;
    InspectedAllAppend(books, ids, rest.scanned);
    UnsoundAppend(books, ids, rest.scanned);
    UnsoundSame(books, middle, rest.scanned);
  }

  lemma NothingPassed(books: Books, cursor: Option<Cursor>)
    ensures OnePass(books, Remaining(books, cursor), Outcome(books, [], 0, cursor, false))
  {
    hide Remaining;
  }

  /** However a sweep is cut into batches, none is refused and together they are one pass. */
  lemma {:induction false} BatchesAreOnePass(books: Books, cursor: Option<Cursor>, limits: seq<int>)
    requires TableSound(books.rows) && Resumable(books, cursor) && LimitsValid(limits)
    ensures Batches(books, cursor, limits).Some?
    ensures var o := Batches(books, cursor, limits).value;
            && OnePass(books, Remaining(books, cursor), o)
            && (!o.complete ==> |o.scanned| >= |limits| && Resumable(o.books, o.next))
    decreases |limits|
  {
    hide Remaining, InspectedAll, Unsound, Batch, Scanned, NextCursor, ModesApart, Resumable, TableSound;
    if limits == [] {
      NothingPassed(books, cursor);
    } else {
      BatchStep(books, cursor, limits[0]);
      var batch, ids := Batch(books, cursor, limits[0]), Scanned(books, cursor, limits[0]);
      BatchCut(books, cursor, limits[0], batch.books);
      if !batch.reply.value.complete {
        var next := batch.reply.value.next;
        BatchesAreOnePass(batch.books, next, limits[1..]);
        JoinPasses(books, ids, batch.books, Remaining(batch.books, next), Batches(batch.books, next, limits[1..]).value);
      }
    }
  }

  /** The listing of a whole table. */
  function Whole(books: Books): (s: seq<nat>)
    ensures RowIds(books.rows, s)
  {
    Remaining(books, None)
  }

  lemma {:induction false} ListingComplete(rows: seq<Row>, after: Option<Stamp>, through: Stamp, i: nat)
    requires TableSound(rows) && i < |rows|
    ensures multiset(Listing(rows, after, through))[i] == if InRange(rows[i].stamp, after, through) then 1 else 0
    decreases |RowsPending(rows, after, through)|
  {
    hide CursorIdValid;
    var next := NextRow(rows, after, through);
    if next.Some? {
      FewerPending(rows, after, through, next.value);
      var here, rest := rows[next.value].stamp, Listing(rows, Some(rows[next.value].stamp), through);
      ListingComplete(rows, Some(here), through, i);
      assert multiset(Listing(rows, after, through)) == multiset{next.value} + multiset(rest);
      PrecedesTotal(rows[i].stamp, here);
      if after.Some? && Precedes(here, rows[i].stamp) {
        PrecedesTransitive(after.value, here, rows[i].stamp);
      }
    }
  }

  lemma {:induction false} WatermarkGreatest(rows: seq<Row>, i: nat)
    requires i < |rows|
    ensures !Precedes(Watermark(rows).value, rows[i].stamp)
  {
    var last, front := rows[|rows| - 1].stamp, rows[..|rows| - 1];
    PrecedesTotal(last, last);
    if front != [] {
      var best := Watermark(front).value;
      PrecedesTotal(last, best);
      if i < |front| {
        WatermarkGreatest(front, i);
        assert front[i] == rows[i];
        if Precedes(best, last) && Precedes(last, rows[i].stamp) {
          PrecedesTransitive(best, last, rows[i].stamp);
        }
      }
    }
  }

  /** A whole sweep scans every row exactly once. */
  lemma WholeIsEveryRow(books: Books)
    requires TableSound(books.rows)
    ensures forall i: nat | i < |books.rows| :: multiset(Whole(books))[i] == 1
    ensures |Whole(books)| == |books.rows|
  {
    hide TableSound, Listing, Watermark;
    forall i: nat | i < |books.rows|
      ensures multiset(Whole(books))[i] == 1
    {
      WatermarkGreatest(books.rows, i);
      ListingComplete(books.rows, None, Watermark(books.rows).value, i);
    }
    CountRows(multiset(Whole(books)), |books.rows|);
  }

  lemma {:induction false} CountRows(ids: multiset<nat>, n: nat)
    requires forall i: nat :: ids[i] == if i < n then 1 else 0
    ensures |ids| == n
  {
    if n == 0 {
      assert ids == multiset{};
    } else {
      CountRows(ids[n - 1 := 0], n - 1);
    }
  }

  /** Any limits do, and as many batches as there are rows always suffice. */
  lemma SweepTerminates(books: Books, limits: seq<int>)
    requires TableSound(books.rows) && LimitsValid(limits) && |limits| > |books.rows|
    ensures Batches(books, None, limits).Some?
    ensures var o := Batches(books, None, limits).value;
            o.complete && o.books == InspectedAll(books, Whole(books)) && o.invalid == Unsound(books, Whole(books))
  {
    hide Remaining, InspectedAll, Unsound, Batches, TableSound;
    BatchesAreOnePass(books, None, limits);
    WholeIsEveryRow(books);
  }

  // What one pass leaves

  predicate Condemned(books: Books, ids: seq<nat>, account: nat)
    requires RowIds(books.rows, ids)
  {
    exists k | 0 <= k < |ids| :: !RowSound(books, ids[k]) && account in RowOwners(books, ids[k])
  }

  predicate Reported(books: Books, ids: seq<nat>, id: string)
    requires RowIds(books.rows, ids)
  {
    exists k | 0 <= k < |ids| :: !RowSound(books, ids[k]) && books.rows[ids[k]].stamp.id == id
  }

  /** Exactly the owners of unsound rows are quarantined, and exactly the unsound rows are audited. */
  lemma {:induction false} PassEffect(books: Books, ids: seq<nat>)
    requires RowIds(books.rows, ids)
    ensures var after := InspectedAll(books, ids);
            && |after.db.accounts| == |books.db.accounts|
            && (forall a | 0 <= a < |books.db.accounts| ::
                  after.db.accounts[a]
                  == books.db.accounts[a].(mode := if Condemned(books, ids, a) then ReconcileRequired
                                                   else books.db.accounts[a].mode))
            && (forall id :: id in after.audits <==> id in books.audits || Reported(books, ids, id))
    decreases |ids|
  {
    hide RowSound, RowOwners;
    if ids != [] {
      var first, rest := Inspected(books, ids[0]), ids[1..];
      InspectedSame(books, ids[0]);
      PassEffect(first, rest);
      forall k | 0 <= k < |rest|
        ensures RowSound(first, rest[k]) == RowSound(books, ids[k + 1])
        ensures RowOwners(first, rest[k]) == RowOwners(books, ids[k + 1])
      {
        RowIgnoresModes(books, first, rest[k]);
      }
      forall a: nat
        ensures Condemned(books, ids, a)
                <==> (!RowSound(books, ids[0]) && a in RowOwners(books, ids[0])) || Condemned(first, rest, a)
      {
        CondemnedSplit(books, first, ids, a);
      }
      forall id
        ensures Reported(books, ids, id)
                <==> (!RowSound(books, ids[0]) && books.rows[ids[0]].stamp.id == id) || Reported(first, rest, id)
      {
        ReportedSplit(books, first, ids, id);
      }
    }
  }

  lemma CondemnedSplit(books: Books, first: Books, ids: seq<nat>, a: nat)
    requires ids != [] && RowIds(books.rows, ids) && SameBooks(books, first)
    ensures Condemned(books, ids, a)
            <==> (!RowSound(books, ids[0]) && a in RowOwners(books, ids[0])) || Condemned(first, ids[1..], a)
  {
    hide RowSound, RowOwners, ModesApart;
    forall k | 0 <= k < |ids| - 1
      ensures RowSound(first, ids[1..][k]) == RowSound(books, ids[k + 1])
      ensures RowOwners(first, ids[1..][k]) == RowOwners(books, ids[k + 1])
    {
      RowIgnoresModes(books, first, ids[k + 1]);
    }
    if Condemned(books, ids, a) {
      var k :| 0 <= k < |ids| && !RowSound(books, ids[k]) && a in RowOwners(books, ids[k]);
      assert k > 0 ==> ids[1..][k - 1] == ids[k];
    }
  }

  lemma ReportedSplit(books: Books, first: Books, ids: seq<nat>, id: string)
    requires ids != [] && RowIds(books.rows, ids) && SameBooks(books, first)
    ensures Reported(books, ids, id)
            <==> (!RowSound(books, ids[0]) && books.rows[ids[0]].stamp.id == id) || Reported(first, ids[1..], id)
  {
    hide RowSound, RowOwners, ModesApart;
    forall k | 0 <= k < |ids| - 1
      ensures RowSound(first, ids[1..][k]) == RowSound(books, ids[k + 1])
    {
      RowIgnoresModes(books, first, ids[k + 1]);
    }
    if Reported(books, ids, id) {
      var k :| 0 <= k < |ids| && !RowSound(books, ids[k]) && books.rows[ids[k]].stamp.id == id;
      assert k > 0 ==> ids[1..][k - 1] == ids[k];
    }
  }

  // Replay

  /** Checking the row again would change nothing. */
  predicate Handled(books: Books, i: nat)
    requires i < |books.rows|
  {
    RowSound(books, i)
    || (!SomeTransition(books.db.accounts, RowOwners(books, i)) && books.rows[i].stamp.id in books.audits)
  }

  lemma HandledNothing(books: Books, i: nat)
    requires i < |books.rows| && Handled(books, i)
    ensures Inspected(books, i) == books
  {
    hide RowSound, RowOwners;
    var accounts, owners := books.db.accounts, RowOwners(books, i);
    if !RowSound(books, i) {
      forall a | 0 <= a < |accounts| && a in owners
        ensures accounts[a].mode == ReconcileRequired
      {
        var k :| 0 <= k < |owners| && owners[k] == a;
      }
      assert Quarantined(accounts, owners) == accounts;
    }
  }

  lemma HandledStays(books: Books, books': Books, i: nat)
    requires i < |books.rows| && SameBooks(books, books') && Handled(books, i)
    requires forall a | 0 <= a < |books.db.accounts| && books.db.accounts[a].mode == ReconcileRequired ::
               books'.db.accounts[a].mode == ReconcileRequired
    requires forall id | id in books.audits :: id in books'.audits
    ensures Handled(books', i)
  {
    hide RowSound, RowOwners;
    RowIgnoresModes(books, books', i);
  }

  lemma InspectedHandled(books: Books, i: nat)
    requires i < |books.rows|
    ensures Handled(Inspected(books, i), i)
  {
    hide RowSound, RowOwners;
    InspectedSame(books, i);
    RowIgnoresModes(books, Inspected(books, i), i);
  }

  lemma {:induction false} HandledNothingAll(books: Books, ids: seq<nat>)
    requires RowIds(books.rows, ids) && forall k | 0 <= k < |ids| :: Handled(books, ids[k])
    ensures InspectedAll(books, ids) == books
  {
    hide Inspected, Handled;
    if ids != [] {
      HandledNothing(books, ids[0]);
      HandledNothingAll(books, ids[1..]);
    }
  }

  lemma PassKeepsHandled(books: Books, ids: seq<nat>, i: nat)
    requires RowIds(books.rows, ids) && i < |books.rows| && Handled(books, i)
    ensures Handled(InspectedAll(books, ids), i)
  {
    hide RowSound, RowOwners, Condemned, Reported, Handled, Inspected;
    InspectedAllSame(books, ids);
    PassEffect(books, ids);
    HandledStays(books, InspectedAll(books, ids), i);
  }

  lemma {:induction false} PassHandles(books: Books, ids: seq<nat>, k: nat)
    requires RowIds(books.rows, ids) && k < |ids|
    ensures Handled(InspectedAll(books, ids), ids[k])
    decreases |ids|
  {
    hide Inspected, Handled, ModesApart;
    var first := Inspected(books, ids[0]);
    InspectedSame(books, ids[0]);
    if k == 0 {
      InspectedHandled(books, ids[0]);
      PassKeepsHandled(first, ids[1..], ids[0]);
    } else {
      PassHandles(first, ids[1..], k - 1);
    }
  }

  lemma SameBooksTransitive(a: Books, b: Books, c: Books)
    requires SameBooks(a, b) && SameBooks(b, c)
    ensures SameBooks(a, c)
  {
  }

  lemma BatchIgnoresModes(books: Books, books': Books, cursor: Option<Cursor>, limit: int)
    requires SameBooks(books, books')
    ensures BatchRefused(books', cursor, limit) == BatchRefused(books, cursor, limit)
    ensures Scanned(books', cursor, limit) == Scanned(books, cursor, limit)
    ensures NextCursor(books', cursor, limit) == NextCursor(books, cursor, limit)
  {
    hide Listing, ModesApart, CursorIdValid, Watermark;
  }

  /** An old cursor can be replayed at any later time: the batch answers as before and changes nothing. */
  lemma ReplayChangesNothing(books: Books, cursor: Option<Cursor>, limit: int, more: seq<nat>)
    requires Batch(books, cursor, limit).reply.Ok? && RowIds(books.rows, more)
    ensures var later := InspectedAll(Batch(books, cursor, limit).books, more);
            Batch(later, cursor, limit) == BatchTx(later, Batch(books, cursor, limit).reply)
  {
    hide Scanned, NextCursor, BatchRefused, InspectedAll, RowSound, Handled, CursorIdValid, ModesApart, Unsound, Processed;
    var ids, batch := Scanned(books, cursor, limit), Batch(books, cursor, limit).books;
    InspectedAllSame(books, ids);
    InspectedAllSame(batch, more);
    var later := InspectedAll(batch, more);
    SameBooksTransitive(books, batch, later);
    BatchIgnoresModes(books, later, cursor, limit);
    UnsoundSame(books, later, ids);
    ProcessedSame(books, later, ids);
    forall k | 0 <= k < |ids|
      ensures Handled(later, ids[k])
    {
      PassHandles(books, ids, k);
      PassKeepsHandled(batch, more, ids[k]);
    }
    HandledNothingAll(later, ids);
  }

  lemma {:induction false} ProcessedSame(books: Books, books': Books, ids: seq<nat>)
    requires RowIds(books.rows, ids) && books'.rows == books.rows
    ensures Processed(books', ids) == Processed(books, ids)
  {
    if ids != [] {
      ProcessedSame(books, books', ids[1..]);
    }
  }

  // A healthy ledger

  lemma {:induction false} SoundPass(books: Books, ids: seq<nat>)
    requires RowIds(books.rows, ids) && forall i | 0 <= i < |books.rows| :: RowSound(books, i)
    ensures InspectedAll(books, ids) == books && Unsound(books, ids) == 0
  {
    hide RowSound;
    if ids != [] {
      SoundPass(books, ids[1..]);
    }
  }

  predicate SweepIsSilent(books: Books) {
    InspectedAll(books, Whole(books)) == books && Unsound(books, Whole(books)) == 0
  }

  lemma {:induction false} NoneUnsound(books: Books, ids: seq<nat>, k: nat)
    requires RowIds(books.rows, ids) && Unsound(books, ids) == 0 && k < |ids|
    ensures RowSound(books, ids[k])
  {
    hide RowSound;
    if k > 0 {
      NoneUnsound(books, ids[1..], k - 1);
    }
  }

  /** A sweep finds nothing exactly when there is nothing to find: it misses no row. */
  lemma SilentIffSound(books: Books)
    requires TableSound(books.rows)
    ensures SweepIsSilent(books) <==> forall row | 0 <= row < |books.rows| :: RowSound(books, row)
  {
    hide RowSound, Whole, InspectedAll, Unsound, TableSound;
    if SweepIsSilent(books) {
      WholeIsEveryRow(books);
      forall row: nat | row < |books.rows|
        ensures RowSound(books, row)
      {
        assert row in multiset(Whole(books));
        var k :| 0 <= k < |Whole(books)| && Whole(books)[k] == row;
        NoneUnsound(books, Whole(books), k);
      }
    } else if forall row | 0 <= row < |books.rows| :: RowSound(books, row) {
      SoundPass(books, Whole(books));
    }
  }

  /** In every reachable state of the ledger the sweep finds nothing and quarantines nothing. */
  lemma ReachableNeverQuarantined(states: seq<Db>, actions: seq<Action>, i: nat, books: Books)
    requires |states| == |actions| + 1 && i < |states| && books.db == states[i]
    requires forall r | 0 <= r < |books.rows| ::
               books.rows[r].subject.Held? && OwnedByStep(states[i], books.rows[r].subject.reservation)
    requires NoLateBind(states, actions)
    requires Run(states, actions)
    ensures SweepIsSilent(books)
  {
    hide Run, NoLateBind, GroupValid, Whole, InspectedAll, Unsound;
    ReachableValid(states, actions, i);
    SoundPass(books, Whole(books));
  }

  // The order of a sweep, and which batches are refused

  /** Rows are listed from the earliest to the latest, and those of one time by their ids. */
  lemma {:induction false} ListingAscends(rows: seq<Row>, after: Option<Stamp>, through: Stamp, i: nat, j: nat)
    requires i < j < |Listing(rows, after, through)|
    ensures var listing := Listing(rows, after, through);
            var a, b := rows[listing[i]].stamp, rows[listing[j]].stamp;
            a.createdAt < b.createdAt || (a.createdAt == b.createdAt && Less(a.id, b.id))
    decreases |RowsPending(rows, after, through)|
  {
    hide Less;
    var next := NextRow(rows, after, through).value;
    var here, rest := Some(rows[next].stamp), Listing(rows, Some(rows[next].stamp), through);
    FewerPending(rows, after, through, next);
    if i > 0 {
      ListingAscends(rows, here, through, i - 1, j - 1);
    } else {
      ListedInRange(rows, here, through, j - 1);
    }
  }

  lemma {:induction false} ListedInRange(rows: seq<Row>, after: Option<Stamp>, through: Stamp, j: nat)
    requires j < |Listing(rows, after, through)|
    ensures InRange(rows[Listing(rows, after, through)[j]].stamp, after, through)
    decreases |RowsPending(rows, after, through)|
  {
    hide Less;
    var next := NextRow(rows, after, through).value;
    var here := Some(rows[next].stamp);
    FewerPending(rows, after, through, next);
    if j > 0 {
      ListedInRange(rows, here, through, j - 1);
      if after.Some? {
        PrecedesTransitive(after.value, here.value, rows[Listing(rows, here, through)[j - 1]].stamp);
      }
    }
  }

  /** The cursor is of this database and stands at a row before the row it goes up to. */
  predicate CursorStands(books: Books, c: Cursor) {
    && c.database == books.database
    && (exists i | 0 <= i < |books.rows| :: books.rows[i].stamp == c.after)
    && (exists i | 0 <= i < |books.rows| :: books.rows[i].stamp == c.through)
    && (c.after.createdAt < c.through.createdAt
        || (c.after.createdAt == c.through.createdAt && Less(c.after.id, c.through.id)))
  }

  /** Over a table with well-formed ids a batch is refused exactly for its limit or its cursor. */
  lemma BatchAnswers(books: Books, cursor: Option<Cursor>, limit: int)
    requires TableSound(books.rows)
    ensures Batch(books, cursor, limit).reply.Ok?
            <==> 1 <= limit <= 500 && (cursor.Some? ==> CursorStands(books, cursor.value))
    ensures Batch(books, cursor, limit).reply.Err? ==> Batch(books, cursor, limit).books == books
  {
    hide CursorIdValid, InspectedAll, Unsound, Processed, Scanned, NextCursor;
    if cursor.Some? {
      CursorStandsIff(books, cursor.value);
    }
    if 1 <= limit <= 500 && Resumable(books, cursor) {
      NextCursorAccepted(books, cursor, limit);
    }
  }

  lemma CursorStandsIff(books: Books, c: Cursor)
    requires TableSound(books.rows)
    ensures CursorAccepted(books, c) <==> CursorStands(books, c)
  {
    hide CursorIdValid, Less;
  }
}
