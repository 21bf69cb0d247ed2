/**
  The sweep as the core store carries it out: one transaction per batch, each walking its rows and marking
  accounts in place, and a driver that repeats batches until one says it was the last.
 */
module Reconciler {
  import opened Wrappers
  import opened Model
  import opened Reconcile
  import opened Sweep

  class ReconcileStore {
    var db: Db
    var rows: seq<Row>
    var audits: seq<string>
    const database: int

    constructor (db: Db, rows: seq<Row>, audits: seq<string>, database: int)
      ensures Contents() == Books(db, rows, audits, database)
    {
      this.db, this.rows, this.audits, this.database := db, rows, audits, database;
    }

    function Contents(): Books
      reads this
    {
      Books(db, rows, audits, database)
    }

    /** The ordered selection with its LIMIT. */
    method FetchRows(after: Option<Stamp>, through: Stamp, count: nat) returns (ids: seq<nat>)
      ensures RowIds(rows, ids)
      ensures var all := Listing(rows, after, through); ids == if count < |all| then all[..count] else all
    {
      var all := Listing(rows, after, through);
      var from := after;
      ids := [];
      while |ids| < count
        invariant |ids| <= count && |ids| <= |all| && ids == all[..|ids|]
        invariant Listing(rows, from, through) == all[|ids|..]
      {
        var next := NextRow(rows, from, through);
        if next.None? {
          break;
        }
        assert all[|ids|..][0] == all[|ids|];
        from := Some(rows[next.value].stamp);
        ids := ids + [next.value];
      }
    }

    /** UPDATE quota_budget_accounts for each owner; did any row change? */
    method MarkAccounts(owners: seq<nat>) returns (transitioned: bool)
      modifies this
      ensures rows == old(rows) && audits == old(audits)
      ensures db == old(db).(accounts := Quarantined(old(db).accounts, owners))
      ensures transitioned == SomeTransition(old(db).accounts, owners)
    {
      hide Quarantined, SomeTransition;
      ghost var before := db.accounts;
      transitioned := false;
      NoneMarked(before);
      for k := 0 to |owners|
        invariant rows == old(rows) && audits == old(audits)
        invariant db == old(db).(accounts := Quarantined(before, owners[..k]))
        invariant transitioned == SomeTransition(before, owners[..k])
      {
        var a := owners[k];
        MarkOneMore(before, owners[..k], a);
        assert owners[..k + 1] == owners[..k] + [a];
        if a < |db.accounts| && db.accounts[a].mode != ReconcileRequired {
          db := db.(accounts := db.accounts[a := db.accounts[a].(mode := ReconcileRequired)]);
          transitioned := true;
        }
      }
      assert owners[..|owners|] == owners;
    }

    /** One reservation of the batch. */
    method InspectRow(i: nat) returns (invalid: bool)
      requires i < |rows|
      modifies this
      ensures Contents() == Inspected(old(Contents()), i)
      ensures invalid == !RowSound(old(Contents()), i)
    {
      invalid := !RowSound(Contents(), i);
      if invalid {
        var id := rows[i].stamp.id;
        var transitioned := MarkAccounts(RowOwners(Contents(), i));
        if transitioned || id !in audits {
          audits := audits + [id];
        }
      }
    }

    /** The loop of one batch. */
    method InspectRows(ids: seq<nat>) returns (processed: nat, invalid: nat)
      requires RowIds(rows, ids)
      modifies this
      ensures Contents() == InspectedAll(old(Contents()), ids)
      ensures processed == Processed(old(Contents()), ids) && invalid == Unsound(old(Contents()), ids)
    {
      hide Inspected, RowSound, InspectedAll, Unsound, Processed;
      ghost var before := Contents();
      processed, invalid := 0, 0;
      PrefixStart(before, ids);
      for k := 0 to |ids|
        invariant rows == old(rows) && Contents() == InspectedAll(before, ids[..k])
        invariant processed == Processed(before, ids[..k]) && invalid == Unsound(before, ids[..k])
      {
        PrefixStep(before, ids, k);
        if RowProcessed(Contents(), ids[k]) {
          processed := processed + 1;
        }
        var bad := InspectRow(ids[k]);
        if bad {
          invalid := invalid + 1;
        }
      }
      assert ids[..|ids|] == ids;
    }

    /** reconcile_quota_event_groups_batch */
    method ReconcileBatch(cursor: Option<Cursor>, limit: int) returns (reply: Result<Report, Error>)
      modifies this
      ensures BatchTx(Contents(), reply) == Batch(old(Contents()), cursor, limit)
    {
      hide Listing, InspectedAll, Unsound, Processed, CursorIdValid;
      if limit < 1 || limit > MAX_BATCH_SIZE {
        return Err(InvalidConfiguration);
      }
      if cursor.Some? && !CursorShaped(cursor.value) {
        return Err(InvalidConfiguration);
      }
      var through: Stamp;
      match cursor {
      case Some(c) =>
        if c.database != database || !HasRow(rows, c.after) || !HasRow(rows, c.through) {
          return Err(InvalidConfiguration);
        }
        through := c.through;
      case None =>
        var highest := Watermark(rows);
        if highest.None? {
          PrefixStart(Contents(), []);
          return Ok(Report(0, 0, 0, 0, None, true));
        }
        if !CursorIdValid(highest.value.id) {
          return Err(InvalidConfiguration);
        }
        through := highest.value;
      }
      ghost var books, all := Contents(), Listing(rows, AfterOf(cursor), through);
      var raw := FetchRows(AfterOf(cursor), through, limit + 1);
      var more := |raw| > limit;
      var ids := if more then raw[..limit] else raw;
      assert ids == Scanned(books, cursor, limit);
      var saved := (db, audits);
      var processed, invalid := InspectRows(ids);
      if !more {
        reply := Ok(Report(|ids|, |raw|, processed, invalid, None, true));
      } else {
        var last := rows[ids[limit - 1]].stamp;
        if !CursorIdValid(last.id) {
          db, audits := saved.0, saved.1; // the transaction is dropped
          reply := Err(InvalidConfiguration);
        } else {
          reply := Ok(Report(|ids|, |raw|, processed, invalid, Some(Cursor(last, through, database)), false));
        }
      }
    }

    /** reconcile_quota_event_groups: the whole table, in batches of the default size. */
    method ReconcileEventGroups() returns (reply: Result<nat, Error>)
      modifies this
      ensures TableSound(old(rows)) ==> reply.Ok?
      ensures reply.Ok? ==>
                && reply == Ok(Unsound(old(Contents()), Whole(old(Contents()))))
                && Contents() == InspectedAll(old(Contents()), Whole(old(Contents())))
    {
      hide Remaining, InspectedAll, Unsound, Batch, Scanned, NextCursor, TableSound, ModesApart;
      ghost var before, scanned := Contents(), [];
      var cursor: Option<Cursor>, total, complete := None, 0, false;
      NothingYet(before);
      while !complete
        invariant RowIds(before.rows, scanned)
        invariant Contents() == InspectedAll(before, scanned) && SameBooks(before, Contents())
        invariant total == Unsound(before, scanned)
        invariant if complete then scanned == Whole(before)
                  else scanned + Remaining(Contents(), cursor) == Whole(before)
        invariant TableSound(before.rows) ==> Resumable(Contents(), cursor)
        decreases if complete then 0 else 1, |Remaining(Contents(), cursor)|
      {
        ghost var middle := Contents();
        if TableSound(before.rows) {
          BatchStep(middle, cursor, DEFAULT_BATCH_SIZE);
        }
        var outcome := ReconcileBatch(cursor, DEFAULT_BATCH_SIZE);
        if outcome.Err? {
          return Err(outcome.error);
        }
        BatchAnswered(middle, cursor, DEFAULT_BATCH_SIZE);
        ghost var ids := Scanned(middle, cursor, DEFAULT_BATCH_SIZE);
        BatchCut(middle, cursor, DEFAULT_BATCH_SIZE, Contents());
        PassOn(before, scanned, middle, ids);
        scanned := scanned + ids;
        total := total + outcome.value.invalid;
        complete, cursor := outcome.value.complete, outcome.value.next;
      }
      reply := Ok(total);
    }
  }

  lemma NoneMarked(accounts: seq<Account>)
    ensures Quarantined(accounts, []) == accounts && !SomeTransition(accounts, [])
  {
  }

  /** Marking one more owner: a row that is not marked yet changes, and that is a transition. */
  lemma MarkOneMore(accounts: seq<Account>, owners: seq<nat>, a: nat)
    ensures var marked := Quarantined(accounts, owners);
            var open := a < |marked| && marked[a].mode != ReconcileRequired;
            && Quarantined(accounts, owners + [a])
               == (if open then marked[a := marked[a].(mode := ReconcileRequired)] else marked)
            && SomeTransition(accounts, owners + [a]) == (SomeTransition(accounts, owners) || open)
  {
    var marked := Quarantined(accounts, owners);
    var open := a < |marked| && marked[a].mode != ReconcileRequired;
    assert Quarantined(accounts, owners + [a])
           == (if open then marked[a := marked[a].(mode := ReconcileRequired)] else marked);
    TransitionSplit(accounts, owners, a);
    if a in owners {
      var k :| 0 <= k < |owners| && owners[k] == a;
    }
  }

  lemma TransitionSplit(accounts: seq<Account>, owners: seq<nat>, a: nat)
    ensures SomeTransition(accounts, owners + [a])
            == (SomeTransition(accounts, owners) || (a < |accounts| && accounts[a].mode != ReconcileRequired))
  {
    var more := owners + [a];
    assert more[|owners|] == a;
    assert forall i | 0 <= i < |owners| :: more[i] == owners[i];
  }

  lemma PrefixStart(books: Books, ids: seq<nat>)
    ensures ids[..0] == []
    ensures InspectedAll(books, []) == books && Unsound(books, []) == 0 && Processed(books, []) == 0
  {
  }

  lemma PrefixStep(books: Books, ids: seq<nat>, k: nat)
    requires RowIds(books.rows, ids) && k < |ids|
    ensures var now := InspectedAll(books, ids[..k]);
            && now.rows == books.rows
            && RowSound(now, ids[k]) == RowSound(books, ids[k])
            && InspectedAll(books, ids[..k + 1]) == Inspected(now, ids[k])
            && Unsound(books, ids[..k + 1]) == Unsound(books, ids[..k]) + (if RowSound(books, ids[k]) then 0 else 1)
            && Processed(books, ids[..k + 1]) == Processed(books, ids[..k]) + (if RowProcessed(books, ids[k]) then 1 else 0)
  {
    hide Inspected, RowSound, ModesApart;
    assert ids[..k + 1] == ids[..k] + [ids[k]];
    InspectedAllAppend(books, ids[..k], [ids[k]]);
    UnsoundAppend(books, ids[..k], [ids[k]]);
    ProcessedAppend(books, ids[..k], [ids[k]]);
    InspectedAllSame(books, ids[..k]);
    var now := InspectedAll(books, ids[..k]);
    RowIgnoresModes(books, now, ids[k]);
    assert InspectedAll(Inspected(now, ids[k]), [ids[k]][1..]) == Inspected(now, ids[k]);
  }

  lemma {:induction false} ProcessedAppend(books: Books, a: seq<nat>, b: seq<nat>)
    requires RowIds(books.rows, a) && RowIds(books.rows, b)
    ensures RowIds(books.rows, a + b)
    ensures Processed(books, a + b) == Processed(books, a) + Processed(books, b)
    decreases |a|
  {
    if a == [] {
      assert a + b == b;
    } else {
      assert (a + b)[1..] == a[1..] + b;
      ProcessedAppend(books, a[1..], b);
    }
  }

  lemma NothingYet(books: Books)
    ensures InspectedAll(books, []) == books && SameBooks(books, books) && Unsound(books, []) == 0
    ensures [] + Remaining(books, None) == Whole(books)
  {
    hide Remaining;
  }

  lemma BatchAnswered(books: Books, cursor: Option<Cursor>, limit: int)
    requires Batch(books, cursor, limit).reply.Ok?
    ensures var batch, ids := Batch(books, cursor, limit), Scanned(books, cursor, limit);
            && limit >= 1
            && batch.reply.value.next == NextCursor(books, cursor, limit)
            && batch.reply.value.complete == batch.reply.value.next.None?
            && batch.reply.value.invalid == Unsound(books, ids)
            && batch.books == InspectedAll(books, ids)
            && SameBooks(books, batch.books)
  {
    hide CursorIdValid, Remaining, InspectedAll, Unsound, Processed, NextCursor;
    InspectedAllSame(books, Scanned(books, cursor, limit));
  }

  lemma PassOn(before: Books, scanned: seq<nat>, middle: Books, ids: seq<nat>)
    requires RowIds(before.rows, scanned) && middle == InspectedAll(before, scanned) && SameBooks(before, middle)
    requires RowIds(before.rows, ids)
    ensures RowIds(before.rows, scanned + ids)
    ensures InspectedAll(middle, ids) == InspectedAll(before, scanned + ids)
    ensures Unsound(before, scanned) + Unsound(middle, ids) == Unsound(before, scanned + ids)
    ensures SameBooks(before, InspectedAll(middle, ids))
  {
    hide InspectedAll, Unsound;
    InspectedAllAppend(before, scanned, ids);
    InspectedAllSame(middle, ids);
    UnsoundAppend(before, scanned, ids);
    UnsoundSame(before, middle, ids);
  }
}
