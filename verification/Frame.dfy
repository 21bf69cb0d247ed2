/** A transaction that touches one request leaves the rows of every other step as they were. */
module Frame {
  import opened Wrappers
  import opened Model
  import opened Ledger
  import opened EventGroup
  import opened Billing
  import opened Invariant

  /** Accounts are never removed or re-owned, and their versions never go back. */
  ghost predicate AccountsGrow(accounts: seq<Account>, accounts': seq<Account>) {
    && |accounts| <= |accounts'|
    && (forall i | 0 <= i < |accounts| ::
          && accounts'[i].scope == accounts[i].scope
          && accounts'[i].user == accounts[i].user
          && accounts'[i].key == accounts[i].key
          && accounts[i].version <= accounts'[i].version)
    && forall i | |accounts| <= i < |accounts'| :: AccountShaped(accounts'[i])
  }

  lemma GrownShaped(accounts: seq<Account>, accounts': seq<Account>)
    requires AccountsShaped(accounts) && AccountsGrow(accounts, accounts')
    ensures AccountsShaped(accounts')
  {
    forall i | 0 <= i < |accounts'|
      ensures AccountShaped(accounts'[i])
    {
      assert i < |accounts| ==> AccountShaped(accounts[i]);
    }
  }

  ghost predicate IdentitiesKept(db: Db, db': Db) {
    forall q | q in db.requests :: q in db'.requests && db'.requests[q].identity == db.requests[q].identity
  }

  ghost predicate OperationsKept(db: Db, db': Db) {
    forall p | p in db.operations :: p in db'.operations && db'.operations[p].key == db.operations[p].key
  }

  ghost predicate AdmissionsKept(db: Db, db': Db) {
    forall p :: AdmittedChild(db, p).Some? ==> AdmittedChild(db', p) == AdmittedChild(db, p)
  }

  ghost predicate StepRowsKept(db: Db, db': Db, q: Id) {
    && q in db.steps
    && q in db'.steps
    && db'.steps[q] == db.steps[q]
    && RevisionsOf(db', q) == RevisionsOf(db, q)
    && EvidenceOf(db', q) == EvidenceOf(db, q)
    && SettlementOf(db', q) == SettlementOf(db, q)
    && (db.steps[q].reservation < |db.reservations| ==>
          && db.steps[q].reservation < |db'.reservations|
          && db'.reservations[db.steps[q].reservation] == db.reservations[db.steps[q].reservation]
          && var group := db.reservations[db.steps[q].reservation].group;
             EventsOf(db'.ledger, group) == EventsOf(db.ledger, group))
  }

  ghost predicate Elsewhere(db: Db, db': Db, touched: set<Id>) {
    && AccountsGrow(db.accounts, db'.accounts)
    && IdentitiesKept(db, db')
    && OperationsKept(db, db')
    && AdmissionsKept(db, db')
    && (forall q | q in db.steps && q !in touched :: StepRowsKept(db, db', q))
  }

  lemma EventsExactUnder(accounts: seq<Account>, accounts': seq<Account>, v: GroupView, v': GroupView)
    requires |v.history| > 0 && EventsExact(accounts, v) && AccountsGrow(accounts, accounts')
    requires v' == v.(admittedChild := v'.admittedChild)
    ensures EventsExact(accounts', v')
  {
    forall slot: nat, i: nat | slot < SlotCount(v') && i < |AccountsOf(v'.reservation)|
      ensures SlotExact(accounts', v', slot, i)
    {
      assert SlotExact(accounts, v, slot, i);
    }
  }

  lemma SoundUnder(accounts: seq<Account>, accounts': seq<Account>, v: GroupView, v': GroupView)
    requires Sound(accounts, v) && AccountsGrow(accounts, accounts')
    requires v' == v.(admittedChild := v'.admittedChild)
    requires v.admittedChild.Some? ==> v'.admittedChild == v.admittedChild
    ensures Sound(accounts', v')
  {
    EventsExactUnder(accounts, accounts', v, v');
    forall i | 0 <= i < |v'.history|
      ensures RevisionRowValid(v', i)
    {
      assert RevisionRowValid(v, i);
    }
    forall hash | hash in v'.evidence
      ensures EvidenceRowValid(v', hash)
    {
      assert EvidenceRowValid(v, hash);
    }
  }

  lemma OtherStepSound(db: Db, db': Db, touched: set<Id>, q: Id)
    requires Elsewhere(db, db', touched)
    requires q in db.steps && q !in touched && StepSound(db, q)
    ensures StepSound(db', q)
  {
    assert StepRowsKept(db, db', q);
    var v, v' := StepView(db, q), StepView(db', q);
    assert v' == v.(admittedChild := v'.admittedChild);
    SoundUnder(db.accounts, db'.accounts, v, v');
  }

  lemma InvFromParts(db: Db, db': Db, touched: set<Id>)
    requires StepsSound(db) && Elsewhere(db, db', touched)
    requires db'.steps.Keys <= db.steps.Keys + touched
    requires TablesSound(db')
    requires forall r | r in touched && r in db'.steps :: StepSound(db', r)
    ensures Inv(db')
  {
    hide Sound;
    forall q | q in db'.steps
      ensures StepSound(db', q)
    {
      if q !in touched {
        OtherStepSound(db, db', touched, q);
      }
    }
  }

  // Ledger rows of one hold

  lemma AppendHoldEntries(
    ledger: seq<Entry>, accounts: seq<Account>, hold: Reservation, kind: EventKind, amount: int, delta: int,
    revision: Option<int>)
    ensures forall g :: EventsOf(ledger + HoldEntries(accounts, hold, kind, amount, delta, revision), g)
                        == EventsOf(ledger, g)
                           + if g == hold.group then HoldEntries(accounts, hold, kind, amount, delta, revision) else []
  {
    var first := HoldEntry(accounts, hold, hold.keyAccount, kind, amount, delta, revision);
    AppendEntry(ledger, first);
    if hold.userCap.Some? {
      var second := HoldEntry(accounts, hold, hold.userCap.value, kind, amount, delta, revision);
      AppendEntry(ledger + [first], second);
      assert ledger + [first] + [second] == ledger + HoldEntries(accounts, hold, kind, amount, delta, revision);
      assert [first] + [second] == HoldEntries(accounts, hold, kind, amount, delta, revision);
      forall g
        ensures EventsOf(ledger + HoldEntries(accounts, hold, kind, amount, delta, revision), g)
                == EventsOf(ledger, g)
                   + if g == hold.group then HoldEntries(accounts, hold, kind, amount, delta, revision) else []
      {
        if g == hold.group {
          assert EventsOf(ledger, g) + [first] + [second] == EventsOf(ledger, g) + [first, second];
        } else {
          assert EventsOf(ledger, g) + [] + [] == EventsOf(ledger, g);
        }
      }
    }
  }

  lemma AppendedEntriesSound(
    ledger: seq<Entry>, accounts: seq<Account>, hold: Reservation, kind: EventKind, amount: int, delta: int,
    revision: Option<int>, accountCount: nat, reservationCount: nat, accountCount': nat, reservationCount': nat)
    requires LedgerSound(ledger, accountCount, reservationCount) && kind != GrantEvent
    requires accountCount <= accountCount' && reservationCount <= reservationCount'
    requires forall i | 0 <= i < |AccountsOf(hold)| :: AccountsOf(hold)[i] < accountCount'
    requires hold.group.HoldGroup? && hold.group.reservation < reservationCount'
    ensures LedgerSound(ledger + HoldEntries(accounts, hold, kind, amount, delta, revision),
                        accountCount', reservationCount')
  {
    var round := HoldEntries(accounts, hold, kind, amount, delta, revision);
    forall x | 0 <= x < |ledger + round|
      ensures EntrySound((ledger + round)[x], accountCount', reservationCount')
    {
      if x < |ledger| {
        assert EntrySound(ledger[x], accountCount, reservationCount);
      } else {
        assert round[x - |ledger|].account == AccountsOf(hold)[x - |ledger|];
      }
    }
  }

  lemma {:induction false} NoEventsYet(ledger: seq<Entry>, accountCount: nat, id: nat)
    requires LedgerSound(ledger, accountCount, id)
    ensures EventsOf(ledger, HoldGroup(id)) == []
  {
    if ledger != [] {
      assert EntrySound(ledger[|ledger| - 1], accountCount, id);
      NoEventsYet(ledger[..|ledger| - 1], accountCount, id);
    }
  }

  // One more round of entries

  /** The earlier slots look the same from v' as from v. */
  ghost predicate SlotsKept(v: GroupView, v': GroupView)
    requires |v.history| > 0 && |v'.history| > 0
  {
    && v'.request == v.request
    && AccountsOf(v'.reservation) == AccountsOf(v.reservation)
    && v'.reservation.userCap == v.reservation.userCap
    && v'.reservation.user == v.reservation.user
    && v'.reservation.key == v.reservation.key
    && SlotCount(v') == SlotCount(v) + 1
    && forall slot: nat | slot < SlotCount(v) ::
         && SlotKind(v', slot) == SlotKind(v, slot)
         && SlotRevision(v', slot) == SlotRevision(v, slot)
         && SlotAmount(v', slot) == SlotAmount(v, slot)
         && SlotDelta(v', slot) == SlotDelta(v, slot)
  }

  lemma AppendRound(accounts: seq<Account>, accounts': seq<Account>, v: GroupView, v': GroupView, round: seq<Entry>)
    requires |v.history| > 0 && |v'.history| > 0
    requires EventsExact(accounts, v) && AccountsGrow(accounts, accounts') && SlotsKept(v, v')
    requires Closing(v).None?
    requires v'.events == v.events + round && |round| == |AccountsOf(v.reservation)|
    requires forall i: nat | i < |round| ::
               && EventExact(accounts', v', round[i], AccountsOf(v.reservation)[i], SlotCount(v))
               && round[i].account < |accounts|
               && (if SlotCount(v) < |v'.history| then accounts[round[i].account].version < round[i].version
                   else accounts[round[i].account].version <= round[i].version)
    ensures EventsExact(accounts', v')
  {
    forall slot: nat, i: nat | slot < SlotCount(v') && i < |AccountsOf(v'.reservation)|
      ensures SlotExact(accounts', v', slot, i)
    {
      assert SlotExact(accounts, v, if slot < SlotCount(v) then slot else slot - 1, i);
      if slot == SlotCount(v) {
        assert v'.events[At(v', slot, i)] == round[i];
        assert v'.events[At(v', slot - 1, i)] == v.events[At(v, slot - 1, i)];
      } else {
        assert v'.events[At(v', slot, i)] == v.events[At(v, slot, i)];
        if slot > 0 {
          assert v'.events[At(v', slot - 1, i)] == v.events[At(v, slot - 1, i)];
        }
      }
    }
  }

  // Transactions on the money rows of one existing step

  ghost predicate RowsElsewhereKept(db: Db, db': Db, r: Id) {
    forall q | q != r ::
      && RevisionsOf(db', q) == RevisionsOf(db, q)
      && EvidenceOf(db', q) == EvidenceOf(db, q)
      && SettlementOf(db', q) == SettlementOf(db, q)
  }

  ghost predicate OnlyHoldTouched(db: Db, db': Db, id: nat) {
    && id < |db.reservations| == |db'.reservations|
    && db'.reservations == db.reservations[id := db'.reservations[id]]
    && db'.reservations[id].request == db.reservations[id].request
    && db'.reservations[id].group == db.reservations[id].group
    && AccountsOf(db'.reservations[id]) == AccountsOf(db.reservations[id])
    && forall g | g != db.reservations[id].group :: EventsOf(db'.ledger, g) == EventsOf(db.ledger, g)
  }

  /** Only the rows of r differ: its step, its reservation, its group's entries, its dependent rows. */
  ghost predicate OnlyTouched(db: Db, db': Db, r: Id) {
    && r in db.steps && r in db'.steps
    && db'.steps == db.steps[r := db'.steps[r]]
    && db'.steps[r].operation == db.steps[r].operation
    && db'.steps[r].reservation == db.steps[r].reservation
    && OnlyHoldTouched(db, db', db.steps[r].reservation)
    && AccountsGrow(db.accounts, db'.accounts)
    && IdentitiesKept(db, db')
    && OperationsKept(db, db')
    && db'.preparations == db.preparations
    && RowsElsewhereKept(db, db', r)
  }

  ghost predicate KeptBut<T>(m: map<Id, T>, m': map<Id, T>, r: Id) {
    m' == m || (r in m' && m' == m[r := m'[r]])
  }

  /** The tables a transaction on the money rows of r writes, and the only rows it writes there. */
  lemma RowsTouch(db: Db, db': Db, r: Id)
    requires r in db.steps && r in db'.steps && db'.steps == db.steps[r := db'.steps[r]]
    requires db'.steps[r].operation == db.steps[r].operation && db'.steps[r].reservation == db.steps[r].reservation
    requires OnlyHoldTouched(db, db', db.steps[r].reservation)
    requires AccountsGrow(db.accounts, db'.accounts)
    requires db'.requests == db.requests && db'.operations == db.operations && db'.preparations == db.preparations
    requires KeptBut(db.revisions, db'.revisions, r)
    requires KeptBut(db.evidence, db'.evidence, r)
    requires KeptBut(db.settlements, db'.settlements, r)
    ensures OnlyTouched(db, db', r)
  {
    hide AccountsGrow, OnlyHoldTouched;
  }

  lemma OtherRowsKept(db: Db, db': Db, r: Id, q: Id)
    requires ReservationsSound(db.accounts, db.reservations) && OnlyTouched(db, db', r)
    requires StepLinked(db, q) && StepLinked(db, r) && q != r
    ensures StepRowsKept(db, db', q)
  {
    hide EventsOf, RevisionsOf, EvidenceOf, SettlementOf, AccountsGrow, IdentitiesKept, OperationsKept;
    assert db.reservations[db.steps[q].reservation].group == HoldGroup(db.steps[q].reservation);
  }

  lemma OnlyTouchedElsewhere(db: Db, db': Db, r: Id)
    requires TablesSound(db) && OnlyTouched(db, db', r)
    ensures Elsewhere(db, db', {r})
    ensures db'.steps.Keys <= db.steps.Keys + {r}
  {
    hide StepRowsKept, AccountsGrow, IdentitiesKept, OperationsKept, OnlyHoldTouched, RowsElsewhereKept, StepLinked;
    forall q | q in db.steps && q != r
      ensures StepRowsKept(db, db', q)
    {
      OtherRowsKept(db, db', r, q);
    }
  }

  lemma TouchedReservations(
    accounts: seq<Account>, accounts': seq<Account>, reservations: seq<Reservation>, reservations': seq<Reservation>,
    id: nat)
    requires ReservationsSound(accounts, reservations) && |accounts| <= |accounts'|
    requires id < |reservations| == |reservations'| && reservations' == reservations[id := reservations'[id]]
    requires reservations'[id].request == reservations[id].request
    requires reservations'[id].group == reservations[id].group
    requires AccountsOf(reservations'[id]) == AccountsOf(reservations[id])
    ensures ReservationsSound(accounts', reservations')
  {
    forall i | 0 <= i < |reservations'|
      ensures reservations'[i].group == HoldGroup(i) && AccountsKnown(accounts', AccountsOf(reservations'[i]))
    {
      assert AccountsKnown(accounts, AccountsOf(reservations[i]));
    }
  }

  lemma TouchedLinks(db: Db, db': Db, r: Id)
    requires OnlyTouched(db, db', r)
    requires forall q | q in db.steps :: StepLinked(db, q)
    ensures forall q | q in db'.steps :: StepLinked(db', q)
  {
    hide AccountsGrow, RowsElsewhereKept, EventsOf, AccountsOf;
    forall q | q in db'.steps
      ensures StepLinked(db', q)
    {
      assert StepLinked(db, q);
    }
  }

  lemma OnlyTouchedTables(db: Db, db': Db, r: Id)
    requires TablesSound(db) && OnlyTouched(db, db', r)
    requires LedgerSound(db'.ledger, |db'.accounts|, |db'.reservations|)
    requires ReferencesSound(db') && BudgetIdsUnique(db'.revisions)
    ensures TablesSound(db')
  {
    hide EventsOf, RowsElsewhereKept, LedgerSound, BudgetIdsUnique, ReferencesSound, AccountsShaped, ReservationsSound,
         StepLinked, AccountsOf, IdentitiesKept, OperationsKept;
    TouchedLinks(db, db', r);
    hide OnlyTouched;
    TouchedHolds(db, db', r);
  }

  lemma TouchedHolds(db: Db, db': Db, r: Id)
    requires TablesSound(db) && OnlyTouched(db, db', r)
    ensures AccountsShaped(db'.accounts) && ReservationsSound(db'.accounts, db'.reservations)
  {
    hide EventsOf, RowsElsewhereKept, LedgerSound, BudgetIdsUnique, ReferencesSound, AccountsShaped, ReservationsSound,
         StepLinked, AccountsOf, IdentitiesKept, OperationsKept;
    GrownShaped(db.accounts, db'.accounts);
    TouchedReservations(db.accounts, db'.accounts, db.reservations, db'.reservations, db.steps[r].reservation);
  }

  lemma SoundParts(db: Db)
    requires TablesSound(db)
    ensures LedgerSound(db.ledger, |db.accounts|, |db.reservations|)
    ensures ReferencesSound(db) && BudgetIdsUnique(db.revisions)
  {
  }

  lemma TouchedKeepsInv(db: Db, db': Db, r: Id)
    requires Inv(db) && OnlyTouched(db, db', r)
    requires LedgerSound(db'.ledger, |db'.accounts|, |db'.reservations|)
    requires ReferencesSound(db') && BudgetIdsUnique(db'.revisions)
    requires StepLinked(db', r) && Sound(db'.accounts, StepView(db', r))
    ensures Inv(db')
  {
    hide Sound, TablesSound, Elsewhere, StepsSound, StepView, OnlyTouched, StepLinked, LedgerSound, ReferencesSound,
         BudgetIdsUnique;
    OnlyTouchedElsewhere(db, db', r);
    OnlyTouchedTables(db, db', r);
    InvFromParts(db, db', {r});
  }

  lemma TouchedView(db: Db, db': Db, r: Id)
    requires OnlyTouched(db, db', r) && StepLinked(db, r)
    ensures StepLinked(db', r)
    ensures |db'.reservations| == |db.reservations| && db'.steps.Keys == db.steps.Keys
    ensures var id := db.steps[r].reservation;
            StepView(db', r)
            == StepView(db, r).(step := db'.steps[r], reservation := db'.reservations[id],
                                history := RevisionsOf(db', r),
                                events := EventsOf(db'.ledger, db.reservations[id].group),
                                settlement := SettlementOf(db', r), evidence := EvidenceOf(db', r))
  {
    hide EventsOf, RevisionsOf, SettlementOf, EvidenceOf, AccountsGrow, RowsElsewhereKept;
  }

  /** The round HoldEntries appends at slot |history| stands in its exact place. */
  lemma ClosingRoundExact(accounts: seq<Account>, v: GroupView, v': GroupView, kind: EventKind, amount: int, delta: int)
    requires |v.history| > 0 && EventsExact(accounts, v) && AccountsSound(accounts, v)
    requires Closing(v).None? && Closing(v') == Some(kind)
    requires v'.history == v.history && v'.request == v.request == v.reservation.request
    requires v'.reservation == v.reservation.(state := v'.reservation.state)
    requires v'.step.auth == v.step.auth
    requires amount == SlotAmount(v', |v.history|) && delta == SlotDelta(v', |v.history|)
    requires kind == ReleaseEvent || kind == CommitEvent
    requires v'.events == v.events + HoldEntries(accounts, v.reservation, kind, amount, delta, Some(|v.history|))
    ensures EventsExact(accounts, v')
  {
    var round := HoldEntries(accounts, v.reservation, kind, amount, delta, Some(|v.history|));
    AppendRound(accounts, accounts, v, v', round);
  }
}
