/**
  The ledger pass of validate_v2_quota_event_group, as the source runs it: one loop over the entries that fills
  a table of versions for each account, and one loop over the accounts that reads the tables back.
 */
module Validator {
  import opened Wrappers
  import opened Model
  import opened Ledger
  import opened EventGroup

  /** account_ids.iter().position(..) */
  function PositionOf(ids: seq<nat>, account: nat): (r: Option<nat>)
    ensures r.Some? ==> r.value < |ids| && ids[r.value] == account
    ensures r.None? ==> account !in ids
  {
    if ids == [] then None
    else if ids[0] == account then Some(0)
    else
      var rest := PositionOf(ids[1..], account);
      if rest.Some? then Some(rest.value + 1) else None
  }

  /** The tables the pass fills: versions of the reserve, of each adjustment, and of the closing entry, by account. */
  class VersionTables {
    const history: nat
    const count: nat
    const reserves: array<Option<int>>
    const adjustments: array2<Option<int>>
    const closings: array<Option<int>>

    ghost predicate Valid()
      reads this
    {
      && reserves.Length == count && closings.Length == count && reserves != closings
      && adjustments.Length0 == history && adjustments.Length1 == count
    }

    constructor (history: nat, count: nat)
      ensures Valid() && this.history == history && this.count == count
      ensures fresh(reserves) && fresh(adjustments) && fresh(closings)
      ensures forall c | c in Cells() :: Cells()[c].None?
    {
      this.history, this.count := history, count;
      reserves := new Option<int>[count](_ => None);
      adjustments := new Option<int>[history, count]((_, _) => None);
      closings := new Option<int>[count](_ => None);
    }

    /** The version recorded for a slot on the i-th account. */
    function Cell(slot: nat, i: nat): Option<int>
      requires Valid() && slot <= history && i < count
      reads this, reserves, adjustments, closings
    {
      if slot == 0 then reserves[i] else if slot < history then adjustments[slot, i] else closings[i]
    }

    /** All three tables as one, by slot and account. */
    ghost function Cells(): (cells: map<(nat, nat), Option<int>>)
      requires Valid()
      reads this, reserves, adjustments, closings
      ensures forall s: nat, i: nat :: (s, i) in cells <==> s <= history && i < count
    {
      map s: nat, i: nat | s <= history && i < count :: (s, i) := Cell(s, i)
    }

    method Read(slot: nat, i: nat) returns (version: Option<int>)
      requires Valid() && slot <= history && i < count
      ensures version == Cells()[(slot, i)]
    {
      version := Cell(slot, i);
    }

    /** Option::replace: records the version and answers what was there before. */
    method Replace(slot: nat, i: nat, version: int) returns (before: Option<int>)
      requires Valid() && slot <= history && i < count && history > 0
      modifies reserves, adjustments, closings
      ensures before == old(Cells())[(slot, i)] && Cells() == old(Cells())[(slot, i) := Some(version)]
    {
      before := Cell(slot, i);
      if slot == 0 {
        reserves[i] := Some(version);
      } else if slot < history {
        adjustments[slot, i] := Some(version);
      } else {
        closings[i] := Some(version);
      }
    }
  }

  type Cells = map<(nat, nat), Option<int>>

  ghost predicate CellsOf(cells: Cells, v: GroupView) {
    forall s: nat, i: nat :: (s, i) in cells <==> s <= |v.history| && i < |AccountsOf(v.reservation)|
  }

  ghost predicate Recorded(cells: Cells, v: GroupView, e: Entry)
    requires CellsOf(cells, v)
  {
    var slot := Slot(v, e);
    && slot.Some? && slot.value <= |v.history|
    && e.account in AccountsOf(v.reservation)
    && forall i: nat | i < |AccountsOf(v.reservation)| && AccountsOf(v.reservation)[i] == e.account ::
         cells[(slot.value, i)] == Some(e.version)
  }

  /** What an entry must be, but for its account and its slot: the test at the head of the entry loop. */
  predicate EntryOwned(accounts: seq<Account>, v: GroupView, e: Entry) {
    && e.account < |accounts|
    && e.request == Some(v.request)
    && e.user == v.reservation.user
    && e.key == Some(v.reservation.key)
    && 0 < e.version <= accounts[e.account].version
  }

  /** The slot of an entry whose amounts are those of the slot; None for an entry that fits nowhere. */
  function FittingSlot(v: GroupView, e: Entry): (r: Option<nat>)
    requires |v.history| > 0
    ensures r.Some? ==> r == Slot(v, e) && r.value < SlotCount(v) && r.value <= |v.history|
  {
    var slot := Slot(v, e);
    if slot.Some? && slot.value < SlotCount(v) && e.amount == SlotAmount(v, slot.value) && e.delta == SlotDelta(v, slot.value)
    then slot else None
  }

  lemma FitsIff(accounts: seq<Account>, v: GroupView, e: Entry)
    requires |v.history| > 0
    ensures EventFits(accounts, v, e)
            <==> PositionOf(AccountsOf(v.reservation), e.account).Some? && EntryOwned(accounts, v, e)
                 && FittingSlot(v, e).Some?
  {
  }

  ghost predicate Distinct(v: GroupView, x: nat) {
    forall y, z | 0 <= y < z < x && z < |v.events| ::
      v.events[y].account != v.events[z].account || Slot(v, v.events[y]) != Slot(v, v.events[z])
  }

  /** The cells hold exactly these entries. */
  ghost predicate Holds(cells: Cells, v: GroupView, es: seq<Entry>)
    requires CellsOf(cells, v)
  {
    && (forall y | 0 <= y < |es| :: Recorded(cells, v, es[y]))
    && forall slot: nat, i: nat | (slot, i) in cells && cells[(slot, i)].Some? ::
         SlotFilled(v, es, AccountsOf(v.reservation)[i], slot)
  }

  ghost predicate DistinctAccounts(v: GroupView) {
    v.reservation.userCap != Some(v.reservation.keyAccount)
  }

  lemma PositionUnique(v: GroupView, i: nat, j: nat)
    requires DistinctAccounts(v)
    requires i < |AccountsOf(v.reservation)| && j < |AccountsOf(v.reservation)|
    requires AccountsOf(v.reservation)[i] == AccountsOf(v.reservation)[j]
    ensures i == j
  {
  }

  lemma RecordedStill(cells: Cells, v: GroupView, es: seq<Entry>, e: Entry, slot: nat, i: nat)
    requires CellsOf(cells, v) && DistinctAccounts(v) && (slot, i) in cells && Holds(cells, v, es)
    requires SameSlot(v, e, AccountsOf(v.reservation)[i], slot)
    requires forall y | 0 <= y < |es| :: !SameSlot(v, es[y], AccountsOf(v.reservation)[i], slot)
    ensures forall y | 0 <= y < |es| :: Recorded(cells[(slot, i) := Some(e.version)], v, es[y])
    ensures Recorded(cells[(slot, i) := Some(e.version)], v, e)
  {
    forall y | 0 <= y < |es|
      ensures Recorded(cells[(slot, i) := Some(e.version)], v, es[y])
    {
      assert Recorded(cells, v, es[y]);
    }
    forall j: nat | j < |AccountsOf(v.reservation)| && AccountsOf(v.reservation)[j] == e.account
      ensures j == i
    {
      PositionUnique(v, i, j);
    }
  }

  lemma FilledStill(cells: Cells, v: GroupView, es: seq<Entry>, e: Entry, slot: nat, i: nat)
    requires CellsOf(cells, v) && (slot, i) in cells && Holds(cells, v, es)
    requires SameSlot(v, e, AccountsOf(v.reservation)[i], slot)
    ensures var after := cells[(slot, i) := Some(e.version)];
            forall s: nat, j: nat | (s, j) in after && after[(s, j)].Some? ::
              SlotFilled(v, es + [e], AccountsOf(v.reservation)[j], s)
  {
    var after := cells[(slot, i) := Some(e.version)];
    forall s: nat, j: nat | (s, j) in after && after[(s, j)].Some?
      ensures SlotFilled(v, es + [e], AccountsOf(v.reservation)[j], s)
    {
      if s == slot && j == i {
        assert (es + [e])[|es|] == e;
      } else {
        assert SlotFilled(v, es, AccountsOf(v.reservation)[j], s);
        var y: nat :| y < |es| && SameSlot(v, es[y], AccountsOf(v.reservation)[j], s);
        assert (es + [e])[y] == es[y];
      }
    }
  }

  lemma OneMore(cells: Cells, v: GroupView, es: seq<Entry>, e: Entry, slot: nat, i: nat)
    requires CellsOf(cells, v) && DistinctAccounts(v) && (slot, i) in cells && Holds(cells, v, es)
    requires SameSlot(v, e, AccountsOf(v.reservation)[i], slot) && cells[(slot, i)].None?
    ensures CellsOf(cells[(slot, i) := Some(e.version)], v)
    ensures Holds(cells[(slot, i) := Some(e.version)], v, es + [e])
    ensures forall y | 0 <= y < |es| :: !SameSlot(v, es[y], e.account, slot)
  {
    forall y | 0 <= y < |es|
      ensures !SameSlot(v, es[y], AccountsOf(v.reservation)[i], slot)
    {
      assert Recorded(cells, v, es[y]);
    }
    RecordedStill(cells, v, es, e, slot, i);
    FilledStill(cells, v, es, e, slot, i);
  }

  /** One turn of the entry loop: the entry must fit a cell that is still empty. */
  method RecordEntry(accounts: seq<Account>, v: GroupView, tables: VersionTables, x: nat) returns (ok: bool)
    requires |v.history| > 0 && DistinctAccounts(v) && x < |v.events|
    requires tables.Valid() && tables.history == |v.history| && tables.count == |AccountsOf(v.reservation)|
    requires Holds(tables.Cells(), v, v.events[..x])
    modifies tables.reserves, tables.adjustments, tables.closings
    ensures ok <==> EventFits(accounts, v, v.events[x]) && Unlike(v, x)
    ensures ok ==> Holds(tables.Cells(), v, v.events[..x + 1])
  {
    hide EventFits, EntryOwned, FittingSlot, Slot, SlotCount, Holds, Unlike, AccountsOf;
    var ids := AccountsOf(v.reservation);
    var e := v.events[x];
    FitsIff(accounts, v, e);
    var position := PositionOf(ids, e.account);
    if position.None? || !EntryOwned(accounts, v, e) {
      return false;
    }
    var slot := FittingSlot(v, e);
    if slot.None? {
      return false;
    }
    ghost var cells := tables.Cells();
    var before := tables.Replace(slot.value, position.value, e.version);
    if before.Some? {
      CellTaken(cells, v, x, slot.value, position.value);
      return false;
    }
    CellFree(cells, v, x, slot.value, position.value);
    return true;
  }

  lemma CellTaken(cells: Cells, v: GroupView, x: nat, slot: nat, i: nat)
    requires x < |v.events| && CellsOf(cells, v) && (slot, i) in cells && Holds(cells, v, v.events[..x])
    requires SameSlot(v, v.events[x], AccountsOf(v.reservation)[i], slot) && cells[(slot, i)].Some?
    ensures !Unlike(v, x)
  {
    assert SlotFilled(v, v.events[..x], AccountsOf(v.reservation)[i], slot);
    var y: nat :| y < x && SameSlot(v, v.events[..x][y], AccountsOf(v.reservation)[i], slot);
    assert v.events[..x][y] == v.events[y];
  }

  lemma CellFree(cells: Cells, v: GroupView, x: nat, slot: nat, i: nat)
    requires DistinctAccounts(v)
    requires x < |v.events| && CellsOf(cells, v) && (slot, i) in cells && Holds(cells, v, v.events[..x])
    requires SameSlot(v, v.events[x], AccountsOf(v.reservation)[i], slot) && cells[(slot, i)].None?
    ensures Unlike(v, x)
    ensures CellsOf(cells[(slot, i) := Some(v.events[x].version)], v)
    ensures Holds(cells[(slot, i) := Some(v.events[x].version)], v, v.events[..x + 1])
  {
    hide Holds, CellsOf;
    OneMore(cells, v, v.events[..x], v.events[x], slot, i);
    assert v.events[..x + 1] == v.events[..x] + [v.events[x]];
    forall y | 0 <= y < x
      ensures v.events[y].account != v.events[x].account || Slot(v, v.events[y]) != Slot(v, v.events[x])
    {
      assert !SameSlot(v, v.events[..x][y], v.events[x].account, slot);
    }
  }

  /** No earlier entry has the account and the slot of entry x. */
  ghost predicate Unlike(v: GroupView, x: nat)
    requires x < |v.events|
  {
    forall y | 0 <= y < x :: v.events[y].account != v.events[x].account || Slot(v, v.events[y]) != Slot(v, v.events[x])
  }

  ghost predicate AllFit(accounts: seq<Account>, v: GroupView, x: nat)
    requires |v.history| > 0
  {
    forall y | 0 <= y < x && y < |v.events| :: EventFits(accounts, v, v.events[y])
  }

  /** The entry loop: every entry fits one empty cell of the tables. */
  method FillTables(accounts: seq<Account>, v: GroupView) returns (ok: bool, tables: VersionTables)
    requires |v.history| > 0 && DistinctAccounts(v)
    ensures tables.Valid() && tables.history == |v.history| && tables.count == |AccountsOf(v.reservation)|
    ensures ok <==> AllFit(accounts, v, |v.events|) && Distinct(v, |v.events|)
    ensures ok ==> Holds(tables.Cells(), v, v.events)
  {
    tables := new VersionTables(|v.history|, |AccountsOf(v.reservation)|);
    for x := 0 to |v.events|
      invariant tables.Valid() && tables.history == |v.history| && tables.count == |AccountsOf(v.reservation)|
      invariant fresh(tables.reserves) && fresh(tables.adjustments) && fresh(tables.closings)
      invariant AllFit(accounts, v, x) && Distinct(v, x)
      invariant Holds(tables.Cells(), v, v.events[..x])
    {
      ok := RecordEntry(accounts, v, tables, x);
      if !ok {
        return;
      }
    }
    ok := true;
    assert v.events[..|v.events|] == v.events;
  }

  // The account loop

  /** The version of a slot exceeds the one before it; the closing entry may share it. */
  ghost predicate Ordered(cells: Cells, v: GroupView, i: nat, slot: nat)
    requires CellsOf(cells, v) && slot < SlotCount(v) && i < |AccountsOf(v.reservation)|
  {
    && cells[(slot, i)].Some?
    && (slot > 0 ==>
          && cells[(slot - 1, i)].Some?
          && if slot < |v.history| then cells[(slot - 1, i)].value < cells[(slot, i)].value
             else cells[(slot - 1, i)].value <= cells[(slot, i)].value)
  }

  ghost predicate AccountOrdered(cells: Cells, v: GroupView, i: nat, count: nat)
    requires CellsOf(cells, v) && count <= SlotCount(v) && i < |AccountsOf(v.reservation)|
  {
    forall slot: nat | slot < count :: Ordered(cells, v, i, slot)
  }

  ghost predicate AccountsOrdered(cells: Cells, v: GroupView, n: nat)
    requires CellsOf(cells, v) && n <= |AccountsOf(v.reservation)|
  {
    forall i: nat | i < n :: AccountOrdered(cells, v, i, SlotCount(v))
  }

  lemma SameCells(tables: VersionTables, v: GroupView)
    requires tables.Valid() && tables.history == |v.history| && tables.count == |AccountsOf(v.reservation)|
    ensures CellsOf(tables.Cells(), v)
  {
  }

  lemma OrderedStep(cells: Cells, v: GroupView, i: nat, slot: nat)
    requires CellsOf(cells, v) && slot < SlotCount(v) && i < |AccountsOf(v.reservation)|
    ensures AccountOrdered(cells, v, i, slot + 1) == (AccountOrdered(cells, v, i, slot) && Ordered(cells, v, i, slot))
    ensures !Ordered(cells, v, i, slot) ==> !AccountOrdered(cells, v, i, SlotCount(v))
    ensures AccountOrdered(cells, v, i, 0)
  {
    hide Ordered, SlotCount, CellsOf;
  }

  method CheckAccount(v: GroupView, tables: VersionTables, i: nat) returns (ok: bool)
    requires |v.history| > 0 && i < |AccountsOf(v.reservation)|
    requires tables.Valid() && tables.history == |v.history| && tables.count == |AccountsOf(v.reservation)|
    ensures ok <==> AccountOrdered(tables.Cells(), v, i, SlotCount(v))
  {
    hide AccountOrdered, Closing, VersionTables.Cells, VersionTables.Cell;
    ghost var cells := tables.Cells();
    assert CellsOf(cells, v) by { SameCells(tables, v); }
    OrderedStep(cells, v, i, 0);
    var reserve := tables.Read(0, i);
    if reserve.None? {
      return false;
    }
    var prior := reserve.value;
    for revision := 1 to |v.history|
      invariant cells[(revision - 1, i)] == Some(prior)
      invariant AccountOrdered(cells, v, i, revision)
    {
      OrderedStep(cells, v, i, revision);
      var adjustment := tables.Read(revision, i);
      if adjustment.None? || adjustment.value <= prior {
        return false;
      }
      prior := adjustment.value;
    }
    if Closing(v).Some? {
      OrderedStep(cells, v, i, |v.history|);
      var closing := tables.Read(|v.history|, i);
      if closing.None? || closing.value < prior {
        return false;
      }
    }
    return true;
  }

  method CheckAccounts(v: GroupView, tables: VersionTables) returns (ok: bool)
    requires |v.history| > 0
    requires tables.Valid() && tables.history == |v.history| && tables.count == |AccountsOf(v.reservation)|
    ensures ok <==> AccountsOrdered(tables.Cells(), v, |AccountsOf(v.reservation)|)
  {
    hide AccountOrdered;
    for i := 0 to |AccountsOf(v.reservation)|
      invariant AccountsOrdered(tables.Cells(), v, i)
    {
      ok := CheckAccount(v, tables, i);
      if !ok {
        return;
      }
    }
    ok := true;
  }

  // The whole pass decides EventsValid

  lemma OrderedIsValid(accounts: seq<Account>, v: GroupView, cells: Cells)
    requires |v.history| > 0 && CellsOf(cells, v) && Holds(cells, v, v.events)
    requires AllFit(accounts, v, |v.events|) && AccountsOrdered(cells, v, |AccountsOf(v.reservation)|)
    ensures forall i, slot: nat | 0 <= i < |AccountsOf(v.reservation)| && slot < SlotCount(v) ::
              SlotFilled(v, v.events, AccountsOf(v.reservation)[i], slot)
    ensures forall x, y | 0 <= x < |v.events| && 0 <= y < |v.events| :: VersionsFollow(v, x, y)
  {
    forall i: nat, slot: nat | i < |AccountsOf(v.reservation)| && slot < SlotCount(v)
      ensures SlotFilled(v, v.events, AccountsOf(v.reservation)[i], slot)
    {
      assert AccountOrdered(cells, v, i, SlotCount(v));
      assert Ordered(cells, v, i, slot);
    }
    forall x: nat, y: nat | x < |v.events| && y < |v.events|
      ensures VersionsFollow(v, x, y)
    {
      FollowsOrder(accounts, v, cells, x, y);
    }
  }

  lemma FollowsOrder(accounts: seq<Account>, v: GroupView, cells: Cells, x: nat, y: nat)
    requires |v.history| > 0 && CellsOf(cells, v) && Holds(cells, v, v.events)
    requires AllFit(accounts, v, |v.events|) && AccountsOrdered(cells, v, |AccountsOf(v.reservation)|)
    requires x < |v.events| && y < |v.events|
    ensures VersionsFollow(v, x, y)
  {
    hide Slot, Holds, EventFits, AccountsOrdered, CellsOf;
    var before, after := Slot(v, v.events[x]), Slot(v, v.events[y]);
    if v.events[x].account == v.events[y].account && before.Some? && after == Some(before.value + 1) {
      var i := RecordedAt(accounts, v, cells, x);
      var j := RecordedAt(accounts, v, cells, y);
      OrderedAt(cells, v, j, after.value);
      RecordedThere(v, cells, x, j);
    }
  }

  /** Where an entry that fits was recorded. */
  lemma RecordedAt(accounts: seq<Account>, v: GroupView, cells: Cells, x: nat) returns (i: nat)
    requires |v.history| > 0 && CellsOf(cells, v) && Holds(cells, v, v.events) && x < |v.events|
    requires AllFit(accounts, v, |v.events|)
    ensures i < |AccountsOf(v.reservation)| && AccountsOf(v.reservation)[i] == v.events[x].account
    ensures Slot(v, v.events[x]).Some? && Slot(v, v.events[x]).value < SlotCount(v)
    ensures Slot(v, v.events[x]).value <= |v.history|
    ensures (Slot(v, v.events[x]).value, i) in cells
    ensures cells[(Slot(v, v.events[x]).value, i)] == Some(v.events[x].version)
  {
    hide Slot, SlotAmount, SlotDelta, SlotCount;
    assert EventFits(accounts, v, v.events[x]);
    assert Recorded(cells, v, v.events[x]);
    i :| i < |AccountsOf(v.reservation)| && AccountsOf(v.reservation)[i] == v.events[x].account;
  }

  lemma RecordedThere(v: GroupView, cells: Cells, x: nat, i: nat)
    requires CellsOf(cells, v) && Holds(cells, v, v.events) && x < |v.events|
    requires i < |AccountsOf(v.reservation)| && AccountsOf(v.reservation)[i] == v.events[x].account
    ensures Slot(v, v.events[x]).Some? && Slot(v, v.events[x]).value <= |v.history|
    ensures (Slot(v, v.events[x]).value, i) in cells
    ensures cells[(Slot(v, v.events[x]).value, i)] == Some(v.events[x].version)
  {
    hide Slot;
    assert Recorded(cells, v, v.events[x]);
  }

  lemma OrderedAt(cells: Cells, v: GroupView, i: nat, slot: nat)
    requires CellsOf(cells, v) && AccountsOrdered(cells, v, |AccountsOf(v.reservation)|)
    requires i < |AccountsOf(v.reservation)| && slot < SlotCount(v)
    ensures Ordered(cells, v, i, slot)
  {
    hide Ordered, SlotCount, CellsOf;
    assert AccountOrdered(cells, v, i, SlotCount(v));
  }

  lemma ValidIsOrdered(accounts: seq<Account>, v: GroupView, cells: Cells)
    requires |v.history| > 0 && CellsOf(cells, v) && Holds(cells, v, v.events) && EventsValid(accounts, v)
    ensures AccountsOrdered(cells, v, |AccountsOf(v.reservation)|)
  {
    hide EventsValid, Holds, CellsOf, Ordered, Slot;
    forall i: nat, slot: nat | i < |AccountsOf(v.reservation)| && slot < SlotCount(v)
      ensures Ordered(cells, v, i, slot)
    {
      EntriesOrdered(accounts, v, cells, i, slot);
    }
  }

  lemma EntriesOrdered(accounts: seq<Account>, v: GroupView, cells: Cells, i: nat, slot: nat)
    requires |v.history| > 0 && CellsOf(cells, v) && Holds(cells, v, v.events) && EventsValid(accounts, v)
    requires i < |AccountsOf(v.reservation)| && slot < SlotCount(v)
    ensures Ordered(cells, v, i, slot)
  {
    hide EventsValid, Holds, Slot;
    var x := CellEntry(accounts, v, cells, i, slot);
    if slot > 0 {
      var y := CellEntry(accounts, v, cells, i, slot - 1);
      ValidFollows(accounts, v, y, x);
    }
  }

  lemma ValidFollows(accounts: seq<Account>, v: GroupView, x: nat, y: nat)
    requires |v.history| > 0 && EventsValid(accounts, v) && x < |v.events| && y < |v.events|
    ensures VersionsFollow(v, x, y)
  {
    hide VersionsFollow, EventFits, SlotFilled, SlotCount, Slot;
  }

  /** The entry a filled slot was recorded from. */
  lemma CellEntry(accounts: seq<Account>, v: GroupView, cells: Cells, i: nat, slot: nat) returns (x: nat)
    requires |v.history| > 0 && CellsOf(cells, v) && Holds(cells, v, v.events) && EventsValid(accounts, v)
    requires i < |AccountsOf(v.reservation)| && slot < SlotCount(v)
    ensures x < |v.events| && SameSlot(v, v.events[x], AccountsOf(v.reservation)[i], slot)
    ensures cells[(slot, i)] == Some(v.events[x].version)
  {
    assert SlotFilled(v, v.events, AccountsOf(v.reservation)[i], slot);
    x :| x < |v.events| && SameSlot(v, v.events[x], AccountsOf(v.reservation)[i], slot);
    assert Recorded(cells, v, v.events[x]);
  }

  /** The ledger pass accepts exactly the event groups that the specification calls valid. */
  method ValidateEvents(accounts: seq<Account>, v: GroupView) returns (ok: bool)
    requires |v.history| > 0 && DistinctAccounts(v)
    ensures ok <==> EventsValid(accounts, v)
  {
    hide EventFits, Slot, Closing, Holds, AccountsOrdered, SlotFilled, VersionsFollow, CellsOf;
    if |v.events| != |AccountsOf(v.reservation)| * SlotCount(v) {
      return false;
    }
    var tables;
    ok, tables := FillTables(accounts, v);
    if !ok {
      return;
    }
    ok := CheckAccounts(v, tables);
    SameCells(tables, v);
    if ok {
      OrderedIsValid(accounts, v, tables.Cells());
    } else if EventsValid(accounts, v) {
      ValidIsOrdered(accounts, v, tables.Cells());
    }
  }

  // The evidence loop

  /** The rows seen so far pass, and the two flags say what was among them. */
  ghost predicate EvidenceSeen(v: GroupView, seen: set<EvidenceHash>, conflict: bool, settled: bool) {
    && (forall hash | hash in seen :: hash in v.evidence && EvidenceRowValid(v, hash) && TaskAgrees(v, hash))
    && (conflict <==> exists hash :: hash in seen && hash in v.evidence && v.evidence[hash].kind == ConflictRecord)
    && (settled <==> v.settlement.Some? && v.settlement.value.hash in seen && v.settlement.value.hash in v.evidence
                     && v.evidence[v.settlement.value.hash].kind == ReceiptRecord)
  }

  method ValidateEvidence(v: GroupView) returns (ok: bool)
    ensures ok <==> EvidenceValid(v)
  {
    hide EvidenceRowValid, TaskAgrees;
    var hasConflict, hasSettlement := false, false;
    var pending := v.evidence.Keys;
    ghost var seen: set<EvidenceHash> := {};
    while pending != {}
      invariant pending + seen == v.evidence.Keys && pending !! seen
      invariant EvidenceSeen(v, seen, hasConflict, hasSettlement)
      decreases pending
    {
      var hash :| hash in pending;
      if !EvidenceRowValid(v, hash) || !TaskAgrees(v, hash) {
        return false;
      }
      var row := v.evidence[hash];
      if row.kind == ConflictRecord {
        hasConflict := true;
      } else if v.settlement.Some? && v.settlement.value.hash == hash {
        hasSettlement := true;
      }
      pending := pending - {hash};
      seen := seen + {hash};
    }
    if (v.step.fin == FinConflict) != hasConflict {
      return false;
    }
    if v.reservation.state == HoldCommitted && !hasSettlement {
      return false;
    }
    return true;
  }

  // The whole check

  lemma {:induction false} FirstHoldScope(
    accounts: seq<Account>, events: seq<Entry>, scope: Scope, user: Id, key: Option<Id>)
    ensures |FirstHold(accounts, events, scope, user, key)| <= 1
    ensures forall a | a in FirstHold(accounts, events, scope, user, key) :: a < |accounts| && accounts[a].scope == scope
  {
    if events != [] {
      FirstHoldScope(accounts, events[1..], scope, user, key);
    }
  }

  lemma AgreedDistinct(accounts: seq<Account>, v: GroupView)
    requires AccountsAgree(accounts, v)
    ensures DistinctAccounts(v)
  {
    FirstHoldScope(accounts, v.events, KeyScope, v.identity.user, Some(v.step.auth.key));
    FirstHoldScope(accounts, v.events, UserCapScope, v.identity.user, None);
    var key := FirstHold(accounts, v.events, KeyScope, v.identity.user, Some(v.step.auth.key));
    var cap := FirstHold(accounts, v.events, UserCapScope, v.identity.user, None);
    if |key + cap| > 1 {
      assert key[0] in key && cap[0] in cap;
    }
  }

  /** validate_v2_quota_event_group on a loaded group: its passes in order decide exactly what ViewValid says. */
  method ValidateGroup(accounts: seq<Account>, v: GroupView) returns (ok: bool)
    ensures ok <==> ViewValid(accounts, v)
  {
    hide OwnersAgree, HistoryValid, KindValid, AccountsAgree, LifecycleValid, EventsValid, SettlementValid, EvidenceValid;
    if !OwnersAgree(v) || v.step.auth.hold < 0 || v.step.digest != AuthorizationDigest(CurrentAuthorization(v))
       || !HistoryValid(v) || !KindValid(v) || !AccountsAgree(accounts, v) || !LifecycleValid(v)
    {
      return false;
    }
    AgreedDistinct(accounts, v);
    HasHistory(v);
    ok := ValidateEvents(accounts, v);
    if !ok || !SettlementValid(v) {
      return false;
    }
    ok := ValidateEvidence(v);
  }

  lemma HasHistory(v: GroupView)
    requires HistoryValid(v)
    ensures |v.history| > 0
  {
  }
}
