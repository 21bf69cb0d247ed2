/** What an accepted event group is worth: its entries cancel down to the open hold or to the final charge. */
module Telescoping {
  import opened Wrappers
  import opened Model
  import opened Ledger
  import opened EventGroup

  function SlotSum(v: GroupView, count: nat): int
    requires |v.history| > 0 && count <= SlotCount(v)
  {
    if count == 0 then 0 else SlotSum(v, count - 1) + SlotDelta(v, count - 1)
  }

  lemma {:induction false} AdoptionsTelescope(v: GroupView, count: nat)
    requires 0 < count <= |v.history|
    ensures SlotSum(v, count) == -v.history[count - 1].hold
  {
    if count > 1 {
      AdoptionsTelescope(v, count - 1);
    } else {
      assert SlotSum(v, 0) == 0;
    }
  }

  lemma {:induction false} RemoveEntry(es: seq<Entry>, x: nat, account: nat)
    requires x < |es|
    ensures Available(es, account)
            == Available(es[..x] + es[x + 1..], account) + if es[x].account == account then es[x].delta else 0
  {
    var last := |es| - 1;
    if x == last {
      assert es[..x] + es[x + 1..] == es[..last];
    } else {
      RemoveEntry(es[..last], x, account);
      assert (es[..x] + es[x + 1..])[..last - 1] == es[..last][..x] + es[..last][x + 1..];
    }
  }

  /** The account's entries in `es` are one for each of the first `count` slots. */
  predicate OnePerSlot(v: GroupView, es: seq<Entry>, account: nat, count: nat)
    requires |v.history| > 0 && count <= SlotCount(v)
  {
    && (forall x | 0 <= x < |es| && es[x].account == account ::
          Slot(v, es[x]).Some? && Slot(v, es[x]).value < count && es[x].delta == SlotDelta(v, Slot(v, es[x]).value))
    && (forall x, y | 0 <= x < y < |es| && es[x].account == account && es[y].account == account ::
          Slot(v, es[x]) != Slot(v, es[y]))
    && (forall slot: nat | slot < count :: SlotFilled(v, es, account, slot))
  }

  lemma {:induction false} NoEntriesNoBalance(es: seq<Entry>, account: nat)
    requires forall x | 0 <= x < |es| :: es[x].account != account
    ensures Available(es, account) == 0
  {
    if es != [] {
      NoEntriesNoBalance(es[..|es| - 1], account);
    }
  }

  function Without(es: seq<Entry>, x: nat): seq<Entry>
    requires x < |es|
  {
    es[..x] + es[x + 1..]
  }

  lemma WithoutAt(es: seq<Entry>, x: nat, y: nat)
    requires x < |es| && y < |es| - 1
    ensures Without(es, x)[y] == es[if y < x then y else y + 1]
  {
  }

  lemma WithoutKeepsSlot(v: GroupView, es: seq<Entry>, x: nat, account: nat, slot: nat)
    requires x < |es| && SlotFilled(v, es, account, slot) && !SameSlot(v, es[x], account, slot)
    ensures SlotFilled(v, Without(es, x), account, slot)
  {
    var y :| 0 <= y < |es| && SameSlot(v, es[y], account, slot);
    var y' := if y < x then y else y - 1;
    WithoutAt(es, x, y');
    assert SameSlot(v, Without(es, x)[y'], account, slot);
  }

  lemma DropTopSlot(v: GroupView, es: seq<Entry>, account: nat, count: nat, x: nat)
    requires |v.history| > 0 && 0 < count <= SlotCount(v)
    requires OnePerSlot(v, es, account, count)
    requires x < |es| && SameSlot(v, es[x], account, count - 1)
    ensures OnePerSlot(v, Without(es, x), account, count - 1)
  {
    var rest := Without(es, x);
    forall y: nat | y < |rest| && rest[y].account == account
      ensures Slot(v, rest[y]).Some? && Slot(v, rest[y]).value < count - 1
      ensures rest[y].delta == SlotDelta(v, Slot(v, rest[y]).value)
    {
      WithoutAt(es, x, y);
    }
    forall y: nat, z: nat | y < z < |rest| && rest[y].account == account && rest[z].account == account
      ensures Slot(v, rest[y]) != Slot(v, rest[z])
    {
      WithoutAt(es, x, y);
      WithoutAt(es, x, z);
    }
    forall slot: nat | slot < count - 1
      ensures SlotFilled(v, rest, account, slot)
    {
      WithoutKeepsSlot(v, es, x, account, slot);
    }
  }

  lemma {:induction false} SumBySlots(v: GroupView, es: seq<Entry>, account: nat, count: nat)
    requires |v.history| > 0 && count <= SlotCount(v)
    requires OnePerSlot(v, es, account, count)
    ensures Available(es, account) == SlotSum(v, count)
    decreases count
  {
    if count == 0 {
      NoEntriesNoBalance(es, account);
    } else {
      assert SlotFilled(v, es, account, count - 1);
      var x: nat :| x < |es| && SameSlot(v, es[x], account, count - 1);
      RemoveEntry(es, x, account);
      DropTopSlot(v, es, account, count, x);
      SumBySlots(v, Without(es, x), account, count - 1);
    }
  }

  /**
    Whatever the order of the entries: on each of its accounts a group the check accepts sums to minus
    the current hold while the hold is open, to nothing once released, and to minus the actual amount
    once committed.
   */
  lemma GroupTelescopes(accounts: seq<Account>, v: GroupView, account: nat)
    requires OwnersAgree(v) && HistoryValid(v) && LifecycleValid(v) && EventsValid(accounts, v)
    requires account in AccountsOf(v.reservation)
    ensures Outstanding(v.reservation.state) ==> Available(v.events, account) == -v.reservation.amount
    ensures v.reservation.state == HoldReleased ==> Available(v.events, account) == 0
    ensures v.reservation.state == HoldCommitted ==> Available(v.events, account) == -v.step.actual.value
  {
    assert forall x | 0 <= x < |v.events| :: EventFits(accounts, v, v.events[x]);
    var i :| 0 <= i < |AccountsOf(v.reservation)| && AccountsOf(v.reservation)[i] == account;
    forall slot: nat | slot < SlotCount(v)
      ensures SlotFilled(v, v.events, account, slot)
    {
      assert SlotFilled(v, v.events, AccountsOf(v.reservation)[i], slot);
    }
    SumBySlots(v, v.events, account, SlotCount(v));
    AdoptionsTelescope(v, |v.history|);
  }
}
