/**
  The conservation law of an account: when the entries of every hold net to what its state says, as those of an
  event group that passes the integrity check do, then what is available, held and settled on an account adds
  up to what was granted to it.
 */
module Money {
  import opened Wrappers
  import opened Model
  import opened Ledger
  import opened EventGroup
  import opened Telescoping
  import opened Invariant

  // What one event group leaves on an account

  /** The balance the entries leave, with committed charges added back. */
  function Net(es: seq<Entry>, account: nat): int {
    Available(es, account) + SettledOn(es, account)
  }

  predicate CommitsTo(e: Entry, account: nat) {
    e.account == account && e.kind == CommitEvent
  }

  lemma {:induction false} NoCommits(es: seq<Entry>, account: nat)
    requires forall x | 0 <= x < |es| :: !CommitsTo(es[x], account)
    ensures SettledOn(es, account) == 0
  {
    if es != [] {
      NoCommits(es[..|es| - 1], account);
    }
  }

  lemma {:induction false} OneCommit(es: seq<Entry>, account: nat, x: nat)
    requires x < |es| && CommitsTo(es[x], account)
    requires forall y | 0 <= y < |es| && y != x :: !CommitsTo(es[y], account)
    ensures SettledOn(es, account) == es[x].amount
  {
    var last := |es| - 1;
    if x == last {
      NoCommits(es[..last], account);
    } else {
      assert !CommitsTo(es[last], account);
      OneCommit(es[..last], account, x);
    }
  }

  /** A committed group has exactly one commit entry on each of its accounts, any other group none. */
  lemma CommitEntry(accounts: seq<Account>, v: GroupView, account: nat) returns (x: nat)
    requires |v.history| > 0 && LifecycleValid(v) && EventsValid(accounts, v)
    requires account in AccountsOf(v.reservation) && v.reservation.state == HoldCommitted
    ensures x < |v.events| && CommitsTo(v.events[x], account)
    ensures v.events[x].amount == v.step.actual.value
    ensures v.events[x].delta == v.step.auth.hold - v.step.actual.value
    ensures forall y | 0 <= y < |v.events| && y != x :: !CommitsTo(v.events[y], account)
  {
    assert forall y | 0 <= y < |v.events| :: EventFits(accounts, v, v.events[y]);
    var i :| 0 <= i < |AccountsOf(v.reservation)| && AccountsOf(v.reservation)[i] == account;
    assert SlotFilled(v, v.events, AccountsOf(v.reservation)[i], |v.history|);
    x :| x < |v.events| && SameSlot(v, v.events[x], account, |v.history|);
    forall y | 0 <= y < |v.events| && y != x
      ensures !CommitsTo(v.events[y], account)
    {
      assert EventFits(accounts, v, v.events[y]);
    }
  }

  lemma OtherwiseNoCommits(accounts: seq<Account>, v: GroupView, account: nat)
    requires |v.history| > 0 && LifecycleValid(v) && EventsValid(accounts, v)
    requires account !in AccountsOf(v.reservation) || v.reservation.state != HoldCommitted
    ensures forall x | 0 <= x < |v.events| :: !CommitsTo(v.events[x], account)
  {
    assert forall x | 0 <= x < |v.events| :: EventFits(accounts, v, v.events[x]);
  }

  lemma GroupCommits(accounts: seq<Account>, v: GroupView, account: nat)
    requires |v.history| > 0 && LifecycleValid(v) && EventsValid(accounts, v)
    ensures SettledOn(v.events, account)
            == if account in AccountsOf(v.reservation) && v.reservation.state == HoldCommitted
               then v.step.actual.value else 0
  {
    if account in AccountsOf(v.reservation) && v.reservation.state == HoldCommitted {
      var x := CommitEntry(accounts, v, account);
      OneCommit(v.events, account, x);
    } else {
      OtherwiseNoCommits(accounts, v, account);
      NoCommits(v.events, account);
    }
  }

  /** A group the check accepts nets to minus the hold that is still open on the account. */
  lemma GroupNets(accounts: seq<Account>, v: GroupView, account: nat)
    requires OwnersAgree(v) && HistoryValid(v) && LifecycleValid(v) && EventsValid(accounts, v)
    ensures Net(v.events, account) == -HoldShare(v.reservation, account)
  {
    GroupCommits(accounts, v, account);
    if account in AccountsOf(v.reservation) {
      GroupTelescopes(accounts, v, account);
    } else {
      forall x | 0 <= x < |v.events|
        ensures v.events[x].account != account
      {
        assert EventFits(accounts, v, v.events[x]);
      }
      NoEntriesNoBalance(v.events, account);
    }
  }

  // The whole ledger, hold by hold

  function SumOf(es: seq<Entry>, measure: Entry -> int): int {
    if es == [] then 0 else SumOf(es[..|es| - 1], measure) + measure(es[|es| - 1])
  }

  /** The measure summed over the events of the first `count` holds. */
  function SumOfHolds(ledger: seq<Entry>, count: nat, measure: Entry -> int): int {
    if count == 0 then 0
    else SumOfHolds(ledger, count - 1, measure) + SumOf(EventsOf(ledger, HoldGroup(count - 1)), measure)
  }

  lemma SumAppend(es: seq<Entry>, e: Entry, measure: Entry -> int)
    ensures SumOf(es + [e], measure) == SumOf(es, measure) + measure(e)
  {
    assert (es + [e])[..|es|] == es;
  }

  lemma {:induction false} NoEntriesSum(count: nat, measure: Entry -> int)
    ensures SumOfHolds([], count, measure) == 0
  {
    if count > 0 {
      NoEntriesSum(count - 1, measure);
    }
  }

  lemma EventsSum(ledger: seq<Entry>, e: Entry, i: nat, measure: Entry -> int)
    ensures SumOf(EventsOf(ledger + [e], HoldGroup(i)), measure)
            == SumOf(EventsOf(ledger, HoldGroup(i)), measure) + if e.group == HoldGroup(i) then measure(e) else 0
  {
    assert (ledger + [e])[..|ledger|] == ledger;
    var events := EventsOf(ledger, HoldGroup(i));
    SumAppend(events, e, measure);
    assert events + [] == events;
  }

  lemma {:induction false} EntrySums(ledger: seq<Entry>, e: Entry, count: nat, measure: Entry -> int)
    ensures SumOfHolds(ledger + [e], count, measure)
            == SumOfHolds(ledger, count, measure)
               + if e.group.HoldGroup? && e.group.reservation < count then measure(e) else 0
  {
    hide EventsOf, SumOf;
    if count > 0 {
      EntrySums(ledger, e, count - 1, measure);
      EventsSum(ledger, e, count - 1, measure);
    }
  }

  /** A measure that ignores grants is summed hold by hold: every other entry belongs to exactly one hold. */
  lemma {:induction false} LedgerSums(ledger: seq<Entry>, accountCount: nat, count: nat, measure: Entry -> int)
    requires LedgerSound(ledger, accountCount, count)
    requires forall e: Entry | e.kind == GrantEvent :: measure(e) == 0
    ensures SumOf(ledger, measure) == SumOfHolds(ledger, count, measure)
  {
    if ledger == [] {
      NoEntriesSum(count, measure);
    } else {
      var front, e := ledger[..|ledger| - 1], ledger[|ledger| - 1];
      assert EntrySound(e, accountCount, count);
      LedgerSums(front, accountCount, count, measure);
      assert front + [e] == ledger;
      EntrySums(front, e, count, measure);
    }
  }

  /** What an entry does to its account's balance, with a committed charge added back and grants ignored. */
  function NetOf(account: nat): Entry -> int {
    (e: Entry) => if e.account != account || e.kind == GrantEvent then 0
                  else e.delta + if e.kind == CommitEvent then e.amount else 0
  }

  lemma {:induction false} NetSum(es: seq<Entry>, account: nat)
    ensures SumOf(es, NetOf(account)) == Net(es, account) - GrantedOn(es, account)
  {
    if es != [] {
      NetSum(es[..|es| - 1], account);
    }
  }

  lemma {:induction false} NoGrants(es: seq<Entry>, account: nat)
    requires forall x | 0 <= x < |es| :: es[x].kind != GrantEvent
    ensures GrantedOn(es, account) == 0
  {
    if es != [] {
      NoGrants(es[..|es| - 1], account);
    }
  }

  // Charges beyond a hold, entry by entry

  /** By how much a commit entry takes its account below what was held. */
  function OverrunOf(account: nat): Entry -> int {
    (e: Entry) => if e.account == account && e.kind == CommitEvent && e.delta < 0 then -e.delta else 0
  }

  lemma {:induction false} NoOverruns(es: seq<Entry>, account: nat)
    requires forall x | 0 <= x < |es| :: !CommitsTo(es[x], account)
    ensures SumOf(es, OverrunOf(account)) == 0
  {
    if es != [] {
      NoOverruns(es[..|es| - 1], account);
    }
  }

  lemma {:induction false} OneOverrun(es: seq<Entry>, account: nat, x: nat)
    requires x < |es| && CommitsTo(es[x], account)
    requires forall y | 0 <= y < |es| && y != x :: !CommitsTo(es[y], account)
    ensures SumOf(es, OverrunOf(account)) == if es[x].delta < 0 then -es[x].delta else 0
  {
    var last := |es| - 1;
    if x == last {
      NoOverruns(es[..last], account);
    } else {
      assert !CommitsTo(es[last], account);
      OneOverrun(es[..last], account, x);
    }
  }

  lemma GroupOverruns(accounts: seq<Account>, v: GroupView, account: nat)
    requires HistoryValid(v) && LifecycleValid(v) && EventsValid(accounts, v)
    ensures SumOf(v.events, OverrunOf(account))
            == if account in AccountsOf(v.reservation) && v.reservation.state == HoldCommitted
                  && v.step.actual.value > v.step.auth.hold
               then v.step.actual.value - v.step.auth.hold else 0
  {
    if account in AccountsOf(v.reservation) && v.reservation.state == HoldCommitted {
      var x := CommitEntry(accounts, v, account);
      OneOverrun(v.events, account, x);
    } else {
      OtherwiseNoCommits(accounts, v, account);
      NoOverruns(v.events, account);
    }
  }

  // What the entries of a hold leave on an account

  /** The charge is the amount of its commit entries; an open hold takes its amount, a released one nothing. */
  ghost predicate HoldAccounted(es: seq<Entry>, hold: Reservation, account: nat) {
    var charged, actual := ChargedTo(hold, account), SettledOn(es, hold.keyAccount);
    var committed := charged && hold.state == HoldCommitted;
    && GrantedOn(es, account) == 0
    && SettledOn(es, account) == (if committed then actual else 0)
    && Available(es, account)
       == (if charged && Outstanding(hold.state) then -hold.amount else if committed then -actual else 0)
    && SumOf(es, OverrunOf(account)) == (if committed && actual > hold.amount then actual - hold.amount else 0)
  }

  ghost predicate HoldsAccounted(db: Db) {
    forall id: nat, account: nat | id < |db.reservations| ::
      HoldAccounted(EventsOf(db.ledger, HoldGroup(id)), db.reservations[id], account)
  }

  lemma GroupHasNoGrants(accounts: seq<Account>, v: GroupView)
    requires HistoryValid(v) && EventsValid(accounts, v)
    ensures forall x | 0 <= x < |v.events| :: v.events[x].kind != GrantEvent
  {
    assert forall x | 0 <= x < |v.events| :: EventFits(accounts, v, v.events[x]);
  }

  lemma GroupElsewhere(accounts: seq<Account>, v: GroupView, account: nat)
    requires HistoryValid(v) && EventsValid(accounts, v) && account !in AccountsOf(v.reservation)
    ensures Available(v.events, account) == 0
  {
    forall x | 0 <= x < |v.events|
      ensures v.events[x].account != account
    {
      assert EventFits(accounts, v, v.events[x]);
    }
    NoEntriesNoBalance(v.events, account);
  }

  /** The entries of an accepted group are worth what the state of its reservation says. */
  lemma GroupAccounted(accounts: seq<Account>, v: GroupView, account: nat)
    requires OwnersAgree(v) && HistoryValid(v) && LifecycleValid(v) && EventsValid(accounts, v)
    ensures HoldAccounted(v.events, v.reservation, account)
  {
    hide EventsValid, OverrunOf, NetOf, HistoryValid, Available, SettledOn, GrantedOn;
    HasRevisions(v);
    GroupHasNoGrants(accounts, v);
    NoGrants(v.events, account);
    GroupCommits(accounts, v, account);
    GroupCommits(accounts, v, v.reservation.keyAccount);
    GroupOverruns(accounts, v, account);
    if account in AccountsOf(v.reservation) {
      GroupTelescopes(accounts, v, account);
    } else {
      GroupElsewhere(accounts, v, account);
    }
  }

  lemma HasRevisions(v: GroupView)
    requires HistoryValid(v)
    ensures |v.history| > 0
  {
  }

  /** So are the entries of every step of a sound state, bound late or not. */
  lemma StepAccounted(db: Db, id: nat, account: nat)
    requires Inv(db) && OwnedByStep(db, id)
    ensures HoldAccounted(EventsOf(db.ledger, HoldGroup(id)), db.reservations[id], account)
  {
    hide EventsOf, HoldAccounted, Sound, StepView, StepsSound, LedgerSound, BudgetIdsUnique, ReferencesSound;
    var r := db.reservations[id].request;
    SoundStep(db, r);
    ViewParts(db, r);
    SoundAccounted(db.accounts, StepView(db, r), account);
  }

  lemma SoundAccounted(accounts: seq<Account>, v: GroupView, account: nat)
    requires Sound(accounts, v)
    ensures HoldAccounted(v.events, v.reservation, account)
  {
    hide EventsExact, HoldAccounted, EvidenceSound, HistoryValid;
    HasRevisions(v);
    ExactEventsValid(accounts, v);
    GroupAccounted(accounts, v, account);
  }

  // Conservation

  /** Available + held + settled. */
  function AllocatedOn(db: Db, account: nat): int {
    Available(db.ledger, account) + HeldOn(db.reservations, account) + SettledOn(db.ledger, account)
  }

  predicate Balanced(db: Db, account: nat) {
    AllocatedOn(db, account) == GrantedOn(db.ledger, account)
  }

  /** What is on the account beyond what administrators granted: nothing, where credits are conserved. */
  function Excess(db: Db, account: nat): int {
    AllocatedOn(db, account) - GrantedOn(db.ledger, account)
  }

  /** What the entries of one hold leave on the account, with the hold itself added back. */
  function HoldExcess(db: Db, id: nat, account: nat): int
    requires id < |db.reservations|
  {
    SumOf(EventsOf(db.ledger, HoldGroup(id)), NetOf(account)) + HoldShare(db.reservations[id], account)
  }

  function HoldsExcess(db: Db, count: nat, account: nat): int
    requires count <= |db.reservations|
  {
    if count == 0 then 0 else HoldsExcess(db, count - 1, account) + HoldExcess(db, count - 1, account)
  }

  lemma {:induction false} HoldsNet(db: Db, count: nat, account: nat)
    requires count <= |db.reservations|
    ensures SumOfHolds(db.ledger, count, NetOf(account)) + HeldOn(db.reservations[..count], account)
            == HoldsExcess(db, count, account)
  {
    hide EventsOf, NetOf;
    if count > 0 {
      HoldsNet(db, count - 1, account);
      assert db.reservations[..count][..count - 1] == db.reservations[..count - 1];
    }
  }

  /** The excess of an account is that of its holds: no entry is lost, and none is counted twice. */
  lemma ExcessByHolds(db: Db, account: nat)
    requires LedgerSound(db.ledger, |db.accounts|, |db.reservations|)
    ensures Excess(db, account) == HoldsExcess(db, |db.reservations|, account)
  {
    LedgerSums(db.ledger, |db.accounts|, |db.reservations|, NetOf(account));
    NetSum(db.ledger, account);
    HoldsNet(db, |db.reservations|, account);
    assert db.reservations[..|db.reservations|] == db.reservations;
  }

  lemma AccountedExcess(db: Db, id: nat, account: nat)
    requires id < |db.reservations|
    requires HoldAccounted(EventsOf(db.ledger, HoldGroup(id)), db.reservations[id], account)
    ensures HoldExcess(db, id, account) == 0
  {
    hide EventsOf, NetOf, OverrunOf;
    NetSum(EventsOf(db.ledger, HoldGroup(id)), account);
  }

  lemma {:induction false} NoExcess(db: Db, count: nat, account: nat)
    requires HoldsAccounted(db) && count <= |db.reservations|
    ensures HoldsExcess(db, count, account) == 0
  {
    hide HoldAccounted, HoldExcess;
    if count > 0 {
      NoExcess(db, count - 1, account);
      AccountedExcess(db, count - 1, account);
    }
  }

  /**
    Conservation: on every account, available + held + settled is what administrators granted, in every state in
    which the entries of every hold are worth what its state says.
   */
  lemma Conservation(db: Db, account: nat)
    requires HoldsAccounted(db) && LedgerSound(db.ledger, |db.accounts|, |db.reservations|)
    ensures Balanced(db, account)
  {
    hide HoldsAccounted;
    ExcessByHolds(db, account);
    NoExcess(db, |db.reservations|, account);
  }

  // Charges beyond the hold

  /** What a committed hold was charged. */
  function ChargeOn(db: Db, id: nat): int
    requires id < |db.reservations|
  {
    SettledOn(EventsOf(db.ledger, HoldGroup(id)), db.reservations[id].keyAccount)
  }

  /** For a V2 step that is the actual amount of its settlement. */
  lemma StepCharge(db: Db, id: nat)
    requires Inv(db) && OwnedByStep(db, id) && db.reservations[id].state == HoldCommitted
    ensures db.reservations[id].request in db.settlements
    ensures ChargeOn(db, id) == db.settlements[db.reservations[id].request].actual
  {
    hide EventsOf, Sound, StepView, StepsSound, LedgerSound, BudgetIdsUnique, ReferencesSound;
    var r := db.reservations[id].request;
    SoundStep(db, r);
    ViewParts(db, r);
    SoundCharge(db.accounts, StepView(db, r));
  }

  lemma SoundCharge(accounts: seq<Account>, v: GroupView)
    requires Sound(accounts, v) && v.reservation.state == HoldCommitted
    ensures v.settlement.Some? && SettledOn(v.events, v.reservation.keyAccount) == v.settlement.value.actual
  {
    hide EventsExact, EvidenceSound, HistoryValid;
    HasRevisions(v);
    ExactEventsValid(accounts, v);
    GroupCommits(accounts, v, v.reservation.keyAccount);
  }

  /** max(0, charge - hold) for a reservation on the account that was charged, 0 for every other one. */
  function OverHold(db: Db, id: nat, account: nat): int
    requires id < |db.reservations|
  {
    var hold := db.reservations[id];
    if ChargedTo(hold, account) && ChargeOn(db, id) > hold.amount
    then ChargeOn(db, id) - hold.amount else 0
  }

  function OverHolds(db: Db, count: nat, account: nat): int
    requires count <= |db.reservations|
  {
    if count == 0 then 0 else OverHolds(db, count - 1, account) + OverHold(db, count - 1, account)
  }

  /** The commit entries of a hold overrun it by no more than they charge beyond it all together. */
  predicate OverrunBounded(db: Db, id: nat, account: nat)
    requires id < |db.reservations|
  {
    SumOf(EventsOf(db.ledger, HoldGroup(id)), OverrunOf(account)) <= OverHold(db, id, account)
  }

  lemma AccountedOverrun(db: Db, id: nat, account: nat)
    requires id < |db.reservations| && db.reservations[id].amount >= 0
    requires HoldAccounted(EventsOf(db.ledger, HoldGroup(id)), db.reservations[id], account)
    ensures OverrunBounded(db, id, account)
  {
    hide EventsOf, OverrunOf;
  }

  lemma {:induction false} HoldsOverrun(db: Db, count: nat, account: nat)
    requires count <= |db.reservations| && forall id: nat | id < count :: OverrunBounded(db, id, account)
    ensures SumOfHolds(db.ledger, count, OverrunOf(account)) <= OverHolds(db, count, account)
  {
    hide EventsOf, OverrunOf, OverHold;
    if count > 0 {
      HoldsOverrun(db, count - 1, account);
      assert OverrunBounded(db, count - 1, account);
    }
  }

  /** The overruns on the ledger are no more than the charges beyond the holds of the reservations. */
  lemma Overruns(db: Db, account: nat)
    requires forall id: nat | id < |db.reservations| :: OverrunBounded(db, id, account)
    requires LedgerSound(db.ledger, |db.accounts|, |db.reservations|)
    ensures SumOf(db.ledger, OverrunOf(account)) <= OverHolds(db, |db.reservations|, account)
  {
    hide OverrunBounded;
    LedgerSums(db.ledger, |db.accounts|, |db.reservations|, OverrunOf(account));
    HoldsOverrun(db, |db.reservations|, account);
  }

  /** Where charges beyond the holds add up to something, one of them does. */
  lemma {:induction false} SomeOverHold(db: Db, count: nat, account: nat) returns (id: nat)
    requires count <= |db.reservations| && OverHolds(db, count, account) > 0
    ensures id < count && OverHold(db, id, account) > 0
  {
    if OverHold(db, count - 1, account) > 0 {
      id := count - 1;
    } else {
      id := SomeOverHold(db, count - 1, account);
    }
  }
}
