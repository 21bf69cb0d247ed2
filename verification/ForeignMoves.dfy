/**
  What V1 billing and plain requests do to their holds. Each of their transactions takes one hold, closes one,
  suspends one, or none of it. The entries of such a hold are its reserve round and, once it is closed, its
  closing round, as long as no transaction reaches for a hold that is closed already.
 */
module ForeignMoves {
  import opened Wrappers
  import opened Model
  import opened Ledger
  import opened EventGroup
  import opened Billing
  import opened Holds
  import opened Invariant
  import opened Frame
  import opened Runs
  import opened Finality
  import opened Tables
  import opened Money
  import opened Solvency
  import opened Foreign

  ghost predicate RequestsKept(db: Db, db': Db) {
    forall q | q in db.requests ::
      && q in db'.requests
      && db'.requests[q].identity == db.requests[q].identity
      && db'.requests[q].createdAt == db.requests[q].createdAt
  }

  /** One transaction with this effect: requests may be added or change state, and Keys may be blocked. */
  ghost predicate Effected(db: Db, db': Db, e: Effect) {
    && EffectFits(db, e)
    && db' == db.(requests := db'.requests, blocks := db'.blocks, reservations := HoldsAfter(db, e),
                  ledger := LedgerAfter(db, e))
    && RequestsKept(db, db')
    && db.blocks <= db'.blocks
  }

  // To the V2 ledger it is other work

  lemma TakenReservations(db: Db, hold: Reservation)
    requires EffectFits(db, Take(hold)) && ReservationsSound(db.accounts, db.reservations)
    ensures ReservationsSound(db.accounts, db.reservations + [hold])
  {
    hide MinAvailable;
  }

  lemma MovedReservations(db: Db, id: nat, state: HoldState)
    requires id < |db.reservations| && ReservationsSound(db.accounts, db.reservations)
    ensures ReservationsSound(db.accounts, db.reservations[id := db.reservations[id].(state := state)])
  {
    var moved := db.reservations[id := db.reservations[id].(state := state)];
    forall i | 0 <= i < |moved|
      ensures AccountsKnown(db.accounts, AccountsOf(moved[i]))
    {
      assert AccountsKnown(db.accounts, AccountsOf(db.reservations[i]));
    }
  }

  lemma RoundIsForeign(db: Db, db': Db, hold: Reservation, kind: EventKind, amount: int, delta: int)
    requires kind != GrantEvent && hold.group.HoldGroup? && !OwnedByStep(db, hold.group.reservation)
    requires hold.group.reservation < |db'.reservations|
    requires AccountsKnown(db.accounts, AccountsOf(hold)) && |db'.accounts| == |db.accounts|
    requires db'.ledger == db.ledger + HoldEntries(db.accounts, hold, kind, amount, delta, None)
    ensures forall x | |db.ledger| <= x < |db'.ledger| :: ForeignEntry(db, db', db'.ledger[x])
  {
    var round := HoldEntries(db.accounts, hold, kind, amount, delta, None);
    forall x | |db.ledger| <= x < |db'.ledger|
      ensures ForeignEntry(db, db', db'.ledger[x])
    {
      assert db'.ledger[x] == round[x - |db.ledger|];
      assert round[x - |db.ledger|].account == AccountsOf(hold)[x - |db.ledger|];
    }
  }

  lemma EffectIsForeign(db: Db, db': Db, e: Effect)
    requires ReservationsSound(db.accounts, db.reservations) && Effected(db, db', e)
    ensures ForeignHoldsMove(db, db')
  {
    hide MinAvailable, RequestsKept, HoldEntries, ReservationsSound, HasReservation;
    match e
    case Nothing =>
    case Take(hold) =>
      TakenReservations(db, hold);
      RoundIsForeign(db, db', hold, ReserveEvent, hold.amount, -hold.amount);
    case Close(id, charge) =>
      MovedReservations(db, id, if charge.None? then HoldReleased else HoldCommitted);
      KnownHold(db, id);
      var hold := db.reservations[id];
      if charge.None? {
        RoundIsForeign(db, db', hold, ReleaseEvent, hold.amount, hold.amount);
      } else {
        RoundIsForeign(db, db', hold, CommitEvent, charge.value, hold.amount - charge.value);
      }
    case Doubt(id) => MovedReservations(db, id, HoldUnknown);
  }

  lemma KnownHold(db: Db, id: nat)
    requires ReservationsSound(db.accounts, db.reservations) && id < |db.reservations|
    ensures db.reservations[id].group == HoldGroup(id) && AccountsKnown(db.accounts, AccountsOf(db.reservations[id]))
  {
  }

  lemma EffectIsOtherWork(db: Db, db': Db, e: Effect)
    requires TablesSound(db) && Effected(db, db', e)
    ensures OtherWorkDone(db, db')
  {
    hide ForeignHoldsMove, EffectFits, ReservationsSound, LedgerSound, BudgetIdsUnique, ReferencesSound, AccountsShaped,
         StepLinked;
    EffectIsForeign(db, db', e);
  }

  // The entries of a hold

  /** The reserve round and, for a closed hold, the closing round, each under the versions of its time. */
  ghost predicate Booked(es: seq<Entry>, hold: Reservation, taken: seq<Account>, closed: seq<Account>, charge: int) {
    && charge >= 0
    && es == TakingRound(taken, hold)
             + if Outstanding(hold.state) then []
               else ClosingRound(closed, hold, if hold.state == HoldCommitted then Some(charge) else None)
  }

  ghost predicate HoldBooked(es: seq<Entry>, hold: Reservation) {
    exists taken, closed, charge :: Booked(es, hold, taken, closed, charge)
  }

  predicate HoldShaped(hold: Reservation) {
    hold.amount > 0 && hold.userCap != Some(hold.keyAccount)
  }

  ghost predicate ForeignShaped(db: Db) {
    forall id: nat | id < |db.reservations| && !OwnedByStep(db, id) ::
      HoldShaped(db.reservations[id]) && ScopesRight(db.accounts, db.reservations[id])
  }

  lemma BookedAccounted(
    es: seq<Entry>, hold: Reservation, taken: seq<Account>, closed: seq<Account>, charge: int, account: nat)
    requires Booked(es, hold, taken, closed, charge) && HoldShaped(hold)
    ensures HoldAccounted(es, hold, account)
    ensures hold.state == HoldCommitted ==> SettledOn(es, hold.keyAccount) == charge
  {
    hide Available, SettledOn, GrantedOn, SumOf, OverrunOf, HoldEntries;
    BookedSums(es, hold, taken, closed, charge, account);
    BookedSums(es, hold, taken, closed, charge, hold.keyAccount);
  }

  lemma NoSums(account: nat)
    ensures Available([], account) == SettledOn([], account) == GrantedOn([], account) == 0
    ensures SumOf([], OverrunOf(account)) == 0
  {
  }

  lemma BookedSums(
    es: seq<Entry>, hold: Reservation, taken: seq<Account>, closed: seq<Account>, charge: int, account: nat)
    requires Booked(es, hold, taken, closed, charge) && HoldShaped(hold)
    ensures var charged := ChargedTo(hold, account);
            var committed := charged && hold.state == HoldCommitted;
            && GrantedOn(es, account) == 0
            && SettledOn(es, account) == (if committed then charge else 0)
            && Available(es, account)
               == (if charged && Outstanding(hold.state) then -hold.amount else if committed then -charge else 0)
            && SumOf(es, OverrunOf(account)) == (if committed && charge > hold.amount then charge - hold.amount else 0)
  {
    hide Available, SettledOn, GrantedOn, SumOf, OverrunOf, HoldEntries;
    var first := Round(taken, hold, ReserveEvent, hold.amount, -hold.amount, None);
    NoSums(account);
    RoundOnAccount([], first, account);
    assert [] + RoundEntries(first) == RoundEntries(first);
    if !Outstanding(hold.state) {
      var last := if hold.state == HoldCommitted
                  then Round(closed, hold, CommitEvent, charge, hold.amount - charge, None)
                  else Round(closed, hold, ReleaseEvent, hold.amount, hold.amount, None);
      RoundOnAccount(RoundEntries(first), last, account);
      assert es == RoundEntries(first) + RoundEntries(last);
    } else {
      assert es == RoundEntries(first) by { assert RoundEntries(first) + [] == RoundEntries(first); }
    }
  }

  // Who keeps the books

  /** A hold no step owns was there before, and was no step's. */
  lemma OldUnowned(db: Db, db': Db, id: nat)
    requires ForeignKept(db, db') && Advances(db, db') && id < |db'.reservations| && !OwnedByStep(db', id)
    ensures id < |db.reservations| && !OwnedByStep(db, id)
  {
    hide EventsOf, OwnedByStep, StepHoldsAdvance, StepsAdvance, OperationsAdvance, ForeignSame;
    if OwnedByStep(db, id) {
      StillOwned(db, db', id);
    }
  }

  /** The V2 ledger keeps the accounts, amounts and charges of holds that are not its own. */
  lemma ScopesRemain(db: Db, db': Db, hold: Reservation)
    requires SameScopes(db, db', |db.accounts|) && ScopesRight(db.accounts, hold)
    ensures ScopesRight(db'.accounts, hold)
  {
  }

  lemma KeptShaped(db: Db, db': Db)
    requires ForeignKept(db, db') && Advances(db, db') && SameScopes(db, db', |db.accounts|) && ForeignShaped(db)
    ensures ForeignShaped(db')
  {
    hide EventsOf, HoldShaped, OwnedByStep, Advances, ScopesRight, SameScopes;
    forall id: nat | id < |db'.reservations| && !OwnedByStep(db', id)
      ensures HoldShaped(db'.reservations[id]) && ScopesRight(db'.accounts, db'.reservations[id])
    {
      OldUnowned(db, db', id);
      assert ForeignSame(db, db', id);
      ScopesRemain(db, db', db.reservations[id]);
    }
  }

  lemma KeptBounded(db: Db, db': Db)
    requires ForeignKept(db, db') && Advances(db, db') && ForeignBounded(db)
    ensures ForeignBounded(db')
  {
    hide EventsOf, OwnedByStep, Advances, ChargesBounded;
    forall id: nat | id < |db'.reservations| && !OwnedByStep(db', id)
      ensures ChargesBounded(EventsOf(db'.ledger, HoldGroup(id)), db'.reservations[id])
    {
      OldUnowned(db, db', id);
      assert ForeignSame(db, db', id);
    }
  }

  /** And what any hold leaves in excess. */
  lemma KeptHoldExcess(db: Db, db': Db, id: nat, account: nat)
    requires Inv(db) && Inv(db') && ForeignKept(db, db') && Advances(db, db')
    requires id < |db'.reservations|
    ensures HoldExcess(db', id, account) == if id < |db.reservations| then HoldExcess(db, id, account) else 0
  {
    hide Inv, EventsOf, OwnedByStep, StepHoldsAdvance, StepsAdvance, OperationsAdvance, HoldAccounted;
    if id < |db.reservations| && !OwnedByStep(db, id) {
      assert ForeignSame(db, db', id);
    } else {
      if id < |db.reservations| {
        StillOwned(db, db', id);
        StepAccounted(db, id, account);
        AccountedExcess(db, id, account);
      }
      StepAccounted(db', id, account);
      AccountedExcess(db', id, account);
    }
  }

  lemma {:induction false} KeptHoldsExcess(db: Db, db': Db, count: nat, account: nat)
    requires Inv(db) && Inv(db') && ForeignKept(db, db') && Advances(db, db')
    requires count <= |db'.reservations|
    ensures |db.reservations| <= |db'.reservations|
    ensures HoldsExcess(db', count, account)
            == HoldsExcess(db, if count <= |db.reservations| then count else |db.reservations|, account)
  {
    hide Inv, Advances, HoldExcess, ForeignSame, OwnedByStep;
    if count > 0 {
      KeptHoldsExcess(db, db', count - 1, account);
      KeptHoldExcess(db, db', count - 1, account);
    }
  }

  lemma KeptExcess(db: Db, db': Db, account: nat)
    requires Inv(db) && Inv(db') && ForeignKept(db, db') && Advances(db, db')
    ensures Excess(db', account) == Excess(db, account)
  {
    hide Inv, Advances, ForeignKept, HoldsExcess, Excess, TablesSound, LedgerSound;
    LedgerOf(db);
    LedgerOf(db');
    ExcessByHolds(db, account);
    ExcessByHolds(db', account);
    KeptHoldsExcess(db, db', |db'.reservations|, account);
  }

  lemma LedgerOf(db: Db)
    requires Inv(db)
    ensures LedgerSound(db.ledger, |db.accounts|, |db.reservations|)
  {
    hide StepsSound, LedgerSound, BudgetIdsUnique, ReferencesSound, AccountsShaped, ReservationsSound, StepLinked;
  }

  lemma EffectOwners(db: Db, db': Db, e: Effect, id: nat)
    requires Effected(db, db', e) && id < |db.reservations|
    ensures id < |db'.reservations| && OwnedByStep(db', id) == OwnedByStep(db, id)
    ensures db'.reservations[id] == db.reservations[id].(state := db'.reservations[id].state)
    ensures ((e.Close? || e.Doubt?) && e.id == id) || db'.reservations[id] == db.reservations[id]
  {
    hide HoldEntries, MinAvailable, RequestsKept, HasReservation, AccountsKnown;
  }

  lemma EffectEvents(db: Db, db': Db, e: Effect, id: nat)
    requires Effected(db, db', e) && ReservationsSound(db.accounts, db.reservations)
    requires id < |db'.reservations|
    ensures EventsOf(db'.ledger, HoldGroup(id))
            == EventsOf(db.ledger, HoldGroup(id))
               + match e
                 case Nothing => []
                 case Take(hold) => if id == |db.reservations| then TakingRound(db.accounts, hold) else []
                 case Close(closed, charge) =>
                   if id == closed then ClosingRound(db.accounts, db.reservations[closed], charge) else []
                 case Doubt(_) => []
  {
    hide EventsOf, HoldEntries, MinAvailable, RequestsKept, HasReservation, AccountsKnown;
    var events := EventsOf(db.ledger, HoldGroup(id));
    assert events + [] == events;
    match e
    case Nothing =>
    case Take(hold) =>
      AppendHoldEntries(db.ledger, db.accounts, hold, ReserveEvent, hold.amount, -hold.amount, None);
    case Close(closed, charge) =>
      var hold := db.reservations[closed];
      if charge.None? {
        AppendHoldEntries(db.ledger, db.accounts, hold, ReleaseEvent, hold.amount, hold.amount, None);
      } else {
        AppendHoldEntries(db.ledger, db.accounts, hold, CommitEvent, charge.value, hold.amount - charge.value, None);
      }
    case Doubt(_) =>
  }

  lemma SameRounds(accounts: seq<Account>, hold: Reservation, state: HoldState, charge: Option<int>)
    ensures TakingRound(accounts, hold.(state := state)) == TakingRound(accounts, hold)
    ensures ClosingRound(accounts, hold.(state := state), charge) == ClosingRound(accounts, hold, charge)
  {
  }

  lemma OpenStaysBooked(es: seq<Entry>, hold: Reservation, state: HoldState)
    requires HoldBooked(es, hold) && Outstanding(hold.state) && Outstanding(state)
    ensures HoldBooked(es, hold.(state := state))
  {
    hide TakingRound, ClosingRound;
    var taken, closed, charge :| Booked(es, hold, taken, closed, charge);
    SameRounds(taken, hold, state, None);
    assert Booked(es, hold.(state := state), taken, closed, charge);
  }

  lemma OpenIsClosed(es: seq<Entry>, hold: Reservation, accounts: seq<Account>, charge: Option<int>)
    requires HoldBooked(es, hold) && Outstanding(hold.state) && (charge.Some? ==> charge.value >= 0)
    ensures HoldBooked(es + ClosingRound(accounts, hold, charge),
                       hold.(state := if charge.None? then HoldReleased else HoldCommitted))
  {
    hide TakingRound, ClosingRound;
    var taken, closed, paid :| Booked(es, hold, taken, closed, paid);
    var state := if charge.None? then HoldReleased else HoldCommitted;
    SameRounds(taken, hold, state, charge);
    SameRounds(accounts, hold, state, charge);
    assert es == TakingRound(taken, hold);
    assert Booked(es + ClosingRound(accounts, hold, charge), hold.(state := state), taken, accounts,
                  if charge.None? then 0 else charge.value);
  }

  lemma NewIsBooked(accounts: seq<Account>, hold: Reservation)
    requires hold.state == HoldHeld
    ensures HoldBooked(TakingRound(accounts, hold), hold)
  {
    hide TakingRound, ClosingRound;
    assert TakingRound(accounts, hold) + [] == TakingRound(accounts, hold);
    assert Booked(TakingRound(accounts, hold), hold, accounts, accounts, 0);
  }

  lemma EffectKeepsBooked(db: Db, db': Db, e: Effect, id: nat)
    requires TablesSound(db) && Effected(db, db', e) && ReopenedHold(db, e) != Some(id)
    requires id < |db'.reservations|
    requires id < |db.reservations| ==> HoldBooked(EventsOf(db.ledger, HoldGroup(id)), db.reservations[id])
    ensures HoldBooked(EventsOf(db'.ledger, HoldGroup(id)), db'.reservations[id])
  {
    hide EventsOf, HoldBooked, OwnedByStep, TakingRound, ClosingRound, MinAvailable, RequestsKept, HasReservation,
         AccountsKnown, BudgetIdsUnique, ReferencesSound, AccountsShaped, StepLinked, ReservationsSound, LedgerSound,
         ScopesRight;
    EffectEvents(db, db', e, id);
    var events := EventsOf(db.ledger, HoldGroup(id));
    assert events + [] == events;
    if id < |db.reservations| {
      EffectOwners(db, db', e, id);
      if e.Doubt? && e.id == id {
        OpenStaysBooked(events, db.reservations[id], HoldUnknown);
      } else if e.Close? && e.id == id {
        OpenIsClosed(events, db.reservations[id], db.accounts, e.charge);
      }
    } else {
      NoEventsYet(db.ledger, |db.accounts|, id);
      assert [] + TakingRound(db.accounts, e.hold) == TakingRound(db.accounts, e.hold);
      NewIsBooked(db.accounts, e.hold);
    }
  }

  // A hold that was closed and then reached for

  /** It is in doubt with its closing round written, or closed with a closing round too many. */
  predicate Spoiled(es: seq<Entry>, hold: Reservation) {
    || (hold.state == HoldUnknown && |es| >= 2 * |AccountsOf(hold)|)
    || (Closed(hold.state) && |es| >= 3 * |AccountsOf(hold)|)
  }

  lemma RoundLengths(accounts: seq<Account>, hold: Reservation, charge: Option<int>)
    ensures |TakingRound(accounts, hold)| == |ClosingRound(accounts, hold, charge)| == |AccountsOf(hold)|
  {
  }

  lemma EffectKeepsSpoiled(db: Db, db': Db, e: Effect, id: nat)
    requires TablesSound(db) && Effected(db, db', e) && id < |db.reservations|
    requires Spoiled(EventsOf(db.ledger, HoldGroup(id)), db.reservations[id])
    ensures id < |db'.reservations| && Spoiled(EventsOf(db'.ledger, HoldGroup(id)), db'.reservations[id])
  {
    hide EventsOf, OwnedByStep, TakingRound, ClosingRound, MinAvailable, RequestsKept, HasReservation, AccountsKnown,
         BudgetIdsUnique, ReferencesSound, AccountsShaped, StepLinked, ReservationsSound, LedgerSound, ScopesRight,
         AccountsOf;
    EffectOwners(db, db', e, id);
    EffectEvents(db, db', e, id);
    SameAccounts(db.reservations[id], db'.reservations[id].state);
    if e.Close? && e.id == id {
      RoundLengths(db.accounts, db.reservations[id], e.charge);
    }
  }

  lemma SameAccounts(hold: Reservation, state: HoldState)
    ensures AccountsOf(hold.(state := state)) == AccountsOf(hold)
  {
  }

  lemma ReopeningSpoils(db: Db, db': Db, e: Effect)
    requires TablesSound(db) && Effected(db, db', e) && ReopensHold(db, e)
    requires HoldBooked(EventsOf(db.ledger, HoldGroup(e.id)), db.reservations[e.id])
    ensures e.id < |db'.reservations|
    ensures Spoiled(EventsOf(db'.ledger, HoldGroup(e.id)), db'.reservations[e.id])
  {
    hide EventsOf, OwnedByStep, TakingRound, ClosingRound, MinAvailable, RequestsKept, HasReservation, AccountsKnown,
         BudgetIdsUnique, ReferencesSound, AccountsShaped, StepLinked, ReservationsSound, LedgerSound, ScopesRight,
         AccountsOf;
    var es, hold := EventsOf(db.ledger, HoldGroup(e.id)), db.reservations[e.id];
    var taken, closed, charge :| Booked(es, hold, taken, closed, charge);
    RoundLengths(taken, hold, None);
    RoundLengths(closed, hold, if hold.state == HoldCommitted then Some(charge) else None);
    EffectOwners(db, db', e, e.id);
    EffectEvents(db, db', e, e.id);
    SameAccounts(hold, db'.reservations[e.id].state);
    if e.Close? {
      RoundLengths(db.accounts, hold, e.charge);
    }
  }

  // What a hold can be charged beyond its amount, however often it is closed

  /** Its commit entries overrun it on no account by more than they charge beyond it all together. */
  ghost predicate ChargesBounded(es: seq<Entry>, hold: Reservation) {
    && SettledOn(es, hold.keyAccount) >= 0
    && forall account: nat :: OverrunWithin(es, hold, account)
  }

  predicate OverrunWithin(es: seq<Entry>, hold: Reservation, account: nat) {
    var charge := SettledOn(es, hold.keyAccount);
    SumOf(es, OverrunOf(account)) <= if ChargedTo(hold, account) && charge > hold.amount then charge - hold.amount else 0
  }

  ghost predicate ForeignBounded(db: Db) {
    forall id: nat | id < |db.reservations| && !OwnedByStep(db, id) ::
      ChargesBounded(EventsOf(db.ledger, HoldGroup(id)), db.reservations[id])
  }

  lemma RoundKeepsBounded(es: seq<Entry>, hold: Reservation, round: Round, state: HoldState)
    requires es == [] || ChargesBounded(es, hold)
    requires HoldShaped(hold) && round.hold == hold && round.kind != GrantEvent
    requires round.kind == CommitEvent ==> round.amount >= 0 && round.delta == hold.amount - round.amount
    ensures ChargesBounded(es + RoundEntries(round), hold.(state := state))
  {
    hide SettledOn, SumOf, OverrunOf, Available, GrantedOn, RoundEntries;
    var es' := es + RoundEntries(round);
    NoSums(hold.keyAccount);
    RoundOnAccount(es, round, hold.keyAccount);
    forall account: nat
      ensures OverrunWithin(es', hold.(state := state), account)
    {
      NoSums(account);
      RoundOnAccount(es, round, account);
      assert es != [] ==> OverrunWithin(es, hold, account);
    }
  }

  lemma SameBounded(es: seq<Entry>, hold: Reservation, state: HoldState)
    requires ChargesBounded(es, hold)
    ensures ChargesBounded(es, hold.(state := state))
  {
    hide SettledOn, SumOf, OverrunOf;
    forall account: nat
      ensures OverrunWithin(es, hold.(state := state), account)
    {
      assert OverrunWithin(es, hold, account);
    }
  }

  lemma EffectKeepsBounded(db: Db, db': Db, e: Effect)
    requires TablesSound(db) && Effected(db, db', e) && ForeignShaped(db) && ForeignBounded(db)
    ensures ForeignBounded(db')
  {
    hide Effected, OwnedByStep, ForeignShaped, TablesSound, ChargesBounded, EventsOf;
    forall id: nat | id < |db'.reservations| && !OwnedByStep(db', id)
      ensures ChargesBounded(EventsOf(db'.ledger, HoldGroup(id)), db'.reservations[id])
    {
      if id < |db.reservations| {
        EffectOwners(db, db', e, id);
        OldStaysBounded(db, db', e, id);
      } else {
        NewIsBounded(db, db', e, id);
      }
    }
  }

  lemma OldStaysBounded(db: Db, db': Db, e: Effect, id: nat)
    requires TablesSound(db) && Effected(db, db', e) && ForeignShaped(db)
    requires id < |db.reservations| && !OwnedByStep(db, id)
    requires ChargesBounded(EventsOf(db.ledger, HoldGroup(id)), db.reservations[id])
    ensures id < |db'.reservations| && ChargesBounded(EventsOf(db'.ledger, HoldGroup(id)), db'.reservations[id])
  {
    hide EventsOf, OwnedByStep, ChargesBounded, MinAvailable, RequestsKept, HasReservation, AccountsKnown,
         BudgetIdsUnique, ReferencesSound, AccountsShaped, StepLinked, ReservationsSound, LedgerSound, ScopesRight,
         HoldEntries;
    var events, hold := EventsOf(db.ledger, HoldGroup(id)), db.reservations[id];
    EffectOwners(db, db', e, id);
    EffectEvents(db, db', e, id);
    assert events + [] == events;
    if e.Close? && e.id == id {
      var round := if e.charge.None? then Round(db.accounts, hold, ReleaseEvent, hold.amount, hold.amount, None)
      else Round(db.accounts, hold, CommitEvent, e.charge.value, hold.amount - e.charge.value, None);
      RoundKeepsBounded(events, hold, round, db'.reservations[id].state);
    } else {
      SameBounded(events, hold, db'.reservations[id].state);
    }
  }

  lemma NewIsBounded(db: Db, db': Db, e: Effect, id: nat)
    requires TablesSound(db) && Effected(db, db', e)
    requires |db.reservations| <= id < |db'.reservations|
    ensures ChargesBounded(EventsOf(db'.ledger, HoldGroup(id)), db'.reservations[id])
  {
    hide EventsOf, OwnedByStep, ChargesBounded, MinAvailable, RequestsKept, HasReservation, AccountsKnown,
         BudgetIdsUnique, ReferencesSound, AccountsShaped, StepLinked, ReservationsSound, HoldEntries;
    EffectEvents(db, db', e, id);
    NoEventsYet(db.ledger, |db.accounts|, id);
    RoundKeepsBounded([], e.hold, Round(db.accounts, e.hold, ReserveEvent, e.hold.amount, -e.hold.amount, None), HoldHeld);
  }

  lemma EffectKeepsShaped(db: Db, db': Db, e: Effect)
    requires Effected(db, db', e) && ForeignShaped(db)
    ensures ForeignShaped(db')
  {
    hide OwnedByStep, TakingRound, ClosingRound, MinAvailable, RequestsKept, HasReservation, AccountsKnown;
    forall id: nat | id < |db'.reservations| && !OwnedByStep(db', id)
      ensures HoldShaped(db'.reservations[id]) && ScopesRight(db'.accounts, db'.reservations[id])
    {
      if id < |db.reservations| {
        EffectOwners(db, db', e, id);
        assert HoldShaped(db.reservations[id]) && ScopesRight(db.accounts, db.reservations[id]);
      }
    }
  }

  // Moves

  /** Taking needs credits, and of the ways to close a hold only a charge can cost more than it returns. */
  lemma EffectMoves(db: Db, db': Db, e: Effect) returns (move: Move)
    requires Effected(db, db', e) && ForeignShaped(db)
    ensures MoveAllowed(db.ledger, move) && !move.Credited?
    ensures db'.ledger == Moved(db.ledger, move)
  {
    hide OwnedByStep, HoldEntries, MinAvailable, RequestsKept, HasReservation, AccountsKnown;
    match e
    case Nothing => move := Still;
    case Take(hold) => move := Charged(Round(db.accounts, hold, ReserveEvent, hold.amount, -hold.amount, None));
    case Close(id, charge) =>
      var hold := db.reservations[id];
      assert HoldShaped(hold);
      move := if charge.None? then Charged(Round(db.accounts, hold, ReleaseEvent, hold.amount, hold.amount, None))
      else Charged(Round(db.accounts, hold, CommitEvent, charge.value, hold.amount - charge.value, None));
    case Doubt(_) => move := Still;
  }

  // What an effect leaves in excess

  /** What the effect adds to the credits of the account that were never granted. */
  function AmountOn(db: Db, reached: Option<nat>, account: nat): int {
    if reached.Some? && reached.value < |db.reservations| && ChargedTo(db.reservations[reached.value], account)
    then db.reservations[reached.value].amount else 0
  }

  lemma TakeLeavesNothing(db: Db, db': Db, hold: Reservation, account: nat)
    requires Effected(db, db', Take(hold))
    ensures Excess(db', account) == Excess(db, account)
  {
    hide OwnedByStep, HoldEntries, RequestsKept, Available, SettledOn, GrantedOn, HeldOn, SumOf, OverrunOf, MinAvailable,
         HasReservation, AccountsKnown;
    var round := Round(db.accounts, hold, ReserveEvent, hold.amount, -hold.amount, None);
    assert db'.ledger == db.ledger + RoundEntries(round);
    RoundOnAccount(db.ledger, round, account);
    AppendReservation(db.reservations, hold, account);
  }

  /** An effect on a closed hold leaves its amount in excess on its accounts; any other leaves nothing. */
  lemma EffectExcess(db: Db, db': Db, e: Effect, account: nat)
    requires Effected(db, db', e) && ForeignShaped(db)
    ensures Excess(db', account) == Excess(db, account) + AmountOn(db, ReopenedHold(db, e), account)
  {
    hide OwnedByStep, HoldEntries, RequestsKept, Available, SettledOn, GrantedOn, HeldOn, SumOf, OverrunOf, MinAvailable,
         HasReservation, AccountsKnown, ScopesRight;
    match e
    case Nothing =>
    case Take(hold) => TakeLeavesNothing(db, db', hold, account);
    case Close(id, charge) =>
      var hold := db.reservations[id];
      assert HoldShaped(hold);
      UpdateReservation(db.reservations, id, db'.reservations[id], account);
      var round := if charge.None? then Round(db.accounts, hold, ReleaseEvent, hold.amount, hold.amount, None)
      else Round(db.accounts, hold, CommitEvent, charge.value, hold.amount - charge.value, None);
      assert db'.ledger == db.ledger + RoundEntries(round);
      RoundOnAccount(db.ledger, round, account);
    case Doubt(id) => UpdateReservation(db.reservations, id, db'.reservations[id], account);
  }
}
