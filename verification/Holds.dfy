/**
  What billing outside the V2 ledger does to the holds it shares accounts with: every transaction of V1 billing
  and of plain requests takes one hold, closes one, suspends one, or none of it.
 */
module Holds {
  import opened Wrappers
  import opened Model
  import opened Ledger
  import opened EventGroup
  import opened Billing

  datatype Effect = Nothing | Take(hold: Reservation) | Close(id: nat, charge: Option<int>) | Doubt(id: nat)

  function TakingRound(accounts: seq<Account>, hold: Reservation): seq<Entry> {
    HoldEntries(accounts, hold, ReserveEvent, hold.amount, -hold.amount, None)
  }

  /** No charge gives the hold back. */
  function ClosingRound(accounts: seq<Account>, hold: Reservation, charge: Option<int>): seq<Entry> {
    if charge.None? then HoldEntries(accounts, hold, ReleaseEvent, hold.amount, hold.amount, None)
    else HoldEntries(accounts, hold, CommitEvent, charge.value, hold.amount - charge.value, None)
  }

  predicate EffectFits(db: Db, e: Effect) {
    match e
    case Nothing => true
    case Take(hold) =>
      && hold.group == HoldGroup(|db.reservations|) && hold.state == HoldHeld && hold.amount > 0
      && !HasReservation(db, hold.request)
      && AccountsKnown(db.accounts, AccountsOf(hold)) && ScopesRight(db.accounts, hold)
      && MinAvailable(db.ledger, hold.keyAccount, hold.userCap) >= hold.amount
    case Close(id, charge) =>
      id < |db.reservations| && !OwnedByStep(db, id) && (charge.Some? ==> charge.value >= 0)
    case Doubt(id) => id < |db.reservations| && !OwnedByStep(db, id)
  }

  function HoldsAfter(db: Db, e: Effect): seq<Reservation>
    requires EffectFits(db, e)
  {
    match e
    case Nothing => db.reservations
    case Take(hold) => db.reservations + [hold]
    case Close(id, charge) =>
      db.reservations[id := db.reservations[id].(state := if charge.None? then HoldReleased else HoldCommitted)]
    case Doubt(id) => db.reservations[id := db.reservations[id].(state := HoldUnknown)]
  }

  function LedgerAfter(db: Db, e: Effect): seq<Entry>
    requires EffectFits(db, e)
  {
    match e
    case Nothing => db.ledger
    case Take(hold) => db.ledger + TakingRound(db.accounts, hold)
    case Close(id, charge) => db.ledger + ClosingRound(db.accounts, db.reservations[id], charge)
    case Doubt(id) => db.ledger
  }

  /** The effect closes or suspends a hold that is closed already. */
  predicate ReopensHold(db: Db, e: Effect) {
    match e
    case Nothing => false
    case Take(_) => false
    case Close(id, _) => id < |db.reservations| && Closed(db.reservations[id].state)
    case Doubt(id) => id < |db.reservations| && Closed(db.reservations[id].state)
  }

  /** The closed hold that the effect reaches for. */
  function ReopenedHold(db: Db, e: Effect): (r: Option<nat>)
    ensures r.Some? ==> r.value < |db.reservations| && Closed(db.reservations[r.value].state)
  {
    if ReopensHold(db, e) then Some(e.id) else None
  }
}
