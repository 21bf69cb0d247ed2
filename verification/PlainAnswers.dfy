/** When a preflight holds credits for a new request, and when a settlement of an open hold is accepted. */
module PlainAnswers {
  import opened Wrappers
  import opened Model
  import opened Ledger
  import opened RequestStates
  import opened Billing
  import opened Holds
  import opened Plain
  import opened Admitted
  import LeaseBilling
  import Leases = UpstreamLeases

  /** The caller asks for a hold that can be written down, on a Key of its own. */
  predicate Askable(db: Db, now: Millis, who: Identity, amount: int, ttl: int) {
    && amount > 0 && ttl >= 0 && now + ttl <= MAX_I64
    && who.key in db.keys && db.keys[who.key].active && db.keys[who.key].user == who.user
  }

  /**
    A client key that is new is answered with a new request and its hold exactly when the Key has a slot and the accounts
    cover the amount; one that is known, with its request for the same content, and with a conflict for another.
   */
  lemma PreflightAnswers(
    db: Db, known: map<ClientKey, Known>, now: Millis, request: Id, who: Identity, client: Id, amount: int, ttl: int,
    active: Option<int>)
    ensures var tx := PreflightFor(db, known, now, request, who, client, amount, ttl, active);
            var key := ClientKey(who.user, who.key, who.endpoint, client);
            && (tx.reply.Ok? && tx.reply.value.PreflightCreated? <==>
                  && Askable(db, now, who, amount, ttl) && key !in known
                  && (active.Some? ==> active.value < db.keys[who.key].maxConcurrency)
                  && request !in db.requests && Unreserved(db, request) && Funded(db, who.key, who.user, amount))
            && (tx.reply.Ok? && tx.reply.value.PreflightExisting? <==>
                  && Askable(db, now, who, amount, ttl) && key in known
                  && known[key].request in db.requests && known[key].hash == who.hash)
            && (tx.reply == Ok(PreflightConflict) <==>
                  && Askable(db, now, who, amount, ttl) && key in known
                  && known[key].request in db.requests && known[key].hash != who.hash)
            && (tx.reply.Ok? && tx.reply.value.PreflightExisting? ==> tx.reply.value.request == known[key].request)
            && (!(tx.reply.Ok? && tx.reply.value.PreflightCreated?) ==> tx.db == db && tx.known == known)
  {
    hide HoldFor, Unreserved, Funded, HasReservation, EffectRows, EffectFits, ReservationFor;
    HoldAnswers(db, who.user, who.key, request, amount, now + ttl);
    UnreservedIff(db, request);
  }

  /** The hold is the caller's, and its request too, while there is one. */
  predicate Theirs(db: Db, hold: Reservation, user: Id, key: Id) {
    && hold.user == user && hold.key == key
    && (hold.request in db.requests ==>
          db.requests[hold.request].identity.user == user && db.requests[hold.request].identity.key == key)
  }

  /** The request can go through this outcome to `settled`. */
  predicate CanEndAs(state: RequestState, final: RequestState) {
    match final
    case Succeeded => state in {Reserved, Queued, Dispatched, Completing, UnknownOutcome, Succeeded}
    case Failed => state in {Validating, Reserved, Queued, Dispatched, Completing, UnknownOutcome}
    case UnknownOutcome => state in {Validating, Reserved, Queued, Dispatched, Completing, CancelRequested}
    case Canceled => state in {CancelRequested, UnknownOutcome}
    case Settled => true
    case _ => false
  }

  lemma EndsAsIff(state: RequestState, final: RequestState)
    ensures WalkedToSettled(state, final).Ok? <==> CanEndAs(state, final)
    ensures WalkedToSettled(state, final).Ok? ==>
              WalkedToSettled(state, final).value == if final == RequestState.Settled then state else RequestState.Settled
  {
  }

  /** A commit charges no more than is held. */
  predicate Chargeable(hold: Reservation, outcome: HoldOutcome) {
    outcome.Commits? && outcome.actual.Some? ==> 0 <= outcome.actual.value <= hold.amount
  }

  /** What the outcome makes of the hold: given back, charged, or in doubt. */
  predicate Becomes(outcome: HoldOutcome, state: HoldState) {
    match outcome
    case Releases => state == HoldReleased
    case Commits(actual) => state == if actual.Some? then HoldCommitted else HoldUnknown
    case Suspends => state == HoldUnknown
  }

  lemma OutcomeIff(db: Db, id: nat, outcome: HoldOutcome)
    requires id < |db.reservations| && AccountsKnown(db.accounts, AccountsOf(db.reservations[id]))
    ensures var effect := OutcomeEffect(db, id, outcome);
            && (effect.Ok? <==>
                  Chargeable(db.reservations[id], outcome) && forall s | s in db.steps :: db.steps[s].reservation != id)
            && (effect.Ok? ==>
                  id < |HoldsAfter(db, effect.value)| && Becomes(outcome, HoldsAfter(db, effect.value)[id].state))
  {
    hide AccountsKnown, AccountsOf;
  }

  lemma EffectHolds(db: Db, e: Effect)
    requires EffectFits(db, e)
    ensures EffectRows(db, e).reservations == HoldsAfter(db, e)
  {
    hide LedgerAfter, HoldsAfter, EffectFits;
  }

  lemma SettledHolds(db: Db, request: Id, state: RequestState, e: Effect)
    requires EffectFits(db, e)
    ensures SettledRows(db, request, state, e).reservations == HoldsAfter(db, e)
  {
    hide EffectRows, HoldsAfter, EffectFits;
    EffectHolds(db, e);
  }

  /** An open hold is settled exactly for its owner, within its amount, by a request that can end so, and unless a step holds it. */
  lemma SettleAnswers(db: Db, user: Id, key: Id, id: nat, outcome: HoldOutcome, final: Option<RequestState>)
    requires id < |db.reservations| && db.reservations[id].state == HoldHeld
    requires AccountsKnown(db.accounts, AccountsOf(db.reservations[id]))
    ensures var tx, hold := Settle(db, user, key, id, outcome, final), db.reservations[id];
            && (tx.reply.Ok? <==>
                  && Theirs(db, hold, user, key) && Chargeable(hold, outcome)
                  && (forall s | s in db.steps :: db.steps[s].reservation != id)
                  && (hold.request in db.requests && final.Some? ==>
                        CanEndAs(db.requests[hold.request].state, final.value)))
            && (tx.reply.Err? ==> tx.db == db)
            && (tx.reply.Ok? ==> id < |tx.db.reservations| && Becomes(outcome, tx.db.reservations[id].state))
  {
    hide WalkedToSettled, AccountsKnown, AccountsOf, LedgerAfter, HoldsAfter, BalanceOf, CanEndAs, OutcomeEffect, SettledRows,
         Chargeable, Becomes;
    var hold := db.reservations[id];
    if hold.request in db.requests && final.Some? {
      EndsAsIff(db.requests[hold.request].state, final.value);
    }
    OutcomeIff(db, id, outcome);
    var course := SettleCourse(db, id, outcome, final);
    if course.Ok? {
      SettledHolds(db, hold.request, course.value.0, course.value.1);
    }
  }

  // The billing half of a lease

  /** The request can be left in doubt. */
  predicate CanBeInDoubt(state: RequestState) {
    state in {Validating, Reserved, Queued, Dispatched, Completing, CancelRequested, UnknownOutcome}
  }

  /** The outcome of the call fits the request and the hold: a success within the amount, or one that can end the request. */
  predicate OutcomeFits(state: RequestState, amount: int, outcome: Leases.Outcome) {
    match outcome
    case Success(actual, _) =>
      state in {Reserved, Queued, Dispatched, Completing, UnknownOutcome, Succeeded}
      && (actual.Some? ==> 0 <= actual.value <= amount)
    case Rejected(accepted) =>
      if accepted then CanBeInDoubt(state)
      else state in {Validating, Reserved, Queued, Dispatched, Completing, UnknownOutcome}
    case TransportUnknown => CanBeInDoubt(state)
    case Canceled(_) => state in {CancelRequested, UnknownOutcome}
  }

  /** What the outcome makes of the hold: charged or given back, or in doubt where it does not say what was charged. */
  predicate LeftBy(outcome: Leases.Outcome, state: HoldState) {
    match outcome
    case Success(actual, _) => state == if actual.Some? then HoldCommitted else HoldUnknown
    case Rejected(accepted) => state == if accepted then HoldUnknown else HoldReleased
    case TransportUnknown => state == HoldUnknown
    case Canceled(_) => state == HoldReleased
  }

  lemma LeaseStateIff(state: RequestState, amount: int, outcome: Leases.Outcome)
    ensures OutcomeFits(state, amount, outcome)
            <==> && LeaseState(state, LeaseBilling.OnRequest(outcome)).Ok?
                 && (outcome.Success? && outcome.actual.Some? ==> 0 <= outcome.actual.value <= amount)
    ensures var next := LeaseState(state, LeaseBilling.OnRequest(outcome));
            next.Ok? ==> next.value == if outcome.TransportUnknown? || outcome == Leases.Rejected(true)
                                       then UnknownOutcome else RequestState.Settled
  {
  }

  /**
    Request and hold accept the outcome of a lease exactly when the hold is its owner's and no step's, and the outcome fits
    both; whether the hold is still open is not asked. The request is then in doubt or settled, and the hold as it says.
   */
  lemma LeaseAnswers(db: Db, board: Leases.Board, user: Id, key: Id, lease: nat, outcome: Leases.Outcome, id: nat)
    requires lease < |board.leases| && ReservationFor(db.reservations, board.leases[lease].request) == Some(id)
    requires AccountsKnown(db.accounts, AccountsOf(db.reservations[id]))
    ensures var tx, r, hold := LeaseBilling.Billed(db, board, user, key, lease, outcome), board.leases[lease].request,
                               db.reservations[id];
            && (tx.reply.Ok? <==>
                  && Theirs(db, hold, user, key) && r in db.requests
                  && OutcomeFits(db.requests[r].state, hold.amount, outcome)
                  && forall s | s in db.steps :: db.steps[s].reservation != id)
            && (tx.reply.Err? ==> tx.db == db)
            && (tx.reply.Ok? ==> id < |tx.db.reservations| && LeftBy(outcome, tx.db.reservations[id].state))
  {
    hide LeaseState, AccountsKnown, AccountsOf, LedgerAfter, HoldsAfter, OutcomeEffect, SettledRows, OutcomeFits, ReservationFor;
    var r, hold := board.leases[lease].request, db.reservations[id];
    if r in db.requests {
      LeaseStateIff(db.requests[r].state, hold.amount, outcome);
    }
    OutcomeIff(db, id, LeaseBilling.OnHold(outcome));
    var course := LeaseCourse(db, user, key, r, LeaseBilling.OnHold(outcome), LeaseBilling.OnRequest(outcome));
    if course.Ok? {
      SettledHolds(db, r, course.value.0, course.value.1);
    }
  }
}
