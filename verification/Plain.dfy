/**
  Requests that neither V1 nor V2 billing owns: a preflight holds credits for a new request, and the outcome of
  the request, or of the lease its upstream call ran under, settles the hold.
 */
module Plain {
  import opened Wrappers
  import opened Model
  import opened RequestStates
  import opened Ledger
  import opened EventGroup
  import opened Billing
  import opened Holds

  datatype HoldOutcome = Releases | Commits(actual: Option<int>) | Suspends

  datatype Balance = Balance(available: int, held: int)

  function EffectRows(db: Db, e: Effect): Db
    requires EffectFits(db, e)
  {
    db.(reservations := HoldsAfter(db, e), ledger := LedgerAfter(db, e))
  }

  // Holding

  /** The guards of a preflight; `active` is the Key's count of active executions, where the caller limits it. */
  function PreflightHold(db: Db, now: Millis, request: Id, who: Identity, amount: int, ttl: int, active: Option<int>)
    : (r: Result<Reservation, Error>)
    ensures r.Ok? ==> EffectFits(db, Take(r.value)) && r.value.request == request && request !in db.requests
  {
    if amount <= 0 || ttl < 0 || now + ttl > MAX_I64 then Err(InvalidAmount)
    else if !KeyActive(db, who.key, who.user) then Err(InvalidIdentity)
    else if active.Some? && active.value >= db.keys[who.key].maxConcurrency then
      Err(ConcurrencyExceeded(active.value, db.keys[who.key].maxConcurrency))
    else if request in db.requests then Err(ConstraintViolated)
    else HoldFor(db, who.user, who.key, request, amount, now + ttl)
  }

  /** preflight_reserve, and the reserve of a queued or leased request: the request and its hold, or nothing. */
  function Preflight(db: Db, now: Millis, request: Id, who: Identity, amount: int, ttl: int, active: Option<int>)
    : Tx<Reservation>
  {
    var hold := PreflightHold(db, now, request, who, amount, ttl, active);
    if hold.Err? then Tx(db, Err(hold.error))
    else
      Tx(EffectRows(db, Take(hold.value)).(requests := db.requests[request := Request(who, Reserved, now)]),
         Ok(hold.value))
  }

  // Client keys: a preflight is asked for under the caller's own key, and asked for again it is answered

  /** UNIQUE(scope, client_key), where the scope is user, Key and endpoint */
  datatype ClientKey = ClientKey(user: Id, key: Id, endpoint: Id, client: Id)

  datatype Known = Known(hash: Id, request: Id)

  datatype PreflightReply =
    | PreflightCreated(hold: Reservation)
    | PreflightExisting(request: Id, found: Option<Reservation>)
    | PreflightConflict

  datatype PreflightTx = PreflightTx(db: Db, known: map<ClientKey, Known>, reply: Result<PreflightReply, Error>)

  function ClientKeyOf(who: Identity, client: Id): ClientKey {
    ClientKey(who.user, who.key, who.endpoint, client)
  }

  /** What a key that is known answers. */
  function KnownReply(db: Db, row: Known, who: Identity): Result<PreflightReply, Error> {
    if row.request !in db.requests then Err(RequestNotFound)
    else if row.hash != who.hash then Ok(PreflightConflict)
    else
      var found := ReservationFor(db.reservations, row.request);
      Ok(PreflightExisting(row.request, if found.Some? then Some(db.reservations[found.value]) else None))
  }

  /** preflight_reserve: the key is looked up before the Key's count of active executions is. */
  function PreflightFor(
    db: Db, known: map<ClientKey, Known>, now: Millis, request: Id, who: Identity, client: Id, amount: int, ttl: int,
    active: Option<int>): PreflightTx
  {
    if amount <= 0 || ttl < 0 || now + ttl > MAX_I64 then PreflightTx(db, known, Err(InvalidAmount))
    else if !KeyActive(db, who.key, who.user) then PreflightTx(db, known, Err(InvalidIdentity))
    else if ClientKeyOf(who, client) in known then
      PreflightTx(db, known, KnownReply(db, known[ClientKeyOf(who, client)], who))
    else
      var tx := Preflight(db, now, request, who, amount, ttl, active);
      if tx.reply.Err? then PreflightTx(db, known, Err(tx.reply.error))
      else
        PreflightTx(tx.db, known[ClientKeyOf(who, client) := Known(who.hash, request)],
                    Ok(PreflightCreated(tx.reply.value)))
  }

  // Settling

  /** validate_reservation_owner */
  predicate OwnedBy(db: Db, hold: Reservation, user: Id, key: Id) {
    && hold.user == user && hold.key == key
    && (hold.request in db.requests ==>
          db.requests[hold.request].identity.user == user && db.requests[hold.request].identity.key == key)
  }

  /** reject_v2_reservation_settlement */
  predicate HeldByStep(db: Db, id: nat) {
    exists s | s in db.steps :: db.steps[s].reservation == id
  }

  /** apply_settlement_for_reservation, on a hold with a Key account: it does not ask whether the hold is open. */
  function OutcomeEffect(db: Db, id: nat, outcome: HoldOutcome): (r: Result<Effect, Error>)
    requires id < |db.reservations|
    ensures r.Ok? ==> EffectFits(db, r.value) && (r.value.Close? || r.value.Doubt?) && r.value.id == id
  {
    if HeldByStep(db, id) then Err(IdempotencyConflict)
    else
      match outcome
      case Releases =>
        if AccountsKnown(db.accounts, AccountsOf(db.reservations[id])) then Ok(Close(id, None))
        else Err(InvalidConfiguration)
      case Commits(actual) =>
        if actual.None? then Ok(Doubt(id))
        else if actual.value < 0 then Err(InvalidAmount)
        else if actual.value > db.reservations[id].amount then Err(ActualExceedsReservation)
        else if AccountsKnown(db.accounts, AccountsOf(db.reservations[id])) then Ok(Close(id, actual))
        else Err(InvalidConfiguration)
      case Suspends => Ok(Doubt(id))
  }

  function FirstCommit(es: seq<Entry>, account: nat): Option<int> {
    if es == [] then None
    else if es[0].account == account && es[0].kind == CommitEvent then Some(es[0].amount)
    else FirstCommit(es[1..], account)
  }

  /** validate_dual_settlement_replay: the hold was settled this way already. */
  predicate SameOutcome(db: Db, id: nat, outcome: HoldOutcome)
    requires id < |db.reservations|
  {
    var hold := db.reservations[id];
    match hold.state
    case HoldHeld => true
    case HoldReleased => outcome.Releases?
    case HoldUnknown => outcome.Suspends? || outcome == Commits(None)
    case HoldCommitted =>
      outcome.Commits? && outcome.actual.Some?
      && FirstCommit(EventsOf(db.ledger, hold.group), hold.keyAccount) == outcome.actual
  }

  /** settle_request_state: the outcome and then `settled`; `settled` itself changes nothing. */
  function WalkedToSettled(current: RequestState, final: RequestState): Result<RequestState, Error> {
    if final == RequestState.Settled then Ok(current)
    else if (final == Succeeded || final == Failed || final == UnknownOutcome || final == Canceled)
            && CanSettle(current, final)
    then Ok(RequestState.Settled)
    else Err(InvalidTransition)
  }

  function FinalState(db: Db, request: Id, final: Option<RequestState>): Result<RequestState, Error>
    requires request in db.requests
  {
    if final.None? then Ok(db.requests[request].state) else WalkedToSettled(db.requests[request].state, final.value)
  }

  /** The request, if it still exists, goes to the given state together with the effect on the hold. */
  function SettledRows(db: Db, request: Id, state: RequestState, e: Effect): Db
    requires EffectFits(db, e)
  {
    var moved := EffectRows(db, e);
    if request in db.requests
    then moved.(requests := db.requests[request := db.requests[request].(state := state)]) else moved
  }

  function BalanceOf(db: Db, account: nat): Balance {
    Balance(Available(db.ledger, account), HeldOn(db.reservations, account))
  }

  /** The guards of settle and settle_request on an open hold: where the request goes and what the hold becomes. */
  function SettleCourse(db: Db, id: nat, outcome: HoldOutcome, final: Option<RequestState>)
    : (r: Result<(RequestState, Effect), Error>)
    requires id < |db.reservations|
    ensures r.Ok? ==> EffectFits(db, r.value.1) && (r.value.1.Close? || r.value.1.Doubt?) && r.value.1.id == id
  {
    var request := db.reservations[id].request;
    var state := if request in db.requests then FinalState(db, request, final) else Ok(Received);
    if state.Err? then Err(state.error)
    else
      var e := OutcomeEffect(db, id, outcome);
      if e.Err? then Err(e.error) else Ok((state.value, e.value))
  }

  /** settle and settle_request; a hold that is no longer held answers a repetition and changes nothing. */
  function Settle(db: Db, user: Id, key: Id, id: nat, outcome: HoldOutcome, final: Option<RequestState>): Tx<Balance> {
    if id >= |db.reservations| then Tx(db, Err(ReservationNotFound))
    else
      var hold := db.reservations[id];
      if !OwnedBy(db, hold, user, key) then Tx(db, Err(OwnerMismatch))
      else if hold.state != HoldHeld then
        if HeldByStep(db, id) then Tx(db, Err(IdempotencyConflict))
        else if !SameOutcome(db, id, outcome) then Tx(db, Err(SettlementConflict))
        else Tx(db, Ok(BalanceOf(db, hold.keyAccount)))
      else
        var course := SettleCourse(db, id, outcome, final);
        if course.Err? then Tx(db, Err(course.error))
        else
          var settled := SettledRows(db, hold.request, course.value.0, course.value.1);
          Tx(settled, Ok(BalanceOf(settled, hold.keyAccount)))
  }

  // Leases

  /** Where the outcome of an upstream call takes the request: into doubt, or through the outcome to `settled`. */
  function LeaseState(current: RequestState, target: RequestState): Result<RequestState, Error> {
    if target == UnknownOutcome then
      if current == UnknownOutcome || CanTransition(current, UnknownOutcome) then Ok(UnknownOutcome)
      else Err(InvalidTransition)
    else WalkedToSettled(current, target)
  }

  /** What the request and its reservation say to the outcome of a lease; they do not say whether the hold is open. */
  function LeaseCourse(db: Db, user: Id, key: Id, request: Id, outcome: HoldOutcome, target: RequestState)
    : (r: Result<(RequestState, Effect), Error>)
    ensures r.Ok? ==>
              && request in db.requests && ReservationFor(db.reservations, request).Some?
              && EffectFits(db, r.value.1) && (r.value.1.Close? || r.value.1.Doubt?)
              && ReservationFor(db.reservations, request) == Some(r.value.1.id)
  {
    var found := ReservationFor(db.reservations, request);
    if found.None? then Err(ReservationNotFound)
    else if !OwnedBy(db, db.reservations[found.value], user, key) then Err(OwnerMismatch)
    else if request !in db.requests then Err(RequestNotFound)
    else
      var state := LeaseState(db.requests[request].state, target);
      if state.Err? then Err(state.error)
      else
        var e := OutcomeEffect(db, found.value, outcome);
        if e.Err? then Err(e.error) else Ok((state.value, e.value))
  }

  /** The billing half of settle_upstream_lease_with_status_inner. */
  function SettleLease(db: Db, user: Id, key: Id, request: Id, outcome: HoldOutcome, target: RequestState): Tx<()> {
    var course := LeaseCourse(db, user, key, request, outcome, target);
    if course.Err? then Tx(db, Err(course.error))
    else Tx(SettledRows(db, request, course.value.0, course.value.1), Ok(()))
  }

  function RecoverCourse(db: Db, request: Id): (r: Result<Effect, Error>)
    ensures r.Ok? ==>
              && request in db.requests && EffectFits(db, r.value) && r.value.Doubt?
              && ReservationFor(db.reservations, request) == Some(r.value.id)
  {
    var found := ReservationFor(db.reservations, request);
    if found.None? then Err(ReservationNotFound)
    else
      var e := OutcomeEffect(db, found.value, Suspends);
      if e.Err? then Err(e.error)
      else if request !in db.requests then Err(RequestNotFound)
      else if LeaseState(db.requests[request].state, UnknownOutcome).Err? then Err(InvalidTransition)
      else e
  }

  /** The billing half of recover_expired_upstream_leases, for one lease. */
  function RecoverLease(db: Db, request: Id): Tx<()> {
    var e := RecoverCourse(db, request);
    if e.Err? then Tx(db, Err(e.error)) else Tx(SettledRows(db, request, UnknownOutcome, e.value), Ok(()))
  }

  // Canceling a queued request

  function CancelCourse(db: Db, request: Id): (r: Result<Effect, Error>)
    ensures r.Ok? ==> request in db.requests && EffectFits(db, r.value)
    ensures r.Ok? && !r.value.Nothing? ==> r.value.Close? && db.reservations[r.value.id].state == HoldHeld
  {
    if request !in db.requests then Err(RequestNotFound)
    else if !(db.requests[request].state == Queued || db.requests[request].state == Dispatched
              || db.requests[request].state == Completing)
    then Err(InvalidConfiguration)
    else
      var found := ReservationFor(db.reservations, request);
      if found.None? then Err(ReservationNotFound)
      else if db.reservations[found.value].state != HoldHeld then Ok(Nothing)
      else OutcomeEffect(db, found.value, Releases)
  }

  /** request_video_cancel of a job that no attempt has taken up. */
  function CancelQueued(db: Db, request: Id): Tx<()> {
    var e := CancelCourse(db, request);
    if e.Err? then Tx(db, Err(e.error)) else Tx(SettledRows(db, request, RequestState.Settled, e.value), Ok(()))
  }
}
