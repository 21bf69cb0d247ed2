/** Plain requests as the core store carries them out: one transaction per method, rolled back on every error. */
module PlainStore {
  import opened Wrappers
  import opened Model
  import opened RequestStates
  import opened Ledger
  import opened EventGroup
  import opened Billing
  import opened Holds
  import opened Plain
  import opened ControlledStore

  // The walk of settle_request_state

  const PROGRESSION := [Reserved, Queued, Dispatched, Completing, Succeeded]

  function Position(state: RequestState): (i: Option<nat>)
    ensures i.Some? ==> i.value < |PROGRESSION| && PROGRESSION[i.value] == state
  {
    match state
    case Reserved => Some(0)
    case Queued => Some(1)
    case Dispatched => Some(2)
    case Completing => Some(3)
    case Succeeded => Some(4)
    case _ => None
  }

  /** The states to go through before `settled`, or None where the source refuses before taking a step. */
  function PathTo(current: RequestState, final: RequestState): Option<seq<RequestState>> {
    match final
    case Succeeded =>
      if current == UnknownOutcome then Some([Succeeded])
      else if Position(current).Some? then Some(PROGRESSION[Position(current).value + 1..])
      else None
    case Failed => Some([Failed])
    case UnknownOutcome => Some([UnknownOutcome])
    case Canceled => if current == CancelRequested || current == UnknownOutcome then Some([Canceled]) else None
    case _ => None
  }

  predicate Walkable(from: RequestState, path: seq<RequestState>)
    decreases |path|
  {
    path == [] || (CanTransition(from, path[0]) && Walkable(path[0], path[1..]))
  }

  lemma ForwardWalks(i: nat)
    requires i < |PROGRESSION|
    ensures Walkable(PROGRESSION[i], PROGRESSION[i + 1..] + [RequestState.Settled])
    decreases |PROGRESSION| - i
  {
    var path := PROGRESSION[i + 1..] + [RequestState.Settled];
    if i + 1 < |PROGRESSION| {
      ForwardWalks(i + 1);
      assert path[1..] == PROGRESSION[i + 2..] + [RequestState.Settled];
    } else {
      assert path == [RequestState.Settled];
    }
  }

  lemma OneStepWalks(current: RequestState, state: RequestState)
    requires state == Succeeded || state == Failed || state == UnknownOutcome || state == Canceled
    ensures Walkable(current, [state] + [RequestState.Settled]) <==> CanTransition(current, state)
  {
    hide CanTransition;
    var path := [state] + [RequestState.Settled];
    assert path[1..] == [RequestState.Settled];
    LastStepWalks(state);
  }

  lemma LastStepWalks(state: RequestState)
    requires state == Succeeded || state == Failed || state == UnknownOutcome || state == Canceled
    ensures Walkable(state, [RequestState.Settled])
  {
  }

  lemma SucceededSettles(current: RequestState)
    ensures PathTo(current, Succeeded).Some? && Walkable(current, PathTo(current, Succeeded).value + [RequestState.Settled])
            <==> CanSettle(current, Succeeded)
  {
    hide Walkable;
    if current == UnknownOutcome {
      OneStepWalks(current, Succeeded);
    } else if Position(current).Some? {
      ForwardWalks(Position(current).value);
    }
  }

  /** The path can be walked exactly when the one-step rule says the request can settle. */
  lemma PathSettles(current: RequestState, final: RequestState)
    requires final != RequestState.Settled
    ensures PathTo(current, final).Some? && Walkable(current, PathTo(current, final).value + [RequestState.Settled])
            <==> WalkedToSettled(current, final).Ok?
  {
    hide Walkable;
    if final == Succeeded {
      SucceededSettles(current);
    } else if final == Failed || final == UnknownOutcome || final == Canceled {
      OneStepWalks(current, final);
    }
  }

  class Store {
    var core: Db
    var known: map<ClientKey, Known>

    constructor (core: Db)
      ensures this.core == core && known == map[]
    {
      this.core, known := core, map[];
    }

    method SetRequest(request: Id, state: RequestState)
      requires request in core.requests
      modifies this`core
      ensures core == old(core).(requests :=
                old(core).requests[request := old(core).requests[request].(state := state)])
    {
      core := core.(requests := core.requests[request := core.requests[request].(state := state)]);
    }

    /** settle_request_state: one transition after the other, and last of all to `settled`. */
    method SettleRequest(request: Id, final: RequestState) returns (error: Option<Error>)
      requires request in core.requests
      modifies this`core
      ensures var settled := WalkedToSettled(old(core).requests[request].state, final);
              if settled.Ok? then error.None? && WalkedTo(old(core), core, request, settled.value)
              else error == Some(settled.error)
    {
      hide WalkedTo, WalkedToSettled, CanTransition, PathTo;
      ghost var origin := core;
      var current := core.requests[request].state;
      WalkStarts(core, request);
      if final == RequestState.Settled {
        StaysSettled(current);
        return None;
      }
      PathSettles(current, final);
      WalkErrs(current, final);
      var path := PathTo(current, final);
      if path.None? {
        return Some(InvalidTransition);
      }
      var steps := path.value + [RequestState.Settled];
      var state := current;
      for i := 0 to |steps|
        invariant request in core.requests && WalkedTo(origin, core, request, state)
        invariant Walkable(current, steps) == Walkable(state, steps[i..])
        invariant i > 0 ==> state == steps[i - 1]
      {
        assert steps[i..][0] == steps[i] && steps[i..][1..] == steps[i + 1..];
        if !CanTransition(state, steps[i]) {
          return Some(InvalidTransition);
        }
        MoveWalk(origin, core, request, state, steps[i]);
        SetRequest(request, steps[i]);
        state := steps[i];
      }
      error := None;
    }

    method SetHoldState(id: nat, state: HoldState)
      requires id < |core.reservations|
      modifies this`core
      ensures core == old(core).(reservations :=
                old(core).reservations[id := old(core).reservations[id].(state := state)])
    {
      core := core.(reservations := core.reservations[id := core.reservations[id].(state := state)]);
    }

    /** insert_reservation_budget_event: an entry on the Key account and one on the cap, under their versions. */
    method InsertEvent(hold: Reservation, kind: EventKind, amount: int, delta: int) returns (known: bool)
      modifies this`core
      ensures known == AccountsKnown(old(core).accounts, AccountsOf(hold))
      ensures known ==>
                core == old(core).(ledger :=
                  old(core).ledger + HoldEntries(old(core).accounts, hold, kind, amount, delta, None))
    {
      var ids := AccountsOf(hold);
      ghost var before := core;
      ghost var round := HoldEntries(core.accounts, hold, kind, amount, delta, None);
      assert before.ledger + [] == before.ledger;
      for i := 0 to |ids|
        invariant core == before.(ledger := before.ledger + round[..i])
        invariant forall j | 0 <= j < i :: ids[j] < |before.accounts|
      {
        if ids[i] >= |core.accounts| {
          return false;
        }
        assert round[..i + 1] == round[..i] + [round[i]];
        assert before.ledger + round[..i] + [round[i]] == before.ledger + round[..i + 1];
        core := core.(ledger := core.ledger + [HoldEntry(core.accounts, hold, ids[i], kind, amount, delta, None)]);
      }
      assert round[..|ids|] == round;
      known := true;
    }

    /** apply_settlement_for_reservation, on a hold with a Key account. */
    method ApplySettlement(id: nat, outcome: HoldOutcome) returns (error: Option<Error>)
      requires id < |core.reservations|
      modifies this`core
      ensures var e := OutcomeEffect(old(core), id, outcome);
              if e.Ok? then error.None? && core == EffectRows(old(core), e.value) else error == Some(e.error)
    {
      hide HoldEntries, AccountsKnown, OwnedByStep;
      var hold := core.reservations[id];
      if HeldByStep(core, id) {
        return Some(IdempotencyConflict);
      }
      var known := true;
      match outcome {
        case Releases =>
          SetHoldState(id, HoldReleased);
          known := InsertEvent(hold, ReleaseEvent, hold.amount, hold.amount);
        case Commits(actual) =>
          if actual.None? {
            SetHoldState(id, HoldUnknown);
          } else {
            if actual.value < 0 {
              return Some(InvalidAmount);
            }
            if actual.value > hold.amount {
              return Some(ActualExceedsReservation);
            }
            SetHoldState(id, HoldCommitted);
            known := InsertEvent(hold, CommitEvent, actual.value, hold.amount - actual.value);
          }
        case Suspends => SetHoldState(id, HoldUnknown);
      }
      error := if known then None else Some(InvalidConfiguration);
    }

    /** The request and its hold, where the client key is new. */
    method PreflightNew(now: Millis, request: Id, who: Identity, amount: int, ttl: int, active: Option<int>)
      returns (reply: Result<Reservation, Error>)
      modifies this`core
      ensures Tx(core, reply) == Preflight(old(core), now, request, who, amount, ttl, active)
    {
      hide HoldFor, HoldEntries, MinAvailable;
      if amount <= 0 || ttl < 0 || now + ttl > MAX_I64 {
        return Err(InvalidAmount);
      }
      if !KeyActive(core, who.key, who.user) {
        return Err(InvalidIdentity);
      }
      if active.Some? && active.value >= core.keys[who.key].maxConcurrency {
        return Err(ConcurrencyExceeded(active.value, core.keys[who.key].maxConcurrency));
      }
      if request in core.requests {
        return Err(ConstraintViolated);
      }
      var committed := core;
      core := core.(requests := core.requests[request := Request(who, Received, now)]);
      SetRequest(request, Validating);
      var hold := HoldFor(core, who.user, who.key, request, amount, now + ttl);
      HoldIgnoresRequests(committed, core, who.user, who.key, request, amount, now + ttl);
      if hold.Err? {
        core := committed;
        return Err(hold.error);
      }
      core := core.(
        reservations := core.reservations + [hold.value],
        ledger := core.ledger
                  + HoldEntries(core.accounts, hold.value, ReserveEvent, hold.value.amount, -hold.value.amount, None));
      SetRequest(request, Reserved);
      assert core.requests == committed.requests[request := Request(who, Reserved, now)];
      reply := Ok(hold.value);
    }

    /** preflight_reserve */
    method PreflightReserve(
      now: Millis, request: Id, who: Identity, client: Id, amount: int, ttl: int, active: Option<int>)
      returns (reply: Result<PreflightReply, Error>)
      modifies this
      ensures PreflightTx(core, known, reply)
              == PreflightFor(old(core), old(known), now, request, who, client, amount, ttl, active)
    {
      hide PreflightHold, EffectRows, ReservationFor;
      if amount <= 0 || ttl < 0 || now + ttl > MAX_I64 {
        return Err(InvalidAmount);
      }
      if !KeyActive(core, who.key, who.user) {
        return Err(InvalidIdentity);
      }
      var key := ClientKeyOf(who, client);
      if key in known {
        var row := known[key];
        if row.request !in core.requests {
          return Err(RequestNotFound);
        }
        if row.hash != who.hash {
          return Ok(PreflightConflict);
        }
        var found := ReservationFor(core.reservations, row.request);
        return Ok(PreflightExisting(row.request, if found.Some? then Some(core.reservations[found.value]) else None));
      }
      var created := PreflightNew(now, request, who, amount, ttl, active);
      if created.Err? {
        return Err(created.error);
      }
      known := known[key := Known(who.hash, request)];
      reply := Ok(PreflightCreated(created.value));
    }

    /** Where settle_request takes the request. */
    method MoveToFinal(request: Id, final: Option<RequestState>) returns (error: Option<Error>)
      requires request in core.requests
      modifies this`core
      ensures var state := FinalState(old(core), request, final);
              if state.Ok? then error.None? && WalkedTo(old(core), core, request, state.value)
              else error == Some(state.error)
    {
      hide WalkedTo, WalkedToSettled;
      WalkStarts(core, request);
      error := None;
      if final.Some? {
        error := SettleRequest(request, final.value);
      }
    }

    /** Where the outcome of a lease takes it. */
    method MoveWithLease(request: Id, target: RequestState) returns (error: Option<Error>)
      requires request in core.requests
      modifies this`core
      ensures var state := LeaseState(old(core).requests[request].state, target);
              if state.Ok? then error.None? && WalkedTo(old(core), core, request, state.value)
              else error == Some(state.error)
    {
      hide WalkedTo, WalkedToSettled, CanTransition;
      WalkStarts(core, request);
      error := None;
      if target != UnknownOutcome {
        error := SettleRequest(request, target);
      } else if core.requests[request].state != UnknownOutcome {
        if !CanTransition(core.requests[request].state, UnknownOutcome) {
          return Some(InvalidTransition);
        }
        MoveWalk(core, core, request, core.requests[request].state, UnknownOutcome);
        SetRequest(request, UnknownOutcome);
      }
    }

    /** The request moves and the hold is settled, as far as both accept it. */
    method SettleOpen(id: nat, outcome: HoldOutcome, final: Option<RequestState>) returns (error: Option<Error>)
      requires id < |core.reservations|
      modifies this`core
      ensures var course := SettleCourse(old(core), id, outcome, final);
              if course.Ok? then
                error.None?
                && core == SettledRows(old(core), old(core).reservations[id].request, course.value.0, course.value.1)
              else error == Some(course.error)
    {
      hide OutcomeEffect, FinalState, EffectRows, EffectFits, WalkedTo, SettledRows;
      ghost var committed := core;
      var request := core.reservations[id].request;
      if request in core.requests {
        error := MoveToFinal(request, final);
        if error.Some? {
          return;
        }
        MovedRequests(committed, core, request, FinalState(committed, request, final).value);
      }
      OutcomeIgnoresRequests(committed, core, id, outcome);
      ghost var moved := core;
      error := ApplySettlement(id, outcome);
      if error.None? {
        ghost var e := OutcomeEffect(committed, id, outcome).value;
        if request in committed.requests {
          SettledInOrder(committed, moved, request, FinalState(committed, request, final).value, e);
        } else {
          SettledAlone(committed, request, Received, e);
        }
      }
    }

    method SettleReservation(user: Id, key: Id, id: nat, outcome: HoldOutcome, final: Option<RequestState>)
      returns (reply: Result<Balance, Error>)
      modifies this`core
      ensures Tx(core, reply) == Settle(old(core), user, key, id, outcome, final)
    {
      hide SettleCourse, BalanceOf, OwnedBy, HeldByStep, SameOutcome, EffectFits, SettledRows;
      if id >= |core.reservations| {
        return Err(ReservationNotFound);
      }
      var hold := core.reservations[id];
      if !OwnedBy(core, hold, user, key) {
        return Err(OwnerMismatch);
      }
      if hold.state != HoldHeld {
        if HeldByStep(core, id) {
          return Err(IdempotencyConflict);
        }
        if !SameOutcome(core, id, outcome) {
          return Err(SettlementConflict);
        }
        return Ok(BalanceOf(core, hold.keyAccount));
      }
      var committed := core;
      var error := SettleOpen(id, outcome, final);
      if error.Some? {
        core := committed;
        return Err(error.value);
      }
      reply := Ok(BalanceOf(core, hold.keyAccount));
    }

    /** The billing half of settle_upstream_lease_with_status_inner. */
    method SettleLeaseHold(user: Id, key: Id, request: Id, outcome: HoldOutcome, target: RequestState)
      returns (reply: Result<(), Error>)
      modifies this`core
      ensures Tx(core, reply) == SettleLease(old(core), user, key, request, outcome, target)
    {
      hide OutcomeEffect, OwnedBy, LeaseState, EffectRows, EffectFits, WalkedTo, ReservationFor, SettledRows;
      var found := ReservationFor(core.reservations, request);
      if found.None? {
        return Err(ReservationNotFound);
      }
      if !OwnedBy(core, core.reservations[found.value], user, key) {
        return Err(OwnerMismatch);
      }
      if request !in core.requests {
        return Err(RequestNotFound);
      }
      var committed := core;
      var error := SettleLeased(request, found.value, outcome, target);
      if error.Some? {
        core := committed;
        return Err(error.value);
      }
      reply := Ok(());
    }

    /** The request moves with the outcome of its lease, and the hold after it. */
    method SettleLeased(request: Id, id: nat, outcome: HoldOutcome, target: RequestState) returns (error: Option<Error>)
      requires request in core.requests && id < |core.reservations|
      modifies this`core
      ensures var state, e := LeaseState(old(core).requests[request].state, target), OutcomeEffect(old(core), id, outcome);
              if state.Err? then error == Some(state.error)
              else if e.Err? then error == Some(e.error)
              else error.None? && core == SettledRows(old(core), request, state.value, e.value)
    {
      hide OutcomeEffect, LeaseState, EffectRows, EffectFits, WalkedTo, SettledRows;
      ghost var committed := core;
      error := MoveWithLease(request, target);
      if error.Some? {
        return;
      }
      MovedRequests(committed, core, request, LeaseState(committed.requests[request].state, target).value);
      OutcomeIgnoresRequests(committed, core, id, outcome);
      ghost var moved := core;
      error := ApplySettlement(id, outcome);
      if error.None? {
        SettledInOrder(committed, moved, request, LeaseState(committed.requests[request].state, target).value,
                       OutcomeEffect(committed, id, outcome).value);
      }
    }

    /** The billing half of recover_expired_upstream_leases, for one lease: the hold first, then the request. */
    method RecoverLeaseHold(request: Id) returns (reply: Result<(), Error>)
      modifies this`core
      ensures Tx(core, reply) == RecoverLease(old(core), request)
    {
      hide OutcomeEffect, EffectRows, EffectFits, ReservationFor, LeaseState, WalkedTo, SettledRows;
      var found := ReservationFor(core.reservations, request);
      if found.None? {
        return Err(ReservationNotFound);
      }
      var committed := core;
      var error := ApplySettlement(found.value, Suspends);
      if error.Some? {
        core := committed;
        return Err(error.value);
      }
      ghost var e := OutcomeEffect(committed, found.value, Suspends).value;
      EffectKeepsRequests(committed, e);
      if request !in core.requests {
        core := committed;
        return Err(RequestNotFound);
      }
      ghost var suspended := core;
      var refused := MoveWithLease(request, UnknownOutcome);
      UnknownErrs(committed.requests[request].state);
      if refused.Some? {
        core := committed;
        return Err(InvalidTransition);
      }
      MovedRequests(suspended, core, request, UnknownOutcome);
      MovedLast(committed, request, UnknownOutcome, e);
      reply := Ok(());
    }

    /** request_video_cancel of a job without an attempt. */
    method CancelQueuedRequest(request: Id) returns (reply: Result<(), Error>)
      modifies this`core
      ensures Tx(core, reply) == CancelQueued(old(core), request)
    {
      hide OutcomeEffect, EffectRows, EffectFits, ReservationFor, WalkedToSettled, WalkedTo, SettledRows;
      if request !in core.requests {
        return Err(RequestNotFound);
      }
      var state := core.requests[request].state;
      if state != Queued && state != Dispatched && state != Completing {
        return Err(InvalidConfiguration);
      }
      var committed := core;
      SetRequest(request, CancelRequested);
      var found := ReservationFor(core.reservations, request);
      if found.None? {
        core := committed;
        return Err(ReservationNotFound);
      }
      ghost var e := Nothing;
      ghost var moved := core;
      NothingMoves(committed);
      NothingMoves(moved);
      if core.reservations[found.value].state == HoldHeld {
        OutcomeIgnoresRequests(committed, core, found.value, Releases);
        var error := ApplySettlement(found.value, Releases);
        if error.Some? {
          core := committed;
          return Err(error.value);
        }
        e := OutcomeEffect(committed, found.value, Releases).value;
      }
      SettledInOrder(committed, moved, request, CancelRequested, e);
      SettledState(committed, request, CancelRequested, e);
      CanceledSettles();
      ghost var canceled := core;
      var refused := SettleRequest(request, Canceled);
      MovedRequests(canceled, core, request, RequestState.Settled);
      MovedAgain(committed, request, CancelRequested, RequestState.Settled, e);
      reply := Ok(());
    }
  }

  lemma MovedRequests(db: Db, moved: Db, request: Id, state: RequestState)
    requires WalkedTo(db, moved, request, state)
    ensures request in db.requests
    ensures moved == db.(requests := db.requests[request := db.requests[request].(state := state)])
  {
  }

  /** First the request and then the hold, or the other way round. */
  lemma SettledInOrder(db: Db, moved: Db, request: Id, state: RequestState, e: Effect)
    requires EffectFits(db, e) && request in db.requests
    requires moved == db.(requests := db.requests[request := db.requests[request].(state := state)])
    ensures EffectFits(moved, e) && EffectRows(moved, e) == SettledRows(db, request, state, e)
  {
    hide HoldEntries, MinAvailable, AccountsKnown, OwnedByStep, HasReservation;
    assert forall id: nat :: OwnedByStep(moved, id) == OwnedByStep(db, id) by { SameOwners(db, moved); }
    assert forall r :: HasReservation(moved, r) == HasReservation(db, r) by { SameHolds(db, moved); }
  }

  lemma SameOwners(db: Db, moved: Db)
    requires moved.steps == db.steps && moved.reservations == db.reservations
    ensures forall id: nat :: OwnedByStep(moved, id) == OwnedByStep(db, id)
  {
  }

  lemma SameHolds(db: Db, moved: Db)
    requires moved.reservations == db.reservations
    ensures forall r :: HasReservation(moved, r) == HasReservation(db, r)
  {
  }

  lemma SettledAlone(db: Db, request: Id, state: RequestState, e: Effect)
    requires EffectFits(db, e) && request !in db.requests
    ensures SettledRows(db, request, state, e) == EffectRows(db, e)
  {
  }

  lemma MovedLast(db: Db, request: Id, state: RequestState, e: Effect)
    requires EffectFits(db, e) && request in db.requests
    ensures var suspended := EffectRows(db, e);
            suspended.requests == db.requests
            && suspended.(requests := db.requests[request := db.requests[request].(state := state)])
               == SettledRows(db, request, state, e)
  {
    hide EffectFits, HoldsAfter, LedgerAfter;
  }

  lemma SettledState(db: Db, request: Id, state: RequestState, e: Effect)
    requires EffectFits(db, e) && request in db.requests
    ensures request in SettledRows(db, request, state, e).requests
    ensures SettledRows(db, request, state, e).requests[request].state == state
  {
    hide EffectFits, HoldsAfter, LedgerAfter;
  }

  lemma MovedAgain(db: Db, request: Id, first: RequestState, last: RequestState, e: Effect)
    requires EffectFits(db, e) && request in db.requests
    ensures var once := SettledRows(db, request, first, e);
            request in once.requests
            && once.(requests := once.requests[request := once.requests[request].(state := last)])
               == SettledRows(db, request, last, e)
  {
    hide EffectFits, HoldsAfter, LedgerAfter;
    var once := db.requests[request := db.requests[request].(state := first)];
    assert once[request := once[request].(state := last)]
        == db.requests[request := db.requests[request].(state := last)];
  }

  lemma UnknownErrs(current: RequestState)
    ensures LeaseState(current, UnknownOutcome) == Ok(UnknownOutcome)
            || LeaseState(current, UnknownOutcome) == Err(InvalidTransition)
  {
  }

  lemma StaysSettled(current: RequestState)
    ensures WalkedToSettled(current, RequestState.Settled) == Ok(current)
  {
  }

  lemma WalkErrs(current: RequestState, final: RequestState)
    requires final != RequestState.Settled
    ensures WalkedToSettled(current, final) == Ok(RequestState.Settled)
            || WalkedToSettled(current, final) == Err(InvalidTransition)
  {
  }

  lemma CanceledSettles()
    ensures WalkedToSettled(CancelRequested, Canceled) == Ok(RequestState.Settled)
  {
  }

  /** Only the last of several states shows. */
  lemma MoveWalk(origin: Db, core: Db, request: Id, state: RequestState, next: RequestState)
    requires request in core.requests && WalkedTo(origin, core, request, state)
    ensures core.requests[request].state == state
    ensures WalkedTo(origin, core.(requests := core.requests[request := core.requests[request].(state := next)]), request, next)
  {
    assert core.requests[request := core.requests[request].(state := next)]
        == origin.requests[request := origin.requests[request].(state := next)];
  }

  lemma HoldIgnoresRequests(db: Db, db': Db, user: Id, key: Id, request: Id, amount: int, expiresAt: int)
    requires db' == db.(requests := db'.requests)
    ensures HoldFor(db', user, key, request, amount, expiresAt) == HoldFor(db, user, key, request, amount, expiresAt)
  {
  }

  /** What a settlement does to the hold has nothing to do with the states of requests. */
  lemma OutcomeIgnoresRequests(db: Db, db': Db, id: nat, outcome: HoldOutcome)
    requires db' == db.(requests := db'.requests) && id < |db.reservations|
    ensures OutcomeEffect(db', id, outcome) == OutcomeEffect(db, id, outcome)
    ensures OutcomeEffect(db, id, outcome).Ok? ==>
              EffectRows(db', OutcomeEffect(db, id, outcome).value)
              == EffectRows(db, OutcomeEffect(db, id, outcome).value).(requests := db'.requests)
  {
    hide HoldEntries, AccountsKnown, HeldByStep;
    assert HeldByStep(db', id) == HeldByStep(db, id) by { SameSteps(db, db', id); }
  }

  lemma SameSteps(db: Db, db': Db, id: nat)
    requires db'.steps == db.steps
    ensures HeldByStep(db', id) == HeldByStep(db, id)
  {
  }

  lemma EffectKeepsRequests(db: Db, e: Effect)
    requires EffectFits(db, e)
    ensures EffectRows(db, e).requests == db.requests
  {
  }

  lemma NothingMoves(db: Db)
    ensures EffectFits(db, Nothing) && EffectRows(db, Nothing) == db
  {
  }
}
