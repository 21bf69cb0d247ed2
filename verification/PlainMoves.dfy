/** What plain requests do to the holds they share accounts with, and that a settlement is given once. */
module PlainMoves {
  import opened Wrappers
  import opened Model
  import opened RequestStates
  import opened Ledger
  import opened EventGroup
  import opened Billing
  import opened Invariant
  import opened Frame
  import opened Money
  import opened Solvency
  import opened Holds
  import opened ForeignMoves
  import opened Plain
  import Runs

  datatype Action =
    | PreflightRequest(now: Millis, request: Id, who: Identity, amount: int, ttl: int, active: Option<int>)
    | SettleHold(user: Id, key: Id, id: nat, outcome: HoldOutcome, final: Option<RequestState>)
    | SettleLeaseOf(user: Id, key: Id, request: Id, outcome: HoldOutcome, target: RequestState)
    | RecoverLeaseOf(request: Id)
    | CancelQueuedJob(request: Id)

  function Acted(db: Db, action: Action): Db {
    match action
    case PreflightRequest(now, request, who, amount, ttl, active) =>
      Preflight(db, now, request, who, amount, ttl, active).db
    case SettleHold(user, key, id, outcome, final) => Settle(db, user, key, id, outcome, final).db
    case SettleLeaseOf(user, key, request, outcome, target) =>
      SettleLease(db, user, key, request, outcome, target).db
    case RecoverLeaseOf(request) => RecoverLease(db, request).db
    case CancelQueuedJob(request) => CancelQueued(db, request).db
  }

  function PreflightEffect(hold: Result<Reservation, Error>): Effect {
    if hold.Ok? then Take(hold.value) else Nothing
  }

  function CourseEffect(course: Result<(RequestState, Effect), Error>): Effect {
    if course.Ok? then course.value.1 else Nothing
  }

  function SettleEffect(db: Db, user: Id, key: Id, id: nat, outcome: HoldOutcome, final: Option<RequestState>): Effect {
    if id < |db.reservations| && OwnedBy(db, db.reservations[id], user, key) && db.reservations[id].state == HoldHeld
    then CourseEffect(SettleCourse(db, id, outcome, final)) else Nothing
  }

  function ActionEffect(db: Db, action: Action): Effect {
    match action
    case PreflightRequest(now, request, who, amount, ttl, active) =>
      PreflightEffect(PreflightHold(db, now, request, who, amount, ttl, active))
    case SettleHold(user, key, id, outcome, final) => SettleEffect(db, user, key, id, outcome, final)
    case SettleLeaseOf(user, key, request, outcome, target) =>
      CourseEffect(LeaseCourse(db, user, key, request, outcome, target))
    case RecoverLeaseOf(request) => if RecoverCourse(db, request).Ok? then RecoverCourse(db, request).value else Nothing
    case CancelQueuedJob(request) => if CancelCourse(db, request).Ok? then CancelCourse(db, request).value else Nothing
  }

  /** The outcome of a lease is about to reach a hold that is closed: neither path asks. */
  function Reached(db: Db, action: Action): Option<nat> {
    match action
    case PreflightRequest(_, _, _, _, _, _) => None
    case SettleHold(_, _, _, _, _) => None
    case SettleLeaseOf(user, key, request, outcome, target) =>
      if LeaseCourse(db, user, key, request, outcome, target).Ok? then ClosedHold(db, request) else None
    case RecoverLeaseOf(request) => if RecoverCourse(db, request).Ok? then ClosedHold(db, request) else None
    case CancelQueuedJob(_) => None
  }

  /** The hold of the request, if it is closed. */
  function ClosedHold(db: Db, request: Id): Option<nat> {
    var found := ReservationFor(db.reservations, request);
    if found.Some? && Closed(db.reservations[found.value].state) then found else None
  }

  lemma RowsEffected(db: Db, requests: map<Id, Request>, e: Effect)
    requires EffectFits(db, e)
    requires forall q | q in db.requests ::
               && q in requests
               && requests[q].identity == db.requests[q].identity
               && requests[q].createdAt == db.requests[q].createdAt
    ensures Effected(db, EffectRows(db, e).(requests := requests), e)
  {
    hide EffectFits, HoldsAfter, LedgerAfter;
  }

  lemma SettledEffected(db: Db, request: Id, state: RequestState, e: Effect)
    requires EffectFits(db, e)
    ensures Effected(db, SettledRows(db, request, state, e), e)
  {
    hide EffectFits, HoldsAfter, LedgerAfter, Effected;
    var requests :=
      if request in db.requests then db.requests[request := db.requests[request].(state := state)] else db.requests;
    RowsEffected(db, requests, e);
  }

  lemma NothingDone(db: Db)
    ensures Effected(db, db, Nothing)
  {
  }

  lemma PreflightEffected(db: Db, now: Millis, request: Id, who: Identity, amount: int, ttl: int, active: Option<int>)
    ensures Effected(db, Preflight(db, now, request, who, amount, ttl, active).db,
                     PreflightEffect(PreflightHold(db, now, request, who, amount, ttl, active)))
  {
    hide PreflightHold, HoldsAfter, LedgerAfter, EffectFits;
    NothingDone(db);
  }

  lemma SettleEffected(db: Db, user: Id, key: Id, id: nat, outcome: HoldOutcome, final: Option<RequestState>)
    ensures Effected(db, Settle(db, user, key, id, outcome, final).db, SettleEffect(db, user, key, id, outcome, final))
    ensures !ReopensHold(db, SettleEffect(db, user, key, id, outcome, final))
  {
    hide SettleCourse, EffectFits, SettledRows, BalanceOf, OwnedBy, HeldByStep, SameOutcome, Effected;
    NothingDone(db);
    if SettleEffect(db, user, key, id, outcome, final) != Nothing {
      var course := SettleCourse(db, id, outcome, final);
      SettledEffected(db, db.reservations[id].request, course.value.0, course.value.1);
    } else {
      SettlesNothing(db, user, key, id, outcome, final);
    }
  }

  lemma SettlesNothing(db: Db, user: Id, key: Id, id: nat, outcome: HoldOutcome, final: Option<RequestState>)
    requires SettleEffect(db, user, key, id, outcome, final) == Nothing
    ensures Settle(db, user, key, id, outcome, final).db == db
  {
    hide SettleCourse, SettledRows, BalanceOf, OwnedBy, HeldByStep, SameOutcome;
  }

  lemma LeaseEffected(db: Db, user: Id, key: Id, request: Id, outcome: HoldOutcome, target: RequestState)
    ensures Effected(db, SettleLease(db, user, key, request, outcome, target).db,
                     CourseEffect(LeaseCourse(db, user, key, request, outcome, target)))
    ensures ReopenedHold(db, CourseEffect(LeaseCourse(db, user, key, request, outcome, target)))
            == if LeaseCourse(db, user, key, request, outcome, target).Ok? then ClosedHold(db, request) else None
  {
    hide LeaseCourse, EffectFits, SettledRows, Effected, ReservationFor;
    NothingDone(db);
    var course := LeaseCourse(db, user, key, request, outcome, target);
    if course.Ok? {
      SettledEffected(db, request, course.value.0, course.value.1);
    }
  }

  lemma RecoverEffected(db: Db, request: Id)
    ensures var e := if RecoverCourse(db, request).Ok? then RecoverCourse(db, request).value else Nothing;
            && Effected(db, RecoverLease(db, request).db, e)
            && ReopenedHold(db, e) == if RecoverCourse(db, request).Ok? then ClosedHold(db, request) else None
  {
    hide RecoverCourse, EffectFits, SettledRows, Effected, ReservationFor;
    NothingDone(db);
    var e := RecoverCourse(db, request);
    if e.Ok? {
      SettledEffected(db, request, UnknownOutcome, e.value);
    }
  }

  lemma CancelEffected(db: Db, request: Id)
    ensures var e := if CancelCourse(db, request).Ok? then CancelCourse(db, request).value else Nothing;
            Effected(db, CancelQueued(db, request).db, e) && !ReopensHold(db, e)
  {
    hide CancelCourse, EffectFits, SettledRows, Effected;
    NothingDone(db);
    var e := CancelCourse(db, request);
    if e.Ok? {
      SettledEffected(db, request, RequestState.Settled, e.value);
    }
  }

  lemma ActionEffected(db: Db, action: Action)
    ensures Effected(db, Acted(db, action), ActionEffect(db, action))
    ensures ReopenedHold(db, ActionEffect(db, action)) == Reached(db, action)
  {
    hide Preflight, Settle, SettleLease, RecoverLease, CancelQueued, Effected, PreflightHold, SettleEffect, LeaseCourse,
         RecoverCourse, CancelCourse, ClosedHold;
    match action
    case PreflightRequest(now, request, who, amount, ttl, active) =>
      PreflightEffected(db, now, request, who, amount, ttl, active);
    case SettleHold(user, key, id, outcome, final) => SettleEffected(db, user, key, id, outcome, final);
    case SettleLeaseOf(user, key, request, outcome, target) =>
      LeaseEffected(db, user, key, request, outcome, target);
    case RecoverLeaseOf(request) => RecoverEffected(db, request);
    case CancelQueuedJob(request) => CancelEffected(db, request);
  }

  // A client key is answered with what it was first given

  /** A preflight is the step of that name, or changes nothing. */
  lemma PreflightIsStep(
    db: Db, known: map<ClientKey, Known>, now: Millis, request: Id, who: Identity, client: Id, amount: int, ttl: int,
    active: Option<int>)
    ensures var tx := PreflightFor(db, known, now, request, who, client, amount, ttl, active);
            tx.db == db || tx.db == Acted(db, PreflightRequest(now, request, who, amount, ttl, active))
  {
    hide Preflight, KeyActive, KnownReply;
  }

  /**
    However often it is asked again, and whatever has happened in between, a client key is answered with the request
    it was first given, or with a conflict if it now comes with another content; no second hold is taken.
   */
  lemma ClientKeyAnswers(
    db: Db, known: map<ClientKey, Known>, now: Millis, request: Id, who: Identity, client: Id, amount: int, ttl: int,
    active: Option<int>, later: Db, later': map<ClientKey, Known>, then': Millis, request': Id, who': Identity,
    amount': int, ttl': int, active': Option<int>)
    requires PreflightFor(db, known, now, request, who, client, amount, ttl, active).reply.Ok?
    requires PreflightFor(db, known, now, request, who, client, amount, ttl, active).reply.value.PreflightCreated?
    requires var first := PreflightFor(db, known, now, request, who, client, amount, ttl, active).known;
             forall k | k in first :: k in later' && later'[k] == first[k]
    requires ClientKeyOf(who', client) == ClientKeyOf(who, client) && request in later.requests
    requires amount' > 0 && ttl' >= 0 && then' + ttl' <= MAX_I64 && KeyActive(later, who'.key, who'.user)
    ensures var tx := PreflightFor(later, later', then', request', who', client, amount', ttl', active');
            && tx.db == later && tx.known == later'
            && tx.reply.Ok?
            && if who'.hash == who.hash then tx.reply.value.PreflightExisting? && tx.reply.value.request == request
               else tx.reply.value.PreflightConflict?
  {
    hide Preflight, ReservationFor;
    var first := PreflightFor(db, known, now, request, who, client, amount, ttl, active).known;
    assert ClientKeyOf(who, client) in first;
  }

  // A settlement is given once

  lemma {:induction false} FirstCommitAfter(before: seq<Entry>, e: Entry, after: seq<Entry>, account: nat)
    requires forall x | 0 <= x < |before| :: before[x].kind != CommitEvent
    requires e.kind == CommitEvent && e.account == account
    ensures FirstCommit(before + [e] + after, account) == Some(e.amount)
  {
    if before == [] {
      assert before + [e] + after == [e] + after;
    } else {
      assert (before + [e] + after)[1..] == before[1..] + [e] + after;
      FirstCommitAfter(before[1..], e, after, account);
    }
  }

  /** What a committed hold was charged is what its first commit entry on the Key says. */
  lemma CommittedCharge(es: seq<Entry>, hold: Reservation, taken: seq<Account>, closed: seq<Account>, charge: int)
    requires Booked(es, hold, taken, closed, charge) && hold.state == HoldCommitted
    ensures FirstCommit(es, hold.keyAccount) == Some(charge)
  {
    var round := ClosingRound(closed, hold, Some(charge));
    FirstCommitAfter(TakingRound(taken, hold), round[0], round[1..], hold.keyAccount);
    assert es == TakingRound(taken, hold) + [round[0]] + round[1..];
  }

  /** How a hold that is no longer held was settled. */
  function RecordedOutcome(db: Db, id: nat): HoldOutcome
    requires id < |db.reservations|
  {
    match db.reservations[id].state
    case HoldHeld => Suspends
    case HoldUnknown => Suspends
    case HoldReleased => Releases
    case HoldCommitted => Commits(Some(ChargeOn(db, id)))
  }

  /** A charge of unknown amount leaves the hold in doubt. */
  function Meaning(outcome: HoldOutcome): HoldOutcome {
    if outcome == Commits(None) then Suspends else outcome
  }

  lemma StepsHoldOwn(db: Db, id: nat)
    requires TablesSound(db) && HeldByStep(db, id)
    ensures OwnedByStep(db, id)
  {
    hide LedgerSound, BudgetIdsUnique, ReferencesSound, AccountsShaped, ReservationsSound;
    var s :| s in db.steps && db.steps[s].reservation == id;
    assert StepLinked(db, s);
  }

  lemma BookedOutcome(db: Db, id: nat, outcome: HoldOutcome)
    requires id < |db.reservations| && db.reservations[id].group == HoldGroup(id)
    requires HoldBooked(EventsOf(db.ledger, HoldGroup(id)), db.reservations[id]) && HoldShaped(db.reservations[id])
    requires db.reservations[id].state != HoldHeld
    ensures SameOutcome(db, id, outcome) <==> Meaning(outcome) == RecordedOutcome(db, id)
  {
    hide EventsOf, FirstCommit, Booked, HoldAccounted, SettledOn;
    var es, hold := EventsOf(db.ledger, HoldGroup(id)), db.reservations[id];
    var taken, closed, charge :| Booked(es, hold, taken, closed, charge);
    BookedAccounted(es, hold, taken, closed, charge, hold.keyAccount);
    if hold.state == HoldCommitted {
      CommittedCharge(es, hold, taken, closed, charge);
    }
  }

  /** What is asked of the one hold: its group is its own, and its entries are what its state says. */
  ghost predicate HoldIntact(db: Db, id: nat) {
    && id < |db.reservations| && !OwnedByStep(db, id)
    && db.reservations[id].group == HoldGroup(id) && HoldShaped(db.reservations[id])
    && HoldBooked(EventsOf(db.ledger, HoldGroup(id)), db.reservations[id])
  }

  /**
    Settling a hold that is no longer held changes nothing, and is answered exactly when it says what the hold was
    settled with: released, in doubt, or charged the very amount.
   */
  lemma LateSettlement(db: Db, user: Id, key: Id, id: nat, outcome: HoldOutcome, final: Option<RequestState>)
    requires TablesSound(db) && HoldIntact(db, id)
    requires OwnedBy(db, db.reservations[id], user, key) && db.reservations[id].state != HoldHeld
    ensures var tx := Settle(db, user, key, id, outcome, final);
            && tx.db == db
            && (tx.reply.Ok? <==> Meaning(outcome) == RecordedOutcome(db, id))
            && (tx.reply.Err? ==> tx.reply == Err(SettlementConflict))
  {
    hide SettleCourse, SettledRows, BalanceOf, OwnedBy, HeldByStep, SameOutcome, RecordedOutcome, HoldBooked, HoldShaped,
         TablesSound, OwnedByStep;
    BookedOutcome(db, id, outcome);
    if HeldByStep(db, id) {
      StepsHoldOwn(db, id);
    }
  }

  lemma OutcomeRecorded(db: Db, db': Db, id: nat, outcome: HoldOutcome)
    requires TablesSound(db) && HoldIntact(db, id) && Outstanding(db.reservations[id].state)
    requires OutcomeEffect(db, id, outcome).Ok? && Effected(db, db', OutcomeEffect(db, id, outcome).value)
    ensures HoldIntact(db', id) && db'.reservations[id].state != HoldHeld
    ensures RecordedOutcome(db', id) == Meaning(outcome)
  {
    hide EventsOf, Booked, SettledOn, Available, GrantedOn, SumOf, OverrunOf, HeldByStep, AccountsKnown, TablesSound,
         OwnedByStep, Effected, HoldBooked;
    var e := OutcomeEffect(db, id, outcome).value;
    EffectOwners(db, db', e, id);
    EffectKeepsBooked(db, db', e, id);
    EffectState(db, db', e);
    if e.Close? && e.charge.Some? {
      ChargeRecorded(db, db', id, e.charge.value);
    }
  }

  lemma EffectState(db: Db, db': Db, e: Effect)
    requires Effected(db, db', e) && (e.Close? || e.Doubt?)
    ensures e.id < |db'.reservations|
    ensures db'.reservations[e.id].state
            == if e.Doubt? then HoldUnknown else if e.charge.None? then HoldReleased else HoldCommitted
  {
  }

  lemma ChargeRecorded(db: Db, db': Db, id: nat, charge: int)
    requires TablesSound(db) && Effected(db, db', Close(id, Some(charge))) && id < |db.reservations|
    requires HoldBooked(EventsOf(db.ledger, HoldGroup(id)), db.reservations[id]) && HoldShaped(db.reservations[id])
    requires Outstanding(db.reservations[id].state)
    ensures id < |db'.reservations| && ChargeOn(db', id) == charge
  {
    hide EventsOf, Booked, SettledOn, Available, GrantedOn, SumOf, OverrunOf, AccountsKnown, OwnedByStep,
         Billing.HoldEntries, LedgerSound, BudgetIdsUnique, ReferencesSound, AccountsShaped, StepLinked, ReservationsSound;
    var es, hold := EventsOf(db.ledger, HoldGroup(id)), db.reservations[id];
    var taken, closed, paid :| Booked(es, hold, taken, closed, paid);
    BookedAccounted(es, hold, taken, closed, paid, hold.keyAccount);
    EffectEvents(db, db', Close(id, Some(charge)), id);
    RoundOnAccount(es, Round(db.accounts, hold, CommitEvent, charge, hold.amount - charge, None), hold.keyAccount);
  }

  /** So settling twice is settling once, and any other settlement after it is refused. */
  lemma SettledOnce(db: Db, user: Id, key: Id, id: nat, outcome: HoldOutcome, final: Option<RequestState>,
                    again: HoldOutcome, final': Option<RequestState>)
    requires TablesSound(db) && HoldIntact(db, id)
    requires Settle(db, user, key, id, outcome, final).reply.Ok?
    ensures var db' := Settle(db, user, key, id, outcome, final).db;
            && Settle(db', user, key, id, again, final').db == db'
            && (Settle(db', user, key, id, again, final').reply.Ok? <==> Meaning(again) == Meaning(outcome))
  {
    hide OutcomeEffect, TablesSound, HoldBooked, HoldShaped, EventsOf, OwnedByStep, Settle, RecordedOutcome, Effected;
    var db' := Settle(db, user, key, id, outcome, final).db;
    SettleFacts(db, user, key, id, outcome, final);
    SettleAddsNoRequest(db, user, key, id, outcome, final);
    if db.reservations[id].state == HoldHeld {
      SettleEffected(db, user, key, id, outcome, final);
      var e := SettleEffect(db, user, key, id, outcome, final);
      OutcomeRecorded(db, db', id, outcome);
      EffectIsOtherWork(db, db', e);
      Runs.OtherWorkTables(db, db');
      assert db.reservations[id].request in db'.requests.Keys ==> db.reservations[id].request in db.requests.Keys;
      StillOwner(db, db', id, user, key, e);
      LateSettlement(db', user, key, id, again, final');
    } else {
      LateSettlement(db, user, key, id, outcome, final);
      LateSettlement(db, user, key, id, again, final');
    }
  }

  /** A settlement that is answered is of a hold no step owns, and gives it the effect of its outcome. */
  lemma SettleFacts(db: Db, user: Id, key: Id, id: nat, outcome: HoldOutcome, final: Option<RequestState>)
    requires TablesSound(db) && id < |db.reservations| && Settle(db, user, key, id, outcome, final).reply.Ok?
    ensures !OwnedByStep(db, id) && OwnedBy(db, db.reservations[id], user, key)
    ensures db.reservations[id].state == HoldHeld ==>
              && OutcomeEffect(db, id, outcome).Ok?
              && SettleEffect(db, user, key, id, outcome, final) == OutcomeEffect(db, id, outcome).value
  {
    hide SettledRows, BalanceOf, OwnedBy, SameOutcome, TablesSound, FinalState;
    OwnedIsHeld(db, id);
  }

  lemma SettleAddsNoRequest(db: Db, user: Id, key: Id, id: nat, outcome: HoldOutcome, final: Option<RequestState>)
    ensures Settle(db, user, key, id, outcome, final).db.requests.Keys == db.requests.Keys
  {
    hide SettleCourse, BalanceOf, OwnedBy, HeldByStep, SameOutcome, EffectFits, HoldsAfter, LedgerAfter;
  }

  lemma OwnedIsHeld(db: Db, id: nat)
    ensures OwnedByStep(db, id) ==> HeldByStep(db, id)
  {
  }

  lemma StillOwner(db: Db, db': Db, id: nat, user: Id, key: Id, e: Effect)
    requires Effected(db, db', e) && id < |db.reservations| && OwnedBy(db, db.reservations[id], user, key)
    requires db.reservations[id].request in db'.requests ==> db.reservations[id].request in db.requests
    ensures id < |db'.reservations| && OwnedBy(db', db'.reservations[id], user, key)
  {
    hide OwnedByStep;
    EffectOwners(db, db', e, id);
  }
}
