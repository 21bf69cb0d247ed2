/**
  A lease and the hold of its request are settled in one transaction: the lease ends, or its outcome stays
  unknown, exactly when the request and the reservation accept what that means for them.
 */
module LeaseBilling {
  import opened Wrappers
  import opened Model
  import opened RequestStates
  import opened Ledger
  import opened EventGroup
  import opened Holds
  import Plain
  import L = UpstreamLeases
  import P = PlainStore

  function OnHold(outcome: L.Outcome): Plain.HoldOutcome {
    match outcome
    case Success(actual, _) => Plain.Commits(actual)
    case Rejected(accepted) => if accepted then Plain.Suspends else Plain.Releases
    case TransportUnknown => Plain.Suspends
    case Canceled(_) => Plain.Releases
  }

  function OnRequest(outcome: L.Outcome): RequestState {
    match outcome
    case Success(_, _) => Succeeded
    case Rejected(accepted) => if accepted then UnknownOutcome else Failed
    case TransportUnknown => UnknownOutcome
    case Canceled(_) => Canceled
  }

  /** What the outcome of a lease does to the request and the reservation it ran for. */
  function Billed(core: Db, board: L.Board, user: Id, key: Id, id: nat, outcome: L.Outcome): Tx<()>
    requires id < |board.leases|
  {
    Plain.SettleLease(core, user, key, board.leases[id].request, OnHold(outcome), OnRequest(outcome))
  }

  predicate Accepts(core: Db, board: L.Board, user: Id, key: Id, id: nat, outcome: L.Outcome) {
    id < |board.leases| && Billed(core, board, user, key, id, outcome).reply.Ok?
  }

  datatype Desk = Desk(core: Db, lease: L.LeaseTx<bool>)

  /** settle_upstream_lease_with_status_inner: the lease and the billing of its request, or neither. */
  function Settle(
    core: Db, board: L.Board, user: Id, key: Id, id: nat, outcome: L.Outcome, now: int, allowUnknown: bool): Desk
  {
    var lease := L.Settle(board, id, outcome, now, allowUnknown, Accepts(core, board, user, key, id, outcome));
    if lease.reply == Ok(true) && id < |board.leases| then Desk(Billed(core, board, user, key, id, outcome).db, lease)
    else Desk(core, lease)
  }

  // Recovery

  /** The requests of the expired leases, in order. */
  function ExpiredRequests(board: L.Board, leases: seq<L.Lease>, now: int): seq<Id> {
    if leases == [] then []
    else
      var last := leases[|leases| - 1];
      ExpiredRequests(board, leases[..|leases| - 1], now) + if L.Expired(board, last, now) then [last.request] else []
  }

  /** Every one of the requests is recovered, or the first refusal stands. */
  function RecoverAll(core: Db, requests: seq<Id>): Result<Db, Error> {
    if requests == [] then Ok(core)
    else
      var before := RecoverAll(core, requests[..|requests| - 1]);
      if before.Err? then before
      else
        var tx := Plain.RecoverLease(before.value, requests[|requests| - 1]);
        if tx.reply.Err? then Err(tx.reply.error) else Ok(tx.db)
  }

  datatype Recovery = Recovery(core: Db, lease: L.LeaseTx<nat>)

  /** recover_expired_upstream_leases */
  function Recover(core: Db, board: L.Board, now: int): Recovery {
    var billed := RecoverAll(core, ExpiredRequests(board, board.leases, now));
    var lease := L.Recover(board, now, billed.Ok?);
    Recovery(if lease.reply.Ok? && billed.Ok? then billed.value else core, lease)
  }

  class Desks {
    const leases: L.LeaseStore
    const plain: P.Store

    constructor (leases: L.LeaseStore, plain: P.Store)
      ensures this.leases == leases && this.plain == plain
    {
      this.leases, this.plain := leases, plain;
    }

    /** The guards of the lease come first, then the billing, and the lease is written last. */
    method SettleLease(user: Id, key: Id, id: nat, outcome: L.Outcome, now: int, allowUnknown: bool)
      returns (reply: Result<bool, L.LeaseError>)
      modifies leases, plain
      ensures Desk(plain.core, L.LeaseTx(leases.Contents(), reply))
              == Settle(old(plain.core), old(leases.Contents()), user, key, id, outcome, now, allowUnknown)
    {
      hide Plain.SettleLease;
      var committed := plain.core;
      var allowed := false;
      if id < |leases.leases| {
        var billed := plain.SettleLeaseHold(user, key, leases.leases[id].request, OnHold(outcome), OnRequest(outcome));
        allowed := billed.Ok?;
      }
      reply := leases.SettleLease(id, outcome, now, allowUnknown, allowed);
      if reply != Ok(true) {
        plain.core := committed; // the transaction is dropped
      }
    }

    method RecoverExpired(now: int) returns (reply: Result<nat, L.LeaseError>)
      modifies leases, plain
      ensures Recovery(plain.core, L.LeaseTx(leases.Contents(), reply))
              == Recover(old(plain.core), old(leases.Contents()), now)
    {
      hide Plain.RecoverLease;
      var committed, board := plain.core, leases.Contents();
      ghost var all := ExpiredRequests(board, board.leases, now);
      var allowed := true;
      for i := 0 to |board.leases|
        invariant leases.Contents() == board
        invariant allowed ==> RecoverAll(committed, ExpiredRequests(board, board.leases[..i], now)) == Ok(plain.core)
        invariant !allowed ==> RecoverAll(committed, ExpiredRequests(board, board.leases[..i], now)).Err?
      {
        assert board.leases[..i + 1][..i] == board.leases[..i];
        var lease := board.leases[i];
        ghost var before := ExpiredRequests(board, board.leases[..i], now);
        assert before + [] == before;
        if L.Expired(board, lease, now) {
          assert ExpiredRequests(board, board.leases[..i + 1], now) == before + [lease.request];
          assert (before + [lease.request])[..|before|] == before;
          if allowed {
            var billed := plain.RecoverLeaseHold(lease.request);
            allowed := billed.Ok?;
          }
        }
      }
      assert board.leases[..|board.leases|] == board.leases;
      reply := leases.RecoverExpired(now, allowed);
      if reply.Err? || !allowed {
        plain.core := committed;
      }
    }
  }

  // What the two halves have to do with one another

  /** How far the lease and the hold of its request have come. */
  predicate Together(lease: L.LeaseState, hold: HoldState, request: RequestState) {
    match lease
    case LeaseSucceeded => (hold == HoldCommitted || hold == HoldUnknown) && request == RequestState.Settled
    case LeaseFailed => hold == HoldReleased && request == RequestState.Settled
    case LeaseUnknown => hold == HoldUnknown && request == UnknownOutcome
    case _ => false
  }

  /**
    When an outcome is applied, the lease, the hold and the request say the same of it; otherwise the billing is
    untouched, and the lease with it.
   */
  lemma AppliedTogether(
    core: Db, board: L.Board, user: Id, key: Id, id: nat, outcome: L.Outcome, now: int, allowUnknown: bool)
    ensures var desk := Settle(core, board, user, key, id, outcome, now, allowUnknown);
            if desk.lease.reply == Ok(true) then
              && id < |desk.lease.board.leases|
              && var lease := desk.lease.board.leases[id];
                 && lease.request in desk.core.requests
                 && ReservationFor(core.reservations, lease.request).Some?
                 && var hold := ReservationFor(core.reservations, lease.request).value;
                    && hold < |desk.core.reservations|
                    && Together(lease.state, desk.core.reservations[hold].state, desk.core.requests[lease.request].state)
            else desk.core == core && desk.lease.board == board
  {
    hide Plain.LeaseCourse, ReservationFor, Plain.SettledRows;
    var allowed := Accepts(core, board, user, key, id, outcome);
    if L.Settle(board, id, outcome, now, allowUnknown, allowed).reply == Ok(true) {
      BilledState(core, user, key, board.leases[id].request, outcome);
    }
  }

  lemma BilledState(core: Db, user: Id, key: Id, request: Id, outcome: L.Outcome)
    requires Plain.SettleLease(core, user, key, request, OnHold(outcome), OnRequest(outcome)).reply.Ok?
    ensures ReservationFor(core.reservations, request).Some?
    ensures var core' := Plain.SettleLease(core, user, key, request, OnHold(outcome), OnRequest(outcome)).db;
            var hold := ReservationFor(core.reservations, request).value;
            && request in core'.requests && hold < |core'.reservations|
            && Together(L.OutcomeState(outcome), core'.reservations[hold].state, core'.requests[request].state)
  {
    hide Plain.HeldByStep, AccountsKnown, Plain.OwnedBy, ReservationFor, CanTransition, OwnedByStep, LedgerAfter;
  }
}
