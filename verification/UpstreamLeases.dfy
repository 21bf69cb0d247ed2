/**
  Slots of upstream accounts. A lease occupies one slot of its account from its grant until its outcome is
  known; whichever way leases are granted, kept alive, settled or recovered, no account is overbooked.
 */
module UpstreamLeases {
  import Model
  import opened Wrappers
  import opened Text

  type Id = Model.Id

  const DEFAULT_RECONCILE_TTL: int := 600_000

  datatype LeaseState = LeaseHeld | LeaseActive | LeaseSucceeded | LeaseFailed | LeaseUnknown

  datatype Lease = Lease(
    request: Id, kind: Id, account: Id, state: LeaseState, expiresAt: int, reconcileUntil: Option<int>)

  datatype Account = Account(
    id: Id, enabled: bool, available: bool, cooldownUntil: Option<int>, maxConcurrency: int)

  /** The latest reading of an account's balance. */
  datatype Observation = Observation(
    value: Option<int>, scale: int, fromReader: bool, isFresh: bool, observedAt: int, staleAt: int)

  datatype Strategy = HighestAvailable | LeastActiveSlots

  /** What a caller asks for; `matching` are the accounts that meet its provider, region and capability wishes. */
  datatype Query = Query(
    now: int, matching: set<Id>, predicted: int, margin: int, maxAge: int, strategy: Strategy,
    leaseTtl: int, reconcileTtl: int)

  datatype Board = Board(
    accounts: seq<Account>, observations: map<Id, Observation>, leases: seq<Lease>, budgetRequests: set<Id>)

  datatype LeaseError =
    | InvalidAmount | CapabilityMismatch | AccountCooling | NoFreshObservation | NoCapacity
    | LeaseNotFound | Inconsistent | NotReconcilable | WindowExpired | EvidenceRequired | OutcomeRefused

  datatype Outcome =
    | Success(actual: Option<int>, reference: Option<string>)
    | Rejected(accepted: bool)
    | TransportUnknown
    | Canceled(reference: Option<string>)

  datatype LeaseTx<+T> = LeaseTx(board: Board, reply: Result<T, LeaseError>)

  // Slots

  predicate Occupies(state: LeaseState) {
    state.LeaseHeld? || state.LeaseActive? || state.LeaseUnknown?
  }

  /** COUNT(*) of the account's held, active and unknown leases. */
  function Occupied(leases: seq<Lease>, account: Id): nat {
    if leases == [] then 0
    else
      var last := leases[|leases| - 1];
      Occupied(leases[..|leases| - 1], account) + if last.account == account && Occupies(last.state) then 1 else 0
  }

  // Choosing an account

  predicate Usable(a: Account, q: Query) {
    a.enabled && a.available && !(a.cooldownUntil.Some? && a.cooldownUntil.value > q.now)
  }

  function OldestAccepted(q: Query): int {
    if q.now - q.maxAge < Model.MIN_I64 then Model.MIN_I64 else q.now - q.maxAge
  }

  predicate Observed(b: Board, a: Account, q: Query) {
    && a.id in b.observations
    && var o := b.observations[a.id];
       && o.fromReader && o.isFresh && o.observedAt <= q.now < o.staleAt && OldestAccepted(q) <= o.observedAt
       && o.scale > 0 && o.value.Some? && o.value.value >= 0
  }

  /** Readings come in different scales; only whole base units are compared. */
  function Units(b: Board, a: Account): int {
    if a.id in b.observations && b.observations[a.id].scale > 0 && b.observations[a.id].value.Some?
    then b.observations[a.id].value.value / b.observations[a.id].scale else 0
  }

  predicate Roomy(b: Board, a: Account, q: Query) {
    Units(b, a) >= q.predicted + q.margin && Occupied(b.leases, a.id) < a.maxConcurrency
  }

  predicate Eligible(b: Board, a: Account, q: Query) {
    a.id in q.matching && Usable(a, q) && Observed(b, a, q) && Roomy(b, a, q)
  }

  /** The candidate order: the strategy's measure, then the account id. */
  predicate Better(b: Board, q: Query, x: Account, y: Account) {
    match q.strategy
    case HighestAvailable =>
      Units(b, x) > Units(b, y) || (Units(b, x) == Units(b, y) && Less(x.id, y.id))
    case LeastActiveSlots =>
      var p, r := Occupied(b.leases, x.id), Occupied(b.leases, y.id);
      p < r || (p == r && Less(x.id, y.id))
  }

  function Best(b: Board, q: Query, accounts: seq<Account>): (r: Option<Account>)
    ensures r.Some? ==> r.value in accounts && Eligible(b, r.value, q)
    ensures r.None? ==> forall a | a in accounts :: !Eligible(b, a, q)
  {
    if accounts == [] then None
    else
      var last := accounts[|accounts| - 1];
      var best := Best(b, q, accounts[..|accounts| - 1]);
      if Eligible(b, last, q) && (best.None? || Better(b, q, last, best.value)) then Some(last) else best
  }

  function SelectionError(b: Board, q: Query): LeaseError {
    if !exists a :: a in b.accounts && a.id in q.matching then CapabilityMismatch
    else if !exists a :: a in b.accounts && a.id in q.matching && Usable(a, q) then AccountCooling
    else if !exists a :: a in b.accounts && a.id in q.matching && Usable(a, q) && Observed(b, a, q) then NoFreshObservation
    else NoCapacity
  }

  function Select(b: Board, q: Query): Result<Account, LeaseError> {
    if q.predicted + q.margin > Model.MAX_I64 then Err(InvalidAmount)
    else
      var best := Best(b, q, b.accounts);
      if best.Some? then Ok(best.value) else Err(SelectionError(b, q))
  }

  // Granting: preflight and the queue claims

  predicate QueryValid(q: Query) {
    q.predicted > 0 && q.margin >= 0 && q.maxAge >= 0 && q.leaseTtl > 0 && q.reconcileTtl > 0
  }

  predicate LeaseFor(leases: seq<Lease>, request: Id, kind: Id) {
    exists i | 0 <= i < |leases| :: leases[i].request == request && leases[i].kind == kind
  }

  /** A new lease in the given state, on the selected account. */
  function Grant(b: Board, q: Query, request: Id, kind: Id, state: LeaseState): LeaseTx<Lease> {
    if !QueryValid(q) then LeaseTx(b, Err(InvalidAmount))
    else
      var account := Select(b, q);
      if account.Err? then LeaseTx(b, Err(account.error))
      else if q.now + q.leaseTtl > Model.MAX_I64 || q.now + q.reconcileTtl > Model.MAX_I64 then LeaseTx(b, Err(InvalidAmount))
      else if LeaseFor(b.leases, request, kind) then LeaseTx(b, Err(Inconsistent))
      else
        var lease := Lease(request, kind, account.value.id, state, q.now + q.leaseTtl, Some(q.now + q.reconcileTtl));
        LeaseTx(b.(leases := b.leases + [lease]), Ok(lease))
  }

  /** preflight_reserve_and_lease: the lease starts held. */
  function Preflight(b: Board, q: Query, request: Id, kind: Id): LeaseTx<Lease> {
    Grant(b, q, request, kind, LeaseHeld)
  }

  /** A queue claim activates the job's held lease, or is granted one and activates it in the same transaction. */
  function Claim(b: Board, q: Query, request: Id, existing: Option<nat>): LeaseTx<Lease> {
    if existing.None? then Grant(b, q, request, "video_job", LeaseActive)
    else if existing.value >= |b.leases| then LeaseTx(b, Err(LeaseNotFound))
    else
      var lease := b.leases[existing.value];
      if lease.request != request || lease.kind != "video_job" || lease.state != LeaseHeld
      then LeaseTx(b, Err(Inconsistent))
      else
        LeaseTx(b.(leases := b.leases[existing.value := lease.(state := LeaseActive)]),
                Ok(lease.(state := LeaseActive)))
  }

  // Keeping alive

  predicate Live(state: LeaseState) {
    state.LeaseHeld? || state.LeaseActive?
  }

  function Heartbeat(b: Board, id: nat, now: int, ttl: int): LeaseTx<Lease> {
    if ttl <= 0 || now + ttl > Model.MAX_I64 then LeaseTx(b, Err(InvalidAmount))
    else if id >= |b.leases| then LeaseTx(b, Err(LeaseNotFound))
    else
      var lease := b.leases[id];
      if !Live(lease.state) then LeaseTx(b, Ok(lease))
      else
        var renewed := lease.(state := LeaseActive, expiresAt := now + ttl);
        LeaseTx(b.(leases := b.leases[id := renewed]), Ok(renewed))
  }

  // Settling

  function OutcomeState(outcome: Outcome): LeaseState {
    match outcome
    case Success(_, _) => LeaseSucceeded
    case Rejected(accepted) => if accepted then LeaseUnknown else LeaseFailed
    case TransportUnknown => LeaseUnknown
    case Canceled(_) => LeaseFailed
  }

  function SettledLease(lease: Lease, outcome: Outcome, now: int): Lease {
    lease.(
    state := OutcomeState(outcome),
    reconcileUntil :=
      if OutcomeState(outcome) != LeaseUnknown then None
      else if lease.reconcileUntil.Some? then lease.reconcileUntil
      else Some(now + DEFAULT_RECONCILE_TTL))
  }

  /**
    settle_upstream_lease_with_status_inner; `allowed` says whether the request and its reservation accept the
    outcome. The reply is whether the outcome was applied.
   */
  function Settle(b: Board, id: nat, outcome: Outcome, now: int, allowUnknown: bool, allowed: bool): LeaseTx<bool> {
    if id >= |b.leases| then LeaseTx(b, Err(LeaseNotFound))
    else
      var lease := b.leases[id];
      var reconciling := allowUnknown && lease.state == LeaseUnknown;
      if allowUnknown && Live(lease.state) then LeaseTx(b, Err(NotReconcilable))
      else if !Live(lease.state) && !reconciling then LeaseTx(b, Ok(false))
      else if reconciling && (lease.reconcileUntil.None? || now > lease.reconcileUntil.value)
      then LeaseTx(b, Err(WindowExpired))
      else if OutcomeState(outcome) == LeaseUnknown && lease.reconcileUntil.None? && now + DEFAULT_RECONCILE_TTL > Model.MAX_I64
      then LeaseTx(b, Err(InvalidAmount))
      else if !allowed then LeaseTx(b, Err(OutcomeRefused))
      else LeaseTx(b.(leases := b.leases[id := SettledLease(lease, outcome, now)]), Ok(true))
  }

  predicate TerminalEvidence(outcome: Outcome) {
    match outcome
    case Success(_, reference) => reference.Some? && !Blank(reference.value)
    case Canceled(reference) => reference.Some? && !Blank(reference.value)
    case Rejected(accepted) => !accepted
    case TransportUnknown => false
  }

  /** reconcile_unknown_upstream_lease */
  function Reconcile(b: Board, id: nat, outcome: Outcome, now: int, allowed: bool): LeaseTx<bool> {
    if !TerminalEvidence(outcome) then LeaseTx(b, Err(EvidenceRequired))
    else Settle(b, id, outcome, now, true, allowed)
  }

  // Recovery

  predicate Expired(b: Board, lease: Lease, now: int) {
    Live(lease.state) && lease.expiresAt <= now && lease.request !in b.budgetRequests
  }

  function RecoveredLease(b: Board, lease: Lease, now: int): Lease {
    if Expired(b, lease, now)
    then lease.(state := LeaseUnknown, reconcileUntil := Some(now + DEFAULT_RECONCILE_TTL)) else lease
  }

  function RecoveredLeases(b: Board, now: int): seq<Lease> {
    seq(|b.leases|, i requires 0 <= i < |b.leases| => RecoveredLease(b, b.leases[i], now))
  }

  predicate SomeExpired(b: Board, now: int) {
    exists i | 0 <= i < |b.leases| :: Expired(b, b.leases[i], now)
  }

  /** recover_expired_upstream_leases; the reply is the number of leases whose outcome became unknown. */
  function Recover(b: Board, now: int, allowed: bool): LeaseTx<nat> {
    if SomeExpired(b, now) && (!allowed || now + DEFAULT_RECONCILE_TTL > Model.MAX_I64)
    then LeaseTx(b, Err(if !allowed then OutcomeRefused else InvalidAmount))
    else LeaseTx(b.(leases := RecoveredLeases(b, now)), Ok(CountExpired(b, b.leases, now)))
  }

  function CountExpired(b: Board, leases: seq<Lease>, now: int): nat {
    if leases == [] then 0
    else
      CountExpired(b, leases[..|leases| - 1], now) + if Expired(b, leases[|leases| - 1], now) then 1 else 0
  }

  class LeaseStore {
    var accounts: seq<Account>
    var observations: map<Id, Observation>
    var leases: seq<Lease>
    var budgetRequests: set<Id>

    constructor ()
      ensures Contents() == Board([], map[], [], {})
    {
      accounts, observations, leases, budgetRequests := [], map[], [], {};
    }

    function Contents(): Board
      reads this
    {
      Board(accounts, observations, leases, budgetRequests)
    }

    method CountSlots(account: Id) returns (slots: nat)
      ensures slots == Occupied(leases, account)
    {
      slots := 0;
      for i := 0 to |leases|
        invariant slots == Occupied(leases[..i], account)
      {
        assert leases[..i + 1][..i] == leases[..i];
        if leases[i].account == account && Occupies(leases[i].state) {
          slots := slots + 1;
        }
      }
      assert leases[..|leases|] == leases;
    }

    /** select_upstream_candidate: one pass over the accounts, remembering how far the best of them got. */
    method SelectCandidate(q: Query) returns (reply: Result<Account, LeaseError>)
      ensures reply == Select(Contents(), q)
    {
      hide Observed, Usable, Better, Units, Occupied;
      if q.predicted + q.margin > Model.MAX_I64 {
        return Err(InvalidAmount);
      }
      ghost var b := Contents();
      var matched, usable, observed := false, false, false;
      var best: Option<Account> := None;
      for i := 0 to |accounts|
        invariant best == Best(b, q, accounts[..i])
        invariant matched == exists a :: a in accounts[..i] && a.id in q.matching
        invariant usable == exists a :: a in accounts[..i] && a.id in q.matching && Usable(a, q)
        invariant observed == exists a :: a in accounts[..i] && a.id in q.matching && Usable(a, q) && Observed(b, a, q)
      {
        var a := accounts[i];
        assert accounts[..i + 1] == accounts[..i] + [a];
        assert accounts[..i + 1][..i] == accounts[..i];
        if a.id !in q.matching {
          continue;
        }
        matched := true;
        if !Usable(a, q) {
          continue;
        }
        usable := true;
        if !Observed(Contents(), a, q) {
          continue;
        }
        observed := true;
        var slots := CountSlots(a.id);
        if Units(Contents(), a) < q.predicted + q.margin || slots >= a.maxConcurrency {
          continue;
        }
        if best.None? || Better(Contents(), q, a, best.value) {
          best := Some(a);
        }
      }
      assert accounts[..|accounts|] == accounts;
      if best.Some? {
        reply := Ok(best.value);
      } else if !matched {
        reply := Err(CapabilityMismatch);
      } else if !usable {
        reply := Err(AccountCooling);
      } else if !observed {
        reply := Err(NoFreshObservation);
      } else {
        reply := Err(NoCapacity);
      }
    }

    method Acquire(q: Query, request: Id, kind: Id, state: LeaseState) returns (reply: Result<Lease, LeaseError>)
      modifies this
      ensures LeaseTx(Contents(), reply) == Grant(old(Contents()), q, request, kind, state)
    {
      hide Select;
      if !QueryValid(q) {
        return Err(InvalidAmount);
      }
      var account := SelectCandidate(q);
      if account.Err? {
        return Err(account.error);
      }
      if q.now + q.leaseTtl > Model.MAX_I64 || q.now + q.reconcileTtl > Model.MAX_I64 {
        return Err(InvalidAmount);
      }
      if LeaseFor(leases, request, kind) {
        return Err(Inconsistent);
      }
      var lease := Lease(request, kind, account.value.id, state, q.now + q.leaseTtl, Some(q.now + q.reconcileTtl));
      leases := leases + [lease];
      reply := Ok(lease);
    }

    method ClaimLease(q: Query, request: Id, existing: Option<nat>) returns (reply: Result<Lease, LeaseError>)
      modifies this
      ensures LeaseTx(Contents(), reply) == Claim(old(Contents()), q, request, existing)
    {
      hide Grant;
      if existing.None? {
        reply := Acquire(q, request, "video_job", LeaseActive);
        return;
      }
      var id := existing.value;
      if id >= |leases| {
        return Err(LeaseNotFound);
      }
      if leases[id].request != request || leases[id].kind != "video_job" || leases[id].state != LeaseHeld {
        return Err(Inconsistent);
      }
      leases := leases[id := leases[id].(state := LeaseActive)];
      reply := Ok(leases[id]);
    }

    method RenewLease(id: nat, now: int, ttl: int) returns (reply: Result<Lease, LeaseError>)
      modifies this
      ensures LeaseTx(Contents(), reply) == Heartbeat(old(Contents()), id, now, ttl)
    {
      if ttl <= 0 || now + ttl > Model.MAX_I64 {
        return Err(InvalidAmount);
      }
      if id >= |leases| {
        return Err(LeaseNotFound);
      }
      if Live(leases[id].state) {
        leases := leases[id := leases[id].(state := LeaseActive, expiresAt := now + ttl)];
      }
      reply := Ok(leases[id]);
    }

    method SettleLease(id: nat, outcome: Outcome, now: int, allowUnknown: bool, allowed: bool)
      returns (reply: Result<bool, LeaseError>)
      modifies this
      ensures LeaseTx(Contents(), reply) == Settle(old(Contents()), id, outcome, now, allowUnknown, allowed)
    {
      if id >= |leases| {
        return Err(LeaseNotFound);
      }
      var lease := leases[id];
      if allowUnknown && Live(lease.state) {
        return Err(NotReconcilable);
      }
      var reconciling := allowUnknown && lease.state == LeaseUnknown;
      if !Live(lease.state) && !reconciling {
        return Ok(false);
      }
      if reconciling && (lease.reconcileUntil.None? || now > lease.reconcileUntil.value) {
        return Err(WindowExpired);
      }
      var state := OutcomeState(outcome);
      var reconcileUntil: Option<int> := None;
      if state == LeaseUnknown {
        reconcileUntil := lease.reconcileUntil;
        if reconcileUntil.None? {
          if now + DEFAULT_RECONCILE_TTL > Model.MAX_I64 {
            return Err(InvalidAmount);
          }
          reconcileUntil := Some(now + DEFAULT_RECONCILE_TTL);
        }
      }
      if !allowed {
        return Err(OutcomeRefused);
      }
      leases := leases[id := lease.(state := state, reconcileUntil := reconcileUntil)];
      reply := Ok(true);
    }

    method RecoverExpired(now: int, allowed: bool) returns (reply: Result<nat, LeaseError>)
      modifies this
      ensures LeaseTx(Contents(), reply) == Recover(old(Contents()), now, allowed)
    {
      ghost var b := Contents();
      var committed := leases;
      var count := 0;
      for i := 0 to |committed|
        invariant |leases| == |committed|
        invariant Contents() == b.(leases := leases)
        invariant forall k | 0 <= k < i :: leases[k] == RecoveredLease(b, committed[k], now)
        invariant forall k | i <= k < |committed| :: leases[k] == committed[k]
        invariant count == CountExpired(b, committed[..i], now)
        invariant forall k | 0 <= k < i && Expired(b, committed[k], now) ::
                    allowed && now + DEFAULT_RECONCILE_TTL <= Model.MAX_I64
      {
        assert committed[..i + 1][..i] == committed[..i];
        var lease := committed[i];
        if Live(lease.state) && lease.expiresAt <= now && lease.request !in budgetRequests {
          if !allowed {
            leases := committed;
            return Err(OutcomeRefused);
          }
          if now + DEFAULT_RECONCILE_TTL > Model.MAX_I64 {
            leases := committed;
            return Err(InvalidAmount);
          }
          leases := leases[i := lease.(state := LeaseUnknown, reconcileUntil := Some(now + DEFAULT_RECONCILE_TTL))];
          count := count + 1;
        }
      }
      assert committed[..|committed|] == committed;
      assert leases == RecoveredLeases(b, now);
      reply := Ok(count);
    }
  }
}
