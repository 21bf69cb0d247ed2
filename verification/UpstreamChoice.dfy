/**
  What the upstream scheduler decides, read off its tables: which account is chosen and why none is, when a lease is
  granted or claimed and on which terms, and until when a heartbeat keeps it.
 */
module UpstreamChoice {
  import Model
  import opened Sets
  import opened Wrappers
  import opened Text
  import opened UpstreamLeases
  import opened UpstreamSlots

  // Eligibility

  /** The leases that take a slot of the account. */
  function Slots(leases: seq<Lease>, account: Id): set<nat> {
    set i: nat | i < |leases| && leases[i].account == account
                 && leases[i].state in {LeaseHeld, LeaseActive, LeaseUnknown}
  }

  predicate Switched(a: Account, now: int) {
    a.enabled && a.available && (a.cooldownUntil.Some? ==> a.cooldownUntil.value <= now)
  }

  /** The account's reading is a fresh one by the reader, neither from the future nor too old, and says an amount. */
  predicate Read(o: Observation, q: Query) {
    && o.fromReader && o.isFresh
    && o.observedAt <= q.now && q.now < o.staleAt
    && Model.MIN_I64 <= o.observedAt && q.now - q.maxAge <= o.observedAt
    && o.scale > 0 && o.value.Some? && o.value.value >= 0
  }

  /** Matching and switched on, and with an accepted reading. */
  predicate Visible(b: Board, q: Query, a: Account) {
    a.id in q.matching && Switched(a, q.now) && a.id in b.observations && Read(b.observations[a.id], q)
  }

  /** The whole base units of an accepted reading. */
  function Amount(b: Board, q: Query, a: Account): nat
    requires Visible(b, q, a)
  {
    b.observations[a.id].value.value / b.observations[a.id].scale
  }

  predicate Candidate(b: Board, q: Query, a: Account) {
    && a in b.accounts && Visible(b, q, a)
    && Amount(b, q, a) >= q.predicted + q.margin
    && |Slots(b.leases, a.id)| < a.maxConcurrency
  }

  lemma {:induction false} OccupiedIsCount(leases: seq<Lease>, account: Id)
    ensures Occupied(leases, account) == |Slots(leases, account)|
  {
    if leases == [] {
      assert Slots(leases, account) == {};
    } else {
      var last := |leases| - 1;
      OccupiedIsCount(leases[..last], account);
      SlotsOfLast(leases, account);
    }
  }

  lemma SlotsOfLast(leases: seq<Lease>, account: Id)
    requires leases != []
    ensures var last := |leases| - 1;
            |Slots(leases, account)|
            == |Slots(leases[..last], account)|
               + if leases[last].account == account && Occupies(leases[last].state) then 1 else 0
  {
    var last := |leases| - 1;
    var before := Slots(leases[..last], account);
    forall i: nat
      ensures i in Slots(leases, account) <==> i in before || (i == last && last in Slots(leases, account))
    {
      if i < last {
        assert leases[..last][i] == leases[i];
      }
    }
    assert Slots(leases, account) == if last in Slots(leases, account) then before + {last} else before;
  }

  lemma CandidateIsEligible(b: Board, q: Query, a: Account)
    ensures Candidate(b, q, a) <==> a in b.accounts && Eligible(b, a, q)
    ensures Visible(b, q, a) <==> a.id in q.matching && Usable(a, q) && Observed(b, a, q)
    ensures Visible(b, q, a) ==> Amount(b, q, a) == Units(b, a)
    ensures Switched(a, q.now) == Usable(a, q)
  {
    hide Slots, Occupied;
    OccupiedIsCount(b.leases, a.id);
  }

  // The choice

  /** The chosen account is a candidate; no candidate has more units, or fewer slots taken, and ties go to the least id. */
  lemma ChosenIsFirst(b: Board, q: Query, chosen: Account, a: Account)
    requires IdsUnique(b.accounts) && Select(b, q) == Ok(chosen) && Candidate(b, q, a)
    ensures Candidate(b, q, chosen)
    ensures q.strategy == HighestAvailable ==>
              && Amount(b, q, a) <= Amount(b, q, chosen)
              && (Amount(b, q, a) == Amount(b, q, chosen) ==> a == chosen || Less(chosen.id, a.id))
    ensures q.strategy == LeastActiveSlots ==>
              && |Slots(b.leases, chosen.id)| <= |Slots(b.leases, a.id)|
              && (|Slots(b.leases, chosen.id)| == |Slots(b.leases, a.id)| ==> a == chosen || Less(chosen.id, a.id))
  {
    hide Eligible, Candidate, Visible, Units, Occupied, Slots, IdsUnique, Amount, Less;
    CandidateIsEligible(b, q, a);
    CandidateIsEligible(b, q, chosen);
    SelectsBest(b, q, b.accounts, a);
    OccupiedIsCount(b.leases, a.id);
    OccupiedIsCount(b.leases, chosen.id);
    CandidateVisible(b, q, a);
    CandidateVisible(b, q, chosen);
  }

  lemma CandidateVisible(b: Board, q: Query, a: Account)
    requires Candidate(b, q, a)
    ensures a in b.accounts && Visible(b, q, a)
  {
  }

  /** An account is chosen exactly when there is a candidate, and otherwise the reply says how far the best one got. */
  lemma SelectAnswers(b: Board, q: Query)
    ensures var reply := Select(b, q);
            if q.predicted + q.margin > Model.MAX_I64 then reply == Err(InvalidAmount)
            else
              && (reply.Ok? <==> exists a :: Candidate(b, q, a))
              && (reply == Err(NoCapacity) <==>
                    (exists a :: a in b.accounts && Visible(b, q, a)) && !exists a :: Candidate(b, q, a))
              && (reply == Err(NoFreshObservation) <==>
                    (exists a :: a in b.accounts && a.id in q.matching && Switched(a, q.now))
                    && !exists a :: a in b.accounts && Visible(b, q, a))
              && (reply == Err(AccountCooling) <==>
                    (exists a :: a in b.accounts && a.id in q.matching)
                    && !exists a :: a in b.accounts && a.id in q.matching && Switched(a, q.now))
              && (reply == Err(CapabilityMismatch) <==> !exists a :: a in b.accounts && a.id in q.matching)
  {
    hide Eligible, Visible, Candidate, Usable, Observed, Switched;
    forall a
      ensures Candidate(b, q, a) <==> a in b.accounts && Eligible(b, a, q)
      ensures Visible(b, q, a) <==> a.id in q.matching && Usable(a, q) && Observed(b, a, q)
      ensures Switched(a, q.now) == Usable(a, q)
    {
      CandidateIsEligible(b, q, a);
    }
    if q.predicted + q.margin <= Model.MAX_I64 {
      forall a | Candidate(b, q, a)
        ensures a in b.accounts && Visible(b, q, a)
      {
        CandidateVisible(b, q, a);
      }
      if exists a :: Candidate(b, q, a) {
        var a :| Candidate(b, q, a);
        assert a in b.accounts && Eligible(b, a, q);
      }
    }
  }

  // Leases

  /** A lease is granted exactly on a valid query with a candidate, once per request and kind, and on these terms. */
  lemma GrantAnswers(b: Board, q: Query, request: Id, kind: Id, state: LeaseState)
    ensures var tx := Grant(b, q, request, kind, state);
            && (tx.reply.Ok? <==>
                  && q.predicted > 0 && q.margin >= 0 && q.maxAge >= 0 && q.leaseTtl > 0 && q.reconcileTtl > 0
                  && q.predicted + q.margin <= Model.MAX_I64
                  && q.now + q.leaseTtl <= Model.MAX_I64 && q.now + q.reconcileTtl <= Model.MAX_I64
                  && (exists a :: Candidate(b, q, a))
                  && !exists i :: 0 <= i < |b.leases| && b.leases[i].request == request && b.leases[i].kind == kind)
            && (tx.reply.Err? ==> tx.board == b)
            && (tx.reply.Ok? ==>
                  && Select(b, q).Ok?
                  && tx.reply.value == Lease(request, kind, Select(b, q).value.id, state, q.now + q.leaseTtl,
                                             Some(q.now + q.reconcileTtl))
                  && tx.board == b.(leases := b.leases + [tx.reply.value]))
  {
    hide Select, Candidate;
    SelectAnswers(b, q);
    SelectBounded(b, q);
  }

  lemma SelectBounded(b: Board, q: Query)
    ensures Select(b, q).Ok? ==> q.predicted + q.margin <= Model.MAX_I64
  {
  }

  /** A queued job's lease is claimed exactly when it is this request's and still held; it then is active, on the same terms. */
  lemma ClaimAnswers(b: Board, q: Query, request: Id, id: nat)
    ensures var tx := Claim(b, q, request, Some(id));
            && (tx.reply.Ok? <==>
                  && id < |b.leases| && b.leases[id].request == request && b.leases[id].kind == "video_job"
                  && b.leases[id].state.LeaseHeld?)
            && (tx.reply.Err? ==> tx.board == b)
            && (tx.reply.Ok? ==>
                  && tx.reply.value == b.leases[id].(state := LeaseActive)
                  && tx.board == b.(leases := b.leases[id := tx.reply.value]))
  {
  }

  /** A heartbeat makes a held or active lease active until `ttl` from now, and leaves every other lease alone. */
  lemma HeartbeatAnswers(b: Board, id: nat, now: int, ttl: int)
    ensures var tx := Heartbeat(b, id, now, ttl);
            && (tx.reply.Ok? <==> ttl > 0 && now + ttl <= Model.MAX_I64 && id < |b.leases|)
            && (tx.reply.Err? ==> tx.board == b)
            && (tx.reply.Ok? ==>
                  && tx.reply.value == (if b.leases[id].state in {LeaseHeld, LeaseActive}
                                        then b.leases[id].(state := LeaseActive, expiresAt := now + ttl)
                                        else b.leases[id])
                  && tx.board == b.(leases := b.leases[id := tx.reply.value]))
  {
    if id < |b.leases| {
      assert b.leases[id := b.leases[id]] == b.leases;
    }
  }

  /** The state an outcome leads to. */
  predicate LeadsTo(outcome: Outcome, state: LeaseState) {
    match state
    case LeaseSucceeded => outcome.Success?
    case LeaseFailed => outcome.Canceled? || outcome == Rejected(false)
    case LeaseUnknown => outcome.TransportUnknown? || outcome == Rejected(true)
    case LeaseHeld | LeaseActive => false
  }

  /** The lease in the state the outcome leads to; an unknown one can be reconciled until its window, or for ten minutes. */
  predicate Closed(lease: Lease, outcome: Outcome, now: int, closed: Lease) {
    && closed == lease.(state := closed.state, reconcileUntil := closed.reconcileUntil)
    && LeadsTo(outcome, closed.state)
    && (closed.state != LeaseUnknown ==> closed.reconcileUntil.None?)
    && (closed.state == LeaseUnknown && lease.reconcileUntil.Some? ==> closed.reconcileUntil == lease.reconcileUntil)
    && (closed.state == LeaseUnknown && lease.reconcileUntil.None? ==> closed.reconcileUntil == Some(now + 600_000))
  }

  /** Settling applies an accepted outcome to a held or active lease, and is answered `false` on any other. */
  lemma SettleAnswers(b: Board, id: nat, outcome: Outcome, now: int, allowed: bool)
    requires id < |b.leases|
    ensures var tx := Settle(b, id, outcome, now, false, allowed);
            var live := b.leases[id].state in {LeaseHeld, LeaseActive};
            && (tx.reply == Ok(false) <==> !live)
            && (tx.reply == Ok(true) <==>
                  && live && allowed
                  && (outcome.TransportUnknown? || outcome == Rejected(true) ==>
                        b.leases[id].reconcileUntil.Some? || now + 600_000 <= Model.MAX_I64))
            && (tx.reply != Ok(true) ==> tx.board == b)
            && (tx.reply == Ok(true) ==>
                  && |tx.board.leases| == |b.leases|
                  && tx.board == b.(leases := b.leases[id := tx.board.leases[id]])
                  && Closed(b.leases[id], outcome, now, tx.board.leases[id]))
  {
  }

  /** An unknown lease is reconciled exactly on terminal evidence, within its window, when the outcome is accepted. */
  lemma ReconcileAnswers(b: Board, id: nat, outcome: Outcome, now: int, allowed: bool)
    requires id < |b.leases|
    ensures var tx := Reconcile(b, id, outcome, now, allowed);
            && (tx.reply == Ok(true) <==>
                  && b.leases[id].state.LeaseUnknown? && allowed
                  && b.leases[id].reconcileUntil.Some? && now <= b.leases[id].reconcileUntil.value
                  && match outcome
                     case Success(_, reference) => reference.Some? && !Blank(reference.value)
                     case Canceled(reference) => reference.Some? && !Blank(reference.value)
                     case Rejected(accepted) => !accepted
                     case TransportUnknown => false)
            && (tx.reply != Ok(true) ==> tx.board == b)
            && (tx.reply == Ok(true) ==>
                  && |tx.board.leases| == |b.leases|
                  && tx.board == b.(leases := b.leases[id := tx.board.leases[id]])
                  && Closed(b.leases[id], outcome, now, tx.board.leases[id]))
  {
    hide Blank;
  }

  /** Recovery makes exactly the expired held or active leases unknown, for ten minutes, unless budgets watch over them. */
  lemma RecoverAnswers(b: Board, now: int, allowed: bool, i: nat)
    requires i < |b.leases| && Recover(b, now, allowed).reply.Ok?
    ensures var b' := Recover(b, now, allowed).board;
            && |b'.leases| == |b.leases| && b' == b.(leases := b'.leases)
            && var lease := b.leases[i];
               b'.leases[i]
               == (if lease.state in {LeaseHeld, LeaseActive} && lease.expiresAt <= now && lease.request !in b.budgetRequests
                   then Lease(lease.request, lease.kind, lease.account, LeaseUnknown, lease.expiresAt, Some(now + 600_000))
                   else lease)
  {
    hide CountExpired, SomeExpired;
  }
}
