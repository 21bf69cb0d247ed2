/** Runs of the lease table: no account is ever overbooked, and what becomes of a lease whose outcome is unknown. */
module UpstreamSlots {
  import opened Wrappers
  import opened Text
  import opened UpstreamLeases

  datatype Action =
    | PreflightLease(q: Query, request: Id, kind: Id)
    | ClaimJob(q: Query, request: Id, existing: Option<nat>)
    | RenewLease(id: nat, now: int, ttl: int)
    | SettleLease(id: nat, outcome: Outcome, now: int, allowed: bool)
    | ReconcileLease(id: nat, outcome: Outcome, now: int, allowed: bool)
    | RecoverLeases(now: int, allowed: bool)
    | OtherWork(now: int)

  datatype World = World(board: Board, clock: int)

  function TimeOf(action: Action): int {
    match action
    case PreflightLease(q, _, _) => q.now
    case ClaimJob(q, _, _) => q.now
    case RenewLease(_, now, _) => now
    case SettleLease(_, _, now, _) => now
    case ReconcileLease(_, _, now, _) => now
    case RecoverLeases(now, _) => now
    case OtherWork(now) => now
  }

  function Acted(b: Board, action: Action): Board {
    match action
    case PreflightLease(q, request, kind) => Preflight(b, q, request, kind).board
    case ClaimJob(q, request, existing) => Claim(b, q, request, existing).board
    case RenewLease(id, now, ttl) => Heartbeat(b, id, now, ttl).board
    case SettleLease(id, outcome, now, allowed) => Settle(b, id, outcome, now, false, allowed).board
    case ReconcileLease(id, outcome, now, allowed) => Reconcile(b, id, outcome, now, allowed).board
    case RecoverLeases(now, allowed) => Recover(b, now, allowed).board
    case OtherWork(_) => b
  }

  // What must hold of the tables

  predicate IdsUnique(accounts: seq<Account>) {
    forall i, j | 0 <= i < j < |accounts| :: accounts[i].id != accounts[j].id
  }

  predicate Registered(accounts: seq<Account>, id: Id) {
    exists a :: a in accounts && a.id == id
  }

  predicate LeasesBacked(b: Board) {
    forall i | 0 <= i < |b.leases| :: Registered(b.accounts, b.leases[i].account)
  }

  predicate WithinSlots(b: Board) {
    forall a | a in b.accounts :: Occupied(b.leases, a.id) <= a.maxConcurrency
  }

  predicate TablesSound(b: Board) {
    IdsUnique(b.accounts) && LeasesBacked(b)
  }

  predicate BoardSound(b: Board) {
    TablesSound(b) && WithinSlots(b)
  }

  /** Accounts may be added, updated, switched, cooled down and re-read; none is removed. */
  predicate OtherWorkDone(b: Board, b': Board) {
    && b'.leases == b.leases
    && IdsUnique(b'.accounts)
    && (forall a | a in b.accounts :: Registered(b'.accounts, a.id))
  }

  /** No account's limit is lowered, and every limit is positive. */
  predicate LimitsKept(b: Board, b': Board) {
    && (forall a | a in b'.accounts :: a.maxConcurrency > 0)
    && (forall a, a' | a in b.accounts && a' in b'.accounts && a.id == a'.id :: a.maxConcurrency <= a'.maxConcurrency)
  }

  predicate Next(w: World, action: Action, w': World) {
    && w.clock <= TimeOf(action) == w'.clock
    && (if action.OtherWork? then OtherWorkDone(w.board, w'.board) else w'.board == Acted(w.board, action))
  }

  // Counting

  lemma {:induction false} OccupiedUpdate(leases: seq<Lease>, i: nat, lease: Lease, account: Id)
    requires i < |leases| && lease.account == leases[i].account
    requires Occupies(lease.state) ==> Occupies(leases[i].state)
    ensures Occupied(leases[i := lease], account)
            == Occupied(leases, account)
               - (if lease.account == account && Occupies(leases[i].state) && !Occupies(lease.state) then 1 else 0)
  {
    var last := |leases| - 1;
    if i == last {
      assert leases[i := lease][..last] == leases[..last];
    } else {
      assert leases[i := lease][..last] == leases[..last][i := lease];
      OccupiedUpdate(leases[..last], i, lease, account);
    }
  }

  lemma OccupiedAppend(leases: seq<Lease>, lease: Lease, account: Id)
    ensures Occupied(leases + [lease], account)
            == Occupied(leases, account) + if lease.account == account && Occupies(lease.state) then 1 else 0
  {
    assert (leases + [lease])[..|leases|] == leases;
  }

  lemma {:induction false} OccupiedSame(a: seq<Lease>, b: seq<Lease>, account: Id)
    requires |a| == |b|
    requires forall i | 0 <= i < |a| :: a[i].account == b[i].account && Occupies(a[i].state) == Occupies(b[i].state)
    ensures Occupied(a, account) == Occupied(b, account)
  {
    if a != [] {
      OccupiedSame(a[..|a| - 1], b[..|b| - 1], account);
    }
  }

  lemma {:induction false} OccupiedElsewhere(leases: seq<Lease>, account: Id)
    requires forall i | 0 <= i < |leases| :: leases[i].account != account
    ensures Occupied(leases, account) == 0
  {
    if leases != [] {
      OccupiedElsewhere(leases[..|leases| - 1], account);
    }
  }

  // Every step keeps the tables sound

  lemma SameAccount(accounts: seq<Account>, a: Account, a': Account)
    requires IdsUnique(accounts) && a in accounts && a' in accounts && a.id == a'.id
    ensures a == a'
  {
  }

  lemma GrantKeeps(b: Board, q: Query, request: Id, kind: Id, state: LeaseState)
    requires BoardSound(b)
    ensures BoardSound(Grant(b, q, request, kind, state).board)
  {
    hide Eligible, IdsUnique, Occupied;
    var tx := Grant(b, q, request, kind, state);
    if tx.reply.Ok? {
      var account := Select(b, q).value;
      EligibleHasRoom(b, account, q);
      forall a | a in b.accounts
        ensures Occupied(tx.board.leases, a.id) <= a.maxConcurrency
      {
        OccupiedAppend(b.leases, tx.reply.value, a.id);
        if a.id == account.id {
          SameAccount(b.accounts, a, account);
        }
      }
    }
  }

  lemma EligibleHasRoom(b: Board, a: Account, q: Query)
    requires Eligible(b, a, q)
    ensures Occupied(b.leases, a.id) < a.maxConcurrency
  {
  }

  lemma UpdateKeeps(b: Board, i: nat, lease: Lease)
    requires BoardSound(b) && i < |b.leases| && lease.account == b.leases[i].account
    requires Occupies(lease.state) ==> Occupies(b.leases[i].state)
    ensures BoardSound(b.(leases := b.leases[i := lease]))
  {
    hide Occupied, IdsUnique, Registered;
    forall a | a in b.accounts
      ensures Occupied(b.leases[i := lease], a.id) <= a.maxConcurrency
    {
      OccupiedUpdate(b.leases, i, lease, a.id);
    }
  }

  lemma RecoverKeeps(b: Board, now: int, allowed: bool)
    requires BoardSound(b)
    ensures BoardSound(Recover(b, now, allowed).board)
    ensures forall account: Id :: Occupied(Recover(b, now, allowed).board.leases, account) == Occupied(b.leases, account)
  {
    hide Occupied, IdsUnique, Registered, CountExpired;
    forall account: Id
      ensures Occupied(RecoveredLeases(b, now), account) == Occupied(b.leases, account)
    {
      OccupiedSame(RecoveredLeases(b, now), b.leases, account);
    }
  }

  lemma OtherWorkKeeps(b: Board, b': Board)
    requires BoardSound(b) && OtherWorkDone(b, b') && LimitsKept(b, b')
    ensures BoardSound(b')
  {
    hide Occupied, IdsUnique;
    forall a' | a' in b'.accounts
      ensures Occupied(b'.leases, a'.id) <= a'.maxConcurrency
    {
      if !Registered(b.accounts, a'.id) {
        OccupiedElsewhere(b.leases, a'.id);
      }
    }
  }

  lemma NextKeeps(w: World, action: Action, w': World)
    requires BoardSound(w.board) && Next(w, action, w') && LimitsKept(w.board, w'.board)
    ensures BoardSound(w'.board)
  {
    hide BoardSound, Grant, Recover, OtherWorkDone, LimitsKept, TerminalEvidence;
    var b := w.board;
    match action
    case PreflightLease(q, request, kind) => GrantKeeps(b, q, request, kind, LeaseHeld);
    case ClaimJob(q, request, existing) =>
      if existing.None? {
        GrantKeeps(b, q, request, "video_job", LeaseActive);
      } else if w'.board != b {
        UpdateKeeps(b, existing.value, w'.board.leases[existing.value]);
      }
    case RenewLease(id, _, _) =>
      if w'.board != b {
        UpdateKeeps(b, id, w'.board.leases[id]);
      }
    case SettleLease(id, _, _, _) =>
      if w'.board != b {
        UpdateKeeps(b, id, w'.board.leases[id]);
      }
    case ReconcileLease(id, _, _, _) =>
      if w'.board != b {
        UpdateKeeps(b, id, w'.board.leases[id]);
      }
    case RecoverLeases(now, allowed) => RecoverKeeps(b, now, allowed);
    case OtherWork(_) => OtherWorkKeeps(b, w'.board);
  }

  predicate Run(worlds: seq<World>, actions: seq<Action>) {
    && |worlds| == |actions| + 1
    && TablesSound(worlds[0].board)
    && forall i | 0 <= i < |actions| :: Next(worlds[i], actions[i], worlds[i + 1])
  }

  /** The side condition of slot safety: administrators do not lower a limit under running calls. */
  predicate LimitsNeverFall(worlds: seq<World>) {
    forall i | 0 < i < |worlds| :: LimitsKept(worlds[i - 1].board, worlds[i].board)
  }

  /** In every run in which no limit falls, held, active and unknown leases of an account never exceed its limit. */
  lemma {:induction false} NeverOverbooked(worlds: seq<World>, actions: seq<Action>, k: nat)
    requires Run(worlds, actions) && k < |worlds|
    requires WithinSlots(worlds[0].board) && LimitsNeverFall(worlds)
    ensures BoardSound(worlds[k].board)
  {
    hide TablesSound, WithinSlots, Next, LimitsKept;
    if k > 0 {
      NeverOverbooked(worlds, actions, k - 1);
      NextKeeps(worlds[k - 1], actions[k - 1], worlds[k]);
    }
  }

  // The life of one lease

  /** Held, then active, then settled or unknown; an unknown lease can still be settled. */
  function Stage(state: LeaseState): nat {
    match state
    case LeaseHeld => 0
    case LeaseActive => 1
    case LeaseUnknown => 2
    case LeaseSucceeded => 3
    case LeaseFailed => 3
  }

  predicate LeaseAdvances(a: Lease, b: Lease) {
    && b.request == a.request && b.kind == a.kind && b.account == a.account
    && Stage(a.state) <= Stage(b.state)
    && (Stage(a.state) == 3 ==> b == a)
  }

  lemma NextAdvances(w: World, action: Action, w': World, i: nat)
    requires Next(w, action, w') && i < |w.board.leases|
    ensures i < |w'.board.leases| && LeaseAdvances(w.board.leases[i], w'.board.leases[i])
  {
    hide Select, IdsUnique, CountExpired, QueryValid, TerminalEvidence, SomeExpired;
  }

  lemma {:induction false} RunAdvances(worlds: seq<World>, actions: seq<Action>, j: nat, k: nat, i: nat)
    requires Run(worlds, actions) && j <= k < |worlds| && i < |worlds[j].board.leases|
    ensures i < |worlds[k].board.leases| && LeaseAdvances(worlds[j].board.leases[i], worlds[k].board.leases[i])
    decreases k - j
  {
    hide TablesSound, Next;
    if j < k {
      RunAdvances(worlds, actions, j, k - 1, i);
      NextAdvances(worlds[k - 1], actions[k - 1], worlds[k], i);
    }
  }

  predicate OutcomeKnown(outcome: Outcome) {
    outcome.Success? || outcome.Canceled? || (outcome.Rejected? && !outcome.accepted)
  }

  /** Settling a live lease gives its slot back exactly when it is known what became of the call. */
  lemma SettlingFreesIff(b: Board, i: nat, outcome: Outcome, now: int, allowed: bool)
    requires i < |b.leases| && Live(b.leases[i].state) && Settle(b, i, outcome, now, false, allowed).reply == Ok(true)
    ensures var b' := Settle(b, i, outcome, now, false, allowed).board;
            && |b'.leases| == |b.leases|
            && (b'.leases[i].state == LeaseSucceeded <==> outcome.Success?)
            && (b'.leases[i].state == LeaseUnknown ==> b'.leases[i].reconcileUntil.Some?)
            && forall account: Id ::
                 Occupied(b'.leases, account) == Occupied(b.leases, account)
                                                 - (if OutcomeKnown(outcome) && b.leases[i].account == account then 1 else 0)
  {
    hide Occupied;
    var b' := Settle(b, i, outcome, now, false, allowed).board;
    forall account: Id
      ensures Occupied(b'.leases, account) == Occupied(b.leases, account)
                                              - (if OutcomeKnown(outcome) && b.leases[i].account == account then 1 else 0)
    {
      OccupiedUpdate(b.leases, i, b'.leases[i], account);
    }
  }

  /** Exactly one kind of step ends an unknown lease: a reconciliation with evidence, in its window, that is accepted. */
  predicate EndsUnknown(lease: Lease, action: Action, i: nat) {
    && action.ReconcileLease? && action.id == i && action.allowed
    && TerminalEvidence(action.outcome)
    && lease.reconcileUntil.Some? && action.now <= lease.reconcileUntil.value
  }

  lemma UnknownEndsIff(w: World, action: Action, w': World, i: nat)
    requires Next(w, action, w') && i < |w.board.leases| && w.board.leases[i].state == LeaseUnknown
    ensures i < |w'.board.leases|
    ensures if EndsUnknown(w.board.leases[i], action, i) then !Occupies(w'.board.leases[i].state)
            else w'.board.leases[i] == w.board.leases[i]
  {
    hide Select, IdsUnique, CountExpired, QueryValid, SomeExpired;
  }

  /** Once its reconciliation window has passed, an unknown lease keeps its slot for good. */
  lemma {:induction false} StrandedForGood(worlds: seq<World>, actions: seq<Action>, j: nat, k: nat, i: nat)
    requires Run(worlds, actions) && j <= k < |worlds| && i < |worlds[j].board.leases|
    requires worlds[j].board.leases[i].state == LeaseUnknown
    requires var until := worlds[j].board.leases[i].reconcileUntil; until.Some? ==> until.value < worlds[j].clock
    ensures worlds[j].clock <= worlds[k].clock
    ensures i < |worlds[k].board.leases| && worlds[k].board.leases[i] == worlds[j].board.leases[i]
    decreases k - j
  {
    hide TablesSound, Acted, OtherWorkDone, TerminalEvidence;
    if j < k {
      StrandedForGood(worlds, actions, j, k - 1, i);
      UnknownEndsIff(worlds[k - 1], actions[k - 1], worlds[k], i);
    }
  }

  /** Recovery leaves no expired lease behind, and gives back no slot. */
  lemma RecoveryIsComplete(b: Board, now: int, allowed: bool)
    requires Recover(b, now, allowed).reply.Ok?
    ensures !SomeExpired(Recover(b, now, allowed).board, now)
    ensures forall account: Id :: Occupied(Recover(b, now, allowed).board.leases, account) == Occupied(b.leases, account)
  {
    hide Occupied, CountExpired;
    forall account: Id
      ensures Occupied(RecoveredLeases(b, now), account) == Occupied(b.leases, account)
    {
      OccupiedSame(RecoveredLeases(b, now), b.leases, account);
    }
  }

  // The account chosen

  lemma BetterTransitive(b: Board, q: Query, x: Account, y: Account, z: Account)
    requires Better(b, q, x, y) && Better(b, q, y, z)
    ensures Better(b, q, x, z)
  {
    if Less(x.id, y.id) && Less(y.id, z.id) {
      LessTransitive(x.id, y.id, z.id);
    }
  }

  lemma BetterTotal(b: Board, q: Query, x: Account, y: Account)
    requires x.id != y.id
    ensures Better(b, q, x, y) || Better(b, q, y, x)
  {
    LessTotal(x.id, y.id);
  }

  /** Every other eligible account comes later in the strategy's order. */
  lemma {:induction false} SelectsBest(b: Board, q: Query, accounts: seq<Account>, a: Account)
    requires IdsUnique(accounts) && a in accounts && Eligible(b, a, q)
    ensures Best(b, q, accounts).Some?
    ensures a == Best(b, q, accounts).value || Better(b, q, Best(b, q, accounts).value, a)
  {
    hide Eligible, Better;
    var last, front := accounts[|accounts| - 1], accounts[..|accounts| - 1];
    var best := Best(b, q, front);
    if a in front {
      SelectsBest(b, q, front, a);
      if Eligible(b, last, q) && Better(b, q, last, best.value) && a != best.value {
        BetterTransitive(b, q, last, best.value, a);
      }
    } else if best.Some? {
      assert best.value in front;
      BetterTotal(b, q, last, best.value);
    }
  }
}
