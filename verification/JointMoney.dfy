/**
  What whole runs of all billing keep: credits are conserved on every account but for closed holds that are reached
  for again, no account is overdrawn by more than the charges beyond its holds, commitments stay under the upstream
  ceiling, and what is settled stays so.
 */
module JointMoney {
  import opened Wrappers
  import opened Model
  import opened Ledger
  import opened EventGroup
  import opened Billing
  import opened Settling
  import opened Grants
  import opened Invariant
  import opened Money
  import opened Solvency
  import opened Holds
  import opened ForeignMoves
  import opened Finality
  import opened Tables
  import opened Controlled
  import opened JointRuns
  import ControlledRuns
  import PlainMoves
  import Pools
  import Runs
  import Integrity

  const START := ControlledBooks(Runs.EMPTY, map[], [], map[], map[], map[])

  ghost predicate Run(books: seq<ControlledBooks>, actions: seq<Action>) {
    && |books| == |actions| + 1
    && books[0] == START
    && forall i {:trigger actions[i]} | 0 <= i < |actions| :: Next(books[i], actions[i], books[i + 1])
  }

  lemma StartSound()
    ensures Structure(START)
  {
    hide Inv;
    Runs.EmptyInv();
    forall account: nat
      ensures SolventOn(START.core.ledger, account)
    {
      EmptySolvent(account);
    }
  }

  lemma {:induction false} ReachableStructure(books: seq<ControlledBooks>, actions: seq<Action>, i: nat)
    requires |books| == |actions| + 1 && i < |books|
    requires Run(books, actions)
    ensures Structure(books[i])
  {
    hide Structure, Next;
    if i == 0 {
      StartSound();
    } else {
      ReachableStructure(books, actions, i - 1);
      StepKeepsStructure(books[i - 1], actions[i - 1], books[i]);
    }
  }

  // The V2 ledger inside such a run

  function Cores(books: seq<ControlledBooks>): (cores: seq<Db>)
    ensures |cores| == |books|
  {
    seq(|books|, i requires 0 <= i < |books| => books[i].core)
  }

  function Projections(actions: seq<Action>): (projected: seq<Runs.Action>)
    ensures |projected| == |actions|
  {
    seq(|actions|, i requires 0 <= i < |actions| => Projected(actions[i]))
  }

  /** Every run of all billing is, to the V2 ledger, one of its own runs: whatever holds of those holds here. */
  lemma CoreRun(books: seq<ControlledBooks>, actions: seq<Action>)
    requires Run(books, actions)
    ensures Runs.Run(Cores(books), Projections(actions))
  {
    hide Structure, Next, Runs.Next;
    forall i | 0 <= i < |actions|
      ensures Runs.Next(Cores(books)[i], Projections(actions)[i], Cores(books)[i + 1])
    {
      ReachableStructure(books, actions, i);
      StepProjects(books[i], actions[i], books[i + 1]);
    }
  }

  /** Whatever else is billed, the integrity check accepts every reservation of a V2 step. */
  lemma ReachableValid(books: seq<ControlledBooks>, actions: seq<Action>, i: nat)
    requires |books| == |actions| + 1 && i < |books|
    requires Integrity.NoLateBind(Cores(books), Projections(actions))
    requires Run(books, actions)
    ensures forall id: nat | OwnedByStep(books[i].core, id) :: GroupValid(books[i].core, id)
  {
    hide Run, Runs.Run, Integrity.NoLateBind, GroupValid, OwnedByStep;
    CoreRun(books, actions);
    Integrity.ReachableValid(Cores(books), Projections(actions), i);
    assert Cores(books)[i] == books[i].core;
  }

  lemma StructureParts(b: ControlledBooks)
    requires Structure(b)
    ensures Inv(b.core) && TablesSound(b.core) && ForeignShaped(b.core) && Solvent(b.core.ledger)
    ensures ForeignBounded(b.core) && ControlledRuns.Sound(b)
    ensures LedgerSound(b.core.ledger, |b.core.accounts|, |b.core.reservations|)
  {
    hide StepsSound, ForeignShaped, ForeignBounded, Solvent, ReservationsSound, LedgerSound, BudgetIdsUnique,
         ReferencesSound, AccountsShaped, StepLinked, ControlledRuns.Sound;
  }

  // Closed holds that were reached for

  /** Some step so far has closed or suspended this hold once more after it was closed. */
  predicate HoldReached(books: seq<ControlledBooks>, actions: seq<Action>, i: nat, id: nat)
    requires |books| == |actions| + 1 && i < |books|
  {
    exists k: nat | k < i :: Reached(books[k], actions[k]) == Some(id)
  }

  /** A step's hold stays a step's hold. */
  lemma UnownedBefore(b: ControlledBooks, action: Action, b': ControlledBooks, id: nat)
    requires Structure(b) && Next(b, action, b')
    requires id < |b.core.reservations| && !OwnedByStep(b'.core, id)
    ensures !OwnedByStep(b.core, id)
  {
    hide Structure, Next, OwnedByStep, Inv, Runs.Next, StepHoldsAdvance, StepsAdvance, OperationsAdvance;
    if OwnedByStep(b.core, id) {
      StepProjects(b, action, b');
      StructureInv(b);
      NextAdvances(b.core, Projected(action), b'.core);
      StillOwned(b.core, b'.core, id);
    }
  }

  lemma StructureInv(b: ControlledBooks)
    requires Structure(b)
    ensures Inv(b.core)
  {
    hide Inv, ForeignShaped, ForeignBounded, Solvent, ControlledRuns.Sound;
  }

  /** The entries of a hold are what its state says, unless it was reached for. */
  lemma {:induction false} ReachableBooked(books: seq<ControlledBooks>, actions: seq<Action>, i: nat, id: nat)
    requires |books| == |actions| + 1 && i < |books|
    requires id < |books[i].core.reservations| && !OwnedByStep(books[i].core, id)
    requires !HoldReached(books, actions, i, id)
    requires Run(books, actions)
    ensures BookedAt(books[i].core, id)
  {
    hide Structure, Next, BookedAt, Reached, OwnedByStep;
    if i > 0 {
      var before := books[i - 1];
      ReachableStructure(books, actions, i - 1);
      assert Reached(before, actions[i - 1]) != Some(id);
      if id < |before.core.reservations| {
        UnownedBefore(before, actions[i - 1], books[i], id);
        ReachableBooked(books, actions, i - 1, id);
      }
      StepKeepsBooked(before, actions[i - 1], books[i], id);
    }
  }

  /** And a hold that was reached for never looks whole again. */
  lemma {:induction false} ReachableSpoiled(books: seq<ControlledBooks>, actions: seq<Action>, i: nat, id: nat)
    requires |books| == |actions| + 1 && i < |books|
    requires HoldReached(books, actions, i, id)
    requires Run(books, actions)
    ensures id < |books[i].core.reservations| && !OwnedByStep(books[i].core, id) && SpoiledAt(books[i].core, id)
  {
    hide Structure, Next, BookedAt, SpoiledAt, Reached, OwnedByStep, ControlledRuns.ForeignStay;
    var before := books[i - 1];
    ReachableStructure(books, actions, i - 1);
    if HoldReached(books, actions, i - 1, id) {
      ReachableSpoiled(books, actions, i - 1, id);
    } else {
      assert Reached(before, actions[i - 1]) == Some(id);
      ReachedHold(before, actions[i - 1], books[i]);
      ReachableBooked(books, actions, i - 1, id);
    }
    StepKeepsSpoiled(before, actions[i - 1], books[i], id);
    StepStays(before, actions[i - 1], books[i]);
    StaysUnowned(before.core, books[i].core, id);
  }

  lemma StaysUnowned(core: Db, core': Db, id: nat)
    requires ControlledRuns.ForeignStay(core, core') && id < |core.reservations| && !OwnedByStep(core, id)
    ensures id < |core'.reservations| && !OwnedByStep(core', id)
  {
    hide OwnedByStep;
    assert ControlledRuns.HoldStays(core, core', id);
  }

  // Conservation

  /** The amounts of all closed holds charged to the account and reached for so far. */
  function Reopenings(books: seq<ControlledBooks>, actions: seq<Action>, i: nat, account: nat): int
    requires |books| == |actions| + 1 && i < |books|
  {
    if i == 0 then 0
    else
      Reopenings(books, actions, i - 1, account)
        + AmountOn(books[i - 1].core, Reached(books[i - 1], actions[i - 1]), account)
  }

  /**
    Conservation, exactly, in every run and on every account: available, held and settled add up to what was granted
    and the amounts of the closed holds that were reached for.
   */
  lemma {:induction false} ReachableConservation(
    books: seq<ControlledBooks>, actions: seq<Action>, i: nat, account: nat)
    requires |books| == |actions| + 1 && i < |books|
    requires Run(books, actions)
    ensures Available(books[i].core.ledger, account) + HeldOn(books[i].core.reservations, account)
            + SettledOn(books[i].core.ledger, account)
            == GrantedOn(books[i].core.ledger, account) + Reopenings(books, actions, i, account)
  {
    hide Structure, Next, Reached, AmountOn;
    if i > 0 {
      hide Available, HeldOn, SettledOn, GrantedOn;
      ReachableConservation(books, actions, i - 1, account);
      ReachableStructure(books, actions, i - 1);
      StepExcess(books[i - 1], actions[i - 1], books[i], account);
    }
  }

  /** The step reaches for a closed hold that is charged to the account. */
  predicate ReachesOn(b: ControlledBooks, action: Action, account: nat) {
    var reached := Reached(b, action);
    reached.Some? && reached.value < |b.core.reservations| && ChargedTo(b.core.reservations[reached.value], account)
  }

  lemma ReachingCosts(b: ControlledBooks, action: Action, b': ControlledBooks, account: nat)
    requires Structure(b) && Next(b, action, b')
    ensures AmountOn(b.core, Reached(b, action), account) >= 0
    ensures AmountOn(b.core, Reached(b, action), account) > 0 <==> ReachesOn(b, action, account)
  {
    hide Structure, Next, Reached;
    if Reached(b, action).Some? {
      ReachedHold(b, action, b');
    }
  }

  lemma {:induction false} ReopeningsCount(books: seq<ControlledBooks>, actions: seq<Action>, i: nat, account: nat)
    requires |books| == |actions| + 1 && i < |books|
    requires Run(books, actions)
    ensures Reopenings(books, actions, i, account) >= 0
    ensures Reopenings(books, actions, i, account) == 0
            <==> forall k: nat | k < i :: !ReachesOn(books[k], actions[k], account)
  {
    hide Structure, Next, Reached, AmountOn, ReachesOn;
    if i > 0 {
      ReopeningsCount(books, actions, i - 1, account);
      ReachableStructure(books, actions, i - 1);
      ReachingCosts(books[i - 1], actions[i - 1], books[i], account);
    }
  }

  /**
    Exactly when the credits of an account are in balance: when no closed hold charged to it was reached for. The
    code does not refuse that.
   */
  lemma BalancedIff(books: seq<ControlledBooks>, actions: seq<Action>, i: nat, account: nat)
    requires |books| == |actions| + 1 && i < |books|
    requires Run(books, actions)
    ensures Balanced(books[i].core, account) <==> forall k: nat | k < i :: !ReachesOn(books[k], actions[k], account)
  {
    hide Run, Available, HeldOn, SettledOn, GrantedOn, ReachesOn, Reopenings;
    ReachableConservation(books, actions, i, account);
    ReopeningsCount(books, actions, i, account);
  }

  /** admin_summary's `allocated`: available + held + settled, over the Key accounts among the first `count`. */
  function AllocatedTo(core: Db, count: nat): int
    requires count <= |core.accounts|
  {
    if count == 0 then 0
    else AllocatedTo(core, count - 1) + if core.accounts[count - 1].scope == KeyScope then AllocatedOn(core, count - 1) else 0
  }

  function GrantedToKeys(core: Db, count: nat): int
    requires count <= |core.accounts|
  {
    if count == 0 then 0
    else
      GrantedToKeys(core, count - 1)
        + if core.accounts[count - 1].scope == KeyScope then GrantedOn(core.ledger, count - 1) else 0
  }

  function ReopenedOnKeys(books: seq<ControlledBooks>, actions: seq<Action>, i: nat, count: nat): int
    requires |books| == |actions| + 1 && i < |books| && count <= |books[i].core.accounts|
  {
    if count == 0 then 0
    else
      ReopenedOnKeys(books, actions, i, count - 1)
        + if books[i].core.accounts[count - 1].scope == KeyScope then Reopenings(books, actions, i, count - 1) else 0
  }

  /** What the summary calls allocated is what administrators granted to Keys, and what was reopened on them. */
  lemma {:induction false} AllocatedIsGranted(books: seq<ControlledBooks>, actions: seq<Action>, i: nat, count: nat)
    requires |books| == |actions| + 1 && i < |books| && count <= |books[i].core.accounts|
    requires Run(books, actions)
    ensures AllocatedTo(books[i].core, count)
            == GrantedToKeys(books[i].core, count) + ReopenedOnKeys(books, actions, i, count)
  {
    hide Run, Available, HeldOn, SettledOn, GrantedOn, Reopenings;
    if count > 0 {
      AllocatedIsGranted(books, actions, i, count - 1);
      ReachableConservation(books, actions, i, count - 1);
    }
  }

  // Overdrafts

  /** No account is below minus what its commit entries charged beyond holds, entry by entry. */
  lemma ReachableSolvent(books: seq<ControlledBooks>, actions: seq<Action>, i: nat, account: nat)
    requires |books| == |actions| + 1 && i < |books|
    requires Run(books, actions)
    ensures Available(books[i].core.ledger, account) >= -SumOf(books[i].core.ledger, OverrunOf(account))
  {
    hide Run, Structure, LedgerSound, Inv, TablesSound, ForeignShaped, ForeignBounded, ControlledRuns.Sound, Available,
         SumOf, OverrunOf;
    ReachableStructure(books, actions, i);
    StructureParts(books[i]);
    assert SolventOn(books[i].core.ledger, account);
  }

  lemma HoldsBounded(b: ControlledBooks, id: nat, account: nat)
    requires Structure(b) && id < |b.core.reservations|
    ensures OverrunBounded(b.core, id, account)
  {
    hide Structure, Inv, TablesSound, ForeignShaped, Solvent, LedgerSound, EventsOf, OverrunOf, SumOf, SettledOn,
         HoldAccounted, ControlledRuns.Sound, OwnedByStep;
    StructureParts(b);
    if OwnedByStep(b.core, id) {
      StepAccounted(b.core, id, account);
      OwnedAmount(b.core, id);
      AccountedOverrun(b.core, id, account);
    } else {
      assert ChargesBounded(EventsOf(b.core.ledger, HoldGroup(id)), b.core.reservations[id]);
      assert OverrunWithin(EventsOf(b.core.ledger, HoldGroup(id)), b.core.reservations[id], account);
    }
  }

  lemma OwnedAmount(core: Db, id: nat)
    requires Inv(core) && OwnedByStep(core, id)
    ensures core.reservations[id].amount > 0
  {
    hide Inv, StepLinked;
    HoldOf(core, core.reservations[id].request);
  }

  /**
    The overdraft bound, in every run: an account's balance is at least minus the sum, over the reservations charged
    to it, of what each was charged beyond its hold.
   */
  lemma OverdraftBound(books: seq<ControlledBooks>, actions: seq<Action>, i: nat, account: nat)
    requires |books| == |actions| + 1 && i < |books|
    requires Run(books, actions)
    ensures Available(books[i].core.ledger, account)
            >= -OverHolds(books[i].core, |books[i].core.reservations|, account)
  {
    hide Run, Structure, LedgerSound, SolventOn, Inv, TablesSound, ForeignShaped, ForeignBounded, OverrunBounded,
         ControlledRuns.Sound;
    var core := books[i].core;
    ReachableStructure(books, actions, i);
    StructureParts(books[i]);
    forall id: nat | id < |core.reservations|
      ensures OverrunBounded(core, id, account)
    {
      HoldsBounded(books[i], id, account);
    }
    assert SolventOn(core.ledger, account);
    OverdraftBounded(core, account);
  }

  /** A reservation on the account that was charged more than it held. */
  predicate ChargedOver(core: Db, id: nat, account: nat) {
    && id < |core.reservations|
    && ChargedTo(core.reservations[id], account)
    && ChargeOn(core, id) > core.reservations[id].amount
  }

  /**
    An account in debt has been charged beyond a hold. Unless that hold was reached for after it was closed, it is
    committed; and where it is a V2 step's, the settlement says the charge.
   */
  lemma DebtHasCause(books: seq<ControlledBooks>, actions: seq<Action>, i: nat, account: nat) returns (id: nat)
    requires |books| == |actions| + 1 && i < |books|
    requires Run(books, actions)
    requires Available(books[i].core.ledger, account) < 0
    ensures ChargedOver(books[i].core, id, account)
    ensures books[i].core.reservations[id].state == HoldCommitted || HoldReached(books, actions, i, id)
    ensures OwnedByStep(books[i].core, id) ==>
              var core := books[i].core;
              && core.reservations[id].request in core.settlements
              && core.settlements[core.reservations[id].request].actual == ChargeOn(core, id)
  {
    hide Run, Structure, Inv, TablesSound, ForeignShaped, ForeignBounded, Solvent, LedgerSound, ChargeOn, OwnedByStep,
         HoldReached, BookedAt, ControlledRuns.Sound;
    OverdraftBound(books, actions, i, account);
    var core := books[i].core;
    id := SomeOverHold(core, |core.reservations|, account);
    ReachableStructure(books, actions, i);
    StructureParts(books[i]);
    if OwnedByStep(core, id) {
      OwnedOverIsCommitted(core, id);
      StepCharge(core, id);
    } else if !HoldReached(books, actions, i, id) {
      ReachableBooked(books, actions, i, id);
      BookedOverIsCommitted(core, id);
    }
  }

  lemma OwnedOverIsCommitted(core: Db, id: nat)
    requires Inv(core) && id < |core.reservations| && OwnedByStep(core, id)
    requires ChargeOn(core, id) > core.reservations[id].amount
    ensures core.reservations[id].state == HoldCommitted
  {
    hide Inv, EventsOf, SettledOn, SumOf, OverrunOf, Available, GrantedOn, OwnedByStep;
    OwnedAmount(core, id);
    StepAccounted(core, id, core.reservations[id].keyAccount);
  }

  lemma BookedOverIsCommitted(core: Db, id: nat)
    requires BookedAt(core, id) && ForeignShaped(core) && !OwnedByStep(core, id)
    requires ChargeOn(core, id) > core.reservations[id].amount
    ensures core.reservations[id].state == HoldCommitted
  {
    hide EventsOf, SettledOn, SumOf, OverrunOf, Available, GrantedOn, OwnedByStep, Booked, ScopesRight;
    var es, hold := EventsOf(core.ledger, HoldGroup(id)), core.reservations[id];
    var taken, closed, charge :| Booked(es, hold, taken, closed, charge);
    assert HoldShaped(hold);
    BookedAccounted(es, hold, taken, closed, charge, hold.keyAccount);
  }

  lemma Extend(books: seq<ControlledBooks>, actions: seq<Action>, action: Action, b': ControlledBooks)
    requires |books| == |actions| + 1
    requires Next(books[|actions|], action, b')
    requires Run(books, actions)
    ensures Run(books + [b'], actions + [action])
  {
    hide Next;
  }

  lemma ReceiptStep(b: ControlledBooks, now: Millis, input: ReceiptInput)
    ensures Next(b, Budgeted(Runs.DeliverReceipt(now, input)), b.(core := ApplyReceipt(b.core, now, input).db))
  {
    hide ApplyReceipt;
  }

  /** A settlement that reports debt: an account of its hold has been charged beyond some hold. */
  lemma DebtReported(
    books: seq<ControlledBooks>, actions: seq<Action>, now: Millis, input: ReceiptInput, actual: int, released: int)
    returns (account: nat, id: nat)
    requires |books| == |actions| + 1
    requires Run(books, actions)
    requires ApplyReceipt(books[|actions|].core, now, input).reply == Ok(SettledReply(actual, released, true))
    ensures ChargedOver(ApplyReceipt(books[|actions|].core, now, input).db, id, account)
  {
    hide Run, Available, ChargedOver, ApplyReceipt, Next, HoldReached;
    var b := books[|actions|];
    var b' := b.(core := ApplyReceipt(b.core, now, input).db);
    account := DebtAccount(b.core, now, input, actual, released);
    ReceiptStep(b, now, input);
    Extend(books, actions, Budgeted(Runs.DeliverReceipt(now, input)), b');
    id := DebtHasCause(books + [b'], actions + [Budgeted(Runs.DeliverReceipt(now, input))], |actions| + 1, account);
  }

  // The upstream ceiling

  lemma StepScopes(b: ControlledBooks, action: Action, b': ControlledBooks)
    requires Structure(b) && Next(b, action, b') && !GrantsCredit(action)
    ensures |b'.core.accounts| == |b.core.accounts| && SameScopes(b.core, b'.core, |b.core.accounts|)
  {
    hide Structure, Next, SameScopes, Runs.Next;
    StepProjects(b, action, b');
    NextKeepsScopes(b.core, Projected(action), b'.core);
  }

  /** The amount of the closed hold the step reaches for. */
  function AmountReached(b: ControlledBooks, action: Action): int {
    var reached := Reached(b, action);
    if reached.Some? && reached.value < |b.core.reservations| then b.core.reservations[reached.value].amount else 0
  }

  /** A hold is charged to one Key account; its other account is the user's cap. */
  lemma OneKeyAccount(b: ControlledBooks, action: Action, b': ControlledBooks, account: nat)
    requires Structure(b) && Next(b, action, b')
    requires account < |b.core.accounts| && b.core.accounts[account].scope == KeyScope
    ensures AmountReached(b, action) >= 0
    ensures AmountOn(b.core, Reached(b, action), account)
            <= if Reached(b, action).Some? && account == KeyReached(b, action) then AmountReached(b, action) else 0
  {
    hide Structure, Next, Reached, Inv, TablesSound, ForeignBounded, Solvent, LedgerSound, OwnedByStep, ControlledRuns.Sound;
    StructureParts(b);
    if Reached(b, action).Some? {
      ReachedHold(b, action, b');
      assert ScopesRight(b.core.accounts, b.core.reservations[Reached(b, action).value]);
    }
  }

  function KeyReached(b: ControlledBooks, action: Action): nat {
    var reached := Reached(b, action);
    if reached.Some? && reached.value < |b.core.reservations| then b.core.reservations[reached.value].keyAccount else 0
  }

  /**
    No step but a grant raises what the Key accounts together commit of the upstream balance, except that one which
    reaches for a closed hold raises it by no more than its amount.
   */
  lemma OnlyGrantsCommit(b: ControlledBooks, action: Action, b': ControlledBooks)
    requires Structure(b) && !GrantsCredit(action)
    requires Next(b, action, b')
    ensures Committed(b'.core) <= Committed(b.core) + AmountReached(b, action)
    ensures AmountReached(b, action) >= 0
  {
    hide Structure, Next, GrantsCredit, Committed, MoveAllowed, Moved, SameScopes, Excess, Reached, AmountReached,
         KeyReached, AmountOn;
    StepScopes(b, action, b');
    var move := StepMoves(b, action, b');
    forall a: nat | a < |b.core.accounts| && b.core.accounts[a].scope == KeyScope
      ensures Excess(b'.core, a)
              <= Excess(b.core, a) + if a == KeyReached(b, action) then AmountReached(b, action) else 0
    {
      StepExcess(b, action, b', a);
      OneKeyAccount(b, action, b', a);
    }
    AmountPositive(b, action, b');
    MoveNeverCommits(b.core, move, b'.core, KeyReached(b, action), AmountReached(b, action));
  }

  lemma AmountPositive(b: ControlledBooks, action: Action, b': ControlledBooks)
    requires Structure(b) && Next(b, action, b')
    ensures AmountReached(b, action) >= 0
  {
    hide Structure, Next, Reached;
    if Reached(b, action).Some? {
      ReachedHold(b, action, b');
    }
  }

  /** The amounts of the closed holds reached for from state `i` to state `j`. */
  function ReachedBetween(books: seq<ControlledBooks>, actions: seq<Action>, i: nat, j: nat): int
    requires |books| == |actions| + 1 && i <= j < |books|
  {
    if i == j then 0 else ReachedBetween(books, actions, i, j - 1) + AmountReached(books[j - 1], actions[j - 1])
  }

  /**
    From a reachable state on, commitments stay within a ceiling they were within, until the next grant, as long as
    no closed hold is reached for; each one that is lifts the ceiling by its amount.
   */
  lemma {:induction false} CeilingHolds(
    books: seq<ControlledBooks>, actions: seq<Action>, i: nat, j: nat, total: int)
    requires |books| == |actions| + 1 && i <= j < |books|
    requires forall k | i <= k < j :: !GrantsCredit(actions[k])
    requires Committed(books[i].core) <= total
    requires Run(books, actions)
    ensures Committed(books[j].core) <= total + ReachedBetween(books, actions, i, j)
    ensures (forall k | i <= k < j :: Reached(books[k], actions[k]).None?) ==> ReachedBetween(books, actions, i, j) == 0
  {
    hide Structure, Next, Committed, Reached, GrantsCredit;
    if i < j {
      CeilingHolds(books, actions, i, j - 1, total);
      ReachableStructure(books, actions, j - 1);
      OnlyGrantsCommit(books[j - 1], actions[j - 1], books[j]);
    }
  }

  /** In a reachable state an allocation that succeeds leaves all commitments within the balance it was shown. */
  lemma AllocationFits(
    books: seq<ControlledBooks>, actions: seq<Action>, i: nat, now: Millis, key: Id, amount: int, snapshot: Snapshot)
    requires |books| == |actions| + 1 && i < |books|
    requires Run(books, actions)
    requires Allocate(books[i].core, now, key, amount, snapshot).reply.Ok?
    ensures Committed(Allocate(books[i].core, now, key, amount, snapshot).db) <= snapshot.total
  {
    hide Run, Structure, Inv, Allocate, Committed;
    ReachableStructure(books, actions, i);
    StructureInv(books[i]);
    AllocationWithinCeiling(books[i].core, now, key, amount, snapshot);
  }

  // A deleted Key

  lemma ReachableScopes(books: seq<ControlledBooks>, actions: seq<Action>, i: nat, id: nat)
    requires |books| == |actions| + 1 && i < |books| && id < |books[i].core.reservations|
    requires Run(books, actions)
    ensures ScopesRight(books[i].core.accounts, books[i].core.reservations[id])
  {
    hide Run, Structure, Inv, TablesSound, ForeignBounded, Solvent, LedgerSound, OwnedByStep, ScopesRight,
         ControlledRuns.Sound;
    ReachableStructure(books, actions, i);
    StructureParts(books[i]);
    if OwnedByStep(books[i].core, id) {
      Pools.OwnedScopes(books[i].core, id);
    }
  }

  /**
    What a deleted Key was granted, less what it gave back, is what it spent: it holds nothing, has nothing to spend,
    and what it owes beyond its grants and its reopened holds stays on its account.
   */
  lemma DeletedKeyIsSpent(
    books: seq<ControlledBooks>, actions: seq<Action>, i: nat, key: Id, facts: DeletionFacts, returned: int,
    account: nat)
    requires |books| == |actions| + 1 && i < |books| && key in books[i].core.keys && !facts.deleted
    requires Run(books, actions)
    requires DeleteKey(books[i].core, key, facts).reply == Ok(returned)
    requires FindKeyAccount(books[i].core.accounts, key, books[i].core.keys[key].user) == Some(account)
    ensures var core := DeleteKey(books[i].core, key, facts).db;
            && Available(core.ledger, account) <= 0 && HeldOn(core.reservations, account) == 0
            && SettledOn(core.ledger, account) + Available(core.ledger, account)
               == GrantedOn(core.ledger, account) + Reopenings(books, actions, i, account)
  {
    hide Run, DeleteKey, Available, HeldOn, SettledOn, GrantedOn, Reopenings, ScopesRight;
    forall id | 0 <= id < |books[i].core.reservations|
      ensures ScopesRight(books[i].core.accounts, books[i].core.reservations[id])
    {
      ReachableScopes(books, actions, i, id);
    }
    Pools.DeletionReturnsRest(books[i].core, key, facts, returned, account, account + 1);
    ReachableConservation(books, actions, i, account);
  }

  // V1 settlements

  lemma StepKeepsOperations(b: ControlledBooks, action: Action, b': ControlledBooks)
    requires Structure(b) && Next(b, action, b')
    ensures ControlledRuns.OperationsKept(b, b')
  {
    hide Structure, Inv, ControlledRuns.Acted, PlainMoves.Acted, Runs.After, PlainMoves.ActionEffect, Advances,
         PlainMoves.Reached, ReopenedHold;
    StructureParts(b);
    match action
    case Budgeted(budget) =>
      NextAdvances(b.core, budget, b'.core);
      AdvancesBlocks(b.core, b'.core);
    case Billed(billed) => ControlledRuns.ActionKeepsOperations(b, billed);
    case Plainly(plain) => PlainMoves.ActionEffected(b.core, plain);
    case QuietWork =>
  }

  lemma AdvancesBlocks(core: Db, core': Db)
    requires Advances(core, core')
    ensures core.blocks <= core'.blocks
  {
    hide StepHoldsAdvance, StepsAdvance, OperationsAdvance;
  }

  /** A settled V1 operation or quote stays as it was settled, and a blocked Key stays blocked. */
  lemma {:induction false} SettledForGood(books: seq<ControlledBooks>, actions: seq<Action>, j: nat, k: nat)
    requires |books| == |actions| + 1 && j <= k < |books|
    requires Run(books, actions)
    ensures ControlledRuns.OperationsKept(books[j], books[k])
    decreases k - j
  {
    hide Structure, Next;
    if j < k {
      SettledForGood(books, actions, j, k - 1);
      ReachableStructure(books, actions, k - 1);
      StepKeepsOperations(books[k - 1], actions[k - 1], books[k]);
    }
  }

  /** In every reachable state a Key has one active V1 operation at most, and every verified step its receipt. */
  lemma ReachableBooks(books: seq<ControlledBooks>, actions: seq<Action>, i: nat)
    requires |books| == |actions| + 1 && i < |books|
    requires Run(books, actions)
    ensures ControlledRuns.HoldsSound(books[i]) && ControlledRuns.OneActive(books[i])
    ensures ControlledRuns.StepsSound(books[i]) && ControlledRuns.QuotesSound(books[i])
  {
    hide Run, Inv, ForeignShaped, ForeignBounded, Solvent, ControlledRuns.HoldsSound, ControlledRuns.OneActive,
         ControlledRuns.StepsSound, ControlledRuns.QuotesSound;
    ReachableStructure(books, actions, i);
  }
}
